/** The objects behind the telemetry machine: the locked store, the hub of mailboxes, and the handlers over both. */
module LiveServer {
  import opened Wrappers
  import opened Telemetry

  datatype Listing = Listing(vehicle: VehicleId, view: View)

  class VehicleStateStore {
    var vehicles: map<VehicleId, Vehicle>

    constructor ()
      ensures vehicles == map[]
    {
      vehicles := map[];
    }

    method GoOnline(v: VehicleId, route: RouteId, driver: DriverId, total: int, now: Instant) returns (state: Vehicle)
      modifies this
      ensures vehicles == Mutated(old(vehicles), v, Op.GoOnline(route, driver, total), now)
      ensures At(vehicles, v) == Some(state)
    {
      var available := total;
      if v in vehicles {
        available := Clamp(vehicles[v].available, 0, total);
      }
      state := Vehicle(route, driver, 0.0, 0.0, total, available, now);
      if v in vehicles {
        state := state.(lat := vehicles[v].lat, lng := vehicles[v].lng);
      }
      vehicles := vehicles[v := state];
    }

    method GoOffline(v: VehicleId) returns (state: Option<Vehicle>)
      modifies this
      ensures forall route, now :: vehicles == Mutated(old(vehicles), v, Op.GoOffline(route), now)
      ensures state == At(old(vehicles), v)
    {
      if v !in vehicles {
        assert vehicles == vehicles - {v};
        return None;
      }
      state := Some(vehicles[v]);
      vehicles := vehicles - {v};
    }

    method UpdatePosition(v: VehicleId, route: RouteId, lat: real, lng: real, now: Instant) returns (state: Option<Vehicle>)
      modifies this
      ensures vehicles == Mutated(old(vehicles), v, Op.UpdatePosition(route, lat, lng), now)
      ensures state == At(vehicles, v)
    {
      if v !in vehicles {
        assert vehicles == vehicles - {v};
        return None;
      }
      var s := vehicles[v].(lat := lat, lng := lng, updated := now);
      vehicles := vehicles[v := s];
      state := Some(s);
    }

    method AdjustSeats(v: VehicleId, over: Option<RouteId>, delta: int, now: Instant) returns (state: Option<Vehicle>)
      modifies this
      ensures vehicles == Mutated(old(vehicles), v, Op.AdjustSeats(over, delta), now)
      ensures state == At(vehicles, v)
    {
      if v !in vehicles {
        assert vehicles == vehicles - {v};
        return None;
      }
      var s := vehicles[v].(available := Clamp(vehicles[v].available + delta, 0, vehicles[v].total), updated := now);
      vehicles := vehicles[v := s];
      state := Some(s);
    }

    method SetSeatsAbsolute(v: VehicleId, over: Option<RouteId>, seats: int, now: Instant) returns (state: Option<Vehicle>)
      modifies this
      ensures vehicles == Mutated(old(vehicles), v, Op.SetSeats(over, seats), now)
      ensures state == At(vehicles, v)
    {
      if v !in vehicles {
        assert vehicles == vehicles - {v};
        return None;
      }
      var s := vehicles[v].(available := Clamp(seats, 0, vehicles[v].total), updated := now);
      vehicles := vehicles[v := s];
      state := Some(s);
    }

    /** Every online vehicle of the route, each once, in no particular order. */
    method ListByRoute(route: RouteId) returns (list: seq<Listing>)
      ensures forall i, j :: 0 <= i < j < |list| ==> list[i].vehicle != list[j].vehicle
      ensures forall i :: 0 <= i < |list| ==>
                && list[i].vehicle in vehicles && vehicles[list[i].vehicle].route == route
                && Shows(list[i].view, vehicles[list[i].vehicle])
      ensures forall v :: v in vehicles && vehicles[v].route == route ==> exists i :: 0 <= i < |list| && list[i].vehicle == v
    {
      list := [];
      var left := vehicles.Keys;
      while left != {}
        invariant left <= vehicles.Keys
        invariant forall i :: 0 <= i < |list| ==> list[i].vehicle !in left
        invariant forall i, j :: 0 <= i < j < |list| ==> list[i].vehicle != list[j].vehicle
        invariant forall i :: 0 <= i < |list| ==>
                    && list[i].vehicle in vehicles && vehicles[list[i].vehicle].route == route
                    && Shows(list[i].view, vehicles[list[i].vehicle])
        invariant forall v :: v in vehicles && vehicles[v].route == route && v !in left ==>
                    exists i :: 0 <= i < |list| && list[i].vehicle == v
        decreases |left|
      {
        var v :| v in left;
        left := left - {v};
        if vehicles[v].route == route {
          ghost var before := list;
          list := list + [Listing(v, ToView(vehicles[v]))];
          assert list[|before|].vehicle == v;
          assert forall i :: 0 <= i < |before| ==> list[i] == before[i];
        }
      }
    }
  }

  /** The app's replica after a snapshot frame. */
  method LoadSnapshot(list: seq<Listing>) returns (replica: map<VehicleId, View>)
    requires forall i, j :: 0 <= i < j < |list| ==> list[i].vehicle != list[j].vehicle
    ensures forall i :: 0 <= i < |list| ==> At(replica, list[i].vehicle) == Some(list[i].view)
    ensures forall v :: v in replica ==> exists i :: 0 <= i < |list| && list[i].vehicle == v
  {
    replica := map[];
    for n := 0 to |list|
      invariant forall i :: 0 <= i < n ==> At(replica, list[i].vehicle) == Some(list[i].view)
      invariant forall v :: v in replica ==> exists i :: 0 <= i < n && list[i].vehicle == v
    {
      replica := replica[list[n].vehicle := list[n].view];
    }
  }

  class Mailbox {
    const route: RouteId
    var ch: seq<Event>

    constructor (route: RouteId)
      ensures this.route == route && ch == []
    {
      this.route := route;
      ch := [];
    }
  }

  class Hub {
    var subs: map<RouteId, set<Mailbox>>

    ghost predicate Valid()
      reads this
    {
      forall r :: r in subs ==> subs[r] != {} && forall m :: m in subs[r] ==> m.route == r
    }

    function Listening(route: RouteId): set<Mailbox>
      reads this
    {
      if route in subs then subs[route] else {}
    }

    constructor ()
      ensures Valid() && subs == map[]
    {
      subs := map[];
    }

    method Subscribe(route: RouteId) returns (sub: Mailbox)
      requires Valid()
      modifies this
      ensures Valid() && fresh(sub) && sub.route == route && sub.ch == []
      ensures Listening(route) == old(Listening(route)) + {sub}
      ensures forall r :: r != route ==> Listening(r) == old(Listening(r))
    {
      sub := new Mailbox(route);
      if route !in subs {
        subs := subs[route := {}];
      }
      subs := subs[route := subs[route] + {sub}];
    }

    method Unsubscribe(sub: Mailbox)
      requires Valid()
      modifies this
      ensures Valid()
      ensures forall r :: Listening(r) == old(Listening(r)) - {sub}
    {
      if sub.route in subs {
        var rest := subs[sub.route] - {sub};
        subs := subs[sub.route := rest];
        if |rest| == 0 {
          subs := subs - {sub.route};
        }
      }
    }

    /** Offers the event to every mailbox of the route; a full one loses it and holds nobody up. */
    method Publish(route: RouteId, e: Event)
      modifies Listening(route)
      ensures forall m :: m in Listening(route) ==> m.ch == Pushed(old(m.ch), e)
    {
      var left := Listening(route);
      while left != {}
        invariant left <= Listening(route)
        invariant forall m :: m in Listening(route) ==> m.ch == if m in left then old(m.ch) else Pushed(old(m.ch), e)
        decreases |left|
      {
        var m :| m in left;
        left := left - {m};
        if |m.ch| < EVENT_BUFFER {
          m.ch := m.ch + [e];
        }
      }
    }
  }

  /** A frame from a driver's socket; position wins over seats, absolute seats over a delta. */
  datatype DriverMessage = DriverMessage(position: Option<(real, real)>, seats: Option<int>, delta: Option<int>)

  function Meaning(route: RouteId, msg: DriverMessage): Option<Op> {
    if msg.position.Some? then Some(Op.UpdatePosition(route, msg.position.value.0, msg.position.value.1))
    else if msg.seats.Some? then Some(Op.SetSeats(Some(route), msg.seats.value))
    else if msg.delta.Some? then Some(Op.AdjustSeats(Some(route), msg.delta.value))
    else None
  }

  /** What a frame does to its vehicle: the position if it has one, else the seats, else the delta, else nothing. */
  predicate Obeys(msg: DriverMessage, before: Vehicle, after: Vehicle, now: Instant) {
    match msg
    case DriverMessage(Some(p), _, _) => after == before.(lat := p.0, lng := p.1, updated := now)
    case DriverMessage(None, Some(n), _) => after == before.(available := Clamp(n, 0, before.total), updated := now)
    case DriverMessage(None, None, Some(d)) =>
      after == before.(available := Clamp(before.available + d, 0, before.total), updated := now)
    case DriverMessage(None, None, None) => after == before
  }

  class Handlers {
    const store: VehicleStateStore
    const hub: Hub

    constructor (store: VehicleStateStore, hub: Hub)
      ensures this.store == store && this.hub == hub
    {
      this.store := store;
      this.hub := hub;
    }

    /** One driver frame: change the store, then offer the news the machine's Announces names to that route. */
    method OnDriverMessage(v: VehicleId, route: RouteId, msg: DriverMessage, now: Instant)
      modifies store, hub.Listening(route)
      ensures hub.Listening(route) == old(hub.Listening(route))
      ensures Meaning(route, msg).None? ==>
                store.vehicles == old(store.vehicles) && forall m :: m in hub.Listening(route) ==> m.ch == old(m.ch)
      ensures Meaning(route, msg).Some? ==>
                var op := Meaning(route, msg).value;
                var news := Announces(old(store.vehicles), v, op, now);
                && store.vehicles == Mutated(old(store.vehicles), v, op, now)
                && (news.Some? <==> v in old(store.vehicles))
                && (news.Some? ==>
                      && news.value.route == route && news.value.event.Update? && news.value.event.vehicle == v
                      && v in store.vehicles && Shows(news.value.event.view, store.vehicles[v]))
                && forall m :: m in hub.Listening(route) ==>
                     m.ch == if news.Some? then Pushed(old(m.ch), news.value.event) else old(m.ch)
      ensures v in old(store.vehicles) ==>
                v in store.vehicles && Obeys(msg, old(store.vehicles)[v], store.vehicles[v], now)
    {
      var state: Option<Vehicle>;
      if msg.position.Some? {
        state := store.UpdatePosition(v, route, msg.position.value.0, msg.position.value.1, now);
      } else if msg.seats.Some? {
        state := store.SetSeatsAbsolute(v, Some(route), msg.seats.value, now);
      } else if msg.delta.Some? {
        state := store.AdjustSeats(v, Some(route), msg.delta.value, now);
      } else {
        return;
      }
      if state.Some? {
        hub.Publish(route, Update(v, ToView(state.value)));
      }
    }

    /** The driver's socket closes: off the store, then an offline event on the socket's route, tracked or not. */
    method OnDriverGone(v: VehicleId, route: RouteId, now: Instant)
      modifies store, hub.Listening(route)
      ensures hub.Listening(route) == old(hub.Listening(route))
      ensures store.vehicles == Mutated(old(store.vehicles), v, Op.GoOffline(route), now)
      ensures Announces(old(store.vehicles), v, Op.GoOffline(route), now) == Some(Notice(route, Offline(v)))
      ensures forall m :: m in hub.Listening(route) ==> m.ch == Pushed(old(m.ch), Offline(v))
    {
      var _ := store.GoOffline(v);
      hub.Publish(route, Offline(v));
    }

    /** A commuter connects: subscribed first, and the replica starts as the store's view of the route. */
    method OnCommuter(route: RouteId) returns (sub: Mailbox, replica: map<VehicleId, View>)
      requires hub.Valid()
      modifies hub
      ensures hub.Valid() && fresh(sub) && sub.ch == [] && sub in hub.Listening(route)
      ensures Mirrors(replica, store.vehicles, route) && replica == RouteView(store.vehicles, route)
    {
      sub := hub.Subscribe(route);
      var list := store.ListByRoute(route);
      replica := LoadSnapshot(list);
      ListMirrors(list, replica, store.vehicles, route);
      RouteViewMirrors(replica, store.vehicles, route);
    }
  }

  lemma ListMirrors(list: seq<Listing>, replica: map<VehicleId, View>, vehicles: map<VehicleId, Vehicle>, route: RouteId)
    requires forall i :: 0 <= i < |list| ==>
               && list[i].vehicle in vehicles && vehicles[list[i].vehicle].route == route
               && Shows(list[i].view, vehicles[list[i].vehicle])
    requires forall v :: v in vehicles && vehicles[v].route == route ==> exists i :: 0 <= i < |list| && list[i].vehicle == v
    requires forall i :: 0 <= i < |list| ==> At(replica, list[i].vehicle) == Some(list[i].view)
    requires forall v :: v in replica ==> exists i :: 0 <= i < |list| && list[i].vehicle == v
    ensures Mirrors(replica, vehicles, route)
  {
    forall v: VehicleId
      ensures v in replica <==> v in vehicles && vehicles[v].route == route
      ensures v in replica && v in vehicles ==> Shows(replica[v], vehicles[v])
    {
      if v in replica {
        var i :| 0 <= i < |list| && list[i].vehicle == v;
      }
      if v in vehicles && vehicles[v].route == route {
        var i :| 0 <= i < |list| && list[i].vehicle == v;
      }
    }
  }
}
