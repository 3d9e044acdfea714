/** Live vehicle state and its fan-out: telemetry/store.go, hub.go, handlers.go and the commuter app's replica. */
module Telemetry {
  import opened Wrappers

  type VehicleId = nat
  type RouteId = nat
  type DriverId = nat
  type Instant = int
  /** A goroutine that changes the store and then publishes what it changed. */
  type Actor = nat
  type SubId = nat

  /** A subscriber this far behind loses events. */
  const EVENT_BUFFER: nat := 32

  datatype Vehicle = Vehicle(route: RouteId, driver: DriverId, lat: real, lng: real,
                             total: int, available: int, updated: Instant)
  datatype View = View(route: RouteId, lat: real, lng: real, total: int, available: int, updated: Instant)
  datatype Event = Update(vehicle: VehicleId, view: View) | Offline(vehicle: VehicleId)

  /** A route is given when the change comes over a driver's own connection, which is bound to one. */
  datatype Op =
    | GoOnline(route: RouteId, driver: DriverId, total: int)
    | GoOffline(route: RouteId)
    | UpdatePosition(route: RouteId, lat: real, lng: real)
    | SetSeats(over: Option<RouteId>, seats: int)
    | AdjustSeats(over: Option<RouteId>, delta: int)

  function ToView(s: Vehicle): View { View(s.route, s.lat, s.lng, s.total, s.available, s.updated) }

  function Clamp(v: int, min: int, max: int): int {
    if v < min then min else if v > max then max else v
  }

  // ----- the store -----

  /** The vehicle's state after op, or None once it is offline. */
  function After(before: Option<Vehicle>, op: Op, now: Instant): Option<Vehicle> {
    match op
    case GoOnline(route, driver, total) => Some(
      match before
      case None => Vehicle(route, driver, 0.0, 0.0, total, total, now)
      case Some(s) => Vehicle(route, driver, s.lat, s.lng, total, Clamp(s.available, 0, total), now))
    case GoOffline(_) => None
    case UpdatePosition(_, lat, lng) =>
      (match before case None => None case Some(s) => Some(s.(lat := lat, lng := lng, updated := now)))
    case SetSeats(_, seats) =>
      (match before case None => None case Some(s) => Some(s.(available := Clamp(seats, 0, s.total), updated := now)))
    case AdjustSeats(_, delta) =>
      (match before
       case None => None
       case Some(s) => Some(s.(available := Clamp(s.available + delta, 0, s.total), updated := now)))
  }

  function At<V>(m: map<VehicleId, V>, v: VehicleId): Option<V> {
    if v in m then Some(m[v]) else None
  }

  function Put<V>(m: map<VehicleId, V>, v: VehicleId, x: Option<V>): (r: map<VehicleId, V>)
    ensures At(r, v) == x
    ensures forall u :: u != v ==> At(r, u) == At(m, u)
  {
    match x case None => m - {v} case Some(y) => m[v := y]
  }

  function Mutated(vehicles: map<VehicleId, Vehicle>, v: VehicleId, op: Op, now: Instant): map<VehicleId, Vehicle> {
    Put(vehicles, v, After(At(vehicles, v), op, now))
  }

  /** The route a driver's connection is bound to; None for the seat endpoints, which have no connection. */
  function Bound(op: Op): Option<RouteId> {
    match op
    case GoOnline(route, _, _) => Some(route)
    case GoOffline(route) => Some(route)
    case UpdatePosition(route, _, _) => Some(route)
    case SetSeats(over, _) => over
    case AdjustSeats(over, _) => over
  }

  datatype Notice = Notice(route: RouteId, event: Event)

  /** What the handler publishes next; nothing when the vehicle was not tracked. */
  function Announces(vehicles: map<VehicleId, Vehicle>, v: VehicleId, op: Op, now: Instant): Option<Notice> {
    match After(At(vehicles, v), op, now)
    case None => if op.GoOffline? then Some(Notice(op.route, Offline(v))) else None
    case Some(s) => Some(Notice(if Bound(op).Some? then Bound(op).value else s.route, Update(v, ToView(s))))
  }

  // ----- mailboxes and replicas -----

  function Pushed(mailbox: seq<Event>, e: Event): seq<Event> {
    if |mailbox| < EVENT_BUFFER then mailbox + [e] else mailbox
  }

  /** The commuter app's reducer. */
  function Reduce(replica: map<VehicleId, View>, e: Event): map<VehicleId, View> {
    match e
    case Update(v, view) => replica[v := view]
    case Offline(v) => replica - {v}
  }

  function Replay(replica: map<VehicleId, View>, events: seq<Event>): map<VehicleId, View> {
    if events == [] then replica else Reduce(Replay(replica, events[..|events| - 1]), events[|events| - 1])
  }

  /** The store's view of a route: its online vehicles. */
  function RouteView(vehicles: map<VehicleId, Vehicle>, route: RouteId): map<VehicleId, View> {
    map v | v in vehicles && vehicles[v].route == route :: ToView(vehicles[v])
  }

  /** A view tells of this vehicle what the store holds of it. */
  predicate Shows(view: View, s: Vehicle) {
    && view.route == s.route && view.lat == s.lat && view.lng == s.lng
    && view.total == s.total && view.available == s.available && view.updated == s.updated
  }

  /** A replica shows the vehicles of the route and no others, each as the store holds it. */
  ghost predicate Mirrors(replica: map<VehicleId, View>, vehicles: map<VehicleId, Vehicle>, route: RouteId) {
    forall v: VehicleId ::
      && (v in replica <==> v in vehicles && vehicles[v].route == route)
      && (v in replica && v in vehicles ==> Shows(replica[v], vehicles[v]))
  }

  lemma RouteViewMirrors(replica: map<VehicleId, View>, vehicles: map<VehicleId, Vehicle>, route: RouteId)
    ensures Mirrors(replica, vehicles, route) <==> replica == RouteView(vehicles, route)
  {
    var view := RouteView(vehicles, route);
    if Mirrors(replica, vehicles, route) {
      forall v: VehicleId ensures (v in replica <==> v in view) && (v in replica ==> replica[v] == view[v]) {
        assert v in replica ==> Shows(replica[v], vehicles[v]);
      }
    }
  }

  // ----- the machine -----

  /** missed is not in the program: the vehicles whose last event since Subscribe was dropped. */
  datatype Subscriber = Subscriber(route: RouteId, mailbox: seq<Event>, replica: Option<map<VehicleId, View>>,
                                   missed: set<VehicleId>)

  /** News an actor has yet to publish. */
  datatype Owed = Owed(actor: Actor, notice: Notice)

  /** owed is in the order the changes were made. */
  datatype World = World(vehicles: map<VehicleId, Vehicle>, owed: seq<Owed>, subs: map<SubId, Subscriber>)

  predicate Owes(owed: seq<Owed>, a: Actor) { exists i :: 0 <= i < |owed| && owed[i].actor == a }

  ghost function IndexOf(owed: seq<Owed>, a: Actor): (i: nat)
    requires Owes(owed, a)
    ensures i < |owed| && owed[i].actor == a
  {
    var i :| 0 <= i < |owed| && owed[i].actor == a;
    i
  }

  function Without(owed: seq<Owed>, i: nat): seq<Owed>
    requires i < |owed|
  {
    owed[..i] + owed[i + 1..]
  }

  /** The handlers' statements, each one step; Mutate and the Publish it owes are separate. */
  datatype Step =
    | Mutate(actor: Actor, vehicle: VehicleId, op: Op, now: Instant)
    | Publish(actor: Actor)
    | Subscribe(sub: SubId, route: RouteId)
    | Snapshot(sub: SubId)
    | Deliver(sub: SubId)
    | Unsubscribe(sub: SubId)

  function Received(s: Subscriber, n: Notice): Subscriber {
    if s.route != n.route then s
    else if |s.mailbox| < EVENT_BUFFER then
      s.(mailbox := Pushed(s.mailbox, n.event), missed := s.missed - {n.event.vehicle})
    else s.(missed := s.missed + {n.event.vehicle})
  }

  ghost function Next(w: World, step: Step): World {
    match step
    case Mutate(a, v, op, now) =>
      if Owes(w.owed, a) then w
      else
        var n := Announces(w.vehicles, v, op, now);
        w.(vehicles := Mutated(w.vehicles, v, op, now), owed := if n.Some? then w.owed + [Owed(a, n.value)] else w.owed)
    case Publish(a) =>
      if !Owes(w.owed, a) then w
      else
        var i := IndexOf(w.owed, a);
        w.(owed := Without(w.owed, i), subs := map s | s in w.subs :: Received(w.subs[s], w.owed[i].notice))
    case Subscribe(s, route) =>
      if s in w.subs then w else w.(subs := w.subs[s := Subscriber(route, [], None, {})])
    case Snapshot(s) =>
      if s !in w.subs || w.subs[s].replica.Some? then w
      else w.(subs := w.subs[s := w.subs[s].(replica := Some(RouteView(w.vehicles, w.subs[s].route)))])
    case Deliver(s) =>
      if s !in w.subs || w.subs[s].replica.None? || w.subs[s].mailbox == [] then w
      else w.(subs := w.subs[s := Read(w.subs[s])])
    case Unsubscribe(s) => w.(subs := w.subs - {s})
  }

  function Read(s: Subscriber): Subscriber
    requires s.replica.Some? && s.mailbox != []
  {
    s.(replica := Some(Reduce(s.replica.value, s.mailbox[0])), mailbox := s.mailbox[1..])
  }

  ghost function Run(w: World, steps: seq<Step>): World {
    if steps == [] then w else Next(Run(w, steps[..|steps| - 1]), steps[|steps| - 1])
  }

  predicate SameNews(a: Notice, b: Notice) { a.route == b.route && a.event.vehicle == b.event.vehicle }

  /**
   * News of one vehicle on one route is published in the order the changes were made, and a connection bound to a
   * route finds its vehicle on that route or offline.
   */
  ghost predicate Orderly(w: World, step: Step) {
    match step
    case Mutate(_, v, op, _) => v in w.vehicles && Bound(op).Some? ==> w.vehicles[v].route == Bound(op).value
    case Publish(a) =>
      Owes(w.owed, a) ==>
        var i := IndexOf(w.owed, a);
        forall j :: 0 <= j < i ==> !SameNews(w.owed[j].notice, w.owed[i].notice)
    case _ => true
  }

  ghost predicate AllOrderly(w: World, steps: seq<Step>) {
    steps == [] || (AllOrderly(w, steps[..|steps| - 1]) && Orderly(Run(w, steps[..|steps| - 1]), steps[|steps| - 1]))
  }
}
