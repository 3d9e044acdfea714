/** A commuter's replica agrees with the store, over every run that publishes news in order. */
module Convergence {
  import opened Wrappers
  import opened Telemetry

  // ----- the last word on a vehicle -----

  function Says(e: Event): Option<View> {
    match e case Update(_, view) => Some(view) case Offline(_) => None
  }

  /** What the last of the events about v says, if any is about v. */
  function LastWord(events: seq<Event>, v: VehicleId): Option<Option<View>> {
    if events == [] then None
    else if events[|events| - 1].vehicle == v then Some(Says(events[|events| - 1]))
    else LastWord(events[..|events| - 1], v)
  }

  function Final(word: Option<Option<View>>, before: Option<View>): Option<View> {
    match word case None => before case Some(x) => x
  }

  lemma {:induction false} ReplayAt(m: map<VehicleId, View>, events: seq<Event>, v: VehicleId)
    ensures At(Replay(m, events), v) == Final(LastWord(events, v), At(m, v))
  {
    if events != [] {
      ReplayAt(m, events[..|events| - 1], v);
    }
  }

  lemma LastWordOne(events: seq<Event>, e: Event, v: VehicleId)
    ensures LastWord(events + [e], v) == if e.vehicle == v then Some(Says(e)) else LastWord(events, v)
  {
    assert (events + [e])[..|events|] == events;
  }

  function Later(first: Option<Option<View>>, second: Option<Option<View>>): Option<Option<View>> {
    if second.Some? then second else first
  }

  lemma {:induction false} LastWordJoin(a: seq<Event>, b: seq<Event>, v: VehicleId)
    ensures LastWord(a + b, v) == Later(LastWord(a, v), LastWord(b, v))
  {
    if b == [] {
      assert a + b == a;
    } else {
      var front, last := b[..|b| - 1], b[|b| - 1];
      LastWordJoin(a, front, v);
      LastWordOne(a + front, last, v);
      assert a + b == a + front + [last];
    }
  }

  // ----- news on its way -----

  function ForRoute(n: Notice, route: RouteId): seq<Event> {
    if n.route == route then [n.event] else []
  }

  /** The news of a route still to be published, in order. */
  function Pending(owed: seq<Owed>, route: RouteId): seq<Event> {
    if owed == [] then []
    else Pending(owed[..|owed| - 1], route) + ForRoute(owed[|owed| - 1].notice, route)
  }

  lemma PendingOne(owed: seq<Owed>, o: Owed, route: RouteId)
    ensures Pending(owed + [o], route) == Pending(owed, route) + ForRoute(o.notice, route)
  {
    assert (owed + [o])[..|owed|] == owed;
  }

  lemma Associates(a: seq<Event>, b: seq<Event>, c: seq<Event>)
    ensures a + b + c == a + (b + c)
  {
  }

  lemma {:induction false} PendingJoin(a: seq<Owed>, b: seq<Owed>, route: RouteId)
    ensures Pending(a + b, route) == Pending(a, route) + Pending(b, route)
  {
    if b == [] {
      assert a + b == a;
    } else {
      var front, last := b[..|b| - 1], b[|b| - 1];
      PendingJoin(a, front, route);
      PendingOne(a + front, last, route);
      assert a + b == a + front + [last];
      Associates(Pending(a, route), Pending(front, route), ForRoute(last.notice, route));
    }
  }

  lemma {:induction false} NoPendingWord(owed: seq<Owed>, n: Notice)
    requires forall j :: 0 <= j < |owed| ==> !SameNews(owed[j].notice, n)
    ensures LastWord(Pending(owed, n.route), n.event.vehicle) == None
  {
    if owed != [] {
      var front, last := owed[..|owed| - 1], owed[|owed| - 1];
      NoPendingWord(front, n);
      if last.notice.route == n.route {
        LastWordOne(Pending(front, n.route), last.notice.event, n.event.vehicle);
      } else {
        assert Pending(owed, n.route) == Pending(front, n.route);
      }
    }
  }

  /** What taking one notice off the queue does to the last word on u. */
  lemma PendingWithout(owed: seq<Owed>, i: nat, route: RouteId, u: VehicleId)
    requires i < |owed| && forall j :: 0 <= j < i ==> !SameNews(owed[j].notice, owed[i].notice)
    ensures var n := owed[i].notice;
            var before, after := LastWord(Pending(owed, route), u), LastWord(Pending(Without(owed, i), route), u);
            if n.route == route && n.event.vehicle == u
            then before == Later(Some(Says(n.event)), after) else after == before
  {
    var a, o, b := owed[..i], owed[i], owed[i + 1..];
    assert owed == a + [o] + b;
    PendingJoin(a + [o], b, route);
    PendingOne(a, o, route);
    PendingJoin(a, b, route);
    LastWordJoin(Pending(a + [o], route), Pending(b, route), u);
    LastWordJoin(Pending(a, route), Pending(b, route), u);
    LastWordJoin(Pending(a, route), ForRoute(o.notice, route), u);
    LastWordOfOne(o.notice, route, u);
    if o.notice.route == route && o.notice.event.vehicle == u {
      NoPendingWord(a, o.notice);
    }
  }

  lemma LastWordOfOne(n: Notice, route: RouteId, u: VehicleId)
    ensures LastWord(ForRoute(n, route), u)
            == if n.route == route && n.event.vehicle == u then Some(Says(n.event)) else None
  {
    if n.route == route {
      assert [n.event][..0] == [];
    }
  }

  // ----- the invariant -----

  /** What the replica starts from: the snapshot if it was taken, else the one that would be taken now. */
  function Base(w: World, s: Subscriber): map<VehicleId, View> {
    match s.replica case Some(r) => r case None => RouteView(w.vehicles, s.route)
  }

  function Shown(w: World, route: RouteId, v: VehicleId): Option<View> {
    At(RouteView(w.vehicles, route), v)
  }

  /** What the replica will say of v once its mailbox and the news on its way are read. */
  function WillSay(w: World, s: Subscriber, v: VehicleId): Option<View> {
    Final(Later(LastWord(s.mailbox, v), LastWord(Pending(w.owed, s.route), v)), At(Base(w, s), v))
  }

  predicate AgreesOn(w: World, s: Subscriber, v: VehicleId) {
    v !in s.missed ==> WillSay(w, s, v) == Shown(w, s.route, v)
  }

  /** The last news of v on its way is true. */
  predicate HonestOn(w: World, route: RouteId, v: VehicleId) {
    var word := LastWord(Pending(w.owed, route), v);
    word.Some? ==> word.value == Shown(w, route, v)
  }

  ghost predicate Inv(w: World) {
    && (forall route, v {:trigger HonestOn(w, route, v)} :: HonestOn(w, route, v))
    && (forall s :: s in w.subs ==> |w.subs[s].mailbox| <= EVENT_BUFFER)
    && forall s, v {:trigger AgreesOn(w, w.subs[s], v)} :: s in w.subs ==> AgreesOn(w, w.subs[s], v)
  }

  // ----- a change to the store -----

  /** A change over a connection on its route is seen only where its news goes. */
  lemma MutationStaysOnRoute(w: World, v: VehicleId, op: Op, now: Instant, a: Actor, route: RouteId, u: VehicleId)
    requires Orderly(w, Mutate(a, v, op, now))
    requires var n := Announces(w.vehicles, v, op, now); u != v || n.None? || n.value.route != route
    ensures At(RouteView(Mutated(w.vehicles, v, op, now), route), u) == At(RouteView(w.vehicles, route), u)
  {
    var after := Mutated(w.vehicles, v, op, now);
    assert At(after, u) == if u == v then After(At(w.vehicles, v), op, now) else At(w.vehicles, u);
  }

  lemma MutationIsAnnounced(w: World, v: VehicleId, op: Op, now: Instant, a: Actor)
    requires Orderly(w, Mutate(a, v, op, now)) && Announces(w.vehicles, v, op, now).Some?
    ensures var n := Announces(w.vehicles, v, op, now).value;
            n.event.vehicle == v && At(RouteView(Mutated(w.vehicles, v, op, now), n.route), v) == Says(n.event)
  {
    var after := Mutated(w.vehicles, v, op, now);
    assert At(after, v) == After(At(w.vehicles, v), op, now);
  }

  /** Where the news goes it becomes the last word, and true; elsewhere nothing changes. */
  lemma MutationEffect(w: World, step: Step, route: RouteId, u: VehicleId)
    requires step.Mutate? && Orderly(w, step)
    ensures var w' := Next(w, step);
            var before, after := LastWord(Pending(w.owed, route), u), LastWord(Pending(w'.owed, route), u);
            after == Some(Shown(w', route, u)) || (after == before && Shown(w', route, u) == Shown(w, route, u))
  {
    if !Owes(w.owed, step.actor) {
      var n := Announces(w.vehicles, step.vehicle, step.op, step.now);
      if n.Some? {
        var o := Owed(step.actor, n.value);
        MutationIsAnnounced(w, step.vehicle, step.op, step.now, step.actor);
        PendingOne(w.owed, o, route);
        LastWordJoin(Pending(w.owed, route), ForRoute(n.value, route), u);
        LastWordOfOne(n.value, route, u);
      }
      if u != step.vehicle || n.None? || n.value.route != route {
        MutationStaysOnRoute(w, step.vehicle, step.op, step.now, step.actor, route, u);
      }
    }
  }

  // ----- one step -----

  lemma StepKeepsHonest(w: World, step: Step, route: RouteId, u: VehicleId)
    requires Inv(w) && Orderly(w, step)
    ensures HonestOn(Next(w, step), route, u)
  {
    assert HonestOn(w, route, u);
    match step
    case Mutate(_, _, _, _) => MutationEffect(w, step, route, u);
    case Publish(a) =>
      if Owes(w.owed, a) {
        PendingWithout(w.owed, IndexOf(w.owed, a), route, u);
      }
    case _ =>
  }

  lemma MutateKeepsAgreement(w: World, step: Step, s: SubId, u: VehicleId)
    requires step.Mutate? && Orderly(w, step) && s in w.subs && AgreesOn(w, w.subs[s], u)
    ensures AgreesOn(Next(w, step), w.subs[s], u)
  {
    MutationEffect(w, step, w.subs[s].route, u);
  }

  lemma PublishKeepsAgreement(w: World, a: Actor, s: SubId, u: VehicleId)
    requires Owes(w.owed, a) && Orderly(w, Publish(a)) && s in w.subs
    requires AgreesOn(w, w.subs[s], u) && HonestOn(w, w.subs[s].route, u)
    ensures var w' := Next(w, Publish(a)); s in w'.subs && AgreesOn(w', w'.subs[s], u)
  {
    var i := IndexOf(w.owed, a);
    PendingWithout(w.owed, i, w.subs[s].route, u);
    LastWordOne(w.subs[s].mailbox, w.owed[i].notice.event, u);
  }

  lemma DeliverKeepsAgreement(w: World, s: SubId, u: VehicleId)
    requires s in w.subs && AgreesOn(w, w.subs[s], u)
    ensures var w' := Next(w, Deliver(s)); s in w'.subs && AgreesOn(w', w'.subs[s], u)
  {
    var sub := w.subs[s];
    if sub.replica.Some? && sub.mailbox != [] {
      FirstRead(sub.replica.value, sub.mailbox, u);
    }
  }

  lemma FirstRead(m: map<VehicleId, View>, mailbox: seq<Event>, u: VehicleId)
    requires mailbox != []
    ensures Final(LastWord(mailbox[1..], u), At(Reduce(m, mailbox[0]), u)) == Final(LastWord(mailbox, u), At(m, u))
    ensures LastWord(mailbox[1..], u).Some? ==> LastWord(mailbox, u) == LastWord(mailbox[1..], u)
  {
    assert mailbox == [mailbox[0]] + mailbox[1..];
    LastWordJoin([mailbox[0]], mailbox[1..], u);
    assert [mailbox[0]][..0] == [];
  }

  lemma StepKeepsAgreement(w: World, step: Step, s: SubId, u: VehicleId)
    requires Inv(w) && Orderly(w, step) && s in Next(w, step).subs
    ensures AgreesOn(Next(w, step), Next(w, step).subs[s], u)
  {
    if s in w.subs {
      assert AgreesOn(w, w.subs[s], u) && HonestOn(w, w.subs[s].route, u);
      match step
      case Mutate(_, _, _, _) => MutateKeepsAgreement(w, step, s, u);
      case Publish(a) => if Owes(w.owed, a) { PublishKeepsAgreement(w, a, s, u); }
      case Deliver(t) => if t == s { DeliverKeepsAgreement(w, s, u); }
      case _ =>
    } else {
      assert HonestOn(w, step.route, u);
    }
  }

  /** Subscribing before the snapshot misses nothing, and replaying what overlaps it does no harm. */
  lemma StepKeepsInv(w: World, step: Step)
    requires Inv(w) && Orderly(w, step)
    ensures Inv(Next(w, step))
  {
    var w' := Next(w, step);
    forall route, u {:trigger HonestOn(w', route, u)} ensures HonestOn(w', route, u) {
      StepKeepsHonest(w, step, route, u);
    }
    forall s, u {:trigger AgreesOn(w', w'.subs[s], u)} | s in w'.subs ensures AgreesOn(w', w'.subs[s], u) {
      StepKeepsAgreement(w, step, s, u);
    }
  }

  lemma {:induction false} RunKeepsInv(w: World, steps: seq<Step>)
    requires Inv(w) && AllOrderly(w, steps)
    ensures Inv(Run(w, steps))
  {
    if steps != [] {
      RunKeepsInv(w, steps[..|steps| - 1]);
      StepKeepsInv(Run(w, steps[..|steps| - 1]), steps[|steps| - 1]);
    }
  }

  // ----- what a commuter sees -----

  const EMPTY := World(map[], [], map[])

  /**
   * In every orderly run from an empty server: reading the rest of its mailbox, and then the news on its way, gives a
   * subscriber exactly what the store holds of each vehicle whose last event it did not lose: its own route, position,
   * seats and time.
   */
  lemma ReplicaConverges(steps: seq<Step>, s: SubId, v: VehicleId)
    requires AllOrderly(EMPTY, steps)
    requires var w := Run(EMPTY, steps); s in w.subs && w.subs[s].replica.Some? && v !in w.subs[s].missed
    ensures var w := Run(EMPTY, steps); var sub := w.subs[s];
            var final := Replay(sub.replica.value, sub.mailbox + Pending(w.owed, sub.route));
            && (v in final <==> v in w.vehicles && w.vehicles[v].route == sub.route)
            && (v in final ==>
                  && final[v].route == w.vehicles[v].route
                  && final[v].lat == w.vehicles[v].lat && final[v].lng == w.vehicles[v].lng
                  && final[v].total == w.vehicles[v].total && final[v].available == w.vehicles[v].available
                  && final[v].updated == w.vehicles[v].updated)
  {
    ReplicaIsRouteView(steps, s, v);
  }

  lemma ReplicaIsRouteView(steps: seq<Step>, s: SubId, v: VehicleId)
    requires AllOrderly(EMPTY, steps)
    requires var w := Run(EMPTY, steps); s in w.subs && w.subs[s].replica.Some? && v !in w.subs[s].missed
    ensures var w := Run(EMPTY, steps); var sub := w.subs[s];
            At(Replay(sub.replica.value, sub.mailbox + Pending(w.owed, sub.route)), v) == Shown(w, sub.route, v)
  {
    RunKeepsInv(EMPTY, steps);
    var w := Run(EMPTY, steps);
    var sub := w.subs[s];
    assert AgreesOn(w, sub, v);
    ReplayAt(sub.replica.value, sub.mailbox + Pending(w.owed, sub.route), v);
    LastWordJoin(sub.mailbox, Pending(w.owed, sub.route), v);
  }

  /** Once everything is published and read and nothing was lost, the whole replica is what the store holds of the route. */
  lemma ReplicaIsTheRoute(steps: seq<Step>, s: SubId)
    requires AllOrderly(EMPTY, steps)
    requires var w := Run(EMPTY, steps);
             s in w.subs && w.owed == [] && w.subs[s].replica.Some? && w.subs[s].mailbox == [] && w.subs[s].missed == {}
    ensures var w := Run(EMPTY, steps); Mirrors(w.subs[s].replica.value, w.vehicles, w.subs[s].route)
  {
    var w := Run(EMPTY, steps);
    var replica, view := w.subs[s].replica.value, RouteView(w.vehicles, w.subs[s].route);
    forall v {:trigger At(replica, v)} ensures At(replica, v) == At(view, v) {
      ReplicaIsRouteView(steps, s, v);
      assert w.subs[s].mailbox + Pending(w.owed, w.subs[s].route) == [];
    }
    SameMap(replica, view);
    RouteViewMirrors(replica, w.vehicles, w.subs[s].route);
  }

  lemma SameMap(m: map<VehicleId, View>, m': map<VehicleId, View>)
    requires forall v: VehicleId {:trigger At(m, v)} :: At(m, v) == At(m', v)
    ensures m == m'
  {
    forall v: VehicleId ensures (v in m <==> v in m') && (v in m ==> m[v] == m'[v]) {
      assert At(m, v) == At(m', v);
    }
  }

  // ----- one change, from the driver to a commuter -----

  /** A position sent, published and read is the position shown, and nothing else of the vehicle changes. */
  lemma PositionIsShown(w: World, s: SubId, a: Actor, v: VehicleId, lat: real, lng: real, now: Instant)
    requires Watching(w, s, v)
    ensures var w1 := Next(w, Mutate(a, v, UpdatePosition(w.vehicles[v].route, lat, lng), now));
            var w3 := Next(Next(w1, Publish(a)), Deliver(s)); var before := w.vehicles[v];
            && s in w3.subs && w3.subs[s].replica.Some? && v in w3.subs[s].replica.value
            && w3.subs[s].replica.value[v] == View(before.route, lat, lng, before.total, before.available, now)
  {
    var car := w.vehicles[v].(lat := lat, lng := lng, updated := now);
    var w1 := Next(w, Mutate(a, v, UpdatePosition(w.vehicles[v].route, lat, lng), now));
    assert w1.owed == [Owed(a, NewsOf(v, car))] && w1.subs == w.subs;
    PublishOnly(w1, Owed(a, NewsOf(v, car)), s);
  }

  /** A published event reaches every commuter of the route but those with 32 events unread, and nobody else. */
  lemma LostExactlyWhenFull(w: World, a: Actor, s: SubId)
    requires Owes(w.owed, a) && s in w.subs
    ensures var n, sub := w.owed[IndexOf(w.owed, a)].notice, w.subs[s];
            var after := Next(w, Publish(a)).subs;
            && s in after && after[s].replica == sub.replica && after[s].route == sub.route
            && (sub.route != n.route ==> after[s] == sub)
            && (sub.route == n.route && |sub.mailbox| < 32 ==>
                  after[s].mailbox == sub.mailbox + [n.event] && n.event.vehicle !in after[s].missed)
            && (sub.route == n.route && |sub.mailbox| >= 32 ==>
                  after[s].mailbox == sub.mailbox && n.event.vehicle in after[s].missed)
  {
  }

  // ----- why news must be published in order -----

  lemma RunThen(w: World, steps: seq<Step>, step: Step)
    ensures Run(w, steps + [step]) == Next(Run(w, steps), step)
  {
    assert (steps + [step])[..|steps|] == steps;
  }

  lemma {:induction false} RunJoin(w: World, first: seq<Step>, second: seq<Step>)
    ensures Run(w, first + second) == Run(Run(w, first), second)
  {
    if second == [] {
      assert first + second == first;
    } else {
      var front, last := second[..|second| - 1], second[|second| - 1];
      RunJoin(w, first, front);
      RunThen(w, first + front, last);
      assert first + second == first + front + [last];
    }
  }

  /** A subscriber that has read everything, lost nothing and has nothing on its way, and still shows something else. */
  ghost predicate GoneStale(w: World, s: SubId) {
    && s in w.subs && w.owed == [] && w.subs[s].mailbox == [] && w.subs[s].missed == {}
    && w.subs[s].replica.Some? && !Mirrors(w.subs[s].replica.value, w.vehicles, w.subs[s].route)
  }

  /** A subscriber has gone stale only where some step of the run was out of order. */
  lemma {:induction false} StaleMeansOutOfOrder(steps: seq<Step>, s: SubId)
    requires GoneStale(Run(EMPTY, steps), s)
    ensures exists k :: 0 <= k < |steps| && !Orderly(Run(EMPTY, steps[..k]), steps[k])
  {
    if AllOrderly(EMPTY, steps) {
      ReplicaIsTheRoute(steps, s);
      assert false;
    } else {
      var k := FirstDisorder(EMPTY, steps);
    }
  }

  lemma {:induction false} FirstDisorder(w: World, steps: seq<Step>) returns (k: nat)
    requires !AllOrderly(w, steps)
    ensures k < |steps| && !Orderly(Run(w, steps[..k]), steps[k])
  {
    k := |steps| - 1;
    if !AllOrderly(w, steps[..k]) {
      var front := steps[..k];
      k := FirstDisorder(w, front);
      assert front[..k] == steps[..k];
    }
  }

  /** Two overlapping seat edits, the second published first. */
  function Overlap(v: VehicleId, s: SubId, x: int, y: int): seq<Step> {
    [Mutate(0, v, SetSeats(None, x), 1), Mutate(1, v, SetSeats(None, y), 2), Publish(1), Publish(0),
     Deliver(s), Deliver(s)]
  }

  /** A vehicle comes online again over a connection to another route. */
  function SecondConnection(v: VehicleId, route: RouteId, d: DriverId, total: int): seq<Step> {
    [Mutate(0, v, GoOnline(route, d, total), 1), Publish(0)]
  }

  /** A commuter watches the vehicle and is up to date. */
  ghost predicate Watching(w: World, s: SubId, v: VehicleId) {
    && s in w.subs && v in w.vehicles && w.subs[s].route == w.vehicles[v].route && w.owed == []
    && w.subs[s].replica.Some? && w.subs[s].mailbox == [] && w.subs[s].missed == {}
    && v in w.subs[s].replica.value
  }

  function Edited(car: Vehicle, seats: int, now: Instant): Vehicle {
    car.(available := Clamp(seats, 0, car.total), updated := now)
  }

  function NewsOf(v: VehicleId, car: Vehicle): Notice { Notice(car.route, Update(v, ToView(car))) }

  lemma EditEffect(w: World, a: Actor, v: VehicleId, seats: int, now: Instant)
    requires v in w.vehicles && !Owes(w.owed, a)
    ensures var car := Edited(w.vehicles[v], seats, now);
            Next(w, Mutate(a, v, SetSeats(None, seats), now))
            == World(w.vehicles[v := car], w.owed + [Owed(a, NewsOf(v, car))], w.subs)
  {
  }

  lemma PublishOnly(w: World, o: Owed, s: SubId)
    requires w.owed == [o] && s in w.subs && w.subs[s].route == o.notice.route
    ensures var w' := Next(w, Publish(o.actor));
            s in w'.subs && w'.vehicles == w.vehicles && w'.owed == [] && w'.subs[s] == Received(w.subs[s], o.notice)
  {
    assert w.owed[0].actor == o.actor;
  }

  lemma PublishSecond(w: World, o: Owed, p: Owed, s: SubId)
    requires w.owed == [o] + [p] && o.actor != p.actor && s in w.subs && w.subs[s].route == p.notice.route
    ensures var w' := Next(w, Publish(p.actor));
            s in w'.subs && w'.vehicles == w.vehicles && w'.owed == [o] && w'.subs[s] == Received(w.subs[s], p.notice)
  {
    assert w.owed[1].actor == p.actor;
  }

  lemma ReadTwo(w: World, s: SubId, a: Event, b: Event)
    requires s in w.subs && w.subs[s].replica.Some? && w.subs[s].mailbox == [a] + [b]
    ensures var w' := Next(Next(w, Deliver(s)), Deliver(s));
            && w'.vehicles == w.vehicles && w'.owed == w.owed && s in w'.subs
            && w'.subs[s] == w.subs[s].(replica := Some(Reduce(Reduce(w.subs[s].replica.value, a), b)), mailbox := [])
  {
    assert Next(w, Deliver(s)).subs[s].mailbox == [b];
  }

  /** The commuter keeps the overtaken edit. */
  lemma OverlapGoesStale(w: World, s: SubId, v: VehicleId, x: int, y: int)
    requires Watching(w, s, v)
    requires var total := w.vehicles[v].total; Clamp(x, 0, total) != Clamp(y, 0, total)
    ensures var w' := Run(w, Overlap(v, s, x, y)); var car := w.vehicles[v];
            && GoneStale(w', s) && v in w'.vehicles && w'.vehicles[v].available == Clamp(y, 0, car.total)
            && v in w'.subs[s].replica.value && w'.subs[s].replica.value[v].available == Clamp(x, 0, car.total)
  {
    var steps := Overlap(v, s, x, y);
    RunSix(w, steps);
    EditEffect(w, 0, v, x, 1);
    var w1 := Next(w, steps[0]);
    EditEffect(w1, 1, v, y, 2);
    var w2 := Next(w1, steps[1]);
    var o, p := Owed(0, NewsOf(v, w1.vehicles[v])), Owed(1, NewsOf(v, w2.vehicles[v]));
    assert w.owed + [o] == [o];
    PublishSecond(w2, o, p, s);
    var w3 := Next(w2, steps[2]);
    PublishOnly(w3, o, s);
    var w4 := Next(w3, steps[3]);
    assert w4.subs[s].mailbox == [p.notice.event] + [o.notice.event];
    ReadTwo(w4, s, p.notice.event, o.notice.event);
    assert At(RouteView(w2.vehicles, w.vehicles[v].route), v) == Some(ToView(w2.vehicles[v]));
  }

  lemma RunSix(w: World, p: seq<Step>)
    requires |p| == 6
    ensures Run(w, p) == Next(Next(Next(Next(Next(Next(w, p[0]), p[1]), p[2]), p[3]), p[4]), p[5])
  {
    RunThen(w, [], p[0]);
    RunThen(w, [p[0]], p[1]);
    RunThen(w, [p[0]] + [p[1]], p[2]);
    RunThen(w, [p[0]] + [p[1]] + [p[2]], p[3]);
    RunThen(w, [p[0]] + [p[1]] + [p[2]] + [p[3]], p[4]);
    RunThen(w, [p[0]] + [p[1]] + [p[2]] + [p[3]] + [p[4]], p[5]);
    assert [] + [p[0]] == [p[0]];
    assert p == [p[0]] + [p[1]] + [p[2]] + [p[3]] + [p[4]] + [p[5]];
  }

  /** The commuters of the route it left still see the vehicle: the news goes to the new route only. */
  lemma SecondConnectionGoesStale(w: World, s: SubId, v: VehicleId, route: RouteId, d: DriverId, total: int)
    requires Watching(w, s, v) && w.vehicles[v].route != route
    ensures var w' := Run(w, SecondConnection(v, route, d, total));
            && GoneStale(w', s) && v in w'.subs[s].replica.value
            && v in w'.vehicles && w'.vehicles[v].route == route != w'.subs[s].route
  {
    var steps := SecondConnection(v, route, d, total);
    var w1 := Next(w, steps[0]);
    assert |w1.owed| == 1 && w1.owed[0].actor == 0 && w1.owed[0].notice.route == route && w1.subs == w.subs;
    var w2 := Next(w1, steps[1]);
    assert IndexOf(w1.owed, 0) == 0 && w2.owed == [];
    RunThen(w, [], steps[0]);
    RunThen(w, [steps[0]], steps[1]);
    assert [] + [steps[0]] == [steps[0]] && steps == [steps[0]] + [steps[1]];
  }

  /** A vehicle comes online and a commuter opens its route. */
  function Opening(s: SubId, v: VehicleId, route: RouteId, d: DriverId, total: int): seq<Step> {
    [Mutate(0, v, GoOnline(route, d, total), 0), Publish(0), Subscribe(s, route), Snapshot(s)]
  }

  lemma OpeningWatches(s: SubId, v: VehicleId, route: RouteId, d: DriverId, total: int)
    ensures var w := Run(EMPTY, Opening(s, v, route, d, total));
            Watching(w, s, v) && w.vehicles[v].route == route && w.vehicles[v].total == total
  {
    var p := Opening(s, v, route, d, total);
    var w1 := Next(EMPTY, p[0]);
    assert |w1.owed| == 1 && w1.owed[0].actor == 0 && w1.vehicles[v].route == route && w1.subs == map[];
    var w2 := Next(w1, p[1]);
    assert IndexOf(w1.owed, 0) == 0 && w2.owed == [] && w2.subs == map[] && w2.vehicles == w1.vehicles;
    var w4 := Next(Next(w2, p[2]), p[3]);
    assert Watching(w4, s, v);
    RunThen(EMPTY, [], p[0]);
    RunThen(EMPTY, [p[0]], p[1]);
    RunThen(EMPTY, [p[0]] + [p[1]], p[2]);
    RunThen(EMPTY, [p[0]] + [p[1]] + [p[2]], p[3]);
    assert [] + [p[0]] == [p[0]];
    assert p == [p[0]] + [p[1]] + [p[2]] + [p[3]];
  }

  /** Both happen in runs of the server from its start. */
  lemma StaleIsReachable(s: SubId, v: VehicleId, route: RouteId, d: DriverId, total: int, x: int, y: int, other: RouteId)
    requires Clamp(x, 0, total) != Clamp(y, 0, total) && other != route
    ensures GoneStale(Run(EMPTY, Opening(s, v, route, d, total) + Overlap(v, s, x, y)), s)
    ensures GoneStale(Run(EMPTY, Opening(s, v, route, d, total) + SecondConnection(v, other, d, total)), s)
  {
    var opening := Opening(s, v, route, d, total);
    OpeningWatches(s, v, route, d, total);
    RunJoin(EMPTY, opening, Overlap(v, s, x, y));
    OverlapGoesStale(Run(EMPTY, opening), s, v, x, y);
    RunJoin(EMPTY, opening, SecondConnection(v, other, d, total));
    SecondConnectionGoesStale(Run(EMPTY, opening), s, v, other, d, total);
  }

  // ----- seats -----

  predicate SeatsInRange(vehicles: map<VehicleId, Vehicle>) {
    forall v :: v in vehicles ==> 0 <= vehicles[v].available <= vehicles[v].total
  }

  /** A change leaves the vehicle's seats in range exactly when its capacity is not negative. */
  lemma SeatsClamped(before: Option<Vehicle>, op: Op, now: Instant)
    requires before.Some? ==> 0 <= before.value.available <= before.value.total
    requires After(before, op, now).Some?
    ensures var s := After(before, op, now).value; 0 <= s.available <= s.total <==> (op.GoOnline? ==> op.total >= 0)
  {
  }

  /** An untracked vehicle comes online empty, at the origin of the map; nothing else brings it online. */
  lemma ComesOnlineEmpty(op: Op, now: Instant)
    ensures op.GoOnline? ==> After(None, op, now) == Some(Vehicle(op.route, op.driver, 0.0, 0.0, op.total, op.total, now))
    ensures !op.GoOnline? ==> After(None, op, now).None?
  {
  }

  function Distance(x: int, y: int): nat { if x <= y then y - x else x - y }

  /** seats is the number closest to wanted that a vehicle of this capacity can have. */
  ghost predicate ClosestSeats(seats: int, wanted: int, total: int) {
    0 <= seats <= total && forall k :: 0 <= k <= total ==> Distance(seats, wanted) <= Distance(k, wanted)
  }

  /** What each change does to a tracked vehicle, and that it does nothing else. */
  lemma ChangesOnlyItsPart(s: Vehicle, op: Op, now: Instant)
    requires 0 <= s.total && (op.GoOnline? ==> 0 <= op.total)
    ensures op.GoOffline? <==> After(Some(s), op, now).None?
    ensures op.UpdatePosition? ==>
              After(Some(s), op, now).value == Vehicle(s.route, s.driver, op.lat, op.lng, s.total, s.available, now)
    ensures op.GoOnline? ==>
              var t := After(Some(s), op, now).value;
              t == Vehicle(op.route, op.driver, s.lat, s.lng, op.total, t.available, now)
              && ClosestSeats(t.available, s.available, op.total)
    ensures op.SetSeats? || op.AdjustSeats? ==>
              var t := After(Some(s), op, now).value;
              t == Vehicle(s.route, s.driver, s.lat, s.lng, s.total, t.available, now)
              && ClosestSeats(t.available, if op.SetSeats? then op.seats else s.available + op.delta, s.total)
  {
  }

  /** Vehicle capacities are not negative. */
  predicate RealCapacities(steps: seq<Step>) {
    forall x :: x in steps && x.Mutate? && x.op.GoOnline? ==> x.op.total >= 0
  }

  /** Seats stay between nothing and the vehicle's capacity whatever edits come from whom in whatever order. */
  lemma {:induction false} SeatsStayInRange(w: World, steps: seq<Step>)
    requires SeatsInRange(w.vehicles) && RealCapacities(steps)
    ensures SeatsInRange(Run(w, steps).vehicles)
  {
    if steps != [] {
      var w', step := Run(w, steps[..|steps| - 1]), steps[|steps| - 1];
      assert steps == steps[..|steps| - 1] + [step];
      SeatsStayInRange(w, steps[..|steps| - 1]);
      if step.Mutate? && !Owes(w'.owed, step.actor) {
        var next := Mutated(w'.vehicles, step.vehicle, step.op, step.now);
        forall v | v in next ensures 0 <= next[v].available <= next[v].total {
          assert At(next, v) == if v == step.vehicle then After(At(w'.vehicles, v), step.op, step.now) else At(w'.vehicles, v);
        }
      }
    }
  }
}
