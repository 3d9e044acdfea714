/** Fixed routes and the best-journey search of routing/graph.go. */
module Routing {
  import opened Wrappers
  import opened Lists

  type StopId = nat
  type RouteId = nat

  datatype Leg = Leg(from: StopId, to: StopId, fare: int)
  datatype Route = Route(id: RouteId, name: string, legs: seq<Leg>)
  datatype Segment = Segment(route: RouteId, name: string, legs: seq<Leg>, fare: int)
  datatype SearchResult = SearchResult(transfers: nat, total: int, segments: seq<Segment>)

  function Fare(legs: seq<Leg>): int {
    if legs == [] then 0 else Fare(legs[..|legs| - 1]) + legs[|legs| - 1].fare
  }

  /** The stops walked: the first leg's origin, then every leg's destination. */
  function Stops(legs: seq<Leg>): (stops: seq<StopId>)
    ensures legs == [] ==> stops == []
    ensures legs != [] ==> |stops| == |legs| + 1 && stops[0] == legs[0].from
                           && forall i :: 0 <= i < |legs| ==> stops[i + 1] == legs[i].to
  {
    if legs == [] then [] else [legs[0].from] + seq(|legs|, i requires 0 <= i < |legs| => legs[i].to)
  }

  /** Where each stop comes last; a later visit overwrites an earlier one. */
  function Positions(stops: seq<StopId>): map<StopId, nat> {
    if stops == [] then map[] else Positions(stops[..|stops| - 1])[stops[|stops| - 1] := |stops| - 1]
  }

  lemma PositionsOneMore(stops: seq<StopId>, i: nat)
    requires i < |stops|
    ensures Positions(stops[..i + 1]) == Positions(stops[..i])[stops[i] := i]
  {
    assert stops[..i + 1][..i] == stops[..i];
  }

  method RouteStopOrder(legs: seq<Leg>) returns (stops: seq<StopId>, position: map<StopId, nat>)
    ensures stops == Stops(legs) && position == Positions(stops)
  {
    position := map[];
    if |legs| == 0 {
      return [], position;
    }
    stops := [legs[0].from];
    for i := 0 to |legs|
      invariant |stops| == i + 1 && forall k :: 0 <= k <= i ==> stops[k] == Stops(legs)[k]
    {
      stops := stops + [legs[i].to];
    }
    for i := 0 to |stops|
      invariant position == Positions(stops[..i])
    {
      PositionsOneMore(stops, i);
      position := position[stops[i] := i];
    }
    assert stops == Stops(legs) && stops[..|stops|] == stops;
  }

  /** The ride on one route from origin to dest, if both are on it in that order. */
  function Direct(r: Route, origin: StopId, dest: StopId): Option<Segment> {
    var position := Positions(Stops(r.legs));
    if origin !in position || dest !in position || position[origin] >= position[dest] then None
    else
      PositionsSound(Stops(r.legs), dest);
      var legs := r.legs[position[origin]..position[dest]];
      Some(Segment(r.id, r.name, legs, Fare(legs)))
  }

  lemma {:induction false} PositionsSound(stops: seq<StopId>, s: StopId)
    ensures s in Positions(stops) <==> s in stops
    ensures s in Positions(stops) ==>
              Positions(stops)[s] < |stops| && stops[Positions(stops)[s]] == s
              && forall k :: Positions(stops)[s] < k < |stops| ==> stops[k] != s
  {
    if stops != [] {
      var front := stops[..|stops| - 1];
      PositionsSound(front, s);
      assert stops == front + [stops[|stops| - 1]];
    }
  }

  method DirectSegment(r: Route, origin: StopId, dest: StopId) returns (seg: Option<Segment>)
    ensures seg == Direct(r, origin, dest)
  {
    var stops, position := RouteStopOrder(r.legs);
    if origin !in position || dest !in position || position[origin] >= position[dest] {
      return None;
    }
    PositionsSound(stops, dest);
    var legs := r.legs[position[origin]..position[dest]];
    var fare := 0;
    for i := 0 to |legs|
      invariant fare == Fare(legs[..i])
    {
      assert legs[..i + 1][..i] == legs[..i];
      fare := fare + legs[i].fare;
    }
    assert legs[..|legs|] == legs;
    seg := Some(Segment(r.id, r.name, legs, fare));
  }

  method FareForSegment(legs: seq<Leg>, from: StopId, to: StopId) returns (fare: Option<int>)
    ensures fare == FareOf(legs, from, to)
  {
    var seg := DirectSegment(Route(0, "", legs), from, to);
    fare := match seg case None => None case Some(s) => Some(s.fare);
  }

  function FareOf(legs: seq<Leg>, from: StopId, to: StopId): Option<int> {
    match Direct(Route(0, "", legs), from, to) case None => None case Some(s) => Some(s.fare)
  }

  // ----- the search -----

  function Alone(s: Option<Segment>): Option<SearchResult> {
    match s case None => None case Some(v) => Some(SearchResult(0, v.fare, [v]))
  }

  /** Direct rides in the order the routes are listed. */
  function DirectRides(net: seq<Route>, origin: StopId, dest: StopId): seq<SearchResult> {
    Gather(DirectTries(net, origin, dest))
  }

  function DirectTries(net: seq<Route>, origin: StopId, dest: StopId): (tries: seq<Option<SearchResult>>)
    ensures |tries| == |net|
  {
    seq(|net|, n requires 0 <= n < |net| => Alone(Direct(net[n], origin, dest)))
  }

  /** Riding r1 to stop c and r2 from there, when both rides exist. */
  function ChangeAt(r1: Route, r2: Route, origin: StopId, c: StopId, dest: StopId): Option<SearchResult> {
    Joined(Direct(r1, origin, c), Direct(r2, c, dest))
  }

  function Joined(s1: Option<Segment>, s2: Option<Segment>): Option<SearchResult> {
    if s1.None? || s2.None? then None
    else Some(SearchResult(1, s1.value.fare + s2.value.fare, [s1.value, s2.value]))
  }

  /** Changes from r1 to a different route r2, at the stops of r1 in order. */
  function ChangesBetween(r1: Route, r2: Route, origin: StopId, dest: StopId): seq<SearchResult> {
    if r1.id == r2.id then [] else Gather(ChangeTries(r1, r2, Stops(r1.legs), origin, dest))
  }

  function ChangeTries(r1: Route, r2: Route, stops: seq<StopId>, origin: StopId, dest: StopId)
    : (tries: seq<Option<SearchResult>>)
    ensures |tries| == |stops|
  {
    seq(|stops|, k requires 0 <= k < |stops| => ChangeAt(r1, r2, origin, stops[k], dest))
  }

  function ChangesFrom(r1: Route, net: seq<Route>, origin: StopId, dest: StopId): seq<SearchResult> {
    Flatten(SecondRides(r1, net, origin, dest))
  }

  function SecondRides(r1: Route, net: seq<Route>, origin: StopId, dest: StopId): (lists: seq<seq<SearchResult>>)
    ensures |lists| == |net|
  {
    seq(|net|, j requires 0 <= j < |net| => ChangesBetween(r1, net[j], origin, dest))
  }

  /** Every one-change journey over pairs of different routes, in the order the nested loops meet them. */
  function Changes(net: seq<Route>, origin: StopId, dest: StopId): seq<SearchResult> {
    Flatten(FirstRides(net, origin, dest))
  }

  function FirstRides(net: seq<Route>, origin: StopId, dest: StopId): (lists: seq<seq<SearchResult>>)
    ensures |lists| == |net|
  {
    seq(|net|, i requires 0 <= i < |net| => ChangesFrom(net[i], net, origin, dest))
  }

  /** The cheapest, and the first listed of that price. */
  function Cheapest(rs: seq<SearchResult>): Option<SearchResult> {
    if rs == [] then None else Better(Cheapest(rs[..|rs| - 1]), Some(rs[|rs| - 1]))
  }

  /** A candidate replaces the best so far only by being strictly cheaper. */
  function Better(best: Option<SearchResult>, x: Option<SearchResult>): Option<SearchResult> {
    if x.Some? && (best.None? || x.value.total < best.value.total) then x else best
  }

  /** Fewest transfers, then lowest fare, then first met. */
  function BestJourney(net: seq<Route>, origin: StopId, dest: StopId): Option<SearchResult> {
    if origin == dest then None
    else if DirectRides(net, origin, dest) != [] then Cheapest(DirectRides(net, origin, dest))
    else Cheapest(Changes(net, origin, dest))
  }

  predicate FirstMinimum(rs: seq<SearchResult>, i: nat) {
    && i < |rs|
    && (forall x :: 0 <= x < |rs| ==> rs[i].total <= rs[x].total)
    && (forall x :: 0 <= x < i ==> rs[i].total < rs[x].total)
  }

  /** What Cheapest means. */
  lemma {:induction false} CheapestIsFirstMinimum(rs: seq<SearchResult>) returns (i: nat)
    ensures Cheapest(rs) == None <==> rs == []
    ensures rs != [] ==> FirstMinimum(rs, i) && Cheapest(rs) == Some(rs[i])
  {
    i := 0;
    if rs != [] {
      var front, last := rs[..|rs| - 1], rs[|rs| - 1];
      i := CheapestIsFirstMinimum(front);
      assert forall x :: 0 <= x < |front| ==> rs[x] == front[x];
      if front == [] || last.total < front[i].total {
        i := |front|;
      }
    }
  }

  lemma CheapestNoDearer(rs: seq<SearchResult>, x: SearchResult)
    requires x in rs
    ensures Cheapest(rs).Some? && Cheapest(rs).value in rs && Cheapest(rs).value.total <= x.total
  {
    var k := CheapestIsFirstMinimum(rs);
  }

  /** Looking at one more try keeps the better of it and the best so far. */
  lemma TryOneMore(met: seq<SearchResult>, tries: seq<Option<SearchResult>>, k: nat)
    requires k < |tries|
    ensures Cheapest(met + Gather(tries[..k + 1])) == Better(Cheapest(met + Gather(tries[..k])), tries[k])
  {
    var known := met + Gather(tries[..k]);
    assert tries[..k + 1][..k] == tries[..k];
    assert known + Listed(tries[k]) == met + Gather(tries[..k + 1]);
    match tries[k]
    case None => assert known + [] == known;
    case Some(v) => assert (known + [v])[..|known|] == known;
  }

  method Search(net: seq<Route>, origin: StopId, dest: StopId) returns (result: Option<SearchResult>)
    ensures result == BestJourney(net, origin, dest)
  {
    if origin == dest {
      return None;
    }
    result := SearchDirect(net, origin, dest);
    var _ := CheapestIsFirstMinimum(DirectRides(net, origin, dest));
    if result.Some? {
      return;
    }
    result := SearchChanges(net, origin, dest);
  }

  method SearchDirect(net: seq<Route>, origin: StopId, dest: StopId) returns (best: Option<SearchResult>)
    ensures best == Cheapest(DirectRides(net, origin, dest))
  {
    best := BestDirect(net, origin, dest, DirectTries(net, origin, dest));
  }

  /** The loop over the routes, each a try. */
  method BestDirect(net: seq<Route>, origin: StopId, dest: StopId, ghost tries: seq<Option<SearchResult>>)
    returns (best: Option<SearchResult>)
    requires |tries| == |net| && forall n :: 0 <= n < |net| ==> tries[n] == Alone(Direct(net[n], origin, dest))
    ensures best == Cheapest(Gather(tries))
  {
    best := None;
    for n := 0 to |net|
      invariant best == Cheapest(Gather(tries[..n]))
    {
      GatherOneMore(tries, n);
      var seg := DirectSegment(net[n], origin, dest);
      if seg.None? {
        continue;
      }
      if best.None? || seg.value.fare < best.value.total {
        best := Some(SearchResult(0, seg.value.fare, [seg.value]));
      }
    }
    assert tries[..|net|] == tries;
  }

  lemma GatherOneMore(tries: seq<Option<SearchResult>>, k: nat)
    requires k < |tries|
    ensures Cheapest(Gather(tries[..k + 1])) == Better(Cheapest(Gather(tries[..k])), tries[k])
  {
    var none: seq<SearchResult> := [];
    TryOneMore(none, tries, k);
    assert none + Gather(tries[..k]) == Gather(tries[..k]) && none + Gather(tries[..k + 1]) == Gather(tries[..k + 1]);
  }

  method SearchChanges(net: seq<Route>, origin: StopId, dest: StopId) returns (best: Option<SearchResult>)
    ensures best == Cheapest(Changes(net, origin, dest))
  {
    best := None;
    ghost var met: seq<SearchResult>, lists := [], FirstRides(net, origin, dest);
    for i := 0 to |net|
      invariant best == Cheapest(met + Flatten(lists[..i]))
    {
      FlattenStep(met, lists, i);
      best := SearchFrom(net[i], net, origin, dest, best, met + Flatten(lists[..i]));
    }
    assert lists[..|net|] == lists && met + Flatten(lists) == Flatten(lists);
  }

  method SearchFrom(r1: Route, net: seq<Route>, origin: StopId, dest: StopId,
                    soFar: Option<SearchResult>, ghost met: seq<SearchResult>)
    returns (best: Option<SearchResult>)
    requires soFar == Cheapest(met)
    ensures best == Cheapest(met + ChangesFrom(r1, net, origin, dest))
  {
    best := soFar;
    ghost var lists := SecondRides(r1, net, origin, dest);
    assert met + [] == met;
    var stops1, pos1 := RouteStopOrder(r1.legs);
    if origin !in pos1 {
      NoChangesWithoutOrigin(r1, net, origin, dest);
      return;
    }
    for j := 0 to |net|
      invariant best == Cheapest(met + Flatten(lists[..j]))
    {
      FlattenStep(met, lists, j);
      best := SearchPair(r1, net[j], stops1, pos1, origin, dest, best, met + Flatten(lists[..j]));
    }
    assert lists[..|net|] == lists;
  }

  /** Interchanges between one pair of routes. */
  method SearchPair(r1: Route, r2: Route, stops1: seq<StopId>, pos1: map<StopId, nat>, origin: StopId, dest: StopId,
                    soFar: Option<SearchResult>, ghost met: seq<SearchResult>)
    returns (best: Option<SearchResult>)
    requires stops1 == Stops(r1.legs) && pos1 == Positions(stops1) && origin in pos1
    requires soFar == Cheapest(met)
    ensures best == Cheapest(met + ChangesBetween(r1, r2, origin, dest))
  {
    best := soFar;
    assert met + [] == met;
    if r2.id == r1.id {
      return;
    }
    var stops2, pos2 := RouteStopOrder(r2.legs);
    if dest !in pos2 {
      NoChangesBetween(r1, r2, origin, dest);
      return;
    }
    best := BestInterchange(r1, r2, stops1, pos1, pos2, origin, dest, soFar, met, ChangeTries(r1, r2, stops1, origin, dest));
  }

  /** The innermost loop, over the stops of the first route. */
  method BestInterchange(r1: Route, r2: Route, stops1: seq<StopId>, pos1: map<StopId, nat>, pos2: map<StopId, nat>,
                         origin: StopId, dest: StopId, soFar: Option<SearchResult>, ghost met: seq<SearchResult>,
                         ghost tries: seq<Option<SearchResult>>)
    returns (best: Option<SearchResult>)
    requires pos1 == Positions(Stops(r1.legs)) && origin in pos1 && pos2 == Positions(Stops(r2.legs)) && dest in pos2
    requires |tries| == |stops1| && forall k :: 0 <= k < |stops1| ==> tries[k] == ChangeAt(r1, r2, origin, stops1[k], dest)
    requires soFar == Cheapest(met)
    ensures best == Cheapest(met + Gather(tries))
  {
    best := soFar;
    assert met + [] == met;
    for k := 0 to |stops1|
      invariant best == Cheapest(met + Gather(tries[..k]))
    {
      TryOneMore(met, tries, k);
      var candidate := TryInterchange(r1, r2, pos1, pos2, origin, stops1[k], dest);
      if candidate.None? {
        continue;
      }
      if best.None? || candidate.value.total < best.value.total {
        best := candidate;
      }
    }
    assert tries[..|stops1|] == tries;
  }

  /** One interchange, with the position checks the loop body makes before building segments. */
  method TryInterchange(r1: Route, r2: Route, pos1: map<StopId, nat>, pos2: map<StopId, nat>,
                        origin: StopId, c: StopId, dest: StopId)
    returns (candidate: Option<SearchResult>)
    requires pos1 == Positions(Stops(r1.legs)) && origin in pos1
    requires pos2 == Positions(Stops(r2.legs)) && dest in pos2
    ensures candidate == ChangeAt(r1, r2, origin, c, dest)
  {
    if c !in pos1 || pos1[c] <= pos1[origin] {
      NoRide(r1, origin, c);
      return None;
    }
    if c !in pos2 || pos2[c] >= pos2[dest] {
      NoRide(r2, c, dest);
      return None;
    }
    var seg1 := DirectSegment(r1, origin, c);
    if seg1.None? {
      return None;
    }
    var seg2 := DirectSegment(r2, c, dest);
    if seg2.None? {
      return None;
    }
    candidate := Joined(seg1, seg2);
  }

  lemma NoRide(r: Route, a: StopId, b: StopId)
    requires var p := Positions(Stops(r.legs)); a !in p || b !in p || p[b] <= p[a]
    ensures Direct(r, a, b).None?
  {
  }

  lemma NoChangesWithoutOrigin(r1: Route, net: seq<Route>, origin: StopId, dest: StopId)
    requires origin !in Positions(Stops(r1.legs))
    ensures ChangesFrom(r1, net, origin, dest) == []
  {
    forall j | 0 <= j < |net| ensures SecondRides(r1, net, origin, dest)[j] == [] {
      NoChangesBetween(r1, net[j], origin, dest);
    }
    FlattenEmpty(SecondRides(r1, net, origin, dest));
  }

  lemma NoChangesBetween(r1: Route, r2: Route, origin: StopId, dest: StopId)
    requires origin !in Positions(Stops(r1.legs)) || dest !in Positions(Stops(r2.legs))
    ensures ChangesBetween(r1, r2, origin, dest) == []
  {
    GatherNone(ChangeTries(r1, r2, Stops(r1.legs), origin, dest));
  }
}
