/** Journeys declared without reference to the search, and what Search is worth against them. */
module Journeys {
  import opened Wrappers
  import opened Lists
  import opened Routing

  // ----- networks and journeys -----

  predicate LinkedAt(legs: seq<Leg>, i: int) {
    0 <= i < |legs| - 1 ==> legs[i].to == legs[i + 1].from
  }

  /** Each leg starts where the one before it ends. */
  predicate Chained(legs: seq<Leg>) {
    forall i :: 0 <= i < |legs| - 1 ==> LinkedAt(legs, i)
  }

  predicate RepeatFree(stops: seq<StopId>) {
    forall i, j :: 0 <= i < j < |stops| ==> stops[i] != stops[j]
  }

  predicate WellRouted(legs: seq<Leg>) { Chained(legs) && RepeatFree(Stops(legs)) }

  predicate DistinctIds(net: seq<Route>) {
    forall i, j {:trigger net[i].id, net[j].id} :: 0 <= i < j < |net| ==> net[i].id != net[j].id
  }

  predicate AllChained(net: seq<Route>) {
    forall i {:trigger Chained(net[i].legs)} :: 0 <= i < |net| ==> Chained(net[i].legs)
  }

  predicate WellFormedNetwork(net: seq<Route>) {
    && (forall i {:trigger WellRouted(net[i].legs)} :: 0 <= i < |net| ==> WellRouted(net[i].legs))
    && DistinctIds(net)
  }

  /** Riding a route from its i-th stop to its j-th. */
  predicate RideAt(r: Route, i: nat, j: nat, a: StopId, b: StopId) {
    i < j <= |r.legs| && Stops(r.legs)[i] == a && Stops(r.legs)[j] == b
  }

  predicate RideAs(r: Route, i: nat, j: nat, a: StopId, b: StopId, s: Segment) {
    RideAt(r, i, j, a, b) && s == Segment(r.id, r.name, r.legs[i..j], Fare(r.legs[i..j]))
  }

  ghost predicate IsRide(net: seq<Route>, s: Segment, a: StopId, b: StopId) {
    exists x, i: nat, j: nat {:trigger RideAs(net[x], i, j, a, b, s)} :: 0 <= x < |net| && RideAs(net[x], i, j, a, b, s)
  }

  ghost predicate LastVisit(stops: seq<StopId>, s: StopId, i: nat) {
    i < |stops| && stops[i] == s && forall k :: i < k < |stops| ==> stops[k] != s
  }

  /** A ride between the last visits of its two stops. */
  ghost predicate OfferedAs(r: Route, i: nat, j: nat, a: StopId, b: StopId, s: Segment) {
    RideAs(r, i, j, a, b, s) && LastVisit(Stops(r.legs), a, i) && LastVisit(Stops(r.legs), b, j)
  }

  ghost predicate IsOffered(net: seq<Route>, s: Segment, a: StopId, b: StopId) {
    exists x, i: nat, j: nat {:trigger OfferedAs(net[x], i, j, a, b, s)} :: 0 <= x < |net| && OfferedAs(net[x], i, j, a, b, s)
  }

  function Alighting(s: Segment): StopId {
    if s.legs == [] then 0 else s.legs[|s.legs| - 1].to
  }

  /** At most two rides, one after the other. */
  ghost predicate IsJourney(net: seq<Route>, segs: seq<Segment>, a: StopId, b: StopId) {
    (|segs| == 1 && IsRide(net, segs[0], a, b))
    || (|segs| == 2 && IsRide(net, segs[0], a, Alighting(segs[0])) && IsRide(net, segs[1], Alighting(segs[0]), b))
  }

  /** A journey of offered rides. */
  ghost predicate IsOfferedJourney(net: seq<Route>, segs: seq<Segment>, a: StopId, b: StopId) {
    (|segs| == 1 && IsOffered(net, segs[0], a, b))
    || (|segs| == 2 && IsOffered(net, segs[0], a, Alighting(segs[0])) && IsOffered(net, segs[1], Alighting(segs[0]), b))
  }

  function JourneyFare(segs: seq<Segment>): int {
    if segs == [] then 0 else JourneyFare(segs[..|segs| - 1]) + segs[|segs| - 1].fare
  }

  function AllLegs(segs: seq<Segment>): seq<Leg> {
    if segs == [] then [] else AllLegs(segs[..|segs| - 1]) + segs[|segs| - 1].legs
  }

  /** An unbroken walk. */
  predicate Walk(legs: seq<Leg>, a: StopId, b: StopId) {
    legs != [] && legs[0].from == a && legs[|legs| - 1].to == b && Chained(legs)
  }

  // ----- one route -----

  lemma PositionIsLastVisit(stops: seq<StopId>, s: StopId, i: nat)
    ensures LastVisit(stops, s, i) <==> s in Positions(stops) && Positions(stops)[s] == i
  {
    PositionsSound(stops, s);
    if LastVisit(stops, s, i) {
      assert stops[i] in stops;
    }
  }

  /** On any route: a ride is offered exactly between the last visits of its two stops. */
  lemma DirectMeansLastVisits(r: Route, a: StopId, b: StopId)
    ensures Direct(r, a, b).Some? <==>
              exists i: nat, j: nat :: i < j && LastVisit(Stops(r.legs), a, i) && LastVisit(Stops(r.legs), b, j)
  {
    var stops, p := Stops(r.legs), Positions(Stops(r.legs));
    forall i: nat ensures LastVisit(stops, a, i) <==> a in p && p[a] == i {
      PositionIsLastVisit(stops, a, i);
    }
    forall j: nat ensures LastVisit(stops, b, j) <==> b in p && p[b] == j {
      PositionIsLastVisit(stops, b, j);
    }
    if Direct(r, a, b).Some? {
      assert LastVisit(stops, a, p[a]) && LastVisit(stops, b, p[b]);
    }
  }

  /** A stop visited twice can hide a ride: a circular route serves its first leg, Search does not see it. */
  lemma CircularRouteIsMissed(r: Route, a: StopId, b: StopId)
    requires a != b && |r.legs| == 2 && r.legs[0].from == a && r.legs[0].to == b && r.legs[1].to == a
    ensures RideAt(r, 0, 1, a, b) && Direct(r, a, b).None? && BestJourney([r], a, b).None?
  {
    var stops, p := Stops(r.legs), Positions(Stops(r.legs));
    PositionsSound(stops, a);
    PositionsSound(stops, b);
    assert stops[2] == a && stops[1] == b;
    GatherNone(DirectTries([r], a, b));
    FlattenEmpty(SecondRides(r, [r], a, b));
    FlattenEmpty(FirstRides([r], a, b));
  }

  lemma DirectBetween(r: Route, a: StopId, b: StopId, i: nat, j: nat)
    requires i < j && LastVisit(Stops(r.legs), a, i) && LastVisit(Stops(r.legs), b, j)
    ensures j <= |r.legs| && Direct(r, a, b) == Some(Segment(r.id, r.name, r.legs[i..j], Fare(r.legs[i..j])))
  {
    PositionIsLastVisit(Stops(r.legs), a, i);
    PositionIsLastVisit(Stops(r.legs), b, j);
  }

  lemma DirectHasRide(r: Route, a: StopId, b: StopId) returns (i: nat, j: nat)
    requires Direct(r, a, b).Some?
    ensures OfferedAs(r, i, j, a, b, Direct(r, a, b).value)
  {
    var p := Positions(Stops(r.legs));
    PositionsSound(Stops(r.legs), a);
    PositionsSound(Stops(r.legs), b);
    i, j := p[a], p[b];
  }

  lemma LastVisitIsUnique(stops: seq<StopId>, s: StopId, i: nat, j: nat)
    requires LastVisit(stops, s, i) && LastVisit(stops, s, j)
    ensures i == j
  {
  }

  lemma RepeatFreeVisit(stops: seq<StopId>, s: StopId, i: nat)
    requires RepeatFree(stops) && i < |stops| && stops[i] == s
    ensures LastVisit(stops, s, i)
  {
  }

  lemma {:induction false} FareSplits(legs: seq<Leg>, more: seq<Leg>)
    ensures Fare(legs + more) == Fare(legs) + Fare(more)
  {
    if more == [] {
      assert legs + more == legs;
    } else {
      FareSplits(legs, more[..|more| - 1]);
      assert (legs + more)[..|legs + more| - 1] == legs + more[..|more| - 1];
    }
  }

  /** On any route fares add up, so changing from a route to itself never gains anything. */
  lemma RideIsAdditive(r: Route, a: StopId, b: StopId, c: StopId)
    requires Direct(r, a, b).Some? && Direct(r, b, c).Some?
    ensures Direct(r, a, c).Some?
    ensures Direct(r, a, c).value.fare == Direct(r, a, b).value.fare + Direct(r, b, c).value.fare
    ensures Direct(r, a, c).value.legs == Direct(r, a, b).value.legs + Direct(r, b, c).value.legs
  {
    var i, j := DirectHasRide(r, a, b);
    var j', k := DirectHasRide(r, b, c);
    LastVisitIsUnique(Stops(r.legs), b, j, j');
    DirectBetween(r, a, c, i, k);
    LegsSplit(r.legs, i, j, k);
  }

  lemma LegsSplit(legs: seq<Leg>, i: nat, j: nat, k: nat)
    requires i <= j <= k <= |legs|
    ensures legs[i..k] == legs[i..j] + legs[j..k] && Fare(legs[i..k]) == Fare(legs[i..j]) + Fare(legs[j..k])
  {
    assert legs[i..k] == legs[i..j] + legs[j..k];
    FareSplits(legs[i..j], legs[j..k]);
  }

  lemma {:induction false} FareNonNegative(legs: seq<Leg>)
    requires forall l :: l in legs ==> l.fare >= 0
    ensures Fare(legs) >= 0
  {
    if legs != [] {
      assert legs[|legs| - 1] in legs;
      FareNonNegative(legs[..|legs| - 1]);
    }
  }

  /** With non-negative leg fares, a ride costs no less than any ride inside it. */
  lemma SubRideIsNoDearer(r: Route, i: nat, j: nat, i': nat, j': nat)
    requires i <= i' <= j' <= j <= |r.legs| && forall l :: l in r.legs ==> l.fare >= 0
    ensures Fare(r.legs[i'..j']) <= Fare(r.legs[i..j])
  {
    LegsSplit(r.legs, i, i', j);
    LegsSplit(r.legs, i', j', j);
    FareNonNegative(r.legs[i..i']);
    FareNonNegative(r.legs[j'..j]);
  }

  lemma RideIsAWalk(r: Route, i: nat, j: nat, a: StopId, b: StopId)
    requires Chained(r.legs) && RideAt(r, i, j, a, b)
    ensures Walk(r.legs[i..j], a, b)
  {
    assert LinkedAt(r.legs, i - 1);
    forall k | 0 <= k < j - i - 1 ensures LinkedAt(r.legs[i..j], k) {
      assert LinkedAt(r.legs, i + k);
    }
  }

  // ----- what the candidate lists hold -----

  lemma RideListed(net: seq<Route>, a: StopId, b: StopId, n: nat, x: SearchResult)
    requires n < |net| && Alone(Direct(net[n], a, b)) == Some(x)
    ensures x in DirectRides(net, a, b)
  {
    TryIsGathered(DirectTries(net, a, b), n);
  }

  lemma ListedRide(net: seq<Route>, a: StopId, b: StopId, x: SearchResult) returns (n: nat)
    requires x in DirectRides(net, a, b)
    ensures n < |net| && Alone(Direct(net[n], a, b)) == Some(x)
  {
    n := GatheredIsTry(DirectTries(net, a, b), x);
  }

  /** A change between two routes is listed exactly when both its rides exist. */
  lemma ChangeIsListed(net: seq<Route>, n: nat, m: nat, a: StopId, c: StopId, b: StopId, x: SearchResult)
    requires n < |net| && m < |net| && net[n].id != net[m].id
    requires ChangeAt(net[n], net[m], a, c, b) == Some(x)
    ensures x in Changes(net, a, b)
  {
    var i, j := DirectHasRide(net[n], a, c);
    TryIsGathered(ChangeTries(net[n], net[m], Stops(net[n].legs), a, b), j);
    MemberIsFlattened(SecondRides(net[n], net, a, b), m, x);
    MemberIsFlattened(FirstRides(net, a, b), n, x);
  }

  lemma ListedIsChange(net: seq<Route>, a: StopId, b: StopId, x: SearchResult) returns (n: nat, m: nat, c: StopId)
    requires x in Changes(net, a, b)
    ensures n < |net| && m < |net| && net[n].id != net[m].id && ChangeAt(net[n], net[m], a, c, b) == Some(x)
  {
    n := FlattenedIsMember(FirstRides(net, a, b), x);
    m := FlattenedIsMember(SecondRides(net[n], net, a, b), x);
    var k := GatheredIsTry(ChangeTries(net[n], net[m], Stops(net[n].legs), a, b), x);
    c := Stops(net[n].legs)[k];
  }

  // ----- walks -----

  lemma JourneyFareIs(segs: seq<Segment>)
    ensures |segs| == 1 ==> JourneyFare(segs) == segs[0].fare
    ensures |segs| == 2 ==> JourneyFare(segs) == segs[0].fare + segs[1].fare
  {
  }

  lemma OneSegment(segs: seq<Segment>)
    requires |segs| == 1
    ensures JourneyFare(segs) == segs[0].fare && AllLegs(segs) == segs[0].legs
    ensures Alone(Some(segs[0])) == Some(SearchResult(0, JourneyFare(segs), segs))
  {
    assert segs[..0] == [] && segs == [segs[0]];
  }

  lemma TwoSegments(segs: seq<Segment>)
    requires |segs| == 2
    ensures JourneyFare(segs) == segs[0].fare + segs[1].fare && AllLegs(segs) == segs[0].legs + segs[1].legs
    ensures Joined(Some(segs[0]), Some(segs[1])) == Some(SearchResult(1, JourneyFare(segs), segs))
  {
    OneSegment(segs[..1]);
    assert segs == [segs[0], segs[1]];
  }

  lemma WalksJoin(legs: seq<Leg>, more: seq<Leg>, a: StopId, c: StopId, b: StopId)
    requires Walk(legs, a, c) && Walk(more, c, b)
    ensures Walk(legs + more, a, b)
  {
    forall k | 0 <= k < |legs + more| - 1 ensures LinkedAt(legs + more, k) {
      assert LinkedAt(legs, k) && LinkedAt(more, k - |legs|);
    }
  }

  lemma RideWalks(net: seq<Route>, s: Segment, a: StopId, b: StopId)
    requires AllChained(net) && IsRide(net, s, a, b)
    ensures Walk(s.legs, a, b) && Fare(s.legs) == s.fare
  {
    var n, i: nat, j: nat :| 0 <= n < |net| && RideAs(net[n], i, j, a, b, s);
    assert Chained(net[n].legs);
    RideIsAWalk(net[n], i, j, a, b);
  }

  /** On chained routes any journey, offered or not, is one unbroken walk that costs the journey's fare. */
  lemma JourneyIsAWalk(net: seq<Route>, segs: seq<Segment>, a: StopId, b: StopId)
    requires AllChained(net) && IsJourney(net, segs, a, b)
    ensures Walk(AllLegs(segs), a, b) && Fare(AllLegs(segs)) == JourneyFare(segs)
  {
    if |segs| == 1 {
      OneSegment(segs);
      RideWalks(net, segs[0], a, b);
    } else {
      TwoRidesWalk(net, segs, a, Alighting(segs[0]), b);
    }
  }

  lemma TwoRidesWalk(net: seq<Route>, segs: seq<Segment>, a: StopId, c: StopId, b: StopId)
    requires AllChained(net) && |segs| == 2 && IsRide(net, segs[0], a, c) && IsRide(net, segs[1], c, b)
    ensures Walk(AllLegs(segs), a, b) && Fare(AllLegs(segs)) == JourneyFare(segs)
  {
    RideWalks(net, segs[0], a, c);
    RideWalks(net, segs[1], c, b);
    TwoWalks(segs, a, c, b);
  }

  lemma TwoWalks(segs: seq<Segment>, a: StopId, c: StopId, b: StopId)
    requires |segs| == 2 && Walk(segs[0].legs, a, c) && Walk(segs[1].legs, c, b)
    requires Fare(segs[0].legs) == segs[0].fare && Fare(segs[1].legs) == segs[1].fare
    ensures Walk(AllLegs(segs), a, b) && Fare(AllLegs(segs)) == JourneyFare(segs)
  {
    TwoSegments(segs);
    WalksJoin(segs[0].legs, segs[1].legs, a, c, b);
    FareSplits(segs[0].legs, segs[1].legs);
  }

  // ----- offered rides and the candidate lists -----

  lemma AlightsAtEnd(r: Route, i: nat, j: nat, a: StopId, b: StopId, s: Segment)
    requires RideAs(r, i, j, a, b, s)
    ensures Alighting(s) == b
  {
    assert s.legs[j - i - 1] == r.legs[j - 1];
  }

  lemma OfferedIsDirect(net: seq<Route>, s: Segment, a: StopId, b: StopId) returns (n: nat)
    requires IsOffered(net, s, a, b)
    ensures n < |net| && Direct(net[n], a, b) == Some(s)
  {
    var n', i: nat, j: nat :| 0 <= n' < |net| && OfferedAs(net[n'], i, j, a, b, s);
    n := n';
    DirectBetween(net[n], a, b, i, j);
  }

  lemma DirectIsOffered(net: seq<Route>, n: nat, s: Segment, a: StopId, b: StopId)
    requires n < |net| && Direct(net[n], a, b) == Some(s)
    ensures IsOffered(net, s, a, b) && Alighting(s) == b
  {
    var i, j := DirectHasRide(net[n], a, b);
    assert OfferedAs(net[n], i, j, a, b, s);
    AlightsAtEnd(net[n], i, j, a, b, s);
  }

  lemma RideIsListed(net: seq<Route>, segs: seq<Segment>, a: StopId, b: StopId)
    requires |segs| == 1 && IsOffered(net, segs[0], a, b)
    ensures SearchResult(0, JourneyFare(segs), segs) in DirectRides(net, a, b)
  {
    var n := OfferedIsDirect(net, segs[0], a, b);
    OneSegment(segs);
    RideListed(net, a, b, n, SearchResult(0, JourneyFare(segs), segs));
  }

  lemma ListedIsRide(net: seq<Route>, a: StopId, b: StopId, x: SearchResult)
    requires x in DirectRides(net, a, b)
    ensures |x.segments| == 1 && IsOffered(net, x.segments[0], a, b)
    ensures x.transfers == 0 && x.total == JourneyFare(x.segments)
  {
    var n := ListedRide(net, a, b, x);
    DirectIsOffered(net, n, x.segments[0], a, b);
    OneSegment(x.segments);
  }

  lemma ListedIsJourney(net: seq<Route>, a: StopId, b: StopId, x: SearchResult)
    requires x in Changes(net, a, b)
    ensures |x.segments| == 2 && IsOfferedJourney(net, x.segments, a, b)
    ensures x.transfers == 1 && x.total == JourneyFare(x.segments)
  {
    var n, m, c := ListedIsChange(net, a, b, x);
    var s, t := Direct(net[n], a, c).value, Direct(net[m], c, b).value;
    JoinedParts(s, t, x);
    DirectIsOffered(net, n, s, a, c);
    DirectIsOffered(net, m, t, c, b);
  }

  lemma JoinedParts(s: Segment, t: Segment, x: SearchResult)
    requires Joined(Some(s), Some(t)) == Some(x)
    ensures |x.segments| == 2 && x.segments[0] == s && x.segments[1] == t
    ensures x.transfers == 1 && x.total == JourneyFare(x.segments)
  {
    TwoSegments(x.segments);
  }

  /** Where no direct ride is offered, every offered journey changes routes, so the search lists it. */
  lemma JourneyIsListed(net: seq<Route>, segs: seq<Segment>, a: StopId, b: StopId)
    requires DistinctIds(net) && IsOfferedJourney(net, segs, a, b) && DirectRides(net, a, b) == []
    ensures |segs| == 2 && SearchResult(1, JourneyFare(segs), segs) in Changes(net, a, b)
  {
    if |segs| == 1 {
      RideIsListed(net, segs, a, b);
    } else {
      TwoSegments(segs);
      TwoRidesAreListed(net, segs[0], segs[1], a, Alighting(segs[0]), b);
    }
  }

  lemma TwoRidesAreListed(net: seq<Route>, s: Segment, t: Segment, a: StopId, c: StopId, b: StopId)
    requires DistinctIds(net) && DirectRides(net, a, b) == [] && IsOffered(net, s, a, c) && IsOffered(net, t, c, b)
    ensures Joined(Some(s), Some(t)).value in Changes(net, a, b)
  {
    var n := OfferedIsDirect(net, s, a, c);
    var m := OfferedIsDirect(net, t, c, b);
    ChangeOrDirect(net, n, m, a, c, b);
  }

  lemma ChangeOrDirect(net: seq<Route>, n: nat, m: nat, a: StopId, c: StopId, b: StopId)
    requires DistinctIds(net) && n < |net| && m < |net|
    requires Direct(net[n], a, c).Some? && Direct(net[m], c, b).Some?
    ensures DirectRides(net, a, b) != [] || ChangeAt(net[n], net[m], a, c, b).value in Changes(net, a, b)
  {
    if n == m {
      RideIsAdditive(net[n], a, c, b);
      RideListed(net, a, b, n, Alone(Direct(net[n], a, b)).value);
    } else {
      ChangeIsListed(net, n, m, a, c, b, ChangeAt(net[n], net[m], a, c, b).value);
    }
  }

  // ----- what the search is worth -----

  /** No more rides than this journey, and no dearer than one with as many. */
  predicate AsGoodAs(r: SearchResult, segs: seq<Segment>) {
    |r.segments| < |segs| || (|r.segments| == |segs| && r.total <= JourneyFare(segs))
  }

  predicate Adds(r: SearchResult) {
    |r.segments| == r.transfers + 1 && r.total == JourneyFare(r.segments)
  }

  /** An offered journey no offered journey beats: fewest rides, and the lowest fare among those with as few. */
  ghost predicate Optimal(net: seq<Route>, a: StopId, b: StopId, r: SearchResult) {
    && IsOfferedJourney(net, r.segments, a, b) && Adds(r)
    && forall segs: seq<Segment> {:trigger IsOfferedJourney(net, segs, a, b)} ::
         IsOfferedJourney(net, segs, a, b) ==> AsGoodAs(r, segs)
  }

  lemma DirectSearchIsOptimal(net: seq<Route>, a: StopId, b: StopId, best: SearchResult)
    requires DirectRides(net, a, b) != [] && Cheapest(DirectRides(net, a, b)) == Some(best)
    ensures Optimal(net, a, b, best)
  {
    var rs := DirectRides(net, a, b);
    CheapestNoDearer(rs, rs[0]);
    ListedIsRide(net, a, b, best);
    forall segs: seq<Segment> | IsOfferedJourney(net, segs, a, b) ensures AsGoodAs(best, segs) {
      if |segs| == 1 {
        RideIsListed(net, segs, a, b);
        CheapestNoDearer(rs, SearchResult(0, JourneyFare(segs), segs));
      }
    }
  }

  lemma ChangeSearchIsOptimal(net: seq<Route>, a: StopId, b: StopId, best: SearchResult)
    requires DistinctIds(net) && DirectRides(net, a, b) == []
    requires Changes(net, a, b) != [] && Cheapest(Changes(net, a, b)) == Some(best)
    ensures Optimal(net, a, b, best)
  {
    var rs := Changes(net, a, b);
    CheapestNoDearer(rs, rs[0]);
    ListedIsJourney(net, a, b, best);
    forall segs: seq<Segment> | IsOfferedJourney(net, segs, a, b) ensures AsGoodAs(best, segs) {
      JourneyIsListed(net, segs, a, b);
      CheapestNoDearer(rs, SearchResult(1, JourneyFare(segs), segs));
    }
  }

  lemma NothingOffered(net: seq<Route>, a: StopId, b: StopId, segs: seq<Segment>)
    requires DistinctIds(net) && DirectRides(net, a, b) == [] && Changes(net, a, b) == []
    ensures !IsOfferedJourney(net, segs, a, b)
  {
    if IsOfferedJourney(net, segs, a, b) {
      JourneyIsListed(net, segs, a, b);
    }
  }

  /** On any routes with distinct ids: Search finds a journey exactly when an offered one exists, and then none better. */
  lemma SearchIsExact(net: seq<Route>, a: StopId, b: StopId)
    requires DistinctIds(net)
    ensures BestJourney(net, a, b).Some? <==> a != b && exists segs: seq<Segment> :: IsOfferedJourney(net, segs, a, b)
    ensures BestJourney(net, a, b).Some? ==> Optimal(net, a, b, BestJourney(net, a, b).value)
  {
    if a != b {
      var rides, changes := DirectRides(net, a, b), Changes(net, a, b);
      if rides != [] {
        CheapestNoDearer(rides, rides[0]);
        DirectSearchIsOptimal(net, a, b, Cheapest(rides).value);
      } else if changes != [] {
        CheapestNoDearer(changes, changes[0]);
        ChangeSearchIsOptimal(net, a, b, Cheapest(changes).value);
      } else {
        forall segs: seq<Segment> ensures !IsOfferedJourney(net, segs, a, b) {
          NothingOffered(net, a, b, segs);
        }
      }
    }
  }

  lemma OfferedIsRide(net: seq<Route>, s: Segment, a: StopId, b: StopId)
    requires IsOffered(net, s, a, b)
    ensures IsRide(net, s, a, b)
  {
    var n, i: nat, j: nat :| 0 <= n < |net| && OfferedAs(net[n], i, j, a, b, s);
    assert RideAs(net[n], i, j, a, b, s);
  }

  lemma OfferedIsJourney(net: seq<Route>, segs: seq<Segment>, a: StopId, b: StopId)
    requires IsOfferedJourney(net, segs, a, b)
    ensures IsJourney(net, segs, a, b)
  {
    if |segs| == 1 {
      OfferedIsRide(net, segs[0], a, b);
    } else {
      OfferedIsRide(net, segs[0], a, Alighting(segs[0]));
      OfferedIsRide(net, segs[1], Alighting(segs[0]), b);
    }
  }

  /** Where every route is chained, what Search finds is an unbroken walk from origin to destination, costing its total. */
  lemma FoundIsAWalk(net: seq<Route>, a: StopId, b: StopId)
    requires DistinctIds(net) && AllChained(net) && BestJourney(net, a, b).Some?
    ensures var r := BestJourney(net, a, b).value; Walk(AllLegs(r.segments), a, b) && Fare(AllLegs(r.segments)) == r.total
  {
    SearchIsExact(net, a, b);
    var r := BestJourney(net, a, b).value;
    OfferedIsJourney(net, r.segments, a, b);
    JourneyIsAWalk(net, r.segments, a, b);
  }

  // ----- repeat-free routes: every ride is offered -----

  lemma RideIsOffered(net: seq<Route>, s: Segment, a: StopId, b: StopId)
    requires WellFormedNetwork(net) && IsRide(net, s, a, b)
    ensures IsOffered(net, s, a, b)
  {
    var n, i: nat, j: nat :| 0 <= n < |net| && RideAs(net[n], i, j, a, b, s);
    assert WellRouted(net[n].legs);
    RepeatFreeVisit(Stops(net[n].legs), a, i);
    RepeatFreeVisit(Stops(net[n].legs), b, j);
    assert OfferedAs(net[n], i, j, a, b, s);
  }

  lemma JourneyIsOffered(net: seq<Route>, segs: seq<Segment>, a: StopId, b: StopId)
    requires WellFormedNetwork(net) && IsJourney(net, segs, a, b)
    ensures IsOfferedJourney(net, segs, a, b)
  {
    if |segs| == 1 {
      RideIsOffered(net, segs[0], a, b);
    } else {
      RideIsOffered(net, segs[0], a, Alighting(segs[0]));
      RideIsOffered(net, segs[1], Alighting(segs[0]), b);
    }
  }

  lemma ChainedNetwork(net: seq<Route>)
    requires WellFormedNetwork(net)
    ensures AllChained(net)
  {
    forall i {:trigger Chained(net[i].legs)} | 0 <= i < |net| ensures Chained(net[i].legs) {
      assert WellRouted(net[i].legs);
    }
  }

  /** What Search finds beats every journey of at most two rides, and it finds one if there is any. */
  ghost predicate Unbeaten(net: seq<Route>, a: StopId, b: StopId, r: SearchResult) {
    && IsJourney(net, r.segments, a, b) && Adds(r)
    && forall segs: seq<Segment> {:trigger IsJourney(net, segs, a, b)} :: IsJourney(net, segs, a, b) ==> AsGoodAs(r, segs)
  }

  /** On chained, repeat-free routes nothing is hidden: found exactly when a journey of at most two rides exists. */
  lemma RepeatFreeSearchIsExact(net: seq<Route>, a: StopId, b: StopId)
    requires WellFormedNetwork(net)
    ensures BestJourney(net, a, b).Some? <==> a != b && exists segs: seq<Segment> :: IsJourney(net, segs, a, b)
    ensures BestJourney(net, a, b).Some? ==>
              var r := BestJourney(net, a, b).value;
              Unbeaten(net, a, b, r) && Walk(AllLegs(r.segments), a, b) && Fare(AllLegs(r.segments)) == r.total
  {
    SearchIsExact(net, a, b);
    forall segs: seq<Segment> ensures IsJourney(net, segs, a, b) <==> IsOfferedJourney(net, segs, a, b) {
      if IsJourney(net, segs, a, b) {
        JourneyIsOffered(net, segs, a, b);
      }
      if IsOfferedJourney(net, segs, a, b) {
        OfferedIsJourney(net, segs, a, b);
      }
    }
    ChainedNetwork(net);
    if BestJourney(net, a, b).Some? {
      FoundIsAWalk(net, a, b);
    }
  }
}
