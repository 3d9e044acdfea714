/** Return trips: routing/seed_data.go, and what they make of the search. */
module Reversal {
  import opened Wrappers
  import opened Routing
  import opened Journeys

  datatype RouteSeed = RouteSeed(name: string, legs: seq<Leg>)

  function Flip(l: Leg): Leg { Leg(l.to, l.from, l.fare) }

  function Reversed(legs: seq<Leg>): (back: seq<Leg>)
    ensures |back| == |legs|
    ensures forall i :: 0 <= i < |legs| ==> back[i] == Flip(legs[|legs| - 1 - i])
  {
    seq(|legs|, i requires 0 <= i < |legs| => Flip(legs[|legs| - 1 - i]))
  }

  method ReverseLegs(forward: seq<Leg>) returns (legs: array<Leg>)
    ensures fresh(legs) && legs[..] == Reversed(forward)
  {
    var n := |forward|;
    legs := new Leg[n];
    for i := 0 to n
      invariant forall k :: 0 <= k < i ==> legs[n - 1 - k] == Flip(forward[k])
    {
      legs[n - 1 - i] := Flip(forward[i]);
    }
    forall k | 0 <= k < n ensures legs[k] == Reversed(forward)[k] {
      assert legs[n - 1 - (n - 1 - k)] == Flip(forward[n - 1 - k]);
    }
  }

  /** names is the table of return-trip names; a corridor missing from it gets the empty name. */
  method BuildSeedRoutes(forward: seq<RouteSeed>, names: map<string, string>) returns (routes: seq<RouteSeed>)
    ensures OutAndBack(forward, names, routes)
  {
    routes := forward;
    for i := 0 to |forward|
      invariant |routes| == |forward| + i
      invariant forall k :: 0 <= k < |forward| ==> routes[k] == forward[k]
      invariant forall k :: 0 <= k < i ==> routes[|forward| + k] == ReturnTrip(forward[k], names)
    {
      var legs := ReverseLegs(forward[i].legs);
      var name := if forward[i].name in names then names[forward[i].name] else "";
      routes := routes + [RouteSeed(name, legs[..])];
    }
  }

  predicate OutAndBack(forward: seq<RouteSeed>, names: map<string, string>, routes: seq<RouteSeed>) {
    && |routes| == 2 * |forward|
    && (forall k {:trigger forward[k]} :: 0 <= k < |forward| ==> routes[k] == forward[k])
    && (forall k {:trigger forward[k]} :: 0 <= k < |forward| ==> routes[|forward| + k] == ReturnTrip(forward[k], names))
  }

  function ReturnTrip(r: RouteSeed, names: map<string, string>): RouteSeed {
    RouteSeed(if r.name in names then names[r.name] else "", Reversed(r.legs))
  }

  /** The return trip of a corridor: its own name, and each leg the other way at the same fare, last leg first. */
  lemma ReturnTripIs(r: RouteSeed, names: map<string, string>, i: nat)
    requires i < |r.legs|
    ensures var back, l := ReturnTrip(r, names), r.legs[|r.legs| - 1 - i];
            && |back.legs| == |r.legs|
            && back.legs[i].from == l.to && back.legs[i].to == l.from && back.legs[i].fare == l.fare
            && (r.name in names ==> back.name == names[r.name]) && (r.name !in names ==> back.name == "")
  {
  }

  // ----- reversing legs -----

  lemma DoubleReversal(legs: seq<Leg>)
    ensures Reversed(Reversed(legs)) == legs
  {
  }

  lemma {:induction false} FareReversed(legs: seq<Leg>)
    ensures Fare(Reversed(legs)) == Fare(legs)
  {
    if legs != [] {
      var front, last := legs[..|legs| - 1], legs[|legs| - 1];
      FareReversed(front);
      assert Reversed(legs) == [Flip(last)] + Reversed(front);
      FareSplits([Flip(last)], Reversed(front));
      assert [Flip(last)][..0] == [];
    }
  }

  /** What is left to pay after the first i legs is what the return trip charges for its first legs up to there. */
  lemma FareReversedUpTo(legs: seq<Leg>, i: nat)
    requires i <= |legs|
    ensures Fare(Reversed(legs)[..|legs| - i]) == Fare(legs) - Fare(legs[..i])
  {
    assert Reversed(legs)[..|legs| - i] == Reversed(legs[i..]);
    FareReversed(legs[i..]);
    assert legs == legs[..i] + legs[i..];
    FareSplits(legs[..i], legs[i..]);
  }

  lemma StopsReversed(legs: seq<Leg>, i: nat)
    requires Chained(legs) && legs != [] && i <= |legs|
    ensures Stops(Reversed(legs))[|legs| - i] == Stops(legs)[i]
  {
    assert LinkedAt(legs, i - 1);
    if i < |legs| {
      assert Reversed(legs)[|legs| - 1 - i] == Flip(legs[i]);
    }
  }

  lemma ReversalKeepsChaining(legs: seq<Leg>)
    requires Chained(legs)
    ensures Chained(Reversed(legs))
  {
    forall i | 0 <= i < |legs| - 1 ensures LinkedAt(Reversed(legs), i) {
      assert LinkedAt(legs, |legs| - 2 - i);
    }
  }

  ghost predicate FirstVisit(stops: seq<StopId>, s: StopId, i: nat) {
    i < |stops| && stops[i] == s && forall k :: 0 <= k < i ==> stops[k] != s
  }

  lemma LastBecomesFirst(legs: seq<Leg>, s: StopId, i: nat)
    requires Chained(legs) && legs != [] && i <= |legs|
    ensures LastVisit(Stops(Reversed(legs)), s, |legs| - i) <==> FirstVisit(Stops(legs), s, i)
  {
    var there, back := Stops(legs), Stops(Reversed(legs));
    forall k: nat | k <= |legs| ensures back[|legs| - k] == there[k] {
      StopsReversed(legs, k);
    }
    if FirstVisit(there, s, i) {
      forall k | |legs| - i < k < |back| ensures back[k] != s {
        assert back[|legs| - (|legs| - k)] == there[|legs| - k];
      }
    }
  }

  /** The fare from stop i to stop j of a route. */
  function FareBetween(legs: seq<Leg>, i: nat, j: nat): Option<int>
    requires i <= |legs| && j <= |legs|
  {
    if i < j then Some(Fare(legs[..j]) - Fare(legs[..i])) else None
  }

  lemma RideFare(legs: seq<Leg>, a: StopId, b: StopId, i: nat, j: nat)
    requires LastVisit(Stops(legs), a, i) && LastVisit(Stops(legs), b, j)
    ensures FareOf(legs, a, b) == FareBetween(legs, i, j)
  {
    if i < j {
      DirectBetween(Route(0, "", legs), a, b, i, j);
      PrefixFares(legs, i, j);
    } else {
      PositionIsLastVisit(Stops(legs), a, i);
      PositionIsLastVisit(Stops(legs), b, j);
    }
  }

  lemma PrefixFares(legs: seq<Leg>, i: nat, j: nat)
    requires i <= j <= |legs|
    ensures Fare(legs[i..j]) == Fare(legs[..j]) - Fare(legs[..i])
  {
    assert legs[..j] == legs[..i] + legs[i..j];
    FareSplits(legs[..i], legs[i..j]);
  }

  /**
   * Between stops both on a chained route, the return trip charges the ride between their first visits,
   * where the route itself charges the ride between their last.
   */
  lemma ReturnFare(legs: seq<Leg>, a: StopId, b: StopId, i: nat, j: nat)
    requires Chained(legs) && FirstVisit(Stops(legs), a, i) && FirstVisit(Stops(legs), b, j)
    ensures FareOf(Reversed(legs), b, a) == FareBetween(legs, i, j)
  {
    ReturnVisit(legs, a, i);
    ReturnVisit(legs, b, j);
    RideFare(Reversed(legs), b, a, |legs| - j, |legs| - i);
    ReversedFareBetween(legs, i, j);
  }

  lemma ReversedFareBetween(legs: seq<Leg>, i: nat, j: nat)
    requires i <= |legs| && j <= |legs|
    ensures FareBetween(Reversed(legs), |legs| - j, |legs| - i) == FareBetween(legs, i, j)
  {
    FareReversedUpTo(legs, i);
    FareReversedUpTo(legs, j);
  }

  lemma ReturnVisit(legs: seq<Leg>, s: StopId, i: nat)
    requires Chained(legs) && FirstVisit(Stops(legs), s, i)
    ensures i <= |legs| && LastVisit(Stops(Reversed(legs)), s, |legs| - i)
  {
    LastBecomesFirst(legs, s, i);
  }

  /** A repeated stop breaks the symmetry: a, b, a, c out and back charge different fares between a and c. */
  lemma RepeatedStopBreaksSymmetry(legs: seq<Leg>, a: StopId, b: StopId, c: StopId)
    requires a != b && b != c && a != c && |legs| == 3 && Chained(legs)
    requires Stops(legs)[0] == a && Stops(legs)[1] == b && Stops(legs)[2] == a && Stops(legs)[3] == c
    ensures FareOf(legs, a, c) == FareOf(Reversed(legs), c, a) <==> legs[0].fare + legs[1].fare == 0
  {
    RideFare(legs, a, c, 2, 3);
    ReturnFare(legs, a, c, 0, 3);
    FirstTwoFares(legs);
  }

  lemma FirstTwoFares(legs: seq<Leg>)
    requires |legs| >= 2
    ensures Fare(legs[..0]) == 0 && Fare(legs[..2]) == legs[0].fare + legs[1].fare
  {
    assert legs[..2][..1] == legs[..1] && legs[..1][..0] == [];
  }

  lemma ReversalKeepsRouting(legs: seq<Leg>)
    requires WellRouted(legs)
    ensures WellRouted(Reversed(legs))
  {
    ReversalKeepsChaining(legs);
    if legs != [] {
      ReversalKeepsRepeatFree(legs);
    }
  }

  lemma ReversalKeepsRepeatFree(legs: seq<Leg>)
    requires Chained(legs) && legs != [] && RepeatFree(Stops(legs))
    ensures RepeatFree(Stops(Reversed(legs)))
  {
    var back := Stops(Reversed(legs));
    forall i, j | 0 <= i < j < |back| ensures back[i] != back[j] {
      StopsReversed(legs, |legs| - i);
      StopsReversed(legs, |legs| - j);
    }
  }

  /** On a chained, repeat-free route the return trip charges what the trip out does. */
  lemma FareSymmetric(legs: seq<Leg>, a: StopId, b: StopId)
    requires WellRouted(legs)
    ensures FareOf(Reversed(legs), b, a) == FareOf(legs, a, b)
  {
    ReversalKeepsRouting(legs);
    DoubleReversal(legs);
    if FareOf(legs, a, b).Some? {
      FareComesBack(legs, a, b);
    } else if FareOf(Reversed(legs), b, a).Some? {
      FareComesBack(Reversed(legs), b, a);
    }
  }

  lemma FareComesBack(legs: seq<Leg>, a: StopId, b: StopId)
    requires WellRouted(legs) && FareOf(legs, a, b).Some?
    ensures FareOf(Reversed(legs), b, a) == FareOf(legs, a, b)
  {
    var i, j := DirectHasRide(Route(0, "", legs), a, b);
    ReturnFare(legs, a, b, i, j);
    RideFare(legs, a, b, i, j);
  }

  // ----- symmetric networks -----

  predicate ReturnOf(r: Route, back: Route) { back.legs == Reversed(r.legs) }

  predicate HasReturn(net: seq<Route>, r: Route) {
    exists m :: 0 <= m < |net| && ReturnOf(r, net[m])
  }

  /** Every route has its return trip. */
  predicate Mirrored(net: seq<Route>) {
    forall n {:trigger HasReturn(net, net[n])} :: 0 <= n < |net| ==> HasReturn(net, net[n])
  }

  lemma ReturnRide(r: Route, back: Route, a: StopId, b: StopId)
    requires WellRouted(r.legs) && ReturnOf(r, back) && Direct(r, a, b).Some?
    ensures Direct(back, b, a).Some? && Direct(back, b, a).value.fare == Direct(r, a, b).value.fare
  {
    FareSymmetric(r.legs, a, b);
  }

  lemma MirrorDirect(net: seq<Route>, n: nat, a: StopId, b: StopId) returns (t: Segment)
    requires n < |net| && WellRouted(net[n].legs) && HasReturn(net, net[n]) && Direct(net[n], a, b).Some?
    ensures IsRide(net, t, b, a) && Alighting(t) == a && t.fare == Direct(net[n], a, b).value.fare
  {
    var m :| 0 <= m < |net| && ReturnOf(net[n], net[m]);
    ReturnRide(net[n], net[m], a, b);
    t := Direct(net[m], b, a).value;
    DirectIsOffered(net, m, t, b, a);
    OfferedIsRide(net, t, b, a);
  }

  lemma MirrorRide(net: seq<Route>, s: Segment, a: StopId, b: StopId) returns (t: Segment)
    requires WellFormedNetwork(net) && Mirrored(net) && IsRide(net, s, a, b)
    ensures IsRide(net, t, b, a) && Alighting(t) == a && t.fare == s.fare
  {
    RideIsOffered(net, s, a, b);
    var n := OfferedIsDirect(net, s, a, b);
    assert WellRouted(net[n].legs) && HasReturn(net, net[n]);
    t := MirrorDirect(net, n, a, b);
  }

  lemma MirrorJourney(net: seq<Route>, segs: seq<Segment>, a: StopId, b: StopId) returns (back: seq<Segment>)
    requires WellFormedNetwork(net) && Mirrored(net) && IsJourney(net, segs, a, b)
    ensures IsJourney(net, back, b, a) && |back| == |segs| && JourneyFare(back) == JourneyFare(segs)
  {
    if |segs| == 1 {
      back := MirrorRideJourney(net, segs, a, b);
    } else {
      back := MirrorChange(net, segs, a, b);
    }
  }

  lemma MirrorRideJourney(net: seq<Route>, segs: seq<Segment>, a: StopId, b: StopId) returns (back: seq<Segment>)
    requires WellFormedNetwork(net) && Mirrored(net) && |segs| == 1 && IsRide(net, segs[0], a, b)
    ensures IsJourney(net, back, b, a) && |back| == |segs| && JourneyFare(back) == JourneyFare(segs)
  {
    back := MirrorOne(net, segs[0], a, b);
    SameFare(segs, back);
  }

  lemma MirrorChange(net: seq<Route>, segs: seq<Segment>, a: StopId, b: StopId) returns (back: seq<Segment>)
    requires WellFormedNetwork(net) && Mirrored(net) && |segs| == 2
    requires IsRide(net, segs[0], a, Alighting(segs[0])) && IsRide(net, segs[1], Alighting(segs[0]), b)
    ensures IsJourney(net, back, b, a) && |back| == |segs| && JourneyFare(back) == JourneyFare(segs)
  {
    back := MirrorTwo(net, segs[0], segs[1], a, Alighting(segs[0]), b);
    SameFare(segs, back);
  }

  lemma SameFare(segs: seq<Segment>, back: seq<Segment>)
    requires |back| == |segs| && 1 <= |segs| <= 2
    requires back[0].fare == segs[|segs| - 1].fare && back[|segs| - 1].fare == segs[0].fare
    ensures JourneyFare(back) == JourneyFare(segs)
  {
    JourneyFareIs(segs);
    JourneyFareIs(back);
  }

  lemma MirrorOne(net: seq<Route>, s: Segment, a: StopId, b: StopId) returns (back: seq<Segment>)
    requires WellFormedNetwork(net) && Mirrored(net) && IsRide(net, s, a, b)
    ensures |back| == 1 && IsJourney(net, back, b, a) && back[0].fare == s.fare
  {
    var t := MirrorRide(net, s, a, b);
    back := [t];
  }

  lemma MirrorTwo(net: seq<Route>, s: Segment, t: Segment, a: StopId, c: StopId, b: StopId) returns (back: seq<Segment>)
    requires WellFormedNetwork(net) && Mirrored(net) && IsRide(net, s, a, c) && IsRide(net, t, c, b)
    ensures |back| == 2 && IsJourney(net, back, b, a) && back[0].fare == t.fare && back[1].fare == s.fare
  {
    var s' := MirrorRide(net, s, a, c);
    var t' := MirrorRide(net, t, c, b);
    back := Pair(t', s');
  }

  function Pair(s: Segment, t: Segment): (segs: seq<Segment>)
    ensures |segs| == 2 && segs[0] == s && segs[1] == t
  {
    [s, t]
  }

  lemma NoBetterBack(net: seq<Route>, a: StopId, b: StopId)
    requires WellFormedNetwork(net) && Mirrored(net) && BestJourney(net, a, b).Some?
    ensures BestJourney(net, b, a).Some?
    ensures var r, s := BestJourney(net, a, b).value, BestJourney(net, b, a).value;
            s.transfers < r.transfers || (s.transfers == r.transfers && s.total <= r.total)
  {
    FoundIsJourney(net, a, b);
    var back := MirrorJourney(net, BestJourney(net, a, b).value.segments, a, b);
    FindsNoWorse(net, b, a, back);
  }

  lemma FoundIsJourney(net: seq<Route>, a: StopId, b: StopId)
    requires WellFormedNetwork(net) && BestJourney(net, a, b).Some?
    ensures var r := BestJourney(net, a, b).value;
            a != b && IsJourney(net, r.segments, a, b) && |r.segments| == r.transfers + 1 && r.total == JourneyFare(r.segments)
  {
    RepeatFreeSearchIsExact(net, a, b);
  }

  lemma FindsNoWorse(net: seq<Route>, a: StopId, b: StopId, segs: seq<Segment>)
    requires WellFormedNetwork(net) && a != b && IsJourney(net, segs, a, b)
    ensures BestJourney(net, a, b).Some?
    ensures var r := BestJourney(net, a, b).value;
            r.transfers + 1 < |segs| || (r.transfers + 1 == |segs| && r.total <= JourneyFare(segs))
  {
    RepeatFreeSearchIsExact(net, a, b);
  }

  /** Where every route has its return trip, the way back takes as many rides and costs as much. */
  lemma SearchSymmetric(net: seq<Route>, a: StopId, b: StopId)
    requires WellFormedNetwork(net) && Mirrored(net)
    ensures BestJourney(net, a, b).Some? <==> BestJourney(net, b, a).Some?
    ensures BestJourney(net, a, b).Some? ==>
              && BestJourney(net, a, b).value.transfers == BestJourney(net, b, a).value.transfers
              && BestJourney(net, a, b).value.total == BestJourney(net, b, a).value.total
  {
    if BestJourney(net, a, b).Some? {
      NoBetterBack(net, a, b);
    }
    if BestJourney(net, b, a).Some? {
      NoBetterBack(net, b, a);
    }
  }

  /** The routes seeded from corridors and their return trips, under distinct ids. */
  predicate SeededAs(forward: seq<RouteSeed>, names: map<string, string>, net: seq<Route>) {
    && |net| == 2 * |forward|
    && (forall k {:trigger forward[k]} :: 0 <= k < |forward| ==> net[k].legs == forward[k].legs)
    && (forall k {:trigger forward[k]} :: 0 <= k < |forward| ==> net[|forward| + k].legs == ReturnTrip(forward[k], names).legs)
    && forall i, j :: 0 <= i < j < |net| ==> net[i].id != net[j].id
  }

  lemma SeededPair(forward: seq<RouteSeed>, names: map<string, string>, net: seq<Route>, k: nat)
    requires SeededAs(forward, names, net) && k < |forward| && WellRouted(forward[k].legs)
    ensures WellRouted(net[k].legs) && HasReturn(net, net[k])
    ensures WellRouted(net[|forward| + k].legs) && HasReturn(net, net[|forward| + k])
  {
    var back := net[|forward| + k];
    ReversalKeepsRouting(net[k].legs);
    DoubleReversal(net[k].legs);
    assert ReturnOf(net[k], back) && ReturnOf(back, net[k]);
  }

  /** What seeding builds from chained, repeat-free corridors is such a network. */
  lemma SeededNetworkIsMirrored(forward: seq<RouteSeed>, names: map<string, string>, net: seq<Route>)
    requires SeededAs(forward, names, net)
    requires forall k {:trigger WellRouted(forward[k].legs)} :: 0 <= k < |forward| ==> WellRouted(forward[k].legs)
    ensures WellFormedNetwork(net) && Mirrored(net)
  {
    forall n {:trigger WellRouted(net[n].legs)} | 0 <= n < |net| ensures WellRouted(net[n].legs) {
      SeededAt(forward, names, net, n);
    }
    forall n {:trigger HasReturn(net, net[n])} | 0 <= n < |net| ensures HasReturn(net, net[n]) {
      SeededAt(forward, names, net, n);
    }
  }

  lemma SeededAt(forward: seq<RouteSeed>, names: map<string, string>, net: seq<Route>, n: nat)
    requires SeededAs(forward, names, net) && n < |net|
    requires forall k {:trigger WellRouted(forward[k].legs)} :: 0 <= k < |forward| ==> WellRouted(forward[k].legs)
    ensures WellRouted(net[n].legs) && HasReturn(net, net[n])
  {
    if n < |forward| {
      SeededPair(forward, names, net, n);
    } else {
      var k: nat := n - |forward|;
      SeededPair(forward, names, net, k);
    }
  }
}
