/** Which of several equally good journeys Search returns, told on the listed routes themselves. */
module FirstFound {
  import opened Wrappers
  import opened Lists
  import opened Routing
  import opened Journeys

  /** A fare is the sum over the legs. */
  lemma FareIsTheSum(legs: seq<Leg>, l: Leg)
    ensures Fare([]) == 0 && Fare(legs + [l]) == Fare(legs) + l.fare
  {
    assert (legs + [l])[..|legs|] == legs;
  }

  // ----- the first of the cheapest -----

  /** The k-th is the first of the cheapest there are. */
  predicate FirstOf(tries: seq<Option<SearchResult>>, k: nat) {
    && k < |tries| && tries[k].Some?
    && forall j :: 0 <= j < |tries| && tries[j].Some? ==>
         tries[k].value.total <= tries[j].value.total && (j < k ==> tries[k].value.total < tries[j].value.total)
  }

  lemma GatherOne(tries: seq<Option<SearchResult>>)
    requires tries != []
    ensures Cheapest(Gather(tries)) == Better(Cheapest(Gather(tries[..|tries| - 1])), tries[|tries| - 1])
  {
    GatherOneMore(tries, |tries| - 1);
    assert tries[..|tries|] == tries;
  }

  lemma {:induction false} NothingBefore(tries: seq<Option<SearchResult>>)
    requires Cheapest(Gather(tries)).None?
    ensures forall j :: 0 <= j < |tries| ==> tries[j].None?
  {
    if tries != [] {
      var front := tries[..|tries| - 1];
      GatherOne(tries);
      NothingBefore(front);
      assert forall j :: 0 <= j < |front| ==> tries[j] == front[j];
    }
  }

  /** One more try is the first of the cheapest exactly when it is strictly cheaper. */
  lemma OneMoreTry(tries: seq<Option<SearchResult>>, i: nat) returns (k: nat)
    requires tries != [] && FirstOf(tries[..|tries| - 1], i)
    ensures FirstOf(tries, k) && Better(tries[..|tries| - 1][i], tries[|tries| - 1]) == tries[k]
  {
    var front, last := tries[..|tries| - 1], tries[|tries| - 1];
    assert forall j :: 0 <= j < |front| ==> tries[j] == front[j];
    k := if last.Some? && last.value.total < tries[i].value.total then |tries| - 1 else i;
  }

  lemma FirstTry(tries: seq<Option<SearchResult>>)
    requires tries != [] && Cheapest(Gather(tries[..|tries| - 1])).None? && tries[|tries| - 1].Some?
    ensures FirstOf(tries, |tries| - 1)
  {
    var front := tries[..|tries| - 1];
    NothingBefore(front);
    assert forall j :: 0 <= j < |front| ==> tries[j] == front[j];
  }

  lemma {:induction false} GatherFirst(tries: seq<Option<SearchResult>>) returns (k: nat)
    requires Cheapest(Gather(tries)).Some?
    ensures FirstOf(tries, k) && Cheapest(Gather(tries)) == tries[k]
  {
    var front := tries[..|tries| - 1];
    GatherOne(tries);
    if Cheapest(Gather(front)).Some? {
      var i := GatherFirst(front);
      k := OneMoreTry(tries, i);
    } else {
      k := |tries| - 1;
      FirstTry(tries);
    }
  }

  lemma {:induction false} CheapestJoin(a: seq<SearchResult>, b: seq<SearchResult>)
    ensures Cheapest(a + b) == Better(Cheapest(a), Cheapest(b))
  {
    if b == [] {
      assert a + b == a;
    } else {
      CheapestJoin(a, b[..|b| - 1]);
      assert (a + b)[..|a + b| - 1] == a + b[..|b| - 1];
    }
  }

  /** The cheapest of each list. */
  function Heads(lists: seq<seq<SearchResult>>): (heads: seq<Option<SearchResult>>)
    ensures |heads| == |lists| && forall q :: 0 <= q < |lists| ==> heads[q] == Cheapest(lists[q])
  {
    seq(|lists|, q requires 0 <= q < |lists| => Cheapest(lists[q]))
  }

  lemma {:induction false} CheapestOfHeads(lists: seq<seq<SearchResult>>)
    ensures Cheapest(Flatten(lists)) == Cheapest(Gather(Heads(lists)))
  {
    if lists != [] {
      var front := lists[..|lists| - 1];
      CheapestOfHeads(front);
      CheapestJoin(Flatten(front), lists[|lists| - 1]);
      assert Heads(lists)[..|lists| - 1] == Heads(front);
      GatherOne(Heads(lists));
    }
  }

  lemma FlattenFirst(lists: seq<seq<SearchResult>>) returns (p: nat)
    requires Cheapest(Flatten(lists)).Some?
    ensures FirstOf(Heads(lists), p) && Cheapest(Flatten(lists)) == Cheapest(lists[p])
  {
    CheapestOfHeads(lists);
    p := GatherFirst(Heads(lists));
  }

  // ----- direct rides -----

  lemma OfferedAsDirect(r: Route, i: nat, j: nat, a: StopId, b: StopId, s: Segment)
    requires OfferedAs(r, i, j, a, b, s)
    ensures Direct(r, a, b) == Some(s)
  {
    DirectBetween(r, a, b, i, j);
  }

  lemma SomethingDirect(net: seq<Route>, a: StopId, b: StopId)
    requires exists t: Segment :: IsOffered(net, t, a, b)
    ensures DirectRides(net, a, b) != [] && Cheapest(DirectRides(net, a, b)).Some?
  {
    var t: Segment :| IsOffered(net, t, a, b);
    var x := OfferedIsDirect(net, t, a, b);
    RideListed(net, a, b, x, Alone(Direct(net[x], a, b)).value);
    CheapestNoDearer(DirectRides(net, a, b), Alone(Direct(net[x], a, b)).value);
  }

  lemma DirectIsDearer(net: seq<Route>, a: StopId, b: StopId, n: nat, m: nat, i: nat, j: nat, t: Segment)
    requires FirstOf(DirectTries(net, a, b), n) && m < |net| && OfferedAs(net[m], i, j, a, b, t)
    ensures var best := DirectTries(net, a, b)[n].value.total; best <= t.fare && (m < n ==> best < t.fare)
  {
    OfferedAsDirect(net[m], i, j, a, b, t);
    assert DirectTries(net, a, b)[m] == Alone(Some(t));
  }

  /** Of the offered direct rides, the first listed of the cheapest: every earlier route's ride is strictly dearer. */
  lemma FirstDirectRide(net: seq<Route>, a: StopId, b: StopId) returns (n: nat, i: nat, j: nat, s: Segment)
    requires a != b && exists t: Segment :: IsOffered(net, t, a, b)
    ensures n < |net| && OfferedAs(net[n], i, j, a, b, s)
    ensures BestJourney(net, a, b) == Some(SearchResult(0, s.fare, [s]))
    ensures forall m, i': nat, j': nat, t: Segment {:trigger OfferedAs(net[m], i', j', a, b, t)} ::
              0 <= m < |net| && OfferedAs(net[m], i', j', a, b, t) ==> s.fare <= t.fare && (m < n ==> s.fare < t.fare)
  {
    SomethingDirect(net, a, b);
    n := GatherFirst(DirectTries(net, a, b));
    i, j := DirectHasRide(net[n], a, b);
    s := Direct(net[n], a, b).value;
    forall m, i': nat, j': nat, t: Segment {:trigger OfferedAs(net[m], i', j', a, b, t)}
      | 0 <= m < |net| && OfferedAs(net[m], i', j', a, b, t)
      ensures s.fare <= t.fare && (m < n ==> s.fare < t.fare)
    {
      DirectIsDearer(net, a, b, n, m, i', j', t);
    }
  }

  // ----- changes -----

  ghost predicate Offers(r: Route, a: StopId, b: StopId, s: Segment) {
    exists i: nat, j: nat :: OfferedAs(r, i, j, a, b, s)
  }

  /** Riding the n-th route to its k-th stop and the m-th, a different one, from there. */
  ghost predicate ChangeAs(net: seq<Route>, n: nat, m: nat, k: nat, a: StopId, b: StopId, s: Segment, t: Segment) {
    && n < |net| && m < |net| && net[n].id != net[m].id && k < |Stops(net[n].legs)|
    && Offers(net[n], a, Stops(net[n].legs)[k], s) && Offers(net[m], Stops(net[n].legs)[k], b, t)
  }

  lemma OffersIsDirect(r: Route, a: StopId, b: StopId, s: Segment)
    ensures Offers(r, a, b, s) <==> Direct(r, a, b) == Some(s)
  {
    if Offers(r, a, b, s) {
      var i: nat, j: nat :| OfferedAs(r, i, j, a, b, s);
      OfferedAsDirect(r, i, j, a, b, s);
    } else if Direct(r, a, b) == Some(s) {
      var i, j := DirectHasRide(r, a, b);
    }
  }

  function TriesAt(net: seq<Route>, n: nat, m: nat, a: StopId, b: StopId): seq<Option<SearchResult>>
    requires n < |net| && m < |net|
  {
    ChangeTries(net[n], net[m], Stops(net[n].legs), a, b)
  }

  lemma ChangeIsTry(net: seq<Route>, n: nat, m: nat, k: nat, a: StopId, b: StopId, s: Segment, t: Segment)
    requires n < |net| && m < |net| && k < |Stops(net[n].legs)| && net[n].id != net[m].id
    ensures ChangeAs(net, n, m, k, a, b, s, t)
            <==> Direct(net[n], a, Stops(net[n].legs)[k]) == Some(s) && Direct(net[m], Stops(net[n].legs)[k], b) == Some(t)
    ensures ChangeAs(net, n, m, k, a, b, s, t) ==> TriesAt(net, n, m, a, b)[k] == Joined(Some(s), Some(t))
  {
    OffersIsDirect(net[n], a, Stops(net[n].legs)[k], s);
    OffersIsDirect(net[m], Stops(net[n].legs)[k], b, t);
  }

  /** Earlier in the nested loops. */
  predicate Before(n: nat, m: nat, k: nat, n': nat, m': nat, k': nat) {
    n < n' || (n == n' && (m < m' || (m == m' && k < k')))
  }

  /** The loops stand at n, m and k when the best change is met. */
  predicate StandAt(net: seq<Route>, a: StopId, b: StopId, n: nat, m: nat, k: nat, best: SearchResult) {
    && n < |net| && m < |net| && net[n].id != net[m].id
    && FirstOf(Heads(FirstRides(net, a, b)), n) && FirstOf(Heads(SecondRides(net[n], net, a, b)), m)
    && FirstOf(TriesAt(net, n, m, a, b), k) && TriesAt(net, n, m, a, b)[k] == Some(best)
    && Cheapest(ChangesFrom(net[n], net, a, b)) == Some(best) && Cheapest(ChangesBetween(net[n], net[m], a, b)) == Some(best)
  }

  lemma LoopsStand(net: seq<Route>, a: StopId, b: StopId) returns (n: nat, m: nat, k: nat)
    requires Cheapest(Changes(net, a, b)).Some?
    ensures StandAt(net, a, b, n, m, k, Cheapest(Changes(net, a, b)).value)
  {
    n := FlattenFirst(FirstRides(net, a, b));
    m := FlattenFirst(SecondRides(net[n], net, a, b));
    k := GatherFirst(TriesAt(net, n, m, a, b));
  }

  lemma TryIsMember(net: seq<Route>, n: nat, m: nat, k: nat, a: StopId, b: StopId, x: SearchResult)
    requires n < |net| && m < |net| && net[n].id != net[m].id && k < |Stops(net[n].legs)|
    requires TriesAt(net, n, m, a, b)[k] == Some(x)
    ensures x in ChangesBetween(net[n], net[m], a, b) && x in ChangesFrom(net[n], net, a, b)
  {
    TryIsGathered(TriesAt(net, n, m, a, b), k);
    MemberIsFlattened(SecondRides(net[n], net, a, b), m, x);
  }

  /** Any other try is no cheaper, and dearer if met earlier. */
  lemma OthersAreDearer(net: seq<Route>, a: StopId, b: StopId, n: nat, m: nat, k: nat, n': nat, m': nat, k': nat,
                        best: SearchResult, x: SearchResult)
    requires StandAt(net, a, b, n, m, k, best)
    requires n' < |net| && m' < |net| && net[n'].id != net[m'].id && k' < |Stops(net[n'].legs)|
    requires TriesAt(net, n', m', a, b)[k'] == Some(x)
    ensures best.total <= x.total && (Before(n', m', k', n, m, k) ==> best.total < x.total)
  {
    TryIsMember(net, n', m', k', a, b, x);
    FirstRouteIsDearer(net, a, b, n, n', best, x);
    if n' == n {
      SecondRouteIsDearer(net, a, b, n, m, m', best, x);
    }
  }

  lemma FirstRouteIsDearer(net: seq<Route>, a: StopId, b: StopId, n: nat, n': nat, best: SearchResult, x: SearchResult)
    requires n < |net| && n' < |net| && FirstOf(Heads(FirstRides(net, a, b)), n)
    requires Cheapest(ChangesFrom(net[n], net, a, b)) == Some(best) && x in ChangesFrom(net[n'], net, a, b)
    ensures best.total <= x.total && (n' < n ==> best.total < x.total)
  {
    CheapestNoDearer(ChangesFrom(net[n'], net, a, b), x);
    assert Heads(FirstRides(net, a, b))[n'] == Cheapest(ChangesFrom(net[n'], net, a, b));
    assert Heads(FirstRides(net, a, b))[n] == Some(best);
  }

  lemma SecondRouteIsDearer(net: seq<Route>, a: StopId, b: StopId, n: nat, m: nat, m': nat, best: SearchResult, x: SearchResult)
    requires n < |net| && m < |net| && m' < |net| && FirstOf(Heads(SecondRides(net[n], net, a, b)), m)
    requires Cheapest(ChangesBetween(net[n], net[m], a, b)) == Some(best) && x in ChangesBetween(net[n], net[m'], a, b)
    ensures best.total <= x.total && (m' < m ==> best.total < x.total)
  {
    CheapestNoDearer(ChangesBetween(net[n], net[m'], a, b), x);
    assert Heads(SecondRides(net[n], net, a, b))[m'] == Cheapest(ChangesBetween(net[n], net[m'], a, b));
    assert Heads(SecondRides(net[n], net, a, b))[m] == Some(best);
  }

  lemma ChangeIsDearer(net: seq<Route>, a: StopId, b: StopId, n: nat, m: nat, k: nat, best: SearchResult,
                       n': nat, m': nat, k': nat, s: Segment, t: Segment)
    requires StandAt(net, a, b, n, m, k, best) && ChangeAs(net, n', m', k', a, b, s, t)
    ensures best.total <= s.fare + t.fare && (Before(n', m', k', n, m, k) ==> best.total < s.fare + t.fare)
  {
    ChangeIsTry(net, n', m', k', a, b, s, t);
    OthersAreDearer(net, a, b, n, m, k, n', m', k', best, Joined(Some(s), Some(t)).value);
  }

  lemma StandingChange(net: seq<Route>, a: StopId, b: StopId, n: nat, m: nat, k: nat, best: SearchResult)
    returns (s: Segment, t: Segment)
    requires StandAt(net, a, b, n, m, k, best)
    ensures ChangeAs(net, n, m, k, a, b, s, t) && best == SearchResult(1, s.fare + t.fare, [s, t])
  {
    s, t := PartsOf(net[n], net[m], a, Stops(net[n].legs)[k], b, best);
    ChangeIsTry(net, n, m, k, a, b, s, t);
  }

  lemma PartsOf(r1: Route, r2: Route, a: StopId, c: StopId, b: StopId, x: SearchResult) returns (s: Segment, t: Segment)
    requires ChangeAt(r1, r2, a, c, b) == Some(x)
    ensures Direct(r1, a, c) == Some(s) && Direct(r2, c, b) == Some(t) && x == SearchResult(1, s.fare + t.fare, [s, t])
  {
    s, t := Direct(r1, a, c).value, Direct(r2, c, b).value;
  }

  /** With no direct ride: of the cheapest changes, the first in the order of first route, second route, stop of the first. */
  lemma FirstChange(net: seq<Route>, a: StopId, b: StopId) returns (n: nat, m: nat, k: nat, s: Segment, t: Segment)
    requires BestJourney(net, a, b).Some? && forall u: Segment :: !IsOffered(net, u, a, b)
    ensures ChangeAs(net, n, m, k, a, b, s, t)
    ensures BestJourney(net, a, b) == Some(SearchResult(1, s.fare + t.fare, [s, t]))
    ensures forall n', m', k', s', t' {:trigger ChangeAs(net, n', m', k', a, b, s', t')} ::
              ChangeAs(net, n', m', k', a, b, s', t') ==>
                s.fare + t.fare <= s'.fare + t'.fare
                && (Before(n', m', k', n, m, k) ==> s.fare + t.fare < s'.fare + t'.fare)
  {
    NoDirectRides(net, a, b);
    n, m, k := LoopsStand(net, a, b);
    var best := Cheapest(Changes(net, a, b)).value;
    s, t := StandingChange(net, a, b, n, m, k, best);
    forall n', m', k', s', t' {:trigger ChangeAs(net, n', m', k', a, b, s', t')} | ChangeAs(net, n', m', k', a, b, s', t')
      ensures best.total <= s'.fare + t'.fare && (Before(n', m', k', n, m, k) ==> best.total < s'.fare + t'.fare)
    {
      ChangeIsDearer(net, a, b, n, m, k, best, n', m', k', s', t');
    }
  }

  lemma NoDirectRides(net: seq<Route>, a: StopId, b: StopId)
    requires forall u: Segment :: !IsOffered(net, u, a, b)
    ensures DirectRides(net, a, b) == []
  {
    if DirectRides(net, a, b) != [] {
      ListedIsRide(net, a, b, DirectRides(net, a, b)[0]);
    }
  }
}
