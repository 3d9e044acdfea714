/** The per-driver limit on short-code attempts: boarding/ratelimit.go. */
module RateLimiter {
  type DriverId = nat
  type Instant = int

  // ----- what Allow decides -----

  /** The times after cutoff, in order. */
  function Kept(times: seq<Instant>, cutoff: Instant): (kept: seq<Instant>)
    ensures |kept| <= |times|
  {
    if times == [] then []
    else
      var front, t := Kept(times[..|times| - 1], cutoff), times[|times| - 1];
      if t > cutoff then front + [t] else front
  }

  predicate Admits(times: seq<Instant>, now: Instant, window: int, max: int) {
    |Kept(times, now - window)| < max
  }

  function Joined(times: seq<Instant>, more: bool, at: Instant): seq<Instant> {
    if more then times + [at] else times
  }

  /** The times stored after an attempt at now. */
  function Recorded(times: seq<Instant>, now: Instant, window: int, max: int): seq<Instant> {
    Joined(Kept(times, now - window), Admits(times, now, window, max), now)
  }

  /** A driver's stored times: the first len cells of a backing array, as a Go slice. */
  datatype Slice = Slice(data: array<Instant>, len: nat)

  class CodeRateLimiter {
    const window: int
    const max: int
    var attempts: map<DriverId, Slice>

    ghost predicate Valid()
      reads this
    {
      && (forall d :: d in attempts ==> attempts[d].len <= attempts[d].data.Length)
      && forall d, e :: d in attempts && e in attempts && d != e ==> attempts[d].data != attempts[e].data
    }

    ghost function Arrays(): set<object>
      reads this
    {
      set d | d in attempts :: attempts[d].data
    }

    ghost function Times(d: DriverId): seq<Instant>
      requires Valid()
      reads this, Arrays()
    {
      if d in attempts then attempts[d].data[..attempts[d].len] else []
    }

    constructor (window: int, max: int)
      ensures Valid() && this.window == window && this.max == max && attempts == map[]
    {
      this.window := window;
      this.max := max;
      attempts := map[];
    }

    /** Filters the driver's array in place, then appends into it when there is room and into a bigger copy when not. */
    method Allow(d: DriverId, now: Instant) returns (ok: bool)
      requires Valid()
      modifies this, if d in attempts then {attempts[d].data} else {}
      ensures Valid()
      ensures ok == Admits(old(Times(d)), now, window, max)
      ensures Times(d) == Recorded(old(Times(d)), now, window, max)
      ensures forall e :: e != d ==> Times(e) == old(Times(e))
    {
      var slice: Slice;
      if d in attempts {
        slice := attempts[d];
      } else {
        var none := new Instant[0];
        slice := Slice(none, 0);
      }
      var k := FilterInPlace(slice, now - window);
      if k >= max {
        attempts := attempts[d := Slice(slice.data, k)];
        return false;
      }
      var grown := Append(slice.data, k, now);
      attempts := attempts[d := Slice(grown, k + 1)];
      ok := true;
    }
  }

  lemma KeptOneMore(times: seq<Instant>, i: nat, cutoff: Instant)
    requires i < |times|
    ensures Kept(times[..i + 1], cutoff) == Kept(times[..i], cutoff) + if times[i] > cutoff then [times[i]] else []
  {
    assert times[..i + 1][..i] == times[..i];
  }

  method FilterInPlace(slice: Slice, cutoff: Instant) returns (k: nat)
    requires slice.len <= slice.data.Length
    modifies slice.data
    ensures k <= slice.len && slice.data[..k] == Kept(old(slice.data[..slice.len]), cutoff)
  {
    k := 0;
    var a := slice.data;
    ghost var was := a[..slice.len];
    for i := 0 to slice.len
      invariant k <= i
      invariant a[..k] == Kept(was[..i], cutoff)
      invariant forall j :: i <= j < slice.len ==> a[j] == was[j]
    {
      var t := a[i];
      KeptOneMore(was, i, cutoff);
      if t > cutoff {
        a[k] := t;
        k := k + 1;
      }
    }
    assert was[..slice.len] == was;
  }

  /** Go's append at length k: in place while the array has room, else into a new, larger array. */
  method Append(a: array<Instant>, k: nat, t: Instant) returns (b: array<Instant>)
    requires k <= a.Length
    modifies a
    ensures k < b.Length && b[..k + 1] == old(a[..k]) + [t]
    ensures b == a || fresh(b)
  {
    b := a;
    if k == a.Length {
      b := new Instant[2 * k + 1];
      for i := 0 to k
        invariant b[..i] == a[..i]
        invariant a[..] == old(a[..])
      {
        b[i] := a[i];
      }
    }
    b[k] := t;
  }

  // ----- runs -----

  datatype Attempt = Attempt(driver: DriverId, at: Instant)

  predicate ClockMovesForward(run: seq<Attempt>) {
    forall i, j :: 0 <= i < j < |run| ==> run[i].at <= run[j].at
  }

  /** What the limiter holds for d after a run. */
  function Log(run: seq<Attempt>, d: DriverId, window: int, max: int): seq<Instant> {
    if run == [] then []
    else
      var front, last := Log(run[..|run| - 1], d, window, max), run[|run| - 1];
      if last.driver == d then Recorded(front, last.at, window, max) else front
  }

  /** When d was allowed through. */
  function Allowed(run: seq<Attempt>, d: DriverId, window: int, max: int): seq<Instant> {
    if run == [] then []
    else
      var front, last := run[..|run| - 1], run[|run| - 1];
      Joined(Allowed(front, d, window, max),
             last.driver == d && Admits(Log(front, d, window, max), last.at, window, max), last.at)
  }

  predicate NoLaterThan(times: seq<Instant>, t: Instant) {
    forall i :: 0 <= i < |times| ==> times[i] <= t
  }

  predicate Sorted(times: seq<Instant>) {
    times == [] || (Sorted(times[..|times| - 1]) && NoLaterThan(times[..|times| - 1], times[|times| - 1]))
  }

  /** Any max + 1 consecutive times span at least the window. */
  predicate Spaced(times: seq<Instant>, window: int, max: nat) {
    times == []
    || (Spaced(times[..|times| - 1], window, max)
        && (|times| > max ==> times[|times| - 1 - max] + window <= times[|times| - 1]))
  }

  lemma {:induction false} KeptNone(times: seq<Instant>, cutoff: Instant)
    requires NoLaterThan(times, cutoff)
    ensures Kept(times, cutoff) == []
  {
    if times != [] {
      KeptNone(times[..|times| - 1], cutoff);
    }
  }

  lemma {:induction false} KeptJoins(early: seq<Instant>, late: seq<Instant>, cutoff: Instant)
    ensures Kept(early + late, cutoff) == Kept(early, cutoff) + Kept(late, cutoff)
  {
    if late == [] {
      assert early + late == early;
    } else {
      KeptJoins(early, late[..|late| - 1], cutoff);
      assert (early + late)[..|early + late| - 1] == early + late[..|late| - 1];
    }
  }

  /** In a sorted sequence the times kept are its tail. */
  lemma {:induction false} KeptIsTail(times: seq<Instant>, cutoff: Instant) returns (early: seq<Instant>)
    requires Sorted(times)
    ensures times == early + Kept(times, cutoff) && NoLaterThan(early, cutoff)
  {
    early := times;
    if times != [] {
      var front, last := times[..|times| - 1], times[|times| - 1];
      assert times == front + [last];
      if last <= cutoff {
        KeptNone(times, cutoff);
      } else {
        early := KeptIsTail(front, cutoff);
      }
    }
  }

  /** Dropping old times early changes nothing later. */
  lemma EarlyDropsDoNotMatter(early: seq<Instant>, held: seq<Instant>, cutoff: Instant)
    requires NoLaterThan(early, cutoff)
    ensures Kept(early + held, cutoff) == Kept(held, cutoff)
  {
    KeptJoins(early, held, cutoff);
    KeptNone(early, cutoff);
  }

  lemma {:induction false} RunInvariant(run: seq<Attempt>, d: DriverId, window: int, max: nat, now: Instant)
    returns (early: seq<Instant>)
    requires ClockMovesForward(run) && (run != [] ==> run[|run| - 1].at <= now)
    ensures Allowed(run, d, window, max) == early + Log(run, d, window, max) && NoLaterThan(early, now - window)
    ensures var allowed := Allowed(run, d, window, max);
            Sorted(allowed) && Spaced(allowed, window, max) && NoLaterThan(allowed, now)
    ensures |Log(run, d, window, max)| <= max
  {
    early := [];
    if run != [] {
      var front, last := run[..|run| - 1], run[|run| - 1];
      early := RunInvariant(front, d, window, max, last.at);
      hide Kept, Recorded, Admits, Sorted, Spaced;
      var more := last.driver == d;
      early := StepInvariant(early, Log(front, d, window, max), more, last.at, window, max);
      LaterStill(early, last.at - window, now - window);
      LaterStill(Allowed(run, d, window, max), last.at, now);
    }
  }

  lemma LaterStill(times: seq<Instant>, t: Instant, u: Instant)
    requires NoLaterThan(times, t) && t <= u
    ensures NoLaterThan(times, u)
  {
  }

  /** One attempt, by this driver or another. */
  lemma StepInvariant(dropped: seq<Instant>, held: seq<Instant>, mine: bool, at: Instant, window: int, max: nat)
    returns (early: seq<Instant>)
    requires NoLaterThan(dropped, at - window) && |held| <= max
    requires Sorted(dropped + held) && Spaced(dropped + held, window, max) && NoLaterThan(dropped + held, at)
    ensures mine ==>
              var held', allowed' := Recorded(held, at, window, max), Joined(dropped + held, Admits(held, at, window, max), at);
              && allowed' == early + held' && |held'| <= max
              && Sorted(allowed') && Spaced(allowed', window, max) && NoLaterThan(allowed', at)
    ensures !mine ==> early == dropped
    ensures NoLaterThan(early, at - window)
  {
    early := dropped;
    if mine {
      early := AttemptStep(dropped, held, at, window, max);
    }
  }

  /** One attempt, by a driver admitted at these times before and holding those that matter. */
  lemma AttemptKeepsInvariant(allowed: seq<Instant>, held: seq<Instant>, at: Instant, window: int, max: nat)
    returns (early: seq<Instant>)
    requires Kept(held, at - window) == Kept(allowed, at - window) && |held| <= max
    requires Sorted(allowed) && Spaced(allowed, window, max) && NoLaterThan(allowed, at)
    ensures var held', allowed' := Recorded(held, at, window, max), Joined(allowed, Admits(held, at, window, max), at);
            && allowed' == early + held' && NoLaterThan(early, at - window) && |held'| <= max
            && Sorted(allowed') && Spaced(allowed', window, max) && NoLaterThan(allowed', at)
  {
    early := KeptIsTail(allowed, at - window);
    var kept := Kept(allowed, at - window);
    if |kept| < max {
      OneMoreStaysSpaced(allowed, early, at, window, max);
      assert early + kept + [at] == early + (kept + [at]);
    }
  }

  lemma AttemptStep(dropped: seq<Instant>, held: seq<Instant>, at: Instant, window: int, max: nat)
    returns (early: seq<Instant>)
    requires NoLaterThan(dropped, at - window) && |held| <= max
    requires Sorted(dropped + held) && Spaced(dropped + held, window, max) && NoLaterThan(dropped + held, at)
    ensures var held', allowed' := Recorded(held, at, window, max), Joined(dropped + held, Admits(held, at, window, max), at);
            && allowed' == early + held' && NoLaterThan(early, at - window) && |held'| <= max
            && Sorted(allowed') && Spaced(allowed', window, max) && NoLaterThan(allowed', at)
  {
    EarlyDropsDoNotMatter(dropped, held, at - window);
    early := AttemptKeepsInvariant(dropped + held, held, at, window, max);
  }

  lemma OneMoreStaysSpaced(times: seq<Instant>, early: seq<Instant>, at: Instant, window: int, max: nat)
    requires Sorted(times) && Spaced(times, window, max) && NoLaterThan(times, at)
    requires |early| <= |times| < |early| + max && early == times[..|early|] && NoLaterThan(early, at - window)
    ensures Sorted(times + [at]) && Spaced(times + [at], window, max)
  {
    assert (times + [at])[..|times|] == times;
    if |times| >= max {
      assert times[|times| - max] == early[|times| - max];
    }
  }

  /** How many times lie in (after, upTo]. */
  function CountIn(times: seq<Instant>, after: Instant, upTo: Instant): nat {
    if times == [] then 0
    else CountIn(times[..|times| - 1], after, upTo) + if after < times[|times| - 1] <= upTo then 1 else 0
  }

  lemma {:induction false} CountIsKept(times: seq<Instant>, after: Instant, upTo: Instant)
    requires NoLaterThan(times, upTo)
    ensures CountIn(times, after, upTo) == |Kept(times, after)|
  {
    if times != [] {
      CountIsKept(times[..|times| - 1], after, upTo);
    }
  }

  lemma {:induction false} SpacedTimesAreFew(times: seq<Instant>, window: int, max: nat, t: Instant)
    requires Sorted(times) && Spaced(times, window, max)
    ensures CountIn(times, t - window, t) <= max
  {
    if times != [] {
      var front, last := times[..|times| - 1], times[|times| - 1];
      if last > t {
        SpacedTimesAreFew(front, window, max, t);
      } else {
        assert times == front + [last];
        CountIsKept(times, t - window, t);
        FewKept(times, window, max, t);
      }
    }
  }

  lemma FewKept(times: seq<Instant>, window: int, max: nat, t: Instant)
    requires times != [] && Sorted(times) && Spaced(times, window, max) && times[|times| - 1] <= t
    ensures |Kept(times, t - window)| <= max
  {
    var early := KeptIsTail(times, t - window);
    var kept := Kept(times, t - window);
    if |kept| > max {
      var i := |kept| - 1 - max;
      assert kept[i] == times[|early| + i];
      KeptAreLate(times, t - window);
    }
  }

  lemma {:induction false} KeptAreLate(times: seq<Instant>, cutoff: Instant)
    ensures forall i :: 0 <= i < |Kept(times, cutoff)| ==> Kept(times, cutoff)[i] > cutoff
  {
    if times != [] {
      KeptAreLate(times[..|times| - 1], cutoff);
    }
  }

  /** Never more than max admissions in any window, wherever it is placed: it slides, whatever its comment says. */
  lemma WindowNeverOverfull(run: seq<Attempt>, d: DriverId, window: int, max: nat, t: Instant)
    requires ClockMovesForward(run)
    ensures CountIn(Allowed(run, d, window, max), t - window, t) <= max
  {
    var _ := RunInvariant(run, d, window, max, if run == [] then 0 else run[|run| - 1].at);
    SpacedTimesAreFew(Allowed(run, d, window, max), window, max, t);
  }

  /** Pruning forgets nothing that matters: what is stored is what the whole history of admissions would give. */
  lemma StoredIsTheWindow(run: seq<Attempt>, d: DriverId, window: int, max: nat, now: Instant)
    requires ClockMovesForward(run) && (run != [] ==> run[|run| - 1].at <= now)
    ensures var stored := Recorded(Log(run, d, window, max), now, window, max);
            stored == Recorded(Allowed(run, d, window, max), now, window, max) && |stored| <= max
  {
    hide Kept, Log, Allowed, Sorted, Spaced, Admits, Recorded;
    var early := RunInvariant(run, d, window, max, now);
    DroppedDoNotMatter(early, Log(run, d, window, max), now, window, max);
  }

  lemma DroppedDoNotMatter(dropped: seq<Instant>, held: seq<Instant>, now: Instant, window: int, max: nat)
    requires NoLaterThan(dropped, now - window) && |held| <= max
    requires Sorted(dropped + held) && Spaced(dropped + held, window, max) && NoLaterThan(dropped + held, now)
    ensures Recorded(held, now, window, max) == Recorded(dropped + held, now, window, max)
    ensures |Recorded(held, now, window, max)| <= max && Admits(held, now, window, max) == Admits(dropped + held, now, window, max)
  {
    EarlyDropsDoNotMatter(dropped, held, now - window);
  }

  /** An attempt is denied exactly when the window ending at it already holds max admissions. */
  lemma DeniedExactlyWhenFull(run: seq<Attempt>, d: DriverId, window: int, max: nat, now: Instant)
    requires ClockMovesForward(run) && (run != [] ==> run[|run| - 1].at <= now)
    ensures !Admits(Log(run, d, window, max), now, window, max)
            <==> CountIn(Allowed(run, d, window, max), now - window, now) == max
  {
    hide Log, Allowed, Sorted, Spaced, CountIn, Kept;
    var allowed := Allowed(run, d, window, max);
    HistoryDecides(run, d, window, max, now);
    CountIsKept(allowed, now - window, now);
    SpacedTimesAreFew(allowed, window, max, now);
  }

  lemma HistoryDecides(run: seq<Attempt>, d: DriverId, window: int, max: nat, now: Instant)
    requires ClockMovesForward(run) && (run != [] ==> run[|run| - 1].at <= now)
    ensures var allowed := Allowed(run, d, window, max);
            && Sorted(allowed) && Spaced(allowed, window, max) && NoLaterThan(allowed, now)
            && Admits(Log(run, d, window, max), now, window, max) == Admits(allowed, now, window, max)
  {
    hide Kept, Log, Allowed, Sorted, Spaced, Admits, Recorded;
    var early := RunInvariant(run, d, window, max, now);
    DroppedDoNotMatter(early, Log(run, d, window, max), now, window, max);
  }

  // ----- decisions told by decisions -----

  /** How many of d's attempts later than after were let through. */
  function AdmittedSince(run: seq<Attempt>, d: DriverId, window: int, max: int, after: Instant): nat {
    if run == [] then 0
    else
      var front, last := run[..|run| - 1], run[|run| - 1];
      AdmittedSince(front, d, window, max, after)
      + if last.driver == d && last.at > after && Admits(Log(front, d, window, max), last.at, window, max) then 1 else 0
  }

  lemma {:induction false} AdmittedAreAllowed(run: seq<Attempt>, d: DriverId, window: int, max: int, after: Instant, upTo: Instant)
    requires forall i :: 0 <= i < |run| ==> run[i].at <= upTo
    ensures AdmittedSince(run, d, window, max, after) == CountIn(Allowed(run, d, window, max), after, upTo)
  {
    if run != [] {
      var front, last := run[..|run| - 1], run[|run| - 1];
      AdmittedAreAllowed(front, d, window, max, after, upTo);
      CountInOne(Allowed(front, d, window, max), last.at, after, upTo);
    }
  }

  lemma CountInOne(times: seq<Instant>, t: Instant, after: Instant, upTo: Instant)
    ensures CountIn(times + [t], after, upTo) == CountIn(times, after, upTo) + if after < t <= upTo then 1 else 0
  {
    assert (times + [t])[..|times|] == times;
  }

  /** An attempt is let through exactly when fewer than max of the driver's attempts in the window before it were. */
  lemma AdmittedExactlyWhen(run: seq<Attempt>, d: DriverId, window: int, max: nat, now: Instant)
    requires ClockMovesForward(run) && (run != [] ==> run[|run| - 1].at <= now)
    ensures Admits(Log(run, d, window, max), now, window, max) <==> AdmittedSince(run, d, window, max, now - window) < max
  {
    hide Kept, Log, Allowed, CountIn, Sorted, Spaced, Admits;
    NoneLater(run, now);
    AdmittedAreAllowed(run, d, window, max, now - window, now);
    HistoryDecides(run, d, window, max, now);
    CountDecides(Allowed(run, d, window, max), window, max, now);
  }

  lemma NoneLater(run: seq<Attempt>, now: Instant)
    requires ClockMovesForward(run) && (run != [] ==> run[|run| - 1].at <= now)
    ensures forall i :: 0 <= i < |run| ==> run[i].at <= now
  {
  }

  lemma CountDecides(allowed: seq<Instant>, window: int, max: nat, now: Instant)
    requires NoLaterThan(allowed, now)
    ensures Admits(allowed, now, window, max) <==> CountIn(allowed, now - window, now) < max
  {
    CountIsKept(allowed, now - window, now);
  }
}
