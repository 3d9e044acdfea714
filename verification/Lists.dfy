/** Lists of finds: what a loop that may skip has met so far. */
module Lists {
  import opened Wrappers

  function Listed<T>(x: Option<T>): seq<T> {
    match x case None => [] case Some(v) => [v]
  }

  /** What the successful tries found, in order. */
  function Gather<T>(tries: seq<Option<T>>): seq<T> {
    if tries == [] then [] else Gather(tries[..|tries| - 1]) + Listed(tries[|tries| - 1])
  }

  function Flatten<T>(lists: seq<seq<T>>): seq<T> {
    if lists == [] then [] else Flatten(lists[..|lists| - 1]) + lists[|lists| - 1]
  }

  lemma {:induction false} TryIsGathered<T>(tries: seq<Option<T>>, k: nat)
    requires k < |tries| && tries[k].Some?
    ensures tries[k].value in Gather(tries)
  {
    if k < |tries| - 1 {
      TryIsGathered(tries[..|tries| - 1], k);
    }
  }

  lemma {:induction false} GatheredIsTry<T>(tries: seq<Option<T>>, x: T) returns (k: nat)
    requires x in Gather(tries)
    ensures k < |tries| && tries[k] == Some(x)
  {
    k := |tries| - 1;
    if x in Gather(tries[..k]) {
      k := GatheredIsTry(tries[..k], x);
    }
  }

  lemma {:induction false} GatherNone<T>(tries: seq<Option<T>>)
    requires forall k :: 0 <= k < |tries| ==> tries[k].None?
    ensures Gather(tries) == []
  {
    if tries != [] {
      GatherNone(tries[..|tries| - 1]);
    }
  }

  lemma {:induction false} MemberIsFlattened<T>(lists: seq<seq<T>>, k: nat, x: T)
    requires k < |lists| && x in lists[k]
    ensures x in Flatten(lists)
  {
    if k < |lists| - 1 {
      MemberIsFlattened(lists[..|lists| - 1], k, x);
    }
  }

  lemma {:induction false} FlattenedIsMember<T>(lists: seq<seq<T>>, x: T) returns (k: nat)
    requires x in Flatten(lists)
    ensures k < |lists| && x in lists[k]
  {
    k := |lists| - 1;
    if x in Flatten(lists[..k]) {
      k := FlattenedIsMember(lists[..k], x);
    }
  }

  lemma {:induction false} FlattenEmpty<T>(lists: seq<seq<T>>)
    requires forall k :: 0 <= k < |lists| ==> lists[k] == []
    ensures Flatten(lists) == []
  {
    if lists != [] {
      FlattenEmpty(lists[..|lists| - 1]);
    }
  }

  lemma FlattenStep<T>(met: seq<T>, lists: seq<seq<T>>, k: nat)
    requires k < |lists|
    ensures met + Flatten(lists[..k]) + lists[k] == met + Flatten(lists[..k + 1])
  {
    assert lists[..k + 1][..k] == lists[..k];
  }
}
