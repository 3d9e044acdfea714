/** What every interleaving of the money calls guarantees. */
module LedgerTheorems {
  import opened Wrappers
  import opened Ledger
  import opened Protocol
  import opened ProtocolSafety

  /** No account but the funding source is ever overdrawn, whatever the interleaving. */
  lemma NeverOverdrawn(cfg: Config, events: seq<Event>, a: Account)
    requires ValidConfig(cfg) && AllAdmissible(events) && a != FUNDING
    ensures Balance(Run(cfg, events).txns, a) >= 0
  {
    RunKeepsInv(cfg, events);
  }

  // ----- what one event can do to the ledger -----

  /** The only way to add to the ledger is the commit at the end of a ledger program. */
  ghost function Posted(cfg: Config, st: State, e: Event): Option<Txn> {
    if e.Advance? && e.sid in st.sessions && Next(cfg, st, e.sid).Post? then Some(Next(cfg, st, e.sid).txn) else None
  }

  lemma LedgerEffect(cfg: Config, st: State, e: Event)
    requires ValidConfig(cfg) && Inv(cfg, st)
    ensures match Posted(cfg, st, e)
            case None => Apply(cfg, st, e).txns == st.txns
            case Some(t) => Apply(cfg, st, e).txns == st.txns + [t] && EffectOk(cfg, st, e.sid, Post(t))
  {
    if Posted(cfg, st, e).Some? {
      NextOk(cfg, st, e.sid);
    }
  }

  /** A row lock goes away only by a step of its holder. */
  lemma LockSurvives(cfg: Config, st: State, e: Event, r: Row)
    requires ValidConfig(cfg) && Inv(cfg, st) && r in st.locks && e.sid != st.locks[r]
    ensures r in Apply(cfg, st, e).locks && Apply(cfg, st, e).locks[r] == st.locks[r]
  {
    if e.Advance? && e.sid in st.sessions {
      NextOk(cfg, st, e.sid);
      assert HeldRow(st.sessions[e.sid]) != Some(r);
    } else if e.Fail? && e.sid in st.sessions {
      assert HeldRow(st.sessions[e.sid]) != Some(r);
    }
  }

  /** While a call holds an account's row lock, no other call lowers the balance it has read. */
  lemma LockedBalanceHolds(cfg: Config, st: State, e: Event, a: Account)
    requires ValidConfig(cfg) && Inv(cfg, st) && a != FUNDING
    requires AccountRow(a) in st.locks && e.sid != st.locks[AccountRow(a)]
    ensures Balance(Apply(cfg, st, e).txns, a) >= Balance(st.txns, a)
  {
    LedgerEffect(cfg, st, e);
    match Posted(cfg, st, e)
    case None =>
    case Some(t) =>
      BalanceAppend(st.txns, t, a);
      PlanEffect(t.purpose, a);
      assert HeldRow(st.sessions[e.sid]) == DebitRow(Draft(t.key, t.purpose));
  }

  ghost function RunFrom(cfg: Config, st: State, events: seq<Event>): State {
    if events == [] then st else Apply(cfg, RunFrom(cfg, st, events[..|events| - 1]), events[|events| - 1])
  }

  /** So the balance stays at least what was read until the reader itself moves on. */
  lemma {:induction false} LockedBalanceHoldsThroughout(cfg: Config, st: State, events: seq<Event>, a: Account)
    requires ValidConfig(cfg) && Inv(cfg, st) && AllAdmissible(events) && a != FUNDING
    requires AccountRow(a) in st.locks && forall e :: e in events ==> e.sid != st.locks[AccountRow(a)]
    ensures Inv(cfg, RunFrom(cfg, st, events))
    ensures Balance(RunFrom(cfg, st, events).txns, a) >= Balance(st.txns, a)
    ensures AccountRow(a) in RunFrom(cfg, st, events).locks
    ensures RunFrom(cfg, st, events).locks[AccountRow(a)] == st.locks[AccountRow(a)]
  {
    if events != [] {
      var front, last := events[..|events| - 1], events[|events| - 1];
      LockedBalanceHoldsThroughout(cfg, st, front, a);
      assert last in events;
      LockedBalanceHolds(cfg, RunFrom(cfg, st, front), last, a);
      LockSurvives(cfg, RunFrom(cfg, st, front), last, AccountRow(a));
      ApplyKeepsInv(cfg, RunFrom(cfg, st, front), last);
    }
  }

  // ----- exactly-once charging -----

  predicate Charged(st: State, sid: nat, key: string, id: nat, replayed: bool) {
    sid in st.sessions && st.sessions[sid].call.ChargeCall? && st.sessions[sid].call.key == key
    && st.sessions[sid].phase == Done(Success(id, replayed))
  }

  /** One committed transaction per key; one call that made it; the same answer for all. */
  ghost predicate OncePerKey(st: State, key: string) {
    && (forall i, j :: 0 <= i < |st.txns| && 0 <= j < |st.txns| && st.txns[i].key == Some(key) == st.txns[j].key ==> i == j)
    && (forall u, v, id1, id2 :: Charged(st, u, key, id1, false) && Charged(st, v, key, id2, false) ==> u == v)
    && (forall u, v, id1, id2, r1, r2 :: Charged(st, u, key, id1, r1) && Charged(st, v, key, id2, r2) ==> id1 == id2)
    && (forall u, id, r :: Charged(st, u, key, id, r) ==>
          Charged(st, id, key, id, false)
          && exists i :: 0 <= i < |st.txns| && st.txns[i].id == id && st.txns[i].key == Some(key))
  }

  lemma ChargedExactlyOnce(cfg: Config, events: seq<Event>, key: string)
    requires ValidConfig(cfg) && AllAdmissible(events)
    ensures OncePerKey(Run(cfg, events), key)
  {
    RunKeepsInv(cfg, events);
    SoundBooksChargeOnce(cfg, Run(cfg, events), key);
  }

  lemma SoundBooksChargeOnce(cfg: Config, st: State, key: string)
    requires Inv(cfg, st)
    ensures OncePerKey(st, key)
  {
    forall u, id, r | Charged(st, u, key, id, r)
      ensures Charged(st, id, key, id, false)
      ensures exists i :: 0 <= i < |st.txns| && st.txns[i].id == id && st.txns[i].key == Some(key)
    {
      assert SessionOk(cfg, st.txns, st.quotas, st.auths, u, st.sessions[u]);
      var i :| 0 <= i < |st.txns| && st.txns[i].id == id && st.txns[i].key == Some(key);
      assert TxnOk(cfg, st.txns[i], st.sessions);
    }
    forall u, v, id1, id2, r1, r2 | Charged(st, u, key, id1, r1) && Charged(st, v, key, id2, r2)
      ensures id1 == id2
    {
      var i :| 0 <= i < |st.txns| && st.txns[i].id == id1 && st.txns[i].key == Some(key);
      var j :| 0 <= j < |st.txns| && st.txns[j].id == id2 && st.txns[j].key == Some(key);
    }
    forall u, v, id1, id2 | Charged(st, u, key, id1, false) && Charged(st, v, key, id2, false) ensures u == v {
      assert SessionOk(cfg, st.txns, st.quotas, st.auths, u, st.sessions[u]);
      assert SessionOk(cfg, st.txns, st.quotas, st.auths, v, st.sessions[v]);
    }
  }

  /** A call that ends in an error has added nothing, holds no lock, and its key is free again. */
  lemma FailureLeavesNoTrace(cfg: Config, st: State, e: Event, error: Error)
    requires ValidConfig(cfg) && Inv(cfg, st) && !e.Start?
    requires e.sid in st.sessions && !st.sessions[e.sid].phase.Done?
    requires Apply(cfg, st, e).sessions[e.sid].phase == Done(Failed(error))
    ensures var st' := Apply(cfg, st, e);
      && st'.txns == st.txns && st'.quotas == st.quotas && st'.auths == st.auths
      && (forall k :: k in st'.claims ==> st'.claims[k] != e.sid)
      && (forall r :: r in st'.locks ==> st'.locks[r] != e.sid)
      && (HeldKey(st.sessions[e.sid]).Some? ==>
            HeldKey(st.sessions[e.sid]).value !in st'.claims
            && FindKey(st'.txns, HeldKey(st.sessions[e.sid]).value).None?)
  {
    FailureIsRollback(cfg, st, e, error);
    RollbackFrees(st, e.sid, Failed(error));
    assert HeldKey(st.sessions[e.sid]).Some? ==> HeldKey(st.sessions[e.sid]).value in st.claims;
  }

  lemma FailureIsRollback(cfg: Config, st: State, e: Event, error: Error)
    requires ValidConfig(cfg) && Inv(cfg, st) && !e.Start?
    requires e.sid in st.sessions && !st.sessions[e.sid].phase.Done?
    requires Apply(cfg, st, e).sessions[e.sid].phase == Done(Failed(error))
    ensures Apply(cfg, st, e) == Finish(st, e.sid, Failed(error))
  {
    if e.Advance? {
      NextOk(cfg, st, e.sid);
      PerformTouches(st, e.sid, Next(cfg, st, e.sid));
      assert Next(cfg, st, e.sid) == End(Failed(error));
    }
  }

  lemma RollbackFrees(st: State, sid: nat, o: Outcome)
    requires sid in st.sessions && LocksMatch(st.locks, st.sessions) && ClaimsMatch(st.claims, st.sessions)
    ensures forall k :: k in Finish(st, sid, o).claims ==> Finish(st, sid, o).claims[k] != sid
    ensures forall r :: r in Finish(st, sid, o).locks ==> Finish(st, sid, o).locks[r] != sid
  {
  }

  // ----- one call running undisturbed -----

  /** n statements of one session in a row. */
  ghost function Steps(cfg: Config, st: State, sid: nat, n: nat): State
    decreases n
  {
    if n == 0 then st else Steps(cfg, Apply(cfg, st, Advance(sid)), sid, n - 1)
  }

  lemma {:induction false} StepsCompose(cfg: Config, st: State, sid: nat, m: nat, n: nat)
    ensures Steps(cfg, st, sid, m + n) == Steps(cfg, Steps(cfg, st, sid, m), sid, n)
    decreases m
  {
    if m > 0 {
      StepsCompose(cfg, Apply(cfg, st, Advance(sid)), sid, m - 1, n);
    }
  }

  /** Statements in a row are a run. */
  lemma {:induction false} StepsAreARun(cfg: Config, events: seq<Event>, sid: nat, n: nat)
    ensures Run(cfg, events + seq(n, _ => Advance(sid))) == Steps(cfg, Run(cfg, events), sid, n)
    decreases n
  {
    if n == 0 {
      assert events + seq(n, _ => Advance(sid)) == events;
    } else {
      StepsAreARun(cfg, events + [Advance(sid)], sid, n - 1);
      assert (events + [Advance(sid)])[..|events|] == events;
      assert events + [Advance(sid)] + seq(n - 1, _ => Advance(sid)) == events + seq(n, _ => Advance(sid));
    }
  }

  lemma StepOne(cfg: Config, st: State, sid: nat, n: nat, next: State)
    requires n > 0 && Apply(cfg, st, Advance(sid)) == next
    ensures Steps(cfg, st, sid, n) == Steps(cfg, next, sid, n - 1)
  {
  }

  function WithSession(st: State, sid: nat, call: Call, at: nat, phase: Phase): State {
    st.(sessions := st.sessions[sid := Session(call, at, phase)])
  }

  lemma GotoFrom(st: State, sid: nat, call: Call, at: nat, p: Phase, q: Phase)
    ensures Goto(WithSession(st, sid, call, at, p), sid, q) == WithSession(st, sid, call, at, q)
  {
    assert st.sessions[sid := Session(call, at, p)][sid := Session(call, at, q)] == st.sessions[sid := Session(call, at, q)];
  }

  /** What a session's end leaves of the lock and key tables. */
  function Released(st: State, s: Session): State {
    st.(locks := Without(st.locks, HeldRow(s)), claims := Without(st.claims, HeldKey(s)))
  }

  lemma FinishFrom(st: State, sid: nat, call: Call, at: nat, p: Phase, o: Outcome)
    ensures Finish(WithSession(st, sid, call, at, p), sid, o)
            == WithSession(Released(st, Session(call, at, p)), sid, call, at, Done(o))
  {
    GotoFrom(Released(st, Session(call, at, p)), sid, call, at, p, Done(o));
  }

  lemma AdvanceIs(cfg: Config, st: State, sid: nat, e: Effect)
    requires sid in st.sessions && Next(cfg, st, sid) == e
    ensures Apply(cfg, st, Advance(sid)) == Perform(st, sid, e)
  {
  }

  function Acquired(st: State, sid: nat, e: Effect): State {
    match e
    case TakeLock(r, _) => st.(locks := st.locks[r := sid])
    case TakeKey(k, _) => st.(claims := st.claims[k := sid])
    case _ => st
  }

  lemma PerformFrom(st: State, sid: nat, call: Call, at: nat, p: Phase, e: Effect)
    requires e.Move? || e.TakeLock? || e.TakeKey?
    ensures Perform(WithSession(st, sid, call, at, p), sid, e) == WithSession(Acquired(st, sid, e), sid, call, at, e.next)
  {
    GotoFrom(Acquired(st, sid, e), sid, call, at, p, e.next);
  }

  /** One statement that moves on, takes a lock or claims a key. */
  lemma OneOn(cfg: Config, st: State, sid: nat, call: Call, at: nat, p: Phase, n: nat, e: Effect)
    requires n > 0 && Next(cfg, WithSession(st, sid, call, at, p), sid) == e
    requires e.Move? || e.TakeLock? || e.TakeKey?
    ensures Steps(cfg, WithSession(st, sid, call, at, p), sid, n)
            == Steps(cfg, WithSession(Acquired(st, sid, e), sid, call, at, e.next), sid, n - 1)
  {
    AdvanceIs(cfg, WithSession(st, sid, call, at, p), sid, e);
    PerformFrom(st, sid, call, at, p, e);
    StepOne(cfg, WithSession(st, sid, call, at, p), sid, n, WithSession(Acquired(st, sid, e), sid, call, at, e.next));
  }

  /** A statement that ends the call, and the stillness after it. */
  lemma EndOn(cfg: Config, st: State, sid: nat, call: Call, at: nat, p: Phase, o: Outcome, n: nat)
    requires n > 0 && Next(cfg, WithSession(st, sid, call, at, p), sid) == End(o)
    ensures Steps(cfg, WithSession(st, sid, call, at, p), sid, n)
            == WithSession(Released(st, Session(call, at, p)), sid, call, at, Done(o))
  {
    var last := WithSession(Released(st, Session(call, at, p)), sid, call, at, Done(o));
    AdvanceIs(cfg, WithSession(st, sid, call, at, p), sid, End(o));
    FinishFrom(st, sid, call, at, p, o);
    StepOne(cfg, WithSession(st, sid, call, at, p), sid, n, last);
    StillAlone(cfg, last, sid, n - 1);
  }

  lemma {:induction false} StillAlone(cfg: Config, st: State, sid: nat, n: nat)
    requires sid in st.sessions && st.sessions[sid].phase.Done?
    ensures Steps(cfg, st, sid, n) == st
  {
    if n > 0 {
      StillAlone(cfg, st, sid, n - 1);
    }
  }

  function WithTxn(st: State, sid: nat, at: nat, d: Draft): State {
    st.(txns := st.txns + [Txn(sid, d.key, d.purpose, at, Plan(d.purpose))])
  }

  lemma {:induction false} PostingsOn(cfg: Config, st: State, sid: nat, call: Call, at: nat, d: Draft, w: seq<Posting>, n: nat)
    requires w <= Plan(d.purpose) && n == |Plan(d.purpose)| - |w| + 1
    ensures Steps(cfg, WithSession(st, sid, call, at, Writing(d, w)), sid, n)
            == Steps(cfg, WithSession(st, sid, call, at, Writing(d, Plan(d.purpose))), sid, 1)
    decreases n
  {
    if |w| < |Plan(d.purpose)| {
      var w' := w + [Plan(d.purpose)[|w|]];
      OneOn(cfg, st, sid, call, at, Writing(d, w), n, Move(Writing(d, w')));
      PostingsOn(cfg, st, sid, call, at, d, w', n - 1);
    } else {
      assert w == Plan(d.purpose);
    }
  }

  lemma CommitOn(cfg: Config, st: State, sid: nat, call: Call, at: nat, d: Draft)
    requires d.key.Some? ==> FindKey(st.txns, d.key.value).None?
    ensures Steps(cfg, WithSession(st, sid, call, at, Writing(d, Plan(d.purpose))), sid, 1)
            == WithSession(WithTxn(Released(st, Session(call, at, Writing(d, []))), sid, at, d), sid, call, at,
                           Done(Success(sid, false)))
  {
    var p := Writing(d, Plan(d.purpose));
    var t := Txn(sid, d.key, d.purpose, at, Plan(d.purpose));
    var ready := WithSession(st, sid, call, at, p);
    AdvanceIs(cfg, ready, sid, Post(t));
    FinishFrom(st.(txns := st.txns + [t]), sid, call, at, p, Success(sid, false));
    StepOne(cfg, ready, sid, 1, Perform(ready, sid, Post(t)));
  }

  /** Postings then commit. */
  lemma WriteOn(cfg: Config, st: State, sid: nat, call: Call, at: nat, d: Draft)
    requires d.key.Some? ==> FindKey(st.txns, d.key.value).None?
    ensures Steps(cfg, WithSession(st, sid, call, at, Writing(d, [])), sid, |Plan(d.purpose)| + 1)
            == WithSession(WithTxn(Released(st, Session(call, at, Writing(d, []))), sid, at, d), sid, call, at,
                           Done(Success(sid, false)))
  {
    PostingsOn(cfg, st, sid, call, at, d, [], |Plan(d.purpose)| + 1);
    CommitOn(cfg, st, sid, call, at, d);
  }

  /** The tables while a transaction holds its key and the row it debits. */
  function Holding(st: State, sid: nat, d: Draft): State
    requires DebitRow(d).Some?
  {
    st.(locks := st.locks[DebitRow(d).value := sid],
        claims := match d.key case None => st.claims case Some(k) => st.claims[k := sid])
  }

  predicate CanHold(st: State, d: Draft) {
    DebitRow(d).Some? && DebitRow(d).value !in st.locks
    && (d.key.Some? ==> d.key.value !in st.claims && FindKey(st.txns, d.key.value).None?)
  }

  lemma ReleasedAgain(st: State, sid: nat, call: Call, at: nat, d: Draft)
    requires CanHold(st, d)
    ensures Released(Holding(st, sid, d), Session(call, at, Locked(d))) == st
    ensures Released(Holding(st, sid, d), Session(call, at, Writing(d, []))) == st
  {
    var row := DebitRow(d).value;
    assert st.locks[row := sid] - {row} == st.locks;
    assert d.key.Some? ==> st.claims[d.key.value := sid] - {d.key.value} == st.claims;
  }

  /** From the balance check on: short of funds, or the transaction. */
  lemma LockedOn(cfg: Config, st: State, sid: nat, call: Call, at: nat, d: Draft, n: nat)
    requires CanHold(st, d) && n == |Plan(d.purpose)| + 2
    ensures Steps(cfg, WithSession(Holding(st, sid, d), sid, call, at, Locked(d)), sid, n)
            == if Balance(st.txns, Debited(d.purpose).value) < d.purpose.cents
               then WithSession(st, sid, call, at, Done(Failed(InsufficientFunds)))
               else WithSession(WithTxn(st, sid, at, d), sid, call, at, Done(Success(sid, false)))
  {
    ReleasedAgain(st, sid, call, at, d);
    var held := Holding(st, sid, d);
    if Balance(st.txns, Debited(d.purpose).value) < d.purpose.cents {
      EndOn(cfg, held, sid, call, at, Locked(d), Failed(InsufficientFunds), n);
    } else {
      OneOn(cfg, held, sid, call, at, Locked(d), n, Move(Writing(d, [])));
      WriteOn(cfg, held, sid, call, at, d);
    }
  }

  /** Taking the row lock. */
  lemma InsertedOn(cfg: Config, st: State, sid: nat, call: Call, at: nat, d: Draft, n: nat)
    requires CanHold(st, d) && n == |Plan(d.purpose)| + 3
    ensures var claimed := st.(claims := match d.key case None => st.claims case Some(k) => st.claims[k := sid]);
            Steps(cfg, WithSession(claimed, sid, call, at, Inserted(d)), sid, n)
            == if Balance(st.txns, Debited(d.purpose).value) < d.purpose.cents
               then WithSession(st, sid, call, at, Done(Failed(InsufficientFunds)))
               else WithSession(WithTxn(st, sid, at, d), sid, call, at, Done(Success(sid, false)))
  {
    var claimed := st.(claims := match d.key case None => st.claims case Some(k) => st.claims[k := sid]);
    OneOn(cfg, claimed, sid, call, at, Inserted(d), n, TakeLock(DebitRow(d).value, Locked(d)));
    LockedOn(cfg, st, sid, call, at, d, n - 1);
  }

  /** The whole of a debiting transaction once its draft is made and its key is free. */
  lemma DraftedOn(cfg: Config, st: State, sid: nat, call: Call, at: nat, d: Draft, n: nat)
    requires CanHold(st, d) && n == |Plan(d.purpose)| + 4
    ensures Steps(cfg, WithSession(st, sid, call, at, Drafted(d)), sid, n)
            == if Balance(st.txns, Debited(d.purpose).value) < d.purpose.cents
               then WithSession(st, sid, call, at, Done(Failed(InsufficientFunds)))
               else WithSession(WithTxn(st, sid, at, d), sid, call, at, Done(Success(sid, false)))
  {
    OneOn(cfg, st, sid, call, at, Drafted(d), n,
          match d.key case None => Move(Inserted(d)) case Some(k) => TakeKey(k, Inserted(d)));
    InsertedOn(cfg, st, sid, call, at, d, n - 1);
  }

  /** Nobody holds a row the transaction posts to. The postings' foreign key makes an insert wait for such a row. */
  predicate RowsFree(st: State, p: Purpose) {
    forall k :: 0 <= k < |Plan(p)| ==> AccountRow(Plan(p)[k].account) !in st.locks
  }

  /** Nobody holds what a charge waits for: its key, the wallet it locks, the accounts it posts to. */
  predicate Unhindered(cfg: Config, st: State, call: Call)
    requires call.ChargeCall?
  {
    call.key !in st.claims
    && (call.vehicle in cfg.ownerOf && call.vehicle in cfg.driverOf ==>
          RowsFree(st, FareDraft(cfg, call.commuter, call.vehicle, call.cents, call.key).purpose))
  }

  predicate FreshCharge(cfg: Config, st: State, sid: nat, call: Call) {
    && sid !in st.sessions && call.ChargeCall? && call.key != ""
    && call.vehicle in cfg.ownerOf && call.vehicle in cfg.driverOf && Unhindered(cfg, st, call)
  }

  /** Statements of a ledger call: one before each of Drafted .. Writing, the postings, the commit. */
  function StatementCount(cfg: Config, call: Call): nat
    requires call.ChargeCall? && call.vehicle in cfg.ownerOf && call.vehicle in cfg.driverOf
  {
    |Plan(FareDraft(cfg, call.commuter, call.vehicle, call.cents, call.key).purpose)| + 5
  }

  lemma FreshCanHold(cfg: Config, st: State, sid: nat, call: Call, d: Draft)
    requires FreshCharge(cfg, st, sid, call) && FindKey(st.txns, call.key).None?
    requires d == FareDraft(cfg, call.commuter, call.vehicle, call.cents, call.key)
    ensures CanHold(st, d)
  {
    assert Plan(d.purpose)[0].account == WalletOf(call.commuter);
  }

  /** The whole effect of ChargeFare when nothing it waits for is held: a replay, a refusal or one new
      transaction; in each case every lock and claim is back as it was. */
  lemma ChargeAlone(cfg: Config, st: State, sid: nat, call: Call, at: nat)
    requires FreshCharge(cfg, st, sid, call)
    ensures var d := FareDraft(cfg, call.commuter, call.vehicle, call.cents, call.key);
            Steps(cfg, Apply(cfg, st, Start(sid, call, at)), sid, StatementCount(cfg, call))
            == if FindKey(st.txns, call.key).Some? then
                 WithSession(st, sid, call, at, Done(Success(FindKey(st.txns, call.key).value, true)))
               else if Balance(st.txns, WalletOf(call.commuter)) < call.cents then
                 WithSession(st, sid, call, at, Done(Failed(InsufficientFunds)))
               else
                 WithSession(WithTxn(st, sid, at, d), sid, call, at, Done(Success(sid, false)))
  {
    var d := FareDraft(cfg, call.commuter, call.vehicle, call.cents, call.key);
    var n := StatementCount(cfg, call);
    OneOn(cfg, st, sid, call, at, Begun, n, Move(Drafted(d)));
    if FindKey(st.txns, call.key).Some? {
      ReplayOn(cfg, st, sid, call, at, d, n - 1);
    } else {
      FreshCanHold(cfg, st, sid, call, d);
      DraftedOn(cfg, st, sid, call, at, d, n - 1);
    }
  }

  lemma ReplayOn(cfg: Config, st: State, sid: nat, call: Call, at: nat, d: Draft, n: nat)
    requires call.ChargeCall? && d.key == Some(call.key) && FindKey(st.txns, call.key).Some? && n >= 2
    ensures Steps(cfg, WithSession(st, sid, call, at, Drafted(d)), sid, n)
            == WithSession(st, sid, call, at, Done(Success(FindKey(st.txns, call.key).value, true)))
  {
    OneOn(cfg, st, sid, call, at, Drafted(d), n, Move(Conflicted(call.key)));
    EndOn(cfg, st, sid, call, at, Conflicted(call.key), Success(FindKey(st.txns, call.key).value, true), n - 1);
  }

  /** The whole effect of Topup, which locks nothing itself, when no row it posts to is held. */
  lemma TopupAlone(cfg: Config, st: State, sid: nat, u: UserId, cents: int, at: nat)
    requires sid !in st.sessions && RowsFree(st, Topup(u, cents))
    ensures Steps(cfg, Apply(cfg, st, Start(sid, TopupCall(u, cents), at)), sid, |Plan(Topup(u, cents))| + 4)
            == WithSession(WithTxn(st, sid, at, Draft(None, Topup(u, cents))), sid, TopupCall(u, cents), at,
                           Done(Success(sid, false)))
  {
    var call, d := TopupCall(u, cents), Draft(None, Topup(u, cents));
    var n := |Plan(d.purpose)|;
    OneOn(cfg, st, sid, call, at, Begun, n + 4, Move(Drafted(d)));
    TopupDraftedOn(cfg, st, sid, call, at, d);
  }

  lemma TopupDraftedOn(cfg: Config, st: State, sid: nat, call: Call, at: nat, d: Draft)
    requires d.key == None && d.purpose.Topup?
    ensures Steps(cfg, WithSession(st, sid, call, at, Drafted(d)), sid, |Plan(d.purpose)| + 3)
            == WithSession(WithTxn(st, sid, at, d), sid, call, at, Done(Success(sid, false)))
  {
    var n := |Plan(d.purpose)|;
    OneOn(cfg, st, sid, call, at, Drafted(d), n + 3, Move(Inserted(d)));
    OneOn(cfg, st, sid, call, at, Inserted(d), n + 2, Move(Writing(d, [])));
    WriteOn(cfg, st, sid, call, at, d);
  }

  /** Non-negative amounts are needed: a negative top-up takes a wallet below zero. */
  lemma NegativeTopupOverdraws(cfg: Config, u: UserId, cents: int)
    requires cents < 0
    ensures Balance(Steps(cfg, Apply(cfg, EMPTY, Start(0, TopupCall(u, cents), 0)), 0, |Plan(Topup(u, cents))| + 4).txns,
                    WalletOf(u)) == cents
  {
    TopupAlone(cfg, EMPTY, 0, u, cents, 0);
    var p := Topup(u, cents);
    BalanceAppend([], Txn(0, None, p, 0, Plan(p)), WalletOf(u));
    PairSum(Plan(p)[0], Plan(p)[1], WalletOf(u));
  }
}
