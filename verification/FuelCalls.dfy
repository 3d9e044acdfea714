/** The fuel calls start to end, when nobody else holds the row they lock. */
module FuelCalls {
  import opened Wrappers
  import opened Ledger
  import opened Protocol
  import opened ProtocolSafety
  import opened LedgerTheorems
  import FuelChain
  import FareSplits

  /** A commit of fuel writes. */
  lemma StoreOn(cfg: Config, st: State, sid: nat, call: Call, at: nat, p: Phase, n: nat, e: Effect)
    requires n > 0 && e.Store? && Next(cfg, WithSession(st, sid, call, at, p), sid) == e
    ensures Steps(cfg, WithSession(st, sid, call, at, p), sid, n)
            == WithSession(Released(st, Session(call, at, p)).(quotas := e.quotas, auths := e.auths), sid, call, at,
                           Done(e.outcome))
  {
    var ready := WithSession(st, sid, call, at, p);
    AdvanceIs(cfg, ready, sid, e);
    FinishFrom(st.(quotas := e.quotas, auths := e.auths), sid, call, at, p, e.outcome);
    StepOne(cfg, ready, sid, n, Perform(ready, sid, e));
    StillAlone(cfg, Perform(ready, sid, e), sid, n - 1);
  }

  lemma WriteApplied(cfg: Config, st: State, sid: nat, call: Call, at: nat, w: nat)
    requires w < Writes(call)
    ensures Apply(cfg, WithSession(st, sid, call, at, Staged(w)), Advance(sid)) == WithSession(st, sid, call, at, Staged(w + 1))
  {
    AdvanceIs(cfg, WithSession(st, sid, call, at, Staged(w)), sid, Move(Staged(w + 1)));
    PerformFrom(st, sid, call, at, Staged(w), Move(Staged(w + 1)));
  }

  lemma TwoSteps(cfg: Config, a: State, b: State, c: State, sid: nat, n: nat)
    requires n > 1 && Apply(cfg, a, Advance(sid)) == b && Apply(cfg, b, Advance(sid)) == c
    ensures Steps(cfg, a, sid, n) == Steps(cfg, c, sid, n - 2)
  {
    StepOne(cfg, a, sid, n, b);
    StepOne(cfg, b, sid, n - 1, c);
  }

  /** The writes of a fuel transaction, up to its commit. */
  lemma WritesFrom(cfg: Config, st: State, sid: nat, call: Call, at: nat, n: nat)
    requires n > Writes(call)
    ensures Steps(cfg, WithSession(st, sid, call, at, Staged(0)), sid, n)
            == Steps(cfg, WithSession(st, sid, call, at, Staged(Writes(call))), sid, n - Writes(call))
  {
    var first, second := WithSession(st, sid, call, at, Staged(0)), WithSession(st, sid, call, at, Staged(1));
    if Writes(call) > 0 {
      WriteApplied(cfg, st, sid, call, at, 0);
      if Writes(call) == 1 {
        StepOne(cfg, first, sid, n, second);
      } else {
        WriteApplied(cfg, st, sid, call, at, 1);
        TwoSteps(cfg, first, second, WithSession(st, sid, call, at, Staged(2)), sid, n);
      }
    }
  }

  lemma WritesOn(cfg: Config, st: State, sid: nat, call: Call, at: nat, n: nat, e: Effect)
    requires n == Writes(call) + 1
    requires e.Store? && Next(cfg, WithSession(st, sid, call, at, Staged(Writes(call))), sid) == e
    ensures Steps(cfg, WithSession(st, sid, call, at, Staged(0)), sid, n)
            == WithSession(Released(st, Session(call, at, Staged(0))).(quotas := e.quotas, auths := e.auths), sid, call, at,
                           Done(e.outcome))
  {
    WritesFrom(cfg, st, sid, call, at, n);
    StoreOn(cfg, st, sid, call, at, Staged(Writes(call)), 1, e);
  }

  /** How a call ends: the tables it leaves and its answer. */
  datatype Ending = Ending(quotas: map<VehicleId, Quota>, auths: map<nat, Authorization>, outcome: Outcome)

  function Ended(st: State, sid: nat, call: Call, at: nat, e: Ending): State {
    WithSession(st.(quotas := e.quotas, auths := e.auths), sid, call, at, Done(e.outcome))
  }

  /** A fuel transaction that locks its row, makes its writes and commits. */
  lemma LockedWritesOn(cfg: Config, st: State, sid: nat, call: Call, at: nat, row: Row, e: Effect, n: nat)
    requires n == Writes(call) + 2 && row !in st.locks && HeldRow(Session(call, at, Staged(0))) == Some(row)
    requires Next(cfg, WithSession(st, sid, call, at, Begun), sid) == TakeLock(row, Staged(0))
    requires e.Store?
    requires Next(cfg, WithSession(st.(locks := st.locks[row := sid]), sid, call, at, Staged(Writes(call))), sid) == e
    ensures Steps(cfg, WithSession(st, sid, call, at, Begun), sid, n)
            == Ended(st, sid, call, at, Ending(e.quotas, e.auths, e.outcome))
  {
    var held := st.(locks := st.locks[row := sid]);
    assert held.locks - {row} == st.locks;
    OneOn(cfg, st, sid, call, at, Begun, n, TakeLock(row, Staged(0)));
    WritesOn(cfg, held, sid, call, at, n - 1, e);
  }

  /** What AuthorizePump answers and reserves. */
  function AfterAuthorize(st: State, sid: nat, v: VehicleId, cents: int): Ending {
    if cents <= 0 then Ending(st.quotas, st.auths, Failed(InvalidAmount))
    else if v !in st.quotas then Ending(st.quotas, st.auths, Denied(0))
    else if cents > st.quotas[v].Available() then Ending(st.quotas, st.auths, Denied(st.quotas[v].Available()))
    else Ending(Reserve(st.quotas, v, cents), st.auths[sid := Authorization(v, cents, Reserved)], Authorized(sid))
  }

  lemma AuthorizeAlone(cfg: Config, st: State, sid: nat, v: VehicleId, cents: int, at: nat)
    requires sid !in st.sessions && QuotaRow(v) !in st.locks
    ensures var call := AuthorizeCall(v, cents);
            Steps(cfg, Apply(cfg, st, Start(sid, call, at)), sid, Writes(call) + 2)
            == Ended(st, sid, call, at, AfterAuthorize(st, sid, v, cents))
  {
    var call, r := AuthorizeCall(v, cents), AfterAuthorize(st, sid, v, cents);
    if r.outcome.Authorized? {
      LockedWritesOn(cfg, st, sid, call, at, QuotaRow(v), Store(r.quotas, r.auths, r.outcome), Writes(call) + 2);
    } else {
      EndOn(cfg, st, sid, call, at, Begun, r.outcome, Writes(call) + 2);
    }
  }

  /** What ConfirmPump answers and debits. */
  function AfterConfirm(st: State, auth: nat): Ending
    requires auth in st.auths ==> st.auths[auth].vehicle in st.quotas
  {
    if auth !in st.auths then Ending(st.quotas, st.auths, Failed(NotFound))
    else
      var a := st.auths[auth];
      if a.status == Confirmed then Ending(st.quotas, st.auths, Settled(a.vehicle, a.cents, true))
      else Ending(Debit(st.quotas, a.vehicle, a.cents), Confirm(st.auths, auth), Settled(a.vehicle, a.cents, false))
  }

  lemma ConfirmAlone(cfg: Config, st: State, sid: nat, auth: nat, at: nat)
    requires sid !in st.sessions && AuthRow(auth) !in st.locks
    requires auth in st.auths ==> st.auths[auth].vehicle in st.quotas
    ensures var call := ConfirmCall(auth);
            Steps(cfg, Apply(cfg, st, Start(sid, call, at)), sid, Writes(call) + 2)
            == Ended(st, sid, call, at, AfterConfirm(st, auth))
  {
    var call, r := ConfirmCall(auth), AfterConfirm(st, auth);
    if r.outcome.Settled? && !r.outcome.already {
      LockedWritesOn(cfg, st, sid, call, at, AuthRow(auth), Store(r.quotas, r.auths, r.outcome), Writes(call) + 2);
    } else {
      EndOn(cfg, st, sid, call, at, Begun, r.outcome, Writes(call) + 2);
    }
  }

  /** One undisturbed call. */
  ghost function Alone(cfg: Config, st: State, sid: nat, call: Call, at: nat): State {
    Steps(cfg, Apply(cfg, st, Start(sid, call, at)), sid, Writes(call) + 2)
  }

  /**
   * Authorize, confirm, confirm again: granted exactly when the amount is positive and available; then that amount is
   * used, nothing more is reserved than before, and the second confirmation changes nothing but says so.
   */
  lemma PumpRoundTrip(cfg: Config, st: State, a: nat, c: nat, d: nat, v: VehicleId, cents: int, at: nat)
    requires a !in st.sessions && c !in st.sessions && d !in st.sessions && a != c && a != d && c != d
    requires a !in st.auths && QuotaRow(v) !in st.locks && AuthRow(a) !in st.locks && v in st.quotas
    ensures var s1 := Alone(cfg, st, a, AuthorizeCall(v, cents), at);
            var s2 := Alone(cfg, s1, c, ConfirmCall(a), at);
            var s3 := Alone(cfg, s2, d, ConfirmCall(a), at);
            var q := st.quotas[v];
            if cents > 0 && q.reserved + q.used + cents <= q.quota then
              && a in s1.sessions && s1.sessions[a].phase == Done(Authorized(a))
              && v in s1.quotas && s1.quotas[v] == q.(reserved := q.reserved + cents)
              && c in s2.sessions && s2.sessions[c].phase == Done(Settled(v, cents, false))
              && v in s2.quotas && s2.quotas[v] == q.(used := q.used + cents)
              && d in s3.sessions && s3.sessions[d].phase == Done(Settled(v, cents, true))
              && s3.quotas == s2.quotas && s3.auths == s2.auths && s3.txns == st.txns
            else
              && a in s1.sessions
              && s1.sessions[a].phase == Done(if cents <= 0 then Failed(InvalidAmount) else Denied(q.quota - q.reserved - q.used))
              && s1.quotas == st.quotas && s1.auths == st.auths && s1.txns == st.txns
  {
    AuthorizeAlone(cfg, st, a, v, cents, at);
    if 0 < cents <= st.quotas[v].Available() {
      var s1 := Ended(st, a, AuthorizeCall(v, cents), at, AfterAuthorize(st, a, v, cents));
      assert AuthRow(a) !in s1.locks && s1.auths[a] == Authorization(v, cents, Reserved);
      ConfirmTwice(cfg, s1, a, c, d, at);
    }
  }

  lemma ConfirmTwice(cfg: Config, st: State, a: nat, c: nat, d: nat, at: nat)
    requires c !in st.sessions && d !in st.sessions && c != d && AuthRow(a) !in st.locks
    requires a in st.auths && st.auths[a].status == Reserved && st.auths[a].vehicle in st.quotas
    ensures var x := st.auths[a];
            var s2 := Alone(cfg, st, c, ConfirmCall(a), at);
            var s3 := Alone(cfg, s2, d, ConfirmCall(a), at);
            && c in s2.sessions && s2.sessions[c].phase == Done(Settled(x.vehicle, x.cents, false))
            && s2.quotas == Debit(st.quotas, x.vehicle, x.cents)
            && d in s3.sessions && s3.sessions[d].phase == Done(Settled(x.vehicle, x.cents, true))
            && s3.quotas == s2.quotas && s3.auths == s2.auths && s3.txns == st.txns
  {
    ConfirmAlone(cfg, st, c, a, at);
    ConfirmAlone(cfg, Ended(st, c, ConfirmCall(a), at, AfterConfirm(st, a)), d, a, at);
  }

  /** What FundVehicleQuota answers and earmarks. */
  ghost function AfterFund(cfg: Config, st: State, o: UserId, v: VehicleId, cents: int): Ending {
    if cents <= 0 then Ending(st.quotas, st.auths, Failed(InvalidAmount))
    else if v !in cfg.ownerOf then Ending(st.quotas, st.auths, Failed(NotFound))
    else if cfg.ownerOf[v] != o then Ending(st.quotas, st.auths, Failed(NotOwnersVehicle))
    else if Earmarked(st.quotas, o) + cents > Balance(st.txns, FuelOf(o)) then
      Ending(st.quotas, st.auths, Failed(InsufficientFunds))
    else Ending(Upsert(st.quotas, o, v, cents), st.auths, Funded)
  }

  lemma FundAlone(cfg: Config, st: State, sid: nat, o: UserId, v: VehicleId, cents: int, at: nat)
    requires sid !in st.sessions
    ensures var call := FundCall(o, v, cents);
            Steps(cfg, Apply(cfg, st, Start(sid, call, at)), sid, Writes(call) + 3)
            == Ended(st, sid, call, at, AfterFund(cfg, st, o, v, cents))
  {
    var call, r := FundCall(o, v, cents), AfterFund(cfg, st, o, v, cents);
    if cents <= 0 || v !in cfg.ownerOf || cfg.ownerOf[v] != o {
      EndOn(cfg, st, sid, call, at, Begun, r.outcome, Writes(call) + 3);
    } else {
      OwnersFundOn(cfg, st, sid, call, at, Writes(call) + 3);
    }
  }

  lemma OwnersFundOn(cfg: Config, st: State, sid: nat, call: Call, at: nat, n: nat)
    requires FundOk(cfg, call) && n == Writes(call) + 3
    ensures Steps(cfg, WithSession(st, sid, call, at, Begun), sid, n)
            == Ended(st, sid, call, at, AfterFund(cfg, st, call.owner, call.vehicle, call.cents))
  {
    var b := Balance(st.txns, FuelOf(call.owner));
    OneOn(cfg, st, sid, call, at, Begun, n, Move(Measured(b)));
    MeasuredFundOn(cfg, st, sid, call, at, b, n - 1);
  }

  lemma MeasuredFundOn(cfg: Config, st: State, sid: nat, call: Call, at: nat, b: int, n: nat)
    requires call.FundCall? && n == Writes(call) + 2
    ensures Steps(cfg, WithSession(st, sid, call, at, Measured(b)), sid, n)
            == Ended(st, sid, call, at,
                     if Earmarked(st.quotas, call.owner) + call.cents > b
                     then Ending(st.quotas, st.auths, Failed(InsufficientFunds))
                     else Ending(Upsert(st.quotas, call.owner, call.vehicle, call.cents), st.auths, Funded))
  {
    if Earmarked(st.quotas, call.owner) + call.cents > b {
      EndOn(cfg, st, sid, call, at, Measured(b), Failed(InsufficientFunds), n);
    } else {
      OneOn(cfg, st, sid, call, at, Measured(b), n, Move(Staged(0)));
      EarmarkOn(cfg, st, sid, call, at, n - 1);
    }
  }

  lemma EarmarkOn(cfg: Config, st: State, sid: nat, call: Call, at: nat, n: nat)
    requires call.FundCall? && n == Writes(call) + 1
    ensures Steps(cfg, WithSession(st, sid, call, at, Staged(0)), sid, n)
            == Ended(st, sid, call, at, Ending(Upsert(st.quotas, call.owner, call.vehicle, call.cents), st.auths, Funded))
  {
    WritesOn(cfg, st, sid, call, at, n, Store(Upsert(st.quotas, call.owner, call.vehicle, call.cents), st.auths, Funded));
  }

  /** What Allocate withholds of a revenue balance. */
  function Withheld(txns: seq<Txn>, o: UserId, pct: int): int { GoDiv(Balance(txns, RevenueOf(o)) * pct, 100) }

  function AllocationOf(o: UserId, cents: int): Purpose { Transfer(o, OwnerRevenue, FuelAccount, cents) }

  lemma AllocateAlone(cfg: Config, st: State, sid: nat, o: UserId, pct: int, at: nat)
    requires sid !in st.sessions
    requires Withheld(st.txns, o, pct) > 0 ==> RowsFree(st, AllocationOf(o, Withheld(st.txns, o, pct)))
    ensures var call, d := AllocateCall(o, pct), Draft(None, AllocationOf(o, Withheld(st.txns, o, pct)));
            Steps(cfg, Apply(cfg, st, Start(sid, call, at)), sid, |Plan(d.purpose)| + 5)
            == if d.purpose.cents <= 0 then WithSession(st, sid, call, at, Done(Failed(NothingToAllocate)))
               else if Balance(st.txns, RevenueOf(o)) < d.purpose.cents then
                 WithSession(st, sid, call, at, Done(Failed(InsufficientFunds)))
               else WithSession(WithTxn(st, sid, at, d), sid, call, at, Done(Success(sid, false)))
  {
    var call, d := AllocateCall(o, pct), Draft(None, AllocationOf(o, Withheld(st.txns, o, pct)));
    var n := |Plan(d.purpose)| + 5;
    if d.purpose.cents <= 0 {
      EndOn(cfg, st, sid, call, at, Begun, Failed(NothingToAllocate), n);
    } else {
      OneOn(cfg, st, sid, call, at, Begun, n, Move(Drafted(d)));
      assert Plan(d.purpose)[0].account == RevenueOf(o);
      DraftedOn(cfg, st, sid, call, at, d, n - 1);
    }
  }

  /** An allocation moves exactly the withheld amount from revenue to fuel, and touches no other balance. */
  lemma AllocationMoves(txns: seq<Txn>, sid: nat, o: UserId, cents: int, at: nat, a: Account)
    ensures var after := txns + [Txn(sid, None, AllocationOf(o, cents), at, Plan(AllocationOf(o, cents)))];
            Balance(after, a) - Balance(txns, a)
            == if a == FuelOf(o) then cents else if a == RevenueOf(o) then -cents else 0
  {
    var p := AllocationOf(o, cents);
    BalanceAppend(txns, Txn(sid, None, p, at, Plan(p)), a);
    PairSum(Plan(p)[0], Plan(p)[1], a);
  }

  // ----- a run that earmarks money twice -----

  lemma {:induction false} RunThenFrom(cfg: Config, events: seq<Event>, more: seq<Event>)
    ensures Run(cfg, events + more) == RunFrom(cfg, Run(cfg, events), more)
  {
    if more == [] {
      assert events + more == events;
    } else {
      RunThenFrom(cfg, events, more[..|more| - 1]);
      assert (events + more)[..|events + more| - 1] == events + more[..|more| - 1];
    }
  }

  /** A run, then one call start to end. */
  lemma CallNext(cfg: Config, events: seq<Event>, sid: nat, call: Call, at: nat, n: nat) returns (more: seq<Event>)
    ensures Run(cfg, more) == Steps(cfg, Apply(cfg, Run(cfg, events), Start(sid, call, at)), sid, n)
    ensures AllAdmissible(events) && NonNegative(call) ==> AllAdmissible(more)
  {
    var started := events + [Start(sid, call, at)];
    assert started[..|events|] == events;
    StepsAreARun(cfg, started, sid, n);
    more := started + seq(n, _ => Advance(sid));
  }

  /** What a fare leaves its owner. */
  lemma FarePays(txns: seq<Txn>, t: Txn, o: UserId)
    requires t.purpose.Fare? && t.purpose.owner == o && t.postings == Plan(t.purpose)
    ensures Balance(txns + [t], RevenueOf(o)) == Balance(txns, RevenueOf(o)) + t.purpose.split.owner
    ensures Balance(txns + [t], FuelOf(o)) == Balance(txns, FuelOf(o))
  {
    var ps := t.postings;
    BalanceAppend(txns, t, RevenueOf(o));
    BalanceAppend(txns, t, FuelOf(o));
    QuadSum(ps[0], ps[1], ps[2], ps[3], RevenueOf(o));
    QuadSum(ps[0], ps[1], ps[2], ps[3], FuelOf(o));
    PairSum(ps[0], ps[1], RevenueOf(o));
    PairSum(ps[2], ps[3], RevenueOf(o));
    PairSum(ps[0], ps[1], FuelOf(o));
    PairSum(ps[2], ps[3], FuelOf(o));
  }

  lemma ToppedUp(t: Txn, u: UserId, cents: int, o: UserId)
    requires t.purpose == Topup(u, cents) && t.postings == Plan(t.purpose)
    ensures Balance([t], WalletOf(u)) == cents && Balance([t], RevenueOf(o)) == 0 && Balance([t], FuelOf(o)) == 0
    ensures t.key.None? ==> forall key :: FindKey([t], key).None?
  {
    var none: seq<Txn> := [];
    assert none + [t] == [t];
    BalanceAppend(none, t, WalletOf(u));
    BalanceAppend(none, t, RevenueOf(o));
    BalanceAppend(none, t, FuelOf(o));
    PairSum(t.postings[0], t.postings[1], WalletOf(u));
    PairSum(t.postings[0], t.postings[1], RevenueOf(o));
    PairSum(t.postings[0], t.postings[1], FuelOf(o));
    assert [t][..0] == none;
  }

  lemma TopupNext(cfg: Config, events: seq<Event>, sid: nat, u: UserId, cents: int) returns (more: seq<Event>)
    requires sid !in Run(cfg, events).sessions && Run(cfg, events).locks == map[] && cents >= 0
    ensures AllAdmissible(events) ==> AllAdmissible(more)
    ensures Run(cfg, more) == WithSession(WithTxn(Run(cfg, events), sid, 0, Draft(None, Topup(u, cents))), sid,
                                          TopupCall(u, cents), 0, Done(Success(sid, false)))
  {
    more := CallNext(cfg, events, sid, TopupCall(u, cents), 0, |Plan(Topup(u, cents))| + 4);
    TopupAlone(cfg, Run(cfg, events), sid, u, cents, 0);
  }

  lemma ChargeNext(cfg: Config, events: seq<Event>, sid: nat, call: Call, d: Draft) returns (more: seq<Event>)
    requires FreshCharge(cfg, Run(cfg, events), sid, call) && call.cents >= 0
    requires d == FareDraft(cfg, call.commuter, call.vehicle, call.cents, call.key)
    requires var txns := Run(cfg, events).txns;
             FindKey(txns, call.key).None? && Balance(txns, WalletOf(call.commuter)) >= call.cents
    ensures AllAdmissible(events) ==> AllAdmissible(more)
    ensures Run(cfg, more) == WithSession(WithTxn(Run(cfg, events), sid, 0, d), sid, call, 0, Done(Success(sid, false)))
  {
    more := CallNext(cfg, events, sid, call, 0, StatementCount(cfg, call));
    ChargeAlone(cfg, Run(cfg, events), sid, call, 0);
  }

  lemma AllocateAll(cfg: Config, st: State, sid: nat, o: UserId, cents: int)
    requires sid !in st.sessions && st.locks == map[] && cents == Balance(st.txns, RevenueOf(o)) > 0
    ensures Steps(cfg, Apply(cfg, st, Start(sid, AllocateCall(o, 100), 0)), sid, |Plan(AllocationOf(o, cents))| + 5)
            == WithSession(WithTxn(st, sid, 0, Draft(None, AllocationOf(o, cents))), sid, AllocateCall(o, 100), 0,
                           Done(Success(sid, false)))
  {
    assert Withheld(st.txns, o, 100) == cents;
    AllocateAlone(cfg, st, sid, o, 100, 0);
  }

  lemma AllocateNext(cfg: Config, events: seq<Event>, sid: nat, o: UserId, cents: int) returns (more: seq<Event>)
    requires sid !in Run(cfg, events).sessions && Run(cfg, events).locks == map[]
    requires cents == Balance(Run(cfg, events).txns, RevenueOf(o)) > 0
    ensures AllAdmissible(events) ==> AllAdmissible(more)
    ensures Run(cfg, more) == WithSession(WithTxn(Run(cfg, events), sid, 0, Draft(None, AllocationOf(o, cents))), sid,
                                          AllocateCall(o, 100), 0, Done(Success(sid, false)))
  {
    more := CallNext(cfg, events, sid, AllocateCall(o, 100), 0, |Plan(AllocationOf(o, cents))| + 5);
    AllocateAll(cfg, Run(cfg, events), sid, o, cents);
  }

  /** A top-up and a fare give the owner revenue. */
  lemma EarnFirst(cfg: Config, u: UserId, v: VehicleId) returns (events: seq<Event>)
    requires ValidConfig(cfg) && cfg.platformPct + cfg.driverPct < 100 && v in cfg.ownerOf && v in cfg.driverOf
    ensures AllAdmissible(events)
    ensures var st := Run(cfg, events);
            && st.locks == map[] && st.quotas == map[] && st.sessions.Keys == {0, 1}
            && Balance(st.txns, RevenueOf(cfg.ownerOf[v])) > 0 && Balance(st.txns, FuelOf(cfg.ownerOf[v])) == 0
  {
    var o, charge, d := cfg.ownerOf[v], ChargeCall(u, v, 100, "k"), FareDraft(cfg, u, v, 100, "k");
    events := TopupNext(cfg, [], 0, u, 100);
    var t := Txn(0, None, Topup(u, 100), 0, Plan(Topup(u, 100)));
    assert Run(cfg, events).txns == [t];
    ToppedUp(t, u, 100, o);
    events := ChargeNext(cfg, events, 1, charge, d);
    FarePays([t], Txn(1, d.key, d.purpose, 0, Plan(d.purpose)), o);
    FareSplits.SplitIsExact(100, cfg.platformPct, cfg.driverPct);
  }

  /** Wherever fares leave the owner a share, some run from empty tables earmarks more than the fuel account holds. */
  lemma OverrunIsReachable(cfg: Config, u: UserId, v: VehicleId) returns (events: seq<Event>)
    requires ValidConfig(cfg) && cfg.platformPct + cfg.driverPct < 100 && v in cfg.ownerOf && v in cfg.driverOf
    ensures AllAdmissible(events)
    ensures var st, o := Run(cfg, events), cfg.ownerOf[v]; Earmarked(st.quotas, o) > Balance(st.txns, FuelOf(o))
  {
    var o := cfg.ownerOf[v];
    events := EarnFirst(cfg, u, v);
    var txns, cents := Run(cfg, events).txns, Balance(Run(cfg, events).txns, RevenueOf(o));
    events := AllocateNext(cfg, events, 2, o, cents);
    AllocationMoves(txns, 2, o, cents, 0, FuelOf(o));
    var st := Run(cfg, events);
    assert QuotasOf(st.quotas, o) == map[];
    var overlap := FuelChain.OverlappingFundingOverruns(cfg, st, o, v, 3, 4, 0);
    RunThenFrom(cfg, events, overlap);
    events := events + overlap;
  }
}
