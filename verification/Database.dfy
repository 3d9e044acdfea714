/** The tables as mutable state and the statements that update them, each proved to be the
    corresponding step of module Protocol. */
module MoneyDatabase {
  import opened Wrappers
  import opened Ledger
  import opened Protocol
  import opened ProtocolSafety
  import opened LedgerTheorems
  import Sums

  class Database {
    const cfg: Config
    var txns: seq<Txn>
    var claims: map<string, nat>
    var locks: map<Row, nat>
    var quotas: map<VehicleId, Quota>
    var auths: map<nat, Authorization>
    var sessions: map<nat, Session>

    ghost function View(): State
      reads this
    {
      State(txns, claims, locks, quotas, auths, sessions)
    }

    constructor (cfg: Config)
      ensures View() == EMPTY && this.cfg == cfg
    {
      this.cfg := cfg;
      txns, claims, locks, quotas, auths, sessions := [], map[], map[], map[], map[], map[];
    }

    // ----- reads -----

    /** SUM(amount_cents) over the account's postings. */
    method AccountBalance(a: Account) returns (total: int)
      ensures total == Balance(txns, a)
    {
      total := 0;
      for i := 0 to |txns|
        invariant total == Balance(txns[..i], a)
      {
        var ps := txns[i].postings;
        var part := 0;
        for j := 0 to |ps|
          invariant part == PostingSum(ps[..j], a)
        {
          assert ps[..j + 1][..j] == ps[..j];
          if ps[j].account == a {
            part := part + ps[j].cents;
          }
        }
        assert ps[..|ps|] == ps && txns[..i + 1][..i] == txns[..i];
        total := total + part;
      }
      assert txns[..|txns|] == txns;
    }

    /** SUM(quota_cents) over the owner's quota rows. */
    method EarmarkedTotal(owner: UserId) returns (total: int)
      ensures total == Earmarked(quotas, owner)
    {
      total := 0;
      var rest := quotas;
      while rest != map[]
        invariant total + Earmarked(rest, owner) == Earmarked(quotas, owner)
        decreases |rest|
      {
        var v :| v in rest;
        assert (rest - {v}).Keys == rest.Keys - {v};
        if rest[v].owner == owner {
          Sums.SumTake(QuotasOf(rest, owner), v);
          assert QuotasOf(rest - {v}, owner) == QuotasOf(rest, owner) - {v};
          total := total + rest[v].quota;
        } else {
          assert QuotasOf(rest - {v}, owner) == QuotasOf(rest, owner);
        }
        rest := rest - {v};
      }
      assert QuotasOf(rest, owner) == map[];
    }

    /** The row with this idempotency key, searched newest first. */
    method TransactionByKey(key: string) returns (found: Option<nat>)
      ensures found == FindKey(txns, key)
    {
      var i := |txns|;
      assert txns[..i] == txns;
      while i > 0
        invariant 0 <= i <= |txns|
        invariant FindKey(txns, key) == FindKey(txns[..i], key)
      {
        assert txns[..i][..i - 1] == txns[..i - 1];
        if txns[i - 1].key == Some(key) {
          return Some(txns[i - 1].id);
        }
        i := i - 1;
      }
      found := None;
    }

    // ----- the end of a transaction -----

    method SetPhase(sid: nat, phase: Phase)
      requires sid in sessions
      modifies this`sessions
      ensures sessions == old(sessions)[sid := old(sessions)[sid].(phase := phase)]
    {
      sessions := sessions[sid := sessions[sid].(phase := phase)];
    }

    /** COMMIT or ROLLBACK: whatever was locked or claimed is given up. */
    method Release(sid: nat, outcome: Outcome)
      requires sid in sessions
      modifies this
      ensures View() == Finish(old(View()), sid, outcome)
    {
      var s := sessions[sid];
      if HeldRow(s).Some? {
        locks := locks - {HeldRow(s).value};
      }
      if HeldKey(s).Some? {
        claims := claims - {HeldKey(s).value};
      }
      SetPhase(sid, Done(outcome));
    }

    // ----- statements of the ledger calls -----

    method BeginCharge(sid: nat, commuter: UserId, vehicle: VehicleId, cents: int, key: string)
      requires sid in sessions
      modifies this
      ensures View() == Perform(old(View()), sid, OpenCharge(cfg, commuter, vehicle, cents, key))
    {
      if key == "" {
        Release(sid, Failed(IdempotencyRequired));
        return;
      }
      if vehicle !in cfg.ownerOf || vehicle !in cfg.driverOf {
        Release(sid, Failed(NoActiveDriver));
        return;
      }
      SetPhase(sid, Drafted(FareDraft(cfg, commuter, vehicle, cents, key)));
    }

    method BeginTransfer(sid: nat, owner: UserId, from: AccountType, to: AccountType, cents: int)
      requires sid in sessions
      modifies this
      ensures View() == Perform(old(View()), sid, OpenTransfer(owner, from, to, cents))
    {
      if cents <= 0 {
        Release(sid, Failed(InvalidAmount));
        return;
      }
      SetPhase(sid, Drafted(Draft(None, Transfer(owner, from, to, cents))));
    }

    method BeginAllocate(sid: nat, owner: UserId, pct: int)
      requires sid in sessions
      modifies this
      ensures View() == Perform(old(View()), sid, OpenAllocate(old(txns), owner, pct))
    {
      var revenue := AccountBalance(RevenueOf(owner));
      var cents := GoDiv(revenue * pct, 100);
      if cents <= 0 {
        Release(sid, Failed(NothingToAllocate));
        return;
      }
      BeginTransfer(sid, owner, OwnerRevenue, FuelAccount, cents);
    }

    method TryInsertTransaction(sid: nat, d: Draft)
      requires sid in sessions
      modifies this
      ensures View() == Perform(old(View()), sid, InsertTransaction(old(View()), d))
    {
      if d.key.None? {
        SetPhase(sid, Inserted(d));
        return;
      }
      var existing := TransactionByKey(d.key.value);
      if existing.Some? {
        SetPhase(sid, Conflicted(d.key.value));
      } else if d.key.value !in claims {
        claims := claims[d.key.value := sid];
        SetPhase(sid, Inserted(d));
      }
    }

    method GetTransactionByIdempotencyKey(sid: nat, key: string)
      requires sid in sessions
      modifies this
      ensures View() == Perform(old(View()), sid, FetchExisting(old(txns), key))
    {
      var existing := TransactionByKey(key);
      if existing.Some? {
        Release(sid, Success(existing.value, true));
      } else {
        Release(sid, Failed(NotFound));
      }
    }

    method LockAccountRow(sid: nat, d: Draft)
      requires sid in sessions
      modifies this
      ensures View() == Perform(old(View()), sid, LockAccount(old(locks), d))
    {
      if Debited(d.purpose).None? {
        SetPhase(sid, Writing(d, []));
        return;
      }
      var row := AccountRow(Debited(d.purpose).value);
      if row !in locks {
        locks := locks[row := sid];
        SetPhase(sid, Locked(d));
      }
    }

    method CheckFunds(sid: nat, d: Draft)
      requires sid in sessions
      modifies this
      ensures View() == Perform(old(View()), sid, CheckBalance(old(txns), d))
    {
      if Debited(d.purpose).Some? {
        var balance := AccountBalance(Debited(d.purpose).value);
        if balance < d.purpose.cents {
          Release(sid, Failed(InsufficientFunds));
          return;
        }
      }
      SetPhase(sid, Writing(d, []));
    }

    method InsertPostingOrCommit(sid: nat, d: Draft, written: seq<Posting>)
      requires sid in sessions
      modifies this
      ensures View() == Perform(old(View()), sid, WritePosting(old(txns), sid, old(sessions)[sid].at, d, written))
    {
      var plan := Plan(d.purpose);
      if |written| < |plan| {
        SetPhase(sid, Writing(d, written + [plan[|written|]]));
        return;
      }
      if d.key.Some? {
        var existing := TransactionByKey(d.key.value);
        if existing.Some? {
          Release(sid, Success(existing.value, true));
          return;
        }
      }
      txns := txns + [Txn(sid, d.key, d.purpose, sessions[sid].at, written)];
      Release(sid, Success(sid, false));
    }

    // ----- statements of the fuel calls -----

    method BeginFund(sid: nat, owner: UserId, vehicle: VehicleId, cents: int)
      requires sid in sessions
      modifies this
      ensures View() == Perform(old(View()), sid, OpenFund(cfg, old(txns), owner, vehicle, cents))
    {
      if cents <= 0 {
        Release(sid, Failed(InvalidAmount));
      } else if vehicle !in cfg.ownerOf {
        Release(sid, Failed(NotFound));
      } else if cfg.ownerOf[vehicle] != owner {
        Release(sid, Failed(NotOwnersVehicle));
      } else {
        var balance := AccountBalance(FuelOf(owner));
        SetPhase(sid, Measured(balance));
      }
    }

    method CompareEarmarks(sid: nat, owner: UserId, cents: int, balance: int)
      requires sid in sessions
      modifies this
      ensures View() == Perform(old(View()), sid, CheckEarmarks(Earmarked(old(quotas), owner), cents, balance))
    {
      var already := EarmarkedTotal(owner);
      if already + cents > balance {
        Release(sid, Failed(InsufficientFunds));
      } else {
        SetPhase(sid, Staged(0));
      }
    }

    method BeginAuthorize(sid: nat, vehicle: VehicleId, cents: int)
      requires sid in sessions
      modifies this
      ensures View() == Perform(old(View()), sid, OpenAuthorize(old(View()), vehicle, cents))
    {
      if cents <= 0 {
        Release(sid, Failed(InvalidAmount));
      } else if vehicle !in quotas {
        Release(sid, Denied(0));
      } else if QuotaRow(vehicle) !in locks {
        var available := quotas[vehicle].Available();
        if cents > available {
          Release(sid, Denied(available));
        } else {
          locks := locks[QuotaRow(vehicle) := sid];
          SetPhase(sid, Staged(0));
        }
      }
    }

    method BeginConfirm(sid: nat, auth: nat)
      requires sid in sessions
      modifies this
      ensures View() == Perform(old(View()), sid, OpenConfirm(old(View()), auth))
    {
      if auth !in auths {
        Release(sid, Failed(NotFound));
      } else if AuthRow(auth) !in locks {
        if auths[auth].status == Confirmed {
          Release(sid, Settled(auths[auth].vehicle, auths[auth].cents, true));
        } else {
          locks := locks[AuthRow(auth) := sid];
          SetPhase(sid, Staged(0));
        }
      }
    }

    method WriteOrCommitFuel(sid: nat, call: Call, writes: nat)
      requires sid in sessions
      modifies this
      ensures View() == Perform(old(View()), sid, WriteFuel(old(View()), sid, call, writes))
    {
      if writes < Writes(call) {
        SetPhase(sid, Staged(writes + 1));
        return;
      }
      match call
      case FundCall(owner, v, cents) => CommitEarmark(sid, owner, v, cents);
      case AuthorizeCall(v, cents) =>
        if v in quotas {
          CommitReservation(sid, v, cents);
        }
      case ConfirmCall(auth) =>
        if auth in auths && auths[auth].vehicle in quotas {
          CommitDebit(sid, auth);
        }
      case _ =>
    }

    method CommitEarmark(sid: nat, owner: UserId, v: VehicleId, cents: int)
      requires sid in sessions
      modifies this
      ensures View() == Perform(old(View()), sid, Store(Upsert(old(quotas), owner, v, cents), old(auths), Funded))
    {
      var row := if v in quotas then quotas[v] else Quota(owner, 0, 0, 0);
      quotas := quotas[v := row.(quota := row.quota + cents)];
      Release(sid, Funded);
    }

    method CommitReservation(sid: nat, v: VehicleId, cents: int)
      requires sid in sessions && v in quotas
      modifies this
      ensures View() == Perform(old(View()), sid, Store(Reserve(old(quotas), v, cents),
                                                        old(auths)[sid := Authorization(v, cents, Reserved)], Authorized(sid)))
    {
      auths := auths[sid := Authorization(v, cents, Reserved)];
      quotas := quotas[v := quotas[v].(reserved := quotas[v].reserved + cents)];
      Release(sid, Authorized(sid));
    }

    method CommitDebit(sid: nat, auth: nat)
      requires sid in sessions && auth in auths && auths[auth].vehicle in quotas
      modifies this
      ensures var a := old(auths)[auth];
              View() == Perform(old(View()), sid, Store(Debit(old(quotas), a.vehicle, a.cents), Confirm(old(auths), auth),
                                                        Settled(a.vehicle, a.cents, false)))
    {
      var a := auths[auth];
      var q := quotas[a.vehicle];
      quotas := quotas[a.vehicle := q.(reserved := q.reserved - a.cents, used := q.used + a.cents)];
      auths := auths[auth := a.(status := Confirmed)];
      Release(sid, Settled(a.vehicle, a.cents, false));
    }

    // ----- events -----

    method Open(sid: nat)
      requires sid in sessions
      modifies this
      ensures View() == Perform(old(View()), sid, Protocol.Open(cfg, old(View()), old(sessions)[sid].call))
    {
      match sessions[sid].call
      case TopupCall(commuter, cents) => SetPhase(sid, Drafted(Draft(None, Topup(commuter, cents))));
      case ChargeCall(commuter, vehicle, cents, key) => BeginCharge(sid, commuter, vehicle, cents, key);
      case TransferCall(owner, from, to, cents) => BeginTransfer(sid, owner, from, to, cents);
      case AllocateCall(owner, pct) => BeginAllocate(sid, owner, pct);
      case FundCall(owner, vehicle, cents) => BeginFund(sid, owner, vehicle, cents);
      case AuthorizeCall(vehicle, cents) => BeginAuthorize(sid, vehicle, cents);
      case ConfirmCall(auth) => BeginConfirm(sid, auth);
    }

    method Step(sid: nat)
      modifies this
      ensures View() == Apply(cfg, old(View()), Advance(sid))
    {
      if sid !in sessions {
        return;
      }
      var s := sessions[sid];
      match s.phase
      case Begun => Open(sid);
      case Drafted(d) => TryInsertTransaction(sid, d);
      case Conflicted(k) => GetTransactionByIdempotencyKey(sid, k);
      case Inserted(d) => LockAccountRow(sid, d);
      case Locked(d) => CheckFunds(sid, d);
      case Writing(d, w) => InsertPostingOrCommit(sid, d, w);
      case Measured(b) =>
        if s.call.FundCall? {
          CompareEarmarks(sid, s.call.owner, s.call.cents, b);
        }
      case Staged(n) => WriteOrCommitFuel(sid, s.call, n);
      case Done(_) =>
    }

    method Handle(e: Event)
      modifies this
      ensures View() == Apply(cfg, old(View()), e)
    {
      match e
      case Start(sid, call, at) =>
        if sid !in sessions {
          sessions := sessions[sid := Session(call, at, Begun)];
        }
      case Advance(sid) => Step(sid);
      case Fail(sid) =>
        if sid in sessions && !sessions[sid].phase.Done? {
          Release(sid, Failed(Aborted));
        }
    }

    /** Serving any schedule of statements keeps the books sound. */
    method Serve(events: seq<Event>)
      requires ValidConfig(cfg) && Inv(cfg, View()) && AllAdmissible(events)
      modifies this
      ensures View() == RunFrom(cfg, old(View()), events)
      ensures Inv(cfg, View())
    {
      for i := 0 to |events|
        invariant View() == RunFrom(cfg, old(View()), events[..i])
        invariant Inv(cfg, View())
      {
        assert events[..i + 1][..i] == events[..i];
        ApplyKeepsInv(cfg, View(), events[i]);
        Handle(events[i]);
      }
      assert events[..|events|] == events;
    }

    /** A charge of a call that is fit to be charged, undisturbed. */
    method RunCharge(sid: nat, call: Call, at: nat) returns (outcome: Outcome)
      requires FreshCharge(cfg, View(), sid, call)
      modifies this
      ensures View().(sessions := old(sessions)) == AfterCharge(cfg, old(View()), sid, call, at)
      ensures outcome == ChargeOutcome(cfg, old(View()), sid, call)
    {
      ghost var before := View();
      Handle(Start(sid, call, at));
      ghost var started := View();
      var n := StatementCount(cfg, call);
      for i := 0 to n
        invariant View() == Steps(cfg, started, sid, i)
      {
        StepsCompose(cfg, started, sid, i, 1);
        Step(sid);
      }
      ChargeAlone(cfg, before, sid, call, at);
      outcome := sessions[sid].phase.outcome;
    }

    /** ChargeFare, start to end, when nobody else holds its key or a row it locks or posts to. */
    method ChargeFare(sid: nat, call: Call, at: nat) returns (outcome: Outcome)
      requires sid !in sessions && call.ChargeCall?
      requires Unhindered(cfg, View(), call)
      modifies this
      ensures View().(sessions := old(sessions)) == AfterCharge(cfg, old(View()), sid, call, at)
      ensures outcome == ChargeOutcome(cfg, old(View()), sid, call)
    {
      if call.key != "" && call.vehicle in cfg.ownerOf && call.vehicle in cfg.driverOf {
        outcome := RunCharge(sid, call, at);
        return;
      }
      Handle(Start(sid, call, at));
      Step(sid);
      outcome := sessions[sid].phase.outcome;
    }
  }

  /** How an undisturbed ChargeFare ends: refused, replayed, short of funds, or one transaction the richer. */
  function ChargeOutcome(cfg: Config, st: State, sid: nat, call: Call): Outcome
    requires call.ChargeCall?
  {
    if call.key == "" then Failed(IdempotencyRequired)
    else if call.vehicle !in cfg.ownerOf || call.vehicle !in cfg.driverOf then Failed(NoActiveDriver)
    else if FindKey(st.txns, call.key).Some? then Success(FindKey(st.txns, call.key).value, true)
    else if Balance(st.txns, WalletOf(call.commuter)) < call.cents then Failed(InsufficientFunds)
    else Success(sid, false)
  }

  /** The tables it leaves, sessions aside. */
  function AfterCharge(cfg: Config, st: State, sid: nat, call: Call, at: nat): State
    requires call.ChargeCall?
  {
    if ChargeOutcome(cfg, st, sid, call) == Success(sid, false) then
      WithTxn(st, sid, at, FareDraft(cfg, call.commuter, call.vehicle, call.cents, call.key))
    else st
  }
}
