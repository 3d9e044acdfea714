/** What each money call answers and does, told in accounts, columns and percentages. */
module MoneyAnswers {
  import opened Wrappers
  import opened Ledger
  import opened FareSplits
  import opened Protocol
  import opened ProtocolSafety
  import opened LedgerTheorems
  import opened FuelCalls
  import Sums

  /** A transaction's effect on an account. */
  function Moved(t: Txn, a: Account): int { PostingSum(t.postings, a) }

  lemma FareMoves(p: Purpose, a: Account)
    requires p.Fare?
    ensures PostingSum(Plan(p), a)
            == (if a == Account(Some(p.commuter), CommuterWallet) then -p.cents else 0)
               + (if a == Account(Some(p.driver), DriverEarnings) then p.split.driver else 0)
               + (if a == Account(Some(p.owner), OwnerRevenue) then p.split.owner else 0)
               + (if a == Account(None, PlatformFee) then p.split.platform else 0)
  {
    var s := Plan(p);
    QuadSum(s[0], s[1], s[2], s[3], a);
    PairSum(s[0], s[1], a);
    PairSum(s[2], s[3], a);
  }

  lemma OthersMove(p: Purpose, a: Account)
    requires !p.Fare?
    ensures p.Topup? ==>
              PostingSum(Plan(p), a) == (if a == Account(None, FundingSource) then -p.cents else 0)
                                        + (if a == Account(Some(p.commuter), CommuterWallet) then p.cents else 0)
    ensures p.Transfer? ==>
              PostingSum(Plan(p), a) == (if a == Account(Some(p.owner), p.from) then -p.cents else 0)
                                        + (if a == Account(Some(p.owner), p.to) then p.cents else 0)
  {
    PairSum(Plan(p)[0], Plan(p)[1], a);
  }

  /** q is x / 100, truncated toward zero. */
  predicate Hundredth(x: int, q: int) {
    -100 < x - 100 * q < 100 && (x >= 0 ==> x - 100 * q >= 0) && (x <= 0 ==> x - 100 * q <= 0)
  }

  lemma QuotientTruncates(x: int, q: int)
    ensures Hundredth(x, q) <==> GoDiv(x, 100) == q
  {
  }

  /** The parties of a fare are the vehicle's own, and each share is its percentage of the fare, rounded in the owner's favour. */
  predicate SplitAsConfigured(cfg: Config, t: Txn) {
    && t.purpose.Fare? && t.purpose.vehicle in cfg.ownerOf && t.purpose.vehicle in cfg.driverOf
    && t.purpose.owner == cfg.ownerOf[t.purpose.vehicle] && t.purpose.driver == cfg.driverOf[t.purpose.vehicle]
    && (var cents, driver, owner := t.purpose.cents, Account(Some(t.purpose.driver), DriverEarnings),
                                    Account(Some(t.purpose.owner), OwnerRevenue);
        var platform := Account(None, PlatformFee);
        && Moved(t, Account(Some(t.purpose.commuter), CommuterWallet)) == -cents
        && 0 <= cents * cfg.platformPct - 100 * Moved(t, platform) < 100
        && 0 <= cents * cfg.driverPct - 100 * Moved(t, driver) < 100
        && Moved(t, owner) == cents - Moved(t, platform) - Moved(t, driver)
        && t.purpose.split == FareSplit(Moved(t, platform), Moved(t, driver), Moved(t, owner)))
  }

  lemma DraftedFareIsSplit(cfg: Config, t: Txn, call: Call)
    requires ValidConfig(cfg) && call.ChargeCall? && call.cents >= 0 && t.postings == Plan(t.purpose)
    requires call.vehicle in cfg.ownerOf && call.vehicle in cfg.driverOf
    requires t.purpose == FareDraft(cfg, call.commuter, call.vehicle, call.cents, call.key).purpose
    ensures SplitAsConfigured(cfg, t)
  {
    FareMoves(t.purpose, Account(Some(call.commuter), CommuterWallet));
    FareMoves(t.purpose, Account(Some(t.purpose.driver), DriverEarnings));
    FareMoves(t.purpose, Account(Some(t.purpose.owner), OwnerRevenue));
    FareMoves(t.purpose, Account(None, PlatformFee));
    SplitIsExact(call.cents, cfg.platformPct, cfg.driverPct);
  }

  /** In every interleaving: a fare is the fare some charge asked for, on the accounts of the vehicle's own driver and
      owner, split by the configured percentages, and it moves no other account. */
  lemma EveryFareIsSplit(cfg: Config, events: seq<Event>, t: Txn)
    requires ValidConfig(cfg) && AllAdmissible(events) && t in Run(cfg, events).txns && t.purpose.Fare?
    ensures SplitAsConfigured(cfg, t)
    ensures var sessions := Run(cfg, events).sessions;
            && t.id in sessions && sessions[t.id].at == t.at && t.key.Some?
            && sessions[t.id].call == ChargeCall(t.purpose.commuter, t.purpose.vehicle, t.purpose.cents, t.key.value)
    ensures forall a :: Moved(t, a) != 0 ==>
              a in {Account(Some(t.purpose.commuter), CommuterWallet), Account(Some(t.purpose.driver), DriverEarnings),
                    Account(Some(t.purpose.owner), OwnerRevenue), Account(None, PlatformFee)}
  {
    RunKeepsInv(cfg, events);
    var st := Run(cfg, events);
    var i :| 0 <= i < |st.txns| && st.txns[i] == t;
    assert TxnOk(cfg, st.txns[i], st.sessions);
    assert SessionOk(cfg, st.txns, st.quotas, st.auths, t.id, st.sessions[t.id]);
    DraftedFareIsSplit(cfg, t, st.sessions[t.id].call);
    forall a { FareMoves(t.purpose, a); }
  }

  /** In every interleaving: a top-up and a transfer too are what some call asked for, and move no other account. */
  lemma EveryTransferIsItsCall(cfg: Config, events: seq<Event>, t: Txn, a: Account)
    requires ValidConfig(cfg) && AllAdmissible(events) && t in Run(cfg, events).txns && !t.purpose.Fare?
    ensures var sessions := Run(cfg, events).sessions;
            && t.id in sessions && sessions[t.id].at == t.at && t.key.None?
            && match sessions[t.id].call
               case TopupCall(u, cents) =>
                 Moved(t, a) == (if a == Account(None, FundingSource) then -cents else 0)
                                + (if a == Account(Some(u), CommuterWallet) then cents else 0)
               case TransferCall(o, from, to, cents) =>
                 Moved(t, a) == (if a == Account(Some(o), from) then -cents else 0)
                    + (if a == Account(Some(o), to) then cents else 0)
               case AllocateCall(o, _) =>
                 && t.purpose.cents > 0
                 && Moved(t, a) == (if a == Account(Some(o), OwnerRevenue) then -t.purpose.cents else 0)
                                   + (if a == Account(Some(o), FuelAccount) then t.purpose.cents else 0)
               case _ => false
  {
    RunKeepsInv(cfg, events);
    var st := Run(cfg, events);
    var i :| 0 <= i < |st.txns| && st.txns[i] == t;
    assert TxnOk(cfg, st.txns[i], st.sessions);
    OthersMove(t.purpose, a);
  }

  // ----- the end of an undisturbed call -----

  lemma EndHolds(cfg: Config, st: State, sid: nat, m: nat, n: nat)
    requires m <= n && sid in Steps(cfg, st, sid, m).sessions && Steps(cfg, st, sid, m).sessions[sid].phase.Done?
    ensures Steps(cfg, st, sid, n) == Steps(cfg, st, sid, m)
  {
    var k: nat := n - m;
    StepsCompose(cfg, st, sid, m, k);
    StillAlone(cfg, Steps(cfg, st, sid, m), sid, k);
  }

  /** n statements of a call that starts now. */
  ghost function After(cfg: Config, st: State, sid: nat, call: Call, n: nat): State {
    Steps(cfg, Apply(cfg, st, Start(sid, call, 0)), sid, n)
  }

  lemma AfterEnd(cfg: Config, st: State, sid: nat, call: Call, m: nat, n: nat, last: State)
    requires m <= n && After(cfg, st, sid, call, m) == last && sid in last.sessions && last.sessions[sid].phase.Done?
    ensures After(cfg, st, sid, call, n) == last
  {
    EndHolds(cfg, Apply(cfg, st, Start(sid, call, 0)), sid, m, n);
  }

  predicate Answered(st: State, sid: nat, o: Outcome) { sid in st.sessions && st.sessions[sid].phase == Done(o) }

  predicate SameBooks(a: State, b: State) {
    a.txns == b.txns && a.quotas == b.quotas && a.auths == b.auths && a.locks == b.locks && a.claims == b.claims
  }

  lemma {:induction false} KeyIsFound(txns: seq<Txn>, key: string)
    ensures FindKey(txns, key).None? <==> forall i :: 0 <= i < |txns| ==> txns[i].key != Some(key)
    ensures FindKey(txns, key).Some? ==>
              exists i :: 0 <= i < |txns| && txns[i].key == Some(key) && txns[i].id == FindKey(txns, key).value
  {
    if txns != [] && txns[|txns| - 1].key != Some(key) {
      KeyIsFound(txns[..|txns| - 1], key);
      if FindKey(txns, key).Some? {
        var i :| 0 <= i < |txns| - 1 && txns[..|txns| - 1][i].key == Some(key)
                 && txns[..|txns| - 1][i].id == FindKey(txns, key).value;
        assert txns[i].key == Some(key);
      }
    }
  }

  predicate KeyTaken(txns: seq<Txn>, key: string) { exists i :: 0 <= i < |txns| && txns[i].key == Some(key) }

  predicate Chargeable(cfg: Config, call: Call)
    requires call.ChargeCall?
  {
    call.key != "" && call.vehicle in cfg.ownerOf && call.vehicle in cfg.driverOf
  }

  /** A charge is refused without a key, without a driver or an owner; answered with the transaction its key already has;
      refused short of funds; and only otherwise one more transaction. */
  lemma ChargeAnswers(cfg: Config, st: State, sid: nat, call: Call, n: nat)
    requires sid !in st.sessions && call.ChargeCall? && Unhindered(cfg, st, call) && n >= 9
    ensures var st', wallet := After(cfg, st, sid, call, n), Account(Some(call.commuter), CommuterWallet);
            && (call.key == "" ==> Answered(st', sid, Failed(IdempotencyRequired)) && SameBooks(st', st))
            && (call.key != "" && !Chargeable(cfg, call) ==> Answered(st', sid, Failed(NoActiveDriver)) && SameBooks(st', st))
            && (Chargeable(cfg, call) && KeyTaken(st.txns, call.key) ==>
                  SameBooks(st', st)
                  && exists i :: 0 <= i < |st.txns| && st.txns[i].key == Some(call.key)
                                 && Answered(st', sid, Success(st.txns[i].id, true)))
            && (Chargeable(cfg, call) && !KeyTaken(st.txns, call.key) && Balance(st.txns, wallet) < call.cents ==>
                  Answered(st', sid, Failed(InsufficientFunds)) && SameBooks(st', st))
            && (Chargeable(cfg, call) && !KeyTaken(st.txns, call.key) && Balance(st.txns, wallet) >= call.cents ==>
                  Answered(st', sid, Success(sid, false)) && ChargedOnce(cfg, st, st', sid, call))
  {
    KeyIsFound(st.txns, call.key);
    if Chargeable(cfg, call) {
      ChargeEnds(cfg, st, sid, call, n);
      FreshChargeAdds(cfg, st, sid, call);
    } else {
      UnfitEnds(cfg, st, sid, call, n);
    }
  }

  ghost function ChargeEnd(cfg: Config, st: State, sid: nat, call: Call): State
    requires call.ChargeCall? && Chargeable(cfg, call)
  {
    if FindKey(st.txns, call.key).Some? then
      WithSession(st, sid, call, 0, Done(Success(FindKey(st.txns, call.key).value, true)))
    else if Balance(st.txns, WalletOf(call.commuter)) < call.cents then
      WithSession(st, sid, call, 0, Done(Failed(InsufficientFunds)))
    else
      WithSession(WithTxn(st, sid, 0, FareDraft(cfg, call.commuter, call.vehicle, call.cents, call.key)), sid, call, 0,
                  Done(Success(sid, false)))
  }

  lemma ChargeEnds(cfg: Config, st: State, sid: nat, call: Call, n: nat)
    requires sid !in st.sessions && call.ChargeCall? && Unhindered(cfg, st, call) && Chargeable(cfg, call)
    requires n >= StatementCount(cfg, call)
    ensures After(cfg, st, sid, call, n) == ChargeEnd(cfg, st, sid, call)
  {
    ChargeAlone(cfg, st, sid, call, 0);
    AfterEnd(cfg, st, sid, call, StatementCount(cfg, call), n, ChargeEnd(cfg, st, sid, call));
  }

  lemma UnfitEnds(cfg: Config, st: State, sid: nat, call: Call, n: nat)
    requires sid !in st.sessions && call.ChargeCall? && !Chargeable(cfg, call) && n > 0
    ensures After(cfg, st, sid, call, n)
            == WithSession(st, sid, call, 0, Done(Failed(if call.key == "" then IdempotencyRequired else NoActiveDriver)))
  {
    EndOn(cfg, st, sid, call, 0, Begun, Failed(if call.key == "" then IdempotencyRequired else NoActiveDriver), n);
  }

  /** One transaction more: this call's, on this vehicle, split as configured. */
  predicate ChargedOnce(cfg: Config, st: State, st': State, sid: nat, call: Call)
    requires call.ChargeCall?
  {
    && SameBooks(st'.(txns := st.txns), st) && |st'.txns| == |st.txns| + 1 && st.txns <= st'.txns
    && (var t := st'.txns[|st.txns|];
        && t.id == sid && t.key == Some(call.key) && t.purpose.Fare?
        && t.purpose.commuter == call.commuter && t.purpose.vehicle == call.vehicle && t.purpose.cents == call.cents
        && (ValidConfig(cfg) && call.cents >= 0 ==> SplitAsConfigured(cfg, t)))
  }

  lemma FreshChargeAdds(cfg: Config, st: State, sid: nat, call: Call)
    requires call.ChargeCall? && call.vehicle in cfg.ownerOf && call.vehicle in cfg.driverOf
    ensures var d := FareDraft(cfg, call.commuter, call.vehicle, call.cents, call.key);
            ChargedOnce(cfg, st, WithSession(WithTxn(st, sid, 0, d), sid, call, 0, Done(Success(sid, false))), sid, call)
  {
    var d := FareDraft(cfg, call.commuter, call.vehicle, call.cents, call.key);
    var t := Txn(sid, d.key, d.purpose, 0, Plan(d.purpose));
    if ValidConfig(cfg) && call.cents >= 0 {
      DraftedFareIsSplit(cfg, t, call);
    }
  }

  /** A top-up takes from the funding source and gives to that commuter's wallet, and to nobody else. */
  lemma TopupAnswers(cfg: Config, st: State, sid: nat, u: UserId, cents: int, n: nat, a: Account)
    requires sid !in st.sessions && RowsFree(st, Topup(u, cents)) && n >= 6
    ensures var st' := After(cfg, st, sid, TopupCall(u, cents), n);
            && Answered(st', sid, Success(sid, false)) && SameBooks(st'.(txns := st.txns), st)
            && Balance(st'.txns, a) - Balance(st.txns, a)
               == (if a == Account(None, FundingSource) then -cents else 0)
                  + (if a == Account(Some(u), CommuterWallet) then cents else 0)
  {
    var call, p := TopupCall(u, cents), Topup(u, cents);
    TopupAlone(cfg, st, sid, u, cents, 0);
    AfterEnd(cfg, st, sid, call, 6, n, After(cfg, st, sid, call, 6));
    BalanceAppend(st.txns, Txn(sid, None, p, 0, Plan(p)), a);
    OthersMove(p, a);
  }

  /** Allocate moves the percentage of the revenue, truncated, from the owner's revenue to the owner's fuel account. */
  lemma AllocateAnswers(cfg: Config, st: State, sid: nat, o: UserId, pct: int, n: nat, w: int, a: Account)
    requires sid !in st.sessions && n >= 7 && Hundredth(Balance(st.txns, Account(Some(o), OwnerRevenue)) * pct, w)
    requires w > 0 ==>
               AccountRow(Account(Some(o), OwnerRevenue)) !in st.locks && AccountRow(Account(Some(o), FuelAccount)) !in st.locks
    ensures var st', revenue := After(cfg, st, sid, AllocateCall(o, pct), n), Account(Some(o), OwnerRevenue);
            && (w <= 0 ==> Answered(st', sid, Failed(NothingToAllocate)) && SameBooks(st', st))
            && (0 < w && Balance(st.txns, revenue) < w ==> Answered(st', sid, Failed(InsufficientFunds)) && SameBooks(st', st))
            && (0 < w <= Balance(st.txns, revenue) ==>
                  && Answered(st', sid, Success(sid, false)) && SameBooks(st'.(txns := st.txns), st)
                  && Balance(st'.txns, a) - Balance(st.txns, a)
                     == if a == Account(Some(o), FuelAccount) then w else if a == revenue then -w else 0)
  {
    QuotientTruncates(Balance(st.txns, Account(Some(o), OwnerRevenue)) * pct, w);
    AllocateEnds(cfg, st, sid, o, pct, n, w);
    AllocatedMoves(st, sid, o, w, a);
  }

  lemma AllocateEnds(cfg: Config, st: State, sid: nat, o: UserId, pct: int, n: nat, w: int)
    requires sid !in st.sessions && n >= |Plan(AllocationOf(o, w))| + 5 && Withheld(st.txns, o, pct) == w
    requires w > 0 ==> RowsFree(st, AllocationOf(o, w))
    ensures After(cfg, st, sid, AllocateCall(o, pct), n) == AllocateEnd(st, sid, o, pct, w)
  {
    AllocateAlone(cfg, st, sid, o, pct, 0);
    AfterEnd(cfg, st, sid, AllocateCall(o, pct), |Plan(AllocationOf(o, w))| + 5, n, AllocateEnd(st, sid, o, pct, w));
  }

  function AllocateEnd(st: State, sid: nat, o: UserId, pct: int, w: int): State {
    var call := AllocateCall(o, pct);
    if w <= 0 then WithSession(st, sid, call, 0, Done(Failed(NothingToAllocate)))
    else if Balance(st.txns, RevenueOf(o)) < w then WithSession(st, sid, call, 0, Done(Failed(InsufficientFunds)))
    else WithSession(WithTxn(st, sid, 0, Draft(None, AllocationOf(o, w))), sid, call, 0, Done(Success(sid, false)))
  }

  lemma AllocatedMoves(st: State, sid: nat, o: UserId, w: int, a: Account)
    ensures Balance(WithTxn(st, sid, 0, Draft(None, AllocationOf(o, w))).txns, a) - Balance(st.txns, a)
            == if a == Account(Some(o), FuelAccount) then w else if a == Account(Some(o), OwnerRevenue) then -w else 0
  {
    var p := AllocationOf(o, w);
    BalanceAppend(st.txns, Txn(sid, None, p, 0, Plan(p)), a);
    OthersMove(p, a);
  }

  // ----- the fuel calls, in the columns of their rows -----

  /** Granted exactly when what is reserved and used leaves room for it, else told how much room there is. */
  lemma AuthorizeAnswers(cfg: Config, st: State, sid: nat, v: VehicleId, cents: int, n: nat)
    requires sid !in st.sessions && QuotaRow(v) !in st.locks && n >= 4
    ensures var st' := After(cfg, st, sid, AuthorizeCall(v, cents), n);
            && (cents <= 0 ==> Answered(st', sid, Failed(InvalidAmount)) && SameBooks(st', st))
            && (cents > 0 && v !in st.quotas ==> Answered(st', sid, Denied(0)) && SameBooks(st', st))
            && (cents > 0 && v in st.quotas ==>
                  var q := st.quotas[v];
                  if q.reserved + q.used + cents <= q.quota then
                    && Answered(st', sid, Authorized(sid))
                    && SameBooks(st', st.(quotas := st.quotas[v := Quota(q.owner, q.quota, q.reserved + cents, q.used)],
                                          auths := st.auths[sid := Authorization(v, cents, Reserved)]))
                  else Answered(st', sid, Denied(q.quota - q.reserved - q.used)) && SameBooks(st', st))
  {
    AuthorizeAlone(cfg, st, sid, v, cents, 0);
    EndedAs(cfg, st, sid, AuthorizeCall(v, cents), 4, n, AfterAuthorize(st, sid, v, cents));
    AuthorizeEnds(st, sid, v, cents);
  }

  lemma EndedAs(cfg: Config, st: State, sid: nat, call: Call, m: nat, n: nat, e: Ending)
    requires m <= n && After(cfg, st, sid, call, m) == Ended(st, sid, call, 0, e)
    ensures After(cfg, st, sid, call, n) == Ended(st, sid, call, 0, e)
    ensures Answered(After(cfg, st, sid, call, n), sid, e.outcome)
    ensures SameBooks(After(cfg, st, sid, call, n), st.(quotas := e.quotas, auths := e.auths))
  {
    AfterEnd(cfg, st, sid, call, m, n, Ended(st, sid, call, 0, e));
  }

  lemma AuthorizeEnds(st: State, sid: nat, v: VehicleId, cents: int)
    ensures var e := AfterAuthorize(st, sid, v, cents);
            && (cents <= 0 ==> e == Ending(st.quotas, st.auths, Failed(InvalidAmount)))
            && (cents > 0 && v !in st.quotas ==> e == Ending(st.quotas, st.auths, Denied(0)))
            && (cents > 0 && v in st.quotas ==>
                  var q := st.quotas[v];
                  e == if q.reserved + q.used + cents <= q.quota
                       then Ending(st.quotas[v := Quota(q.owner, q.quota, q.reserved + cents, q.used)],
                                   st.auths[sid := Authorization(v, cents, Reserved)], Authorized(sid))
                       else Ending(st.quotas, st.auths, Denied(q.quota - q.reserved - q.used)))
  {
  }

  /** Unknown, already confirmed, or its cents go from the reserved column to the used one. */
  lemma ConfirmAnswers(cfg: Config, st: State, sid: nat, auth: nat, n: nat)
    requires sid !in st.sessions && AuthRow(auth) !in st.locks && n >= 4
    requires auth in st.auths ==> st.auths[auth].vehicle in st.quotas
    ensures var st' := After(cfg, st, sid, ConfirmCall(auth), n);
            && (auth !in st.auths ==> Answered(st', sid, Failed(NotFound)) && SameBooks(st', st))
            && (auth in st.auths ==>
                  var x := st.auths[auth]; var q := st.quotas[x.vehicle];
                  if x.status == Confirmed then Answered(st', sid, Settled(x.vehicle, x.cents, true)) && SameBooks(st', st)
                  else
                    && Answered(st', sid, Settled(x.vehicle, x.cents, false))
                    && SameBooks(st', st.(quotas := st.quotas[x.vehicle :=
                                           Quota(q.owner, q.quota, q.reserved - x.cents, q.used + x.cents)],
                                          auths := st.auths[auth := Authorization(x.vehicle, x.cents, Confirmed)])))
  {
    ConfirmAlone(cfg, st, sid, auth, 0);
    EndedAs(cfg, st, sid, ConfirmCall(auth), 4, n, AfterConfirm(st, auth));
    ConfirmEnds(st, auth);
  }

  lemma ConfirmEnds(st: State, auth: nat)
    requires auth in st.auths ==> st.auths[auth].vehicle in st.quotas
    ensures auth !in st.auths ==> AfterConfirm(st, auth) == Ending(st.quotas, st.auths, Failed(NotFound))
    ensures auth in st.auths ==>
              var x := st.auths[auth]; var q := st.quotas[x.vehicle];
              AfterConfirm(st, auth)
              == if x.status == Confirmed then Ending(st.quotas, st.auths, Settled(x.vehicle, x.cents, true))
                 else Ending(st.quotas[x.vehicle := Quota(q.owner, q.quota, q.reserved - x.cents, q.used + x.cents)],
                             st.auths[auth := Authorization(x.vehicle, x.cents, Confirmed)], Settled(x.vehicle, x.cents, false))
  {
  }

  /** The quota column over the rows of one owner. */
  ghost predicate QuotaColumn(quotas: map<VehicleId, Quota>, o: UserId, owned: map<VehicleId, int>) {
    && (forall u :: u in owned <==> u in quotas && quotas[u].owner == o)
    && (forall u :: u in owned ==> owned[u] == quotas[u].quota)
  }

  /** Granted exactly when the owner's quotas and the amount stay within the owner's fuel account. */
  lemma FundAnswers(cfg: Config, st: State, sid: nat, o: UserId, v: VehicleId, cents: int, n: nat, owned: map<VehicleId, int>)
    requires sid !in st.sessions && n >= 4 && QuotaColumn(st.quotas, o, owned)
    ensures var st' := After(cfg, st, sid, FundCall(o, v, cents), n);
            && (cents <= 0 ==> Answered(st', sid, Failed(InvalidAmount)) && SameBooks(st', st))
            && (cents > 0 && v !in cfg.ownerOf ==> Answered(st', sid, Failed(NotFound)) && SameBooks(st', st))
            && (cents > 0 && v in cfg.ownerOf && cfg.ownerOf[v] != o ==>
                  Answered(st', sid, Failed(NotOwnersVehicle)) && SameBooks(st', st))
            && (cents > 0 && v in cfg.ownerOf && cfg.ownerOf[v] == o ==>
                  if Sums.Sum(owned) + cents > Balance(st.txns, Account(Some(o), FuelAccount)) then
                    Answered(st', sid, Failed(InsufficientFunds)) && SameBooks(st', st)
                  else
                    Answered(st', sid, Funded) && SameBooks(st', st.(quotas := st.quotas[v := Raised(st.quotas, o, v, cents)])))
  {
    FundAlone(cfg, st, sid, o, v, cents, 0);
    EndedAs(cfg, st, sid, FundCall(o, v, cents), 4, n, AfterFund(cfg, st, o, v, cents));
    FundEnds(cfg, st, o, v, cents, owned);
  }

  lemma FundEnds(cfg: Config, st: State, o: UserId, v: VehicleId, cents: int, owned: map<VehicleId, int>)
    requires QuotaColumn(st.quotas, o, owned)
    ensures AfterFund(cfg, st, o, v, cents)
            == if cents <= 0 then Ending(st.quotas, st.auths, Failed(InvalidAmount))
                 else if v !in cfg.ownerOf then Ending(st.quotas, st.auths, Failed(NotFound))
                 else if cfg.ownerOf[v] != o then Ending(st.quotas, st.auths, Failed(NotOwnersVehicle))
                 else if Sums.Sum(owned) + cents > Balance(st.txns, Account(Some(o), FuelAccount)) then
                   Ending(st.quotas, st.auths, Failed(InsufficientFunds))
                 else Ending(st.quotas[v := Raised(st.quotas, o, v, cents)], st.auths, Funded)
  {
    assert QuotasOf(st.quotas, o) == owned;
  }

  /** The vehicle's row with its quota raised; a first row belongs to the owner who funds it. */
  function Raised(quotas: map<VehicleId, Quota>, o: UserId, v: VehicleId, cents: int): Quota {
    if v in quotas then Quota(quotas[v].owner, quotas[v].quota + cents, quotas[v].reserved, quotas[v].used)
    else Quota(o, cents, 0, 0)
  }
}
