/** The fuel books never outrun the ledger beneath them. */
module FuelChain {
  import opened Wrappers
  import opened Ledger
  import opened Protocol
  import opened ProtocolSafety
  import opened LedgerTheorems
  import opened MoneyTotals
  import Sums

  // ----- the authorization log -----

  /** Quota rows are the log, summed; the CHECK constraints on the table can never fire. */
  lemma QuotaAgreesWithLog(cfg: Config, events: seq<Event>, v: VehicleId)
    requires ValidConfig(cfg) && AllAdmissible(events) && v in Run(cfg, events).quotas
    ensures var q := Run(cfg, events).quotas[v];
            && q.reserved == Sums.Sum(AuthCents(Run(cfg, events).auths, v, Reserved)) >= 0
            && q.used == Sums.Sum(AuthCents(Run(cfg, events).auths, v, Confirmed)) >= 0
            && q.reserved + q.used <= q.quota
  {
    RunKeepsInv(cfg, events);
    assert QuotaOk(cfg, v, Run(cfg, events).quotas[v], Run(cfg, events).auths);
  }

  /** Fuel rows change only when a fuel call commits, and then as its call says. */
  lemma StoreEffect(cfg: Config, st: State, sid: nat)
    requires Inv(cfg, st) && sid in st.sessions && Next(cfg, st, sid).Store?
    ensures var call, next := st.sessions[sid].call, Next(cfg, st, sid);
            match call
            case FundCall(o, v, cents) =>
              FundOk(cfg, call) && next == Store(Upsert(st.quotas, o, v, cents), st.auths, Funded)
            case AuthorizeCall(v, cents) =>
              v in st.quotas && cents > 0
              && next == Store(Reserve(st.quotas, v, cents), st.auths[sid := Authorization(v, cents, Reserved)],
                               Authorized(sid))
            case ConfirmCall(auth) =>
              auth in st.auths && st.auths[auth].status == Reserved && st.auths[auth].cents > 0
              && st.auths[auth].vehicle in st.quotas
              && next == Store(Debit(st.quotas, st.auths[auth].vehicle, st.auths[auth].cents), Confirm(st.auths, auth),
                               Settled(st.auths[auth].vehicle, st.auths[auth].cents, false))
            case _ => false
  {
    assert SessionOk(cfg, st.txns, st.quotas, st.auths, sid, st.sessions[sid]);
  }

  lemma QuotasUntouched(cfg: Config, st: State, e: Event)
    requires !(e.Advance? && e.sid in st.sessions && Next(cfg, st, e.sid).Store?)
    ensures Apply(cfg, st, e).quotas == st.quotas && Apply(cfg, st, e).auths == st.auths
  {
  }

  /** One event moves a quota row only forward: the earmark and the used part never shrink, and
      confirming leaves what is available as it was. */
  lemma QuotaMovesForward(cfg: Config, st: State, e: Event, v: VehicleId)
    requires ValidConfig(cfg) && Inv(cfg, st) && v in st.quotas
    ensures v in Apply(cfg, st, e).quotas
    ensures var q, q' := st.quotas[v], Apply(cfg, st, e).quotas[v];
            && q'.owner == q.owner && q'.quota >= q.quota && q'.used >= q.used
            && (e.Advance? && e.sid in st.sessions && st.sessions[e.sid].call.ConfirmCall? ==>
                  q'.quota - q'.reserved - q'.used == q.quota - q.reserved - q.used)
  {
    if e.Advance? && e.sid in st.sessions && Next(cfg, st, e.sid).Store? {
      StoreEffect(cfg, st, e.sid);
    } else {
      QuotasUntouched(cfg, st, e);
    }
  }

  predicate SettledBy(st: State, sid: nat, auth: nat) {
    sid in st.sessions && st.sessions[sid].call == ConfirmCall(auth) && st.sessions[sid].phase.Done?
    && st.sessions[sid].phase.outcome.Settled? && !st.sessions[sid].phase.outcome.already
  }

  /** However many confirmations interleave, one debits and every other is told it already happened. */
  lemma {:induction false} DebitedAtMostOnce(cfg: Config, events: seq<Event>, auth: nat, a: nat, b: nat)
    requires ValidConfig(cfg) && AllAdmissible(events)
    requires SettledBy(Run(cfg, events), a, auth) && SettledBy(Run(cfg, events), b, auth)
    ensures a == b
  {
    if events != [] {
      var front, e := events[..|events| - 1], events[|events| - 1];
      var st := Run(cfg, front);
      RunKeepsInv(cfg, front);
      if SettledBy(st, a, auth) && SettledBy(st, b, auth) {
        DebitedAtMostOnce(cfg, front, auth, a, b);
      } else if SettledBy(st, a, auth) {
        assert SessionOk(cfg, st.txns, st.quotas, st.auths, a, st.sessions[a]);
        NewSettlementNeedsReservation(cfg, st, e, auth, b);
      } else if SettledBy(st, b, auth) {
        assert SessionOk(cfg, st.txns, st.quotas, st.auths, b, st.sessions[b]);
        NewSettlementNeedsReservation(cfg, st, e, auth, a);
      } else {
        NewSettlementNeedsReservation(cfg, st, e, auth, a);
        NewSettlementNeedsReservation(cfg, st, e, auth, b);
      }
    }
  }

  lemma NewSettlementNeedsReservation(cfg: Config, st: State, e: Event, auth: nat, sid: nat)
    requires ValidConfig(cfg) && Inv(cfg, st)
    requires !SettledBy(st, sid, auth) && SettledBy(Apply(cfg, st, e), sid, auth)
    ensures e.sid == sid && auth in st.auths && st.auths[auth].status == Reserved
  {
    FreshSettlementIsStore(cfg, st, e, sid);
    StoreEffect(cfg, st, sid);
  }

  /** Ending without a commit never reports a fresh settlement. */
  lemma EndSettlesNothing(cfg: Config, st: State, sid: nat)
    requires sid in st.sessions
    ensures match Next(cfg, st, sid)
            case End(o) => o.Settled? ==> o.already
            case Move(p) => !p.Done?
            case TakeLock(_, p) => !p.Done?
            case TakeKey(_, p) => !p.Done?
            case _ => true
  {
    match st.sessions[sid].phase
    case Begun => match st.sessions[sid].call { case _ => }
    case _ =>
  }

  lemma FreshSettlementIsStore(cfg: Config, st: State, e: Event, sid: nat)
    requires sid in Apply(cfg, st, e).sessions && (sid in st.sessions ==> Apply(cfg, st, e).sessions[sid] != st.sessions[sid])
    requires var p := Apply(cfg, st, e).sessions[sid].phase;
             p.Done? && p.outcome.Settled? && !p.outcome.already
    ensures e.Advance? && e.sid == sid && sid in st.sessions && Next(cfg, st, sid).Store?
    ensures Apply(cfg, st, e).sessions[sid].call == st.sessions[sid].call
  {
    if e.Advance? && e.sid in st.sessions {
      EndSettlesNothing(cfg, st, e.sid);
      PerformTouches(st, e.sid, Next(cfg, st, e.sid));
    }
  }

  // ----- the chain -----

  /** The application starts InternalTransfer only through Allocate. */
  predicate OnlyAllocates(events: seq<Event>) { forall e :: e in events && e.Start? ==> !e.call.TransferCall? }

  predicate NoTransferCalls(sessions: Sessions) { forall u :: u in sessions ==> !sessions[u].call.TransferCall? }

  lemma TxnsAreFuelOnly(cfg: Config, st: State)
    requires Inv(cfg, st) && NoTransferCalls(st.sessions)
    ensures AllFuelOnly(st.txns)
  {
    forall t | t in st.txns ensures WellFormed(t) && FuelOnly(t.purpose) {
      var i :| 0 <= i < |st.txns| && st.txns[i] == t;
      assert TxnOk(cfg, st.txns[i], st.sessions);
    }
  }

  /** Fuel money is one-way: only a committing Allocate of the owner touches a fuel account, and it adds. */
  lemma FuelBalanceGrows(cfg: Config, st: State, e: Event, o: UserId)
    requires ValidConfig(cfg) && Inv(cfg, st) && NoTransferCalls(st.sessions)
    ensures var before, after := Balance(st.txns, FuelOf(o)), Balance(Apply(cfg, st, e).txns, FuelOf(o));
            && after >= before
            && (after != before ==> e.Advance? && e.sid in st.sessions && st.sessions[e.sid].call.AllocateCall?
                                    && st.sessions[e.sid].call.owner == o)
  {
    LedgerEffect(cfg, st, e);
    match Posted(cfg, st, e)
    case None =>
    case Some(t) => PostFeedsFuel(cfg, st, e.sid, t, o);
  }

  /** Funding, authorizing and confirming never add to the ledger. */
  lemma FuelCallsPostNothing(cfg: Config, st: State, e: Event)
    requires ValidConfig(cfg) && Inv(cfg, st) && e.sid in st.sessions
    requires var call := st.sessions[e.sid].call; call.FundCall? || call.AuthorizeCall? || call.ConfirmCall?
    ensures Apply(cfg, st, e).txns == st.txns
  {
    LedgerEffect(cfg, st, e);
  }

  lemma PostFeedsFuel(cfg: Config, st: State, sid: nat, t: Txn, o: UserId)
    requires sid in st.sessions && !st.sessions[sid].call.TransferCall? && WellFormed(t)
    requires DraftFor(cfg, st.sessions[sid].call, Draft(t.key, t.purpose))
    ensures Balance(st.txns + [t], FuelOf(o)) >= Balance(st.txns, FuelOf(o))
    ensures Balance(st.txns + [t], FuelOf(o)) != Balance(st.txns, FuelOf(o)) ==>
              st.sessions[sid].call.AllocateCall? && st.sessions[sid].call.owner == o
  {
    BalanceAppend(st.txns, t, FuelOf(o));
    PurposeEffect(t.purpose, o);
  }

  predicate Funding(s: Session, o: UserId) {
    s.call.FundCall? && s.call.owner == o && (s.phase.Measured? || s.phase.Staged?)
  }

  predicate Overlapping(s: Session, t: Session) {
    s.call.FundCall? && Funding(s, s.call.owner) && Funding(t, s.call.owner)
  }

  /** No two funding calls of one owner overlap between balance read and commit. */
  predicate Serialised(st: State) {
    forall u, w :: u in st.sessions && w in st.sessions && Overlapping(st.sessions[u], st.sessions[w]) ==> u == w
  }

  ghost predicate SerialisedRun(cfg: Config, events: seq<Event>) {
    forall n :: 0 <= n <= |events| ==> Serialised(Run(cfg, events[..n]))
  }

  /** What a funding call under way may rely on. */
  ghost predicate FundingCovered(st: State, s: Session) {
    s.call.FundCall? ==>
      var balance := Balance(st.txns, FuelOf(s.call.owner));
      && (s.phase.Measured? ==> s.phase.balance <= balance)
      && (s.phase.Staged? ==> Earmarked(st.quotas, s.call.owner) + s.call.cents <= balance)
  }

  ghost predicate Covered(st: State) {
    && (forall o :: Earmarked(st.quotas, o) <= Balance(st.txns, FuelOf(o)))
    && (forall u {:trigger FundingCovered(st, st.sessions[u])} :: u in st.sessions ==> FundingCovered(st, st.sessions[u]))
  }

  lemma UpsertEarmarks(quotas: map<VehicleId, Quota>, owner: UserId, v: VehicleId, cents: int, o: UserId)
    requires v in quotas ==> quotas[v].owner == owner
    ensures Earmarked(Upsert(quotas, owner, v, cents), o) == Earmarked(quotas, o) + (if o == owner then cents else 0)
  {
    var after := QuotasOf(Upsert(quotas, owner, v, cents), o);
    if o == owner {
      assert after == QuotasOf(quotas, o)[v := (if v in quotas then quotas[v].quota else 0) + cents];
      Sums.SumPut(QuotasOf(quotas, o), v, (if v in quotas then quotas[v].quota else 0) + cents);
    } else {
      assert after == QuotasOf(quotas, o);
    }
  }

  /** What one event does to an owner's earmarked total. */
  lemma EarmarkEffect(cfg: Config, st: State, e: Event, o: UserId)
    requires ValidConfig(cfg) && Inv(cfg, st)
    ensures Earmarked(Apply(cfg, st, e).quotas, o) == Earmarked(st.quotas, o)
            || (e.Advance? && e.sid in st.sessions && Funding(st.sessions[e.sid], o) && st.sessions[e.sid].phase.Staged?
                && Earmarked(Apply(cfg, st, e).quotas, o) == Earmarked(st.quotas, o) + st.sessions[e.sid].call.cents
                && Apply(cfg, st, e).sessions[e.sid].phase == Done(Funded))
  {
    if e.Advance? && e.sid in st.sessions && Next(cfg, st, e.sid).Store? {
      StoreEarmarks(cfg, st, e.sid, o);
    } else {
      QuotasUntouched(cfg, st, e);
    }
  }

  lemma StoreEarmarks(cfg: Config, st: State, sid: nat, o: UserId)
    requires Inv(cfg, st) && sid in st.sessions && Next(cfg, st, sid).Store?
    ensures var call, next := st.sessions[sid].call, Next(cfg, st, sid);
            && st.sessions[sid].phase.Staged?
            && Earmarked(next.quotas, o)
               == Earmarked(st.quotas, o) + (if call.FundCall? && call.owner == o then call.cents else 0)
            && (call.FundCall? ==> next.outcome == Funded)
  {
    var call := st.sessions[sid].call;
    StoreEffect(cfg, st, sid);
    NextStoreIsStaged(cfg, st, sid);
    if call.FundCall? {
      assert call.vehicle in st.quotas ==> QuotaOk(cfg, call.vehicle, st.quotas[call.vehicle], st.auths);
      UpsertEarmarks(st.quotas, call.owner, call.vehicle, call.cents, o);
    } else {
      assert QuotasOf(Next(cfg, st, sid).quotas, o) == QuotasOf(st.quotas, o);
    }
  }

  lemma NextStoreIsStaged(cfg: Config, st: State, sid: nat)
    requires sid in st.sessions && Next(cfg, st, sid).Store?
    ensures st.sessions[sid].phase.Staged?
  {
  }

  lemma OthersStayCovered(cfg: Config, st: State, e: Event, u: nat)
    requires ValidConfig(cfg) && Inv(cfg, st) && NoTransferCalls(st.sessions) && Covered(st) && Serialised(st)
    requires u in st.sessions && u != e.sid
    ensures FundingCovered(Apply(cfg, st, e), st.sessions[u])
  {
    var s := st.sessions[u];
    assert FundingCovered(st, s);
    if s.call.FundCall? {
      assert e.sid in st.sessions && Funding(s, s.call.owner) ==> !Overlapping(s, st.sessions[e.sid]);
      FuelBalanceGrows(cfg, st, e, s.call.owner);
      EarmarkEffect(cfg, st, e, s.call.owner);
    }
  }

  lemma OwnStepCovered(cfg: Config, st: State, sid: nat)
    requires ValidConfig(cfg) && Inv(cfg, st) && Covered(st) && sid in st.sessions
    ensures FundingCovered(Apply(cfg, st, Advance(sid)), Apply(cfg, st, Advance(sid)).sessions[sid])
  {
    var s := st.sessions[sid];
    var e := Next(cfg, st, sid);
    assert FundingCovered(st, s);
    assert SessionOk(cfg, st.txns, st.quotas, st.auths, sid, s);
    PerformTouches(st, sid, e);
  }

  lemma EarmarkStaysCovered(cfg: Config, st: State, e: Event, o: UserId)
    requires ValidConfig(cfg) && Inv(cfg, st) && NoTransferCalls(st.sessions) && Covered(st)
    ensures Earmarked(Apply(cfg, st, e).quotas, o) <= Balance(Apply(cfg, st, e).txns, FuelOf(o))
  {
    FuelBalanceGrows(cfg, st, e, o);
    EarmarkEffect(cfg, st, e, o);
    if e.sid in st.sessions {
      assert FundingCovered(st, st.sessions[e.sid]);
    }
  }

  lemma SessionStaysCovered(cfg: Config, st: State, e: Event, u: nat)
    requires ValidConfig(cfg) && Inv(cfg, st) && NoTransferCalls(st.sessions) && Covered(st) && Serialised(st)
    requires u in Apply(cfg, st, e).sessions
    ensures FundingCovered(Apply(cfg, st, e), Apply(cfg, st, e).sessions[u])
  {
    if u != e.sid {
      OthersUntouched(cfg, st, e, u);
      OthersStayCovered(cfg, st, e, u);
    } else if e.Advance? {
      OwnStepCovered(cfg, st, u);
    } else if u in st.sessions {
      assert FundingCovered(st, st.sessions[u]);
    }
  }

  lemma EventKeepsCovered(cfg: Config, st: State, e: Event)
    requires ValidConfig(cfg) && Inv(cfg, st) && NoTransferCalls(st.sessions) && Covered(st) && Serialised(st)
    ensures Covered(Apply(cfg, st, e))
  {
    var st' := Apply(cfg, st, e);
    forall o ensures Earmarked(st'.quotas, o) <= Balance(st'.txns, FuelOf(o)) {
      EarmarkStaysCovered(cfg, st, e, o);
    }
    forall u {:trigger FundingCovered(st', st'.sessions[u])} | u in st'.sessions
      ensures FundingCovered(st', st'.sessions[u])
    {
      SessionStaysCovered(cfg, st, e, u);
    }
  }

  lemma OthersUntouched(cfg: Config, st: State, e: Event, u: nat)
    requires u != e.sid && u in Apply(cfg, st, e).sessions
    ensures u in st.sessions && Apply(cfg, st, e).sessions[u] == st.sessions[u]
  {
    if e.Advance? && e.sid in st.sessions {
      PerformTouches(st, e.sid, Next(cfg, st, e.sid));
    }
  }

  lemma CallsFixed(cfg: Config, st: State, e: Event)
    requires NoTransferCalls(st.sessions) && (e.Start? ==> !e.call.TransferCall?)
    ensures NoTransferCalls(Apply(cfg, st, e).sessions)
  {
    forall u | u in Apply(cfg, st, e).sessions ensures !Apply(cfg, st, e).sessions[u].call.TransferCall? {
      if u != e.sid {
        OthersUntouched(cfg, st, e, u);
      } else if e.Advance? {
        PerformTouches(st, u, Next(cfg, st, u));
      }
    }
  }

  lemma {:induction false} RunKeepsCovered(cfg: Config, events: seq<Event>)
    requires ValidConfig(cfg) && AllAdmissible(events) && OnlyAllocates(events) && SerialisedRun(cfg, events)
    ensures Inv(cfg, Run(cfg, events)) && NoTransferCalls(Run(cfg, events).sessions) && Covered(Run(cfg, events))
  {
    RunKeepsInv(cfg, events);
    if events == [] {
      assert forall o :: QuotasOf(EMPTY.quotas, o) == map[];
    } else {
      var front := events[..|events| - 1];
      forall n | 0 <= n <= |front| ensures Serialised(Run(cfg, front[..n])) {
        assert front[..n] == events[..n];
      }
      RunKeepsCovered(cfg, front);
      assert front[..|front|] == front;
      EventKeepsCovered(cfg, Run(cfg, front), events[|events| - 1]);
      CallsFixed(cfg, Run(cfg, front), events[|events| - 1]);
    }
  }

  // ----- exactly when earmarks stay within the balance -----

  /** A funding call of o commits although its own check, made now, would refuse it. */
  ghost predicate Overcommits(cfg: Config, st: State, e: Event, o: UserId) {
    e.Advance? && e.sid in st.sessions && Funding(st.sessions[e.sid], o) && Next(cfg, st, e.sid).Store?
    && Earmarked(st.quotas, o) + st.sessions[e.sid].call.cents > Balance(st.txns, FuelOf(o))
  }

  ghost predicate Backed(st: State, o: UserId) { Earmarked(st.quotas, o) <= Balance(st.txns, FuelOf(o)) }

  ghost predicate NeverOvercommits(cfg: Config, events: seq<Event>, o: UserId) {
    forall n {:trigger events[n]} :: 0 <= n < |events| ==> !Overcommits(cfg, Run(cfg, events[..n]), events[n], o)
  }

  lemma BackedStep(cfg: Config, st: State, e: Event, o: UserId)
    requires ValidConfig(cfg) && Inv(cfg, st) && NoTransferCalls(st.sessions) && Backed(st, o)
    ensures Backed(Apply(cfg, st, e), o) <==> !Overcommits(cfg, st, e, o)
  {
    FuelBalanceGrows(cfg, st, e, o);
    if e.Advance? && e.sid in st.sessions && Next(cfg, st, e.sid).Store? {
      StoreEarmarks(cfg, st, e.sid, o);
    } else {
      QuotasUntouched(cfg, st, e);
    }
  }

  lemma {:induction false} RunHasNoTransfers(cfg: Config, events: seq<Event>)
    requires OnlyAllocates(events)
    ensures NoTransferCalls(Run(cfg, events).sessions)
  {
    if events != [] {
      RunHasNoTransfers(cfg, events[..|events| - 1]);
      CallsFixed(cfg, Run(cfg, events[..|events| - 1]), events[|events| - 1]);
    }
  }

  /** In any run, an owner's earmarks stay within the fuel balance throughout exactly when no funding call commits
      that would by then be refused. */
  lemma {:induction false} BackedThroughoutIff(cfg: Config, events: seq<Event>, o: UserId)
    requires ValidConfig(cfg) && AllAdmissible(events) && OnlyAllocates(events)
    ensures (forall n :: 0 <= n <= |events| ==> Backed(Run(cfg, events[..n]), o)) <==> NeverOvercommits(cfg, events, o)
  {
    if events == [] {
      assert QuotasOf(EMPTY.quotas, o) == map[];
    } else {
      var front, last := events[..|events| - 1], events[|events| - 1];
      BackedThroughoutIff(cfg, front, o);
      RunKeepsInv(cfg, front);
      RunHasNoTransfers(cfg, front);
      if Backed(Run(cfg, front), o) {
        BackedStep(cfg, Run(cfg, front), last, o);
      }
      SamePrefixes(cfg, events, o);
    }
  }

  lemma SamePrefixes(cfg: Config, events: seq<Event>, o: UserId)
    requires events != []
    ensures var front, last := events[..|events| - 1], events[|events| - 1];
            && ((forall n :: 0 <= n <= |events| ==> Backed(Run(cfg, events[..n]), o))
                <==> (forall n :: 0 <= n <= |front| ==> Backed(Run(cfg, front[..n]), o)) && Backed(Run(cfg, events), o))
            && (NeverOvercommits(cfg, events, o)
                <==> NeverOvercommits(cfg, front, o) && !Overcommits(cfg, Run(cfg, front), last, o))
            && ((forall n :: 0 <= n <= |front| ==> Backed(Run(cfg, front[..n]), o)) ==> Backed(Run(cfg, front), o))
  {
    var front := events[..|events| - 1];
    assert forall n :: 0 <= n <= |front| ==> front[..n] == events[..n];
    assert events[..|events|] == events && front[..|front|] == front;
    assert forall n :: 0 <= n < |front| ==> front[n] == events[n];
  }

  /** Funding calls that do not overlap never do that. */
  lemma SerialisedNeverOvercommits(cfg: Config, events: seq<Event>, o: UserId)
    requires ValidConfig(cfg) && AllAdmissible(events) && OnlyAllocates(events) && SerialisedRun(cfg, events)
    ensures NeverOvercommits(cfg, events, o)
  {
    forall n | 0 <= n <= |events| ensures Backed(Run(cfg, events[..n]), o) {
      var front := events[..n];
      assert forall k :: 0 <= k <= n ==> front[..k] == events[..k];
      RunKeepsCovered(cfg, front);
    }
    BackedThroughoutIff(cfg, events, o);
  }

  // ----- the chain, end to end -----

  ghost function UsedOf(quotas: map<VehicleId, Quota>, o: UserId): map<VehicleId, int> {
    map v | v in quotas && quotas[v].owner == o :: quotas[v].used
  }

  ghost function CommittedOf(quotas: map<VehicleId, Quota>, o: UserId): map<VehicleId, int> {
    map v | v in quotas && quotas[v].owner == o :: quotas[v].reserved + quotas[v].used
  }

  /** Confirmed fuel per owner, as the analytics query selects it. */
  ghost function ConfirmedFuel(cfg: Config, auths: map<nat, Authorization>, o: UserId): map<nat, int> {
    map a | a in auths && auths[a].status == Confirmed
            && auths[a].vehicle in cfg.ownerOf && cfg.ownerOf[auths[a].vehicle] == o :: auths[a].cents
  }

  ghost function AuthsOn(auths: map<nat, Authorization>, vs: set<VehicleId>): map<nat, int> {
    map a | a in auths && auths[a].status == Confirmed && auths[a].vehicle in vs :: auths[a].cents
  }

  lemma AuthsOnOneMore(auths: map<nat, Authorization>, vs: set<VehicleId>, v: VehicleId)
    requires v !in vs
    ensures Sums.Sum(AuthsOn(auths, vs + {v})) == Sums.Sum(AuthsOn(auths, vs)) + Sums.Sum(AuthCents(auths, v, Confirmed))
  {
    Sums.SumUnion(AuthsOn(auths, vs), AuthCents(auths, v, Confirmed));
    assert AuthsOn(auths, vs + {v}) == AuthsOn(auths, vs) + AuthCents(auths, v, Confirmed);
  }

  ghost predicate UsedMatches(auths: map<nat, Authorization>, used: map<VehicleId, int>) {
    forall v :: v in used ==> used[v] == Sums.Sum(AuthCents(auths, v, Confirmed))
  }

  /** Summing authorizations vehicle by vehicle or all at once is the same. */
  lemma {:induction false} SumByVehicle(auths: map<nat, Authorization>, used: map<VehicleId, int>)
    requires UsedMatches(auths, used)
    ensures Sums.Sum(AuthsOn(auths, used.Keys)) == Sums.Sum(used)
    decreases |used|
  {
    if used == map[] {
      assert AuthsOn(auths, used.Keys) == map[];
    } else {
      var v :| v in used;
      assert (used - {v}).Keys == used.Keys - {v} && (used - {v}).Keys + {v} == used.Keys;
      SumByVehicle(auths, used - {v});
      Sums.SumTake(used, v);
      AuthsOnOneMore(auths, (used - {v}).Keys, v);
    }
  }

  lemma ConfirmedIsUsed(cfg: Config, st: State, o: UserId)
    requires QuotasOk(cfg, st.quotas, st.auths)
    ensures Sums.Sum(ConfirmedFuel(cfg, st.auths, o)) == Sums.Sum(UsedOf(st.quotas, o))
  {
    var used := UsedOf(st.quotas, o);
    assert UsedMatches(st.auths, used) by {
      forall v | v in used ensures used[v] == Sums.Sum(AuthCents(st.auths, v, Confirmed)) {
        assert QuotaOk(cfg, v, st.quotas[v], st.auths);
      }
    }
    SumByVehicle(st.auths, used);
    forall a | a in st.auths
      ensures st.auths[a].vehicle in used <==> st.auths[a].vehicle in cfg.ownerOf && cfg.ownerOf[st.auths[a].vehicle] == o
    {
      assert QuotaOk(cfg, st.auths[a].vehicle, st.quotas[st.auths[a].vehicle], st.auths);
    }
    assert ConfirmedFuel(cfg, st.auths, o) == AuthsOn(st.auths, used.Keys);
  }

  /** Confirmed fuel <= reserved and used <= earmarked <= fuel account = allocated <= earned; and all
      owners together earned no more than commuters topped up. Only the link from earmarks to the account
      needs anything of the run's schedule. */
  lemma FundingChain(cfg: Config, events: seq<Event>, o: UserId)
    requires ValidConfig(cfg) && AllAdmissible(events) && OnlyAllocates(events)
    ensures var st := Run(cfg, events);
            && Sums.Sum(ConfirmedFuel(cfg, st.auths, o)) <= Sums.Sum(CommittedOf(st.quotas, o))
            && Sums.Sum(CommittedOf(st.quotas, o)) <= Earmarked(st.quotas, o)
            && (NeverOvercommits(cfg, events, o) ==> Earmarked(st.quotas, o) <= Balance(st.txns, FuelOf(o)))
            && Balance(st.txns, FuelOf(o)) == Total(st.txns, AllocatedBy(o)) <= Total(st.txns, OwnerShareOf(o))
            && Total(st.txns, OwnerShareOf(o)) <= Total(st.txns, OwnerShares) <= Total(st.txns, ToppedUp)
  {
    var st := Run(cfg, events);
    RunKeepsInv(cfg, events);
    RunHasNoTransfers(cfg, events);
    BackedThroughoutIff(cfg, events, o);
    assert events[..|events|] == events;
    TxnsAreFuelOnly(cfg, st);
    BalancesExplained(st.txns, o);
    SpentWithinToppedUp(st.txns);
    ConfirmedIsUsed(cfg, st, o);
    forall v | v in st.quotas && st.quotas[v].owner == o
      ensures st.quotas[v].used <= st.quotas[v].reserved + st.quotas[v].used <= st.quotas[v].quota
    {
      assert QuotaOk(cfg, v, st.quotas[v], st.auths);
    }
    Sums.SumMonotone(UsedOf(st.quotas, o), CommittedOf(st.quotas, o));
    Sums.SumMonotone(CommittedOf(st.quotas, o), QuotasOf(st.quotas, o));
  }

  /** The whole-run form of conservation: nothing is created, and the funding source's deficit is
      exactly what every other account holds. */
  lemma RunConservesMoney(cfg: Config, events: seq<Event>, accounts: set<Account>)
    requires ValidConfig(cfg) && AllAdmissible(events)
    requires Accounts(Run(cfg, events).txns, None) <= accounts && FUNDING in accounts
    ensures var txns := Run(cfg, events).txns;
            && (forall t :: t in txns ==> PostingTotal(t.postings, None) == 0)
            && LedgerTotal(txns, None) == 0
            && -Balance(txns, FUNDING) == Sums.Sum(Balances(accounts - {FUNDING}, txns))
  {
    RunKeepsInv(cfg, events);
    var st := Run(cfg, events);
    forall t | t in st.txns ensures WellFormed(t) && PostingTotal(t.postings, None) == 0 {
      var i :| 0 <= i < |st.txns| && st.txns[i] == t;
      assert TxnOk(cfg, st.txns[i], st.sessions);
      PlanEffect(t.purpose, FUNDING);
    }
    LedgerSumsToZero(st.txns);
    MoneyIsConserved(accounts, st.txns);
  }

  // ----- why funding must be serialised -----

  lemma FundAdvances(cfg: Config, st: State, sid: nat, call: Call)
    requires sid in st.sessions && st.sessions[sid].call == call && FundOk(cfg, call)
    requires var p := st.sessions[sid].phase; p.Begun? || p.Measured? || p.Staged?
    ensures var st', p := Apply(cfg, st, Advance(sid)), st.sessions[sid].phase;
            && st'.txns == st.txns
            && (forall u :: u in st.sessions && u != sid ==> u in st'.sessions && st'.sessions[u] == st.sessions[u])
            && sid in st'.sessions && st'.sessions[sid].call == call
            && (p.Begun? ==>
                  st'.sessions[sid].phase == Measured(Balance(st.txns, FuelOf(call.owner))) && st'.quotas == st.quotas)
            && (p.Measured? && Earmarked(st.quotas, call.owner) + call.cents <= p.balance ==>
                  st'.sessions[sid].phase == Staged(0) && st'.quotas == st.quotas)
            && (p == Staged(0) ==> st'.sessions[sid].phase == Staged(1) && st'.quotas == st.quotas)
            && (p == Staged(1) ==> st'.quotas == Upsert(st.quotas, call.owner, call.vehicle, call.cents))
  {
    PerformTouches(st, sid, Next(cfg, st, sid));
  }

  predicate Both(st: State, a: nat, b: nat, call: Call, p: Phase) {
    && a in st.sessions && st.sessions[a].call == call && st.sessions[a].phase == p
    && b in st.sessions && st.sessions[b].call == call && st.sessions[b].phase == p
  }

  /** One statement of each of two funding calls. */
  ghost function Round(cfg: Config, st: State, a: nat, b: nat): State {
    Apply(cfg, Apply(cfg, st, Advance(a)), Advance(b))
  }

  lemma FundRound(cfg: Config, st: State, a: nat, b: nat, call: Call, p: Phase)
    requires a != b && Both(st, a, b, call, p) && FundOk(cfg, call) && (p.Begun? || p.Measured? || p.Staged?)
    ensures var st' := Round(cfg, st, a, b);
            && st'.txns == st.txns
            && (p.Begun? ==> Both(st', a, b, call, Measured(Balance(st.txns, FuelOf(call.owner)))) && st'.quotas == st.quotas)
            && (p.Measured? && Earmarked(st.quotas, call.owner) + call.cents <= p.balance ==>
                  Both(st', a, b, call, Staged(0)) && st'.quotas == st.quotas)
            && (p == Staged(0) ==> Both(st', a, b, call, Staged(1)) && st'.quotas == st.quotas)
            && (p == Staged(1) ==> st'.quotas == Upsert(Upsert(st.quotas, call.owner, call.vehicle, call.cents),
                                                        call.owner, call.vehicle, call.cents))
  {
    FundAdvances(cfg, st, a, call);
    FundAdvances(cfg, Apply(cfg, st, Advance(a)), b, call);
  }

  lemma OneMoreEvent(cfg: Config, st: State, events: seq<Event>, e: Event)
    ensures RunFrom(cfg, st, events + [e]) == Apply(cfg, RunFrom(cfg, st, events), e)
  {
    assert (events + [e])[..|events|] == events;
  }

  lemma StartBoth(cfg: Config, st: State, a: nat, b: nat, call: Call, at: nat) returns (events: seq<Event>)
    requires a != b && a !in st.sessions && b !in st.sessions
    ensures var st' := RunFrom(cfg, st, events);
            Both(st', a, b, call, Begun) && st'.txns == st.txns && st'.quotas == st.quotas
    ensures NonNegative(call) ==> AllAdmissible(events)
  {
    var none: seq<Event> := [];
    OneMoreEvent(cfg, st, none, Start(a, call, at));
    OneMoreEvent(cfg, st, none + [Start(a, call, at)], Start(b, call, at));
    events := none + [Start(a, call, at)] + [Start(b, call, at)];
  }

  /** A round added to a schedule, as FundRound describes it. */
  lemma AddRound(cfg: Config, st: State, events: seq<Event>, a: nat, b: nat, call: Call, p: Phase)
    returns (more: seq<Event>)
    requires a != b && Both(RunFrom(cfg, st, events), a, b, call, p) && FundOk(cfg, call)
    requires p.Begun? || p.Measured? || p.Staged?
    ensures var s, s' := RunFrom(cfg, st, events), RunFrom(cfg, st, more);
            && s'.txns == s.txns
            && (p.Begun? ==> Both(s', a, b, call, Measured(Balance(s.txns, FuelOf(call.owner)))) && s'.quotas == s.quotas)
            && (p.Measured? && Earmarked(s.quotas, call.owner) + call.cents <= p.balance ==>
                  Both(s', a, b, call, Staged(0)) && s'.quotas == s.quotas)
            && (p == Staged(0) ==> Both(s', a, b, call, Staged(1)) && s'.quotas == s.quotas)
            && (p == Staged(1) ==> s'.quotas == Upsert(Upsert(s.quotas, call.owner, call.vehicle, call.cents),
                                                       call.owner, call.vehicle, call.cents))
    ensures AllAdmissible(events) ==> AllAdmissible(more)
  {
    OneMoreEvent(cfg, st, events, Advance(a));
    OneMoreEvent(cfg, st, events + [Advance(a)], Advance(b));
    more := events + [Advance(a)] + [Advance(b)];
    FundRound(cfg, RunFrom(cfg, st, events), a, b, call, p);
  }

  lemma BothFund(cfg: Config, st: State, a: nat, b: nat, call: Call, at: nat) returns (events: seq<Event>)
    requires a != b && a !in st.sessions && b !in st.sessions && FundOk(cfg, call)
    requires Earmarked(st.quotas, call.owner) + call.cents <= Balance(st.txns, FuelOf(call.owner))
    ensures RunFrom(cfg, st, events).txns == st.txns
    ensures RunFrom(cfg, st, events).quotas
            == Upsert(Upsert(st.quotas, call.owner, call.vehicle, call.cents), call.owner, call.vehicle, call.cents)
    ensures AllAdmissible(events)
  {
    events := StartBoth(cfg, st, a, b, call, at);
    events := AddRound(cfg, st, events, a, b, call, Begun);
    events := AddRound(cfg, st, events, a, b, call, Measured(Balance(st.txns, FuelOf(call.owner))));
    events := AddRound(cfg, st, events, a, b, call, Staged(0));
    events := AddRound(cfg, st, events, a, b, call, Staged(1));
  }

  /** Whenever an owner has fuel money not yet earmarked, some schedule of two funding calls earmarks it
      twice: the bound needs serialised calls. */
  lemma OverlappingFundingOverruns(cfg: Config, st: State, o: UserId, v: VehicleId, a: nat, b: nat, at: nat)
    returns (events: seq<Event>)
    requires v in cfg.ownerOf && cfg.ownerOf[v] == o && (v in st.quotas ==> st.quotas[v].owner == o)
    requires a != b && a !in st.sessions && b !in st.sessions
    requires Earmarked(st.quotas, o) < Balance(st.txns, FuelOf(o))
    ensures var cents, st' := Balance(st.txns, FuelOf(o)) - Earmarked(st.quotas, o), RunFrom(cfg, st, events);
            && st'.txns == st.txns
            && Earmarked(st'.quotas, o) == Balance(st'.txns, FuelOf(o)) + cents > Balance(st'.txns, FuelOf(o))
    ensures AllAdmissible(events)
  {
    var cents := Balance(st.txns, FuelOf(o)) - Earmarked(st.quotas, o);
    events := BothFund(cfg, st, a, b, FundCall(o, v, cents), at);
    UpsertedTwice(st.quotas, o, v, cents);
  }

  lemma UpsertedTwice(quotas: map<VehicleId, Quota>, o: UserId, v: VehicleId, cents: int)
    requires v in quotas ==> quotas[v].owner == o
    ensures Earmarked(Upsert(Upsert(quotas, o, v, cents), o, v, cents), o) == Earmarked(quotas, o) + 2 * cents
  {
    UpsertEarmarks(quotas, o, v, cents, o);
    UpsertEarmarks(Upsert(quotas, o, v, cents), o, v, cents, o);
  }
}
