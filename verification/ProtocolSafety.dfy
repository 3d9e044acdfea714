/** Safety of every interleaving of the calls in module Protocol. */
module ProtocolSafety {
  import opened Wrappers
  import opened Ledger
  import opened FareSplits
  import opened Protocol
  import Sums

  // ----- facts about keys and drafts -----

  lemma {:induction false} FindKeySound(txns: seq<Txn>, key: string)
    ensures FindKey(txns, key).Some? <==> exists i :: 0 <= i < |txns| && txns[i].key == Some(key)
    ensures FindKey(txns, key).Some? ==>
              exists i :: 0 <= i < |txns| && txns[i].key == Some(key) && txns[i].id == FindKey(txns, key).value
  {
    if txns != [] && txns[|txns| - 1].key != Some(key) {
      var front := txns[..|txns| - 1];
      FindKeySound(front, key);
      assert forall i :: 0 <= i < |front| ==> front[i] == txns[i];
    }
  }

  lemma FindKeyAppend(txns: seq<Txn>, t: Txn, key: string)
    ensures FindKey(txns + [t], key) == if t.key == Some(key) then Some(t.id) else FindKey(txns, key)
  {
    assert (txns + [t])[..|txns|] == txns;
  }

  lemma DraftSound(cfg: Config, call: Call, d: Draft)
    requires ValidConfig(cfg) && NonNegative(call) && DraftFor(cfg, call, d)
    ensures Sound(d.purpose)
    ensures call.ChargeCall? <==> d.key.Some?
    ensures call.ChargeCall? ==> d.key == Some(call.key)
  {
    if call.ChargeCall? {
      SplitIsExact(call.cents, cfg.platformPct, cfg.driverPct);
    }
  }

  // ----- rewriting one session -----

  lemma LocksKept(locks: map<Row, nat>, sessions: Sessions, sid: nat, s: Session)
    requires LocksMatch(locks, sessions) && sid in sessions
    requires HeldRow(s) == HeldRow(sessions[sid])
    ensures LocksMatch(locks, sessions[sid := s])
  {
  }

  lemma LockTaken(locks: map<Row, nat>, sessions: Sessions, sid: nat, s: Session, row: Row)
    requires LocksMatch(locks, sessions) && sid in sessions
    requires row !in locks && HeldRow(sessions[sid]) == None && HeldRow(s) == Some(row)
    ensures LocksMatch(locks[row := sid], sessions[sid := s])
  {
  }

  lemma LockReleased(locks: map<Row, nat>, sessions: Sessions, sid: nat, s: Session)
    requires LocksMatch(locks, sessions) && sid in sessions && HeldRow(s) == None
    ensures LocksMatch(Without(locks, HeldRow(sessions[sid])), sessions[sid := s])
  {
  }

  lemma ClaimsKept(claims: map<string, nat>, sessions: Sessions, sid: nat, s: Session)
    requires ClaimsMatch(claims, sessions) && sid in sessions
    requires HeldKey(s) == HeldKey(sessions[sid])
    ensures ClaimsMatch(claims, sessions[sid := s])
  {
  }

  lemma ClaimTaken(claims: map<string, nat>, sessions: Sessions, sid: nat, s: Session, key: string)
    requires ClaimsMatch(claims, sessions) && sid in sessions
    requires key !in claims && HeldKey(sessions[sid]) == None && HeldKey(s) == Some(key)
    ensures ClaimsMatch(claims[key := sid], sessions[sid := s])
  {
  }

  lemma ClaimReleased(claims: map<string, nat>, sessions: Sessions, sid: nat, s: Session)
    requires ClaimsMatch(claims, sessions) && sid in sessions && HeldKey(s) == None
    ensures ClaimsMatch(Without(claims, HeldKey(sessions[sid])), sessions[sid := s])
  {
  }

  /** A call that has not ended has committed nothing, so its phase may change freely. */
  lemma RecordsKept(cfg: Config, txns: seq<Txn>, auths: map<nat, Authorization>, sessions: Sessions, sid: nat, s: Session)
    requires TxnsOk(cfg, txns, sessions) && AuthsOwned(auths, sessions)
    requires sid in sessions ==> !sessions[sid].phase.Done?
    ensures TxnsOk(cfg, txns, sessions[sid := s]) && AuthsOwned(auths, sessions[sid := s])
  {
    forall i | 0 <= i < |txns| ensures TxnOk(cfg, txns[i], sessions[sid := s]) {
      assert TxnOk(cfg, txns[i], sessions);
    }
  }

  lemma SessionsKept(cfg: Config, txns: seq<Txn>, quotas: map<VehicleId, Quota>, auths: map<nat, Authorization>,
                     sessions: Sessions, sid: nat, s: Session)
    requires SessionsOk(cfg, txns, quotas, auths, sessions)
    requires SessionOk(cfg, txns, quotas, auths, sid, s)
    ensures SessionsOk(cfg, txns, quotas, auths, sessions[sid := s])
  {
    var after := sessions[sid := s];
    forall u | u in after ensures SessionOk(cfg, txns, quotas, auths, u, after[u]) {
      if u != sid { assert SessionOk(cfg, txns, quotas, auths, u, sessions[u]); }
    }
  }

  // ----- what makes an effect legitimate -----

  /** What a fuel commit may do to the rows it holds, and must not do to any other. */
  predicate OnlyOwnRows(quotas: map<VehicleId, Quota>, auths: map<nat, Authorization>,
                        quotas': map<VehicleId, Quota>, auths': map<nat, Authorization>, held: Option<Row>) {
    && (forall v :: v in quotas ==>
          v in quotas' && (held != Some(QuotaRow(v)) ==> quotas'[v].Available() >= quotas[v].Available()))
    && (forall a :: a in auths ==>
          a in auths' && (held != Some(AuthRow(a)) || auths[a].status == Confirmed ==> auths'[a] == auths[a]))
  }

  ghost predicate EffectOk(cfg: Config, st: State, sid: nat, e: Effect)
    requires sid in st.sessions
  {
    var s := st.sessions[sid];
    match e
    case Wait => true
    case Move(p) =>
      var s' := s.(phase := p);
      !p.Done? && HeldRow(s') == HeldRow(s) && HeldKey(s') == HeldKey(s)
      && SessionOk(cfg, st.txns, st.quotas, st.auths, sid, s')
    case TakeLock(r, p) =>
      var s' := s.(phase := p);
      !p.Done? && HeldRow(s) == None && HeldRow(s') == Some(r) && HeldKey(s') == HeldKey(s) && r !in st.locks
      && SessionOk(cfg, st.txns, st.quotas, st.auths, sid, s')
    case TakeKey(k, p) =>
      var s' := s.(phase := p);
      !p.Done? && HeldKey(s) == None && HeldKey(s') == Some(k) && HeldRow(s') == HeldRow(s)
      && k !in st.claims && FindKey(st.txns, k).None?
      && SessionOk(cfg, st.txns, st.quotas, st.auths, sid, s')
    case End(o) => SessionOk(cfg, st.txns, st.quotas, st.auths, sid, s.(phase := Done(o)))
    case Post(t) =>
      && t.id == sid && t.at == s.at && s.phase == Writing(Draft(t.key, t.purpose), t.postings)
      && WellFormed(t) && DraftFor(cfg, s.call, Draft(t.key, t.purpose)) && NonNegative(s.call)
      && (Debited(t.purpose).Some? ==> Balance(st.txns, Debited(t.purpose).value) >= t.purpose.cents)
      && (t.key.Some? ==> FindKey(st.txns, t.key.value).None?)
      && (s.call.ChargeCall? ==> t.key == Some(s.call.key))
    case Store(quotas, auths, o) =>
      && s.phase.Staged? && !o.Failed?
      && QuotasOk(cfg, quotas, auths)
      && OnlyOwnRows(st.quotas, st.auths, quotas, auths, HeldRow(s))
      && (forall a :: a in auths && a !in st.auths ==> a == sid && o == Authorized(sid))
      && SessionOk(cfg, st.txns, quotas, auths, sid, s.(phase := Done(o)))
  }

  // ----- committing to the ledger -----

  lemma AppendKeepsSolvent(txns: seq<Txn>, t: Txn)
    requires Solvent(txns) && WellFormed(t)
    requires Debited(t.purpose).Some? ==> Balance(txns, Debited(t.purpose).value) >= t.purpose.cents
    ensures Solvent(txns + [t])
  {
    forall a: Account | a != FUNDING ensures Balance(txns + [t], a) >= 0 {
      BalanceAppend(txns, t, a);
      PlanEffect(t.purpose, a);
    }
  }

  lemma AppendKeepsDistinct(cfg: Config, txns: seq<Txn>, t: Txn, sessions: Sessions)
    requires TxnsOk(cfg, txns, sessions) && TxnsDistinct(txns)
    requires t.id in sessions && !sessions[t.id].phase.Done?
    requires t.key.Some? ==> FindKey(txns, t.key.value).None?
    ensures TxnsDistinct(txns + [t])
  {
    forall i | 0 <= i < |txns| ensures txns[i].id != t.id && (txns[i].key.Some? ==> txns[i].key != t.key) {
      assert TxnOk(cfg, txns[i], sessions);
      if txns[i].key.Some? && txns[i].key == t.key {
        FindKeySound(txns, t.key.value);
      }
    }
  }

  lemma HasTxnAppend(txns: seq<Txn>, t: Txn, id: nat, call: Call)
    requires HasTxn(txns, id, call)
    ensures HasTxn(txns + [t], id, call)
  {
    var i :| 0 <= i < |txns| && txns[i].id == id && (call.ChargeCall? ==> txns[i].key == Some(call.key));
    assert (txns + [t])[i] == txns[i];
  }

  /** Another session keeps what it has read: nobody else can debit the account it has locked. */
  lemma AppendKeepsSession(cfg: Config, st: State, t: Txn, u: nat)
    requires WellFormed(t) && u in st.sessions && SessionOk(cfg, st.txns, st.quotas, st.auths, u, st.sessions[u])
    requires HeldRow(st.sessions[u]).Some? && Debited(t.purpose).Some? ==>
               HeldRow(st.sessions[u]) != Some(AccountRow(Debited(t.purpose).value))
    ensures SessionOk(cfg, st.txns + [t], st.quotas, st.auths, u, st.sessions[u])
  {
    var s := st.sessions[u];
    match s.phase
    case Conflicted(k) => FindKeyAppend(st.txns, t, k);
    case Writing(d, w) =>
      if Debited(d.purpose).Some? {
        BalanceAppend(st.txns, t, Debited(d.purpose).value);
        PlanEffect(t.purpose, Debited(d.purpose).value);
      }
    case Done(Success(id, _)) => HasTxnAppend(st.txns, t, id, s.call);
    case _ =>
  }

  lemma AppendKeepsFree(claims: map<string, nat>, txns: seq<Txn>, t: Txn)
    requires ClaimsFree(claims, txns)
    ensures ClaimsFree(Without(claims, t.key), txns + [t])
  {
    forall k | k in claims && t.key != Some(k) ensures FindKey(txns + [t], k).None? { FindKeyAppend(txns, t, k); }
  }

  lemma PostKeepsSessions(cfg: Config, st: State, sid: nat, t: Txn)
    requires Inv(cfg, st) && WellFormed(t) && sid in st.sessions && t.id == sid
    requires NonNegative(st.sessions[sid].call)
    requires st.sessions[sid].call.ChargeCall? ==> t.key == Some(st.sessions[sid].call.key)
    requires Debited(t.purpose).Some? ==> HeldRow(st.sessions[sid]) == Some(AccountRow(Debited(t.purpose).value))
    ensures SessionsOk(cfg, st.txns + [t], st.quotas, st.auths,
                       st.sessions[sid := st.sessions[sid].(phase := Done(Success(sid, false)))])
  {
    forall u | u in st.sessions && u != sid
      ensures SessionOk(cfg, st.txns + [t], st.quotas, st.auths, u, st.sessions[u])
    {
      assert HeldRow(st.sessions[u]).Some? ==> HeldRow(st.sessions[u]) != HeldRow(st.sessions[sid]);
      assert SessionOk(cfg, st.txns, st.quotas, st.auths, u, st.sessions[u]);
      AppendKeepsSession(cfg, st, t, u);
    }
    assert (st.txns + [t])[|st.txns|] == t;
    SessionsReplaced(cfg, st.txns + [t], st.quotas, st.auths, st.sessions, sid,
                     st.sessions[sid].(phase := Done(Success(sid, false))));
  }

  // ----- committing fuel writes -----

  lemma FundKeepsQuotas(cfg: Config, quotas: map<VehicleId, Quota>, auths: map<nat, Authorization>, call: Call)
    requires QuotasOk(cfg, quotas, auths) && FundOk(cfg, call)
    ensures QuotasOk(cfg, Upsert(quotas, call.owner, call.vehicle, call.cents), auths)
    ensures OnlyOwnRows(quotas, auths, Upsert(quotas, call.owner, call.vehicle, call.cents), auths, None)
  {
    var quotas' := Upsert(quotas, call.owner, call.vehicle, call.cents);
    forall v | v in quotas' ensures QuotaOk(cfg, v, quotas'[v], auths) {
      if v in quotas {
        assert QuotaOk(cfg, v, quotas[v], auths);
      } else {
        assert AuthCents(auths, v, Reserved) == map[] == AuthCents(auths, v, Confirmed);
      }
    }
  }

  lemma ReserveKeepsQuotas(cfg: Config, quotas: map<VehicleId, Quota>, auths: map<nat, Authorization>,
                           id: nat, v: VehicleId, cents: int)
    requires QuotasOk(cfg, quotas, auths) && id !in auths
    requires v in quotas && 0 < cents <= quotas[v].Available()
    ensures QuotasOk(cfg, Reserve(quotas, v, cents), auths[id := Authorization(v, cents, Reserved)])
    ensures OnlyOwnRows(quotas, auths, Reserve(quotas, v, cents), auths[id := Authorization(v, cents, Reserved)],
                        Some(QuotaRow(v)))
  {
    var auths' := auths[id := Authorization(v, cents, Reserved)];
    var quotas' := Reserve(quotas, v, cents);
    forall u | u in quotas' ensures QuotaOk(cfg, u, quotas'[u], auths') {
      assert QuotaOk(cfg, u, quotas[u], auths);
      ReservedRowOk(cfg, quotas, auths, id, v, cents, u);
    }
  }

  lemma ReservedRowOk(cfg: Config, quotas: map<VehicleId, Quota>, auths: map<nat, Authorization>,
                      id: nat, v: VehicleId, cents: int, u: VehicleId)
    requires u in quotas && QuotaOk(cfg, u, quotas[u], auths) && id !in auths
    requires v in quotas && 0 < cents <= quotas[v].Available()
    ensures QuotaOk(cfg, u, Reserve(quotas, v, cents)[u], auths[id := Authorization(v, cents, Reserved)])
  {
    ReservationCounts(auths, id, v, cents, u);
  }

  lemma ReservationCounts(auths: map<nat, Authorization>, id: nat, v: VehicleId, cents: int, u: VehicleId)
    requires id !in auths
    ensures var auths' := auths[id := Authorization(v, cents, Reserved)];
            && Sums.Sum(AuthCents(auths', u, Confirmed)) == Sums.Sum(AuthCents(auths, u, Confirmed))
            && Sums.Sum(AuthCents(auths', u, Reserved))
               == Sums.Sum(AuthCents(auths, u, Reserved)) + (if u == v then cents else 0)
  {
    var auths' := auths[id := Authorization(v, cents, Reserved)];
    assert AuthCents(auths', u, Confirmed) == AuthCents(auths, u, Confirmed);
    if u != v {
      assert AuthCents(auths', u, Reserved) == AuthCents(auths, u, Reserved);
    } else {
      assert AuthCents(auths', v, Reserved) == AuthCents(auths, v, Reserved)[id := cents];
      Sums.SumPut(AuthCents(auths, v, Reserved), id, cents);
    }
  }

  lemma ConfirmKeepsQuotas(cfg: Config, quotas: map<VehicleId, Quota>, auths: map<nat, Authorization>, id: nat)
    requires QuotasOk(cfg, quotas, auths) && id in auths && auths[id].status == Reserved
    ensures QuotasOk(cfg, Debit(quotas, auths[id].vehicle, auths[id].cents), Confirm(auths, id))
    ensures OnlyOwnRows(quotas, auths, Debit(quotas, auths[id].vehicle, auths[id].cents), Confirm(auths, id),
                        Some(AuthRow(id)))
  {
    var a := auths[id];
    var auths' := Confirm(auths, id);
    var quotas' := Debit(quotas, a.vehicle, a.cents);
    forall u | u in quotas' ensures QuotaOk(cfg, u, quotas'[u], auths') {
      assert QuotaOk(cfg, u, quotas[u], auths);
      if u != a.vehicle {
        assert forall s :: AuthCents(auths', u, s) == AuthCents(auths, u, s);
      } else {
        ConfirmMovesCents(auths, id);
      }
    }
  }

  /** Confirming moves one authorization from the reserved sum to the confirmed sum. */
  lemma ConfirmMovesCents(auths: map<nat, Authorization>, id: nat)
    requires id in auths && auths[id].status == Reserved && forall a :: a in auths ==> auths[a].cents > 0
    ensures var v, cents, auths' := auths[id].vehicle, auths[id].cents, Confirm(auths, id);
            && Sums.Sum(AuthCents(auths', v, Reserved)) == Sums.Sum(AuthCents(auths, v, Reserved)) - cents >= 0
            && Sums.Sum(AuthCents(auths', v, Confirmed)) == Sums.Sum(AuthCents(auths, v, Confirmed)) + cents
  {
    var v, auths' := auths[id].vehicle, Confirm(auths, id);
    assert AuthCents(auths', v, Reserved) == AuthCents(auths, v, Reserved) - {id};
    Sums.SumTake(AuthCents(auths, v, Reserved), id);
    Sums.SumNonNegative(AuthCents(auths', v, Reserved));
    assert AuthCents(auths', v, Confirmed) == AuthCents(auths, v, Confirmed)[id := auths[id].cents];
    Sums.SumPut(AuthCents(auths, v, Confirmed), id, auths[id].cents);
  }

  lemma StoreKeepsSession(cfg: Config, txns: seq<Txn>, quotas: map<VehicleId, Quota>, auths: map<nat, Authorization>,
                          quotas': map<VehicleId, Quota>, auths': map<nat, Authorization>, held: Option<Row>,
                          u: nat, s: Session)
    requires SessionOk(cfg, txns, quotas, auths, u, s)
    requires OnlyOwnRows(quotas, auths, quotas', auths', held)
    requires HeldRow(s).Some? ==> HeldRow(s) != held
    ensures SessionOk(cfg, txns, quotas', auths', u, s)
  {
  }

  lemma StoreKeepsSessions(cfg: Config, st: State, sid: nat, quotas: map<VehicleId, Quota>,
                           auths: map<nat, Authorization>, o: Outcome)
    requires Inv(cfg, st) && sid in st.sessions
    requires OnlyOwnRows(st.quotas, st.auths, quotas, auths, HeldRow(st.sessions[sid]))
    requires SessionOk(cfg, st.txns, quotas, auths, sid, st.sessions[sid].(phase := Done(o)))
    ensures SessionsOk(cfg, st.txns, quotas, auths, st.sessions[sid := st.sessions[sid].(phase := Done(o))])
  {
    var s := st.sessions[sid];
    forall u | u in st.sessions && u != sid ensures SessionOk(cfg, st.txns, quotas, auths, u, st.sessions[u]) {
      assert SessionOk(cfg, st.txns, st.quotas, st.auths, u, st.sessions[u]);
      assert HeldRow(st.sessions[u]).Some? ==> HeldRow(st.sessions[u]) != HeldRow(s);
      StoreKeepsSession(cfg, st.txns, st.quotas, st.auths, quotas, auths, HeldRow(s), u, st.sessions[u]);
    }
    SessionsReplaced(cfg, st.txns, quotas, auths, st.sessions, sid, s.(phase := Done(o)));
  }

  lemma SessionsReplaced(cfg: Config, txns: seq<Txn>, quotas: map<VehicleId, Quota>, auths: map<nat, Authorization>,
                         sessions: Sessions, sid: nat, s: Session)
    requires forall u :: u in sessions && u != sid ==> SessionOk(cfg, txns, quotas, auths, u, sessions[u])
    requires SessionOk(cfg, txns, quotas, auths, sid, s)
    ensures SessionsOk(cfg, txns, quotas, auths, sessions[sid := s])
  {
    var after := sessions[sid := s];
    forall u | u in after ensures SessionOk(cfg, txns, quotas, auths, u, after[u]) {}
  }

  // ----- legitimate effects keep the invariant -----

  /** Effects that leave the committed rows alone. */
  lemma PrivateEffectKeepsInv(cfg: Config, st: State, sid: nat, e: Effect)
    requires Inv(cfg, st) && sid in st.sessions && !st.sessions[sid].phase.Done?
    requires EffectOk(cfg, st, sid, e) && (e.Move? || e.TakeLock? || e.TakeKey? || e.End?)
    ensures Inv(cfg, Perform(st, sid, e))
  {
    var s := Perform(st, sid, e).sessions[sid];
    match e {
      case Move(p) =>
        LocksKept(st.locks, st.sessions, sid, s);
        ClaimsKept(st.claims, st.sessions, sid, s);
      case TakeLock(r, p) =>
        LockTaken(st.locks, st.sessions, sid, s, r);
        ClaimsKept(st.claims, st.sessions, sid, s);
      case TakeKey(k, p) =>
        LocksKept(st.locks, st.sessions, sid, s);
        ClaimTaken(st.claims, st.sessions, sid, s, k);
      case End(o) =>
        LockReleased(st.locks, st.sessions, sid, s);
        ClaimReleased(st.claims, st.sessions, sid, s);
    }
    RecordsKept(cfg, st.txns, st.auths, st.sessions, sid, s);
    SessionsKept(cfg, st.txns, st.quotas, st.auths, st.sessions, sid, s);
  }

  lemma PostKeepsInv(cfg: Config, st: State, sid: nat, t: Txn)
    requires Inv(cfg, st) && sid in st.sessions && EffectOk(cfg, st, sid, Post(t))
    ensures Inv(cfg, Perform(st, sid, Post(t)))
  {
    var s := st.sessions[sid];
    var s' := s.(phase := Done(Success(sid, false)));
    LockReleased(st.locks, st.sessions, sid, s');
    ClaimReleased(st.claims, st.sessions, sid, s');
    AppendKeepsFree(st.claims, st.txns, t);
    RecordsKept(cfg, st.txns, st.auths, st.sessions, sid, s');
    AppendKeepsDistinct(cfg, st.txns, t, st.sessions);
    AppendKeepsSolvent(st.txns, t);
    PostKeepsSessions(cfg, st, sid, t);
  }

  lemma StoreKeepsInv(cfg: Config, st: State, sid: nat, quotas: map<VehicleId, Quota>, auths: map<nat, Authorization>,
                      o: Outcome)
    requires Inv(cfg, st) && sid in st.sessions && EffectOk(cfg, st, sid, Store(quotas, auths, o))
    ensures Inv(cfg, Perform(st, sid, Store(quotas, auths, o)))
  {
    var s' := st.sessions[sid].(phase := Done(o));
    LockReleased(st.locks, st.sessions, sid, s');
    ClaimReleased(st.claims, st.sessions, sid, s');
    RecordsKept(cfg, st.txns, st.auths, st.sessions, sid, s');
    StoreKeepsSessions(cfg, st, sid, quotas, auths, o);
  }

  lemma PerformKeepsInv(cfg: Config, st: State, sid: nat, e: Effect)
    requires Inv(cfg, st) && sid in st.sessions && EffectOk(cfg, st, sid, e)
    requires st.sessions[sid].phase.Done? ==> e == Wait
    ensures Inv(cfg, Perform(st, sid, e))
  {
    match e
    case Wait =>
    case Post(t) => PostKeepsInv(cfg, st, sid, t);
    case Store(quotas, auths, o) => StoreKeepsInv(cfg, st, sid, quotas, auths, o);
    case _ => PrivateEffectKeepsInv(cfg, st, sid, e);
  }

  /** An effect rewrites its own session's phase and no other session. */
  lemma PerformTouches(st: State, sid: nat, e: Effect)
    requires sid in st.sessions
    ensures forall u :: u in st.sessions && u != sid ==> Perform(st, sid, e).sessions[u] == st.sessions[u]
    ensures Perform(st, sid, e).sessions[sid].call == st.sessions[sid].call
    ensures Perform(st, sid, e).sessions[sid].at == st.sessions[sid].at
    ensures Perform(st, sid, e).sessions[sid].phase ==
            match e
            case Wait => st.sessions[sid].phase
            case Move(p) => p
            case TakeLock(_, p) => p
            case TakeKey(_, p) => p
            case End(o) => Done(o)
            case Post(t) => Done(Success(t.id, false))
            case Store(_, _, o) => Done(o)
  {
  }

  // ----- every statement's effect is legitimate -----

  lemma OpenLedgerOk(cfg: Config, st: State, sid: nat)
    requires sid in st.sessions && st.sessions[sid].phase.Begun? && NonNegative(st.sessions[sid].call)
    requires var call := st.sessions[sid].call; call.TopupCall? || call.ChargeCall? || call.TransferCall? || call.AllocateCall?
    ensures EffectOk(cfg, st, sid, Open(cfg, st, st.sessions[sid].call))
  {
  }

  lemma OpenFuelOk(cfg: Config, st: State, sid: nat)
    requires sid in st.sessions && st.sessions[sid].phase.Begun? && NonNegative(st.sessions[sid].call)
    requires var call := st.sessions[sid].call; call.FundCall? || call.AuthorizeCall? || call.ConfirmCall?
    ensures EffectOk(cfg, st, sid, Open(cfg, st, st.sessions[sid].call))
  {
  }

  lemma OpenOk(cfg: Config, st: State, sid: nat)
    requires sid in st.sessions && st.sessions[sid].phase.Begun? && NonNegative(st.sessions[sid].call)
    ensures EffectOk(cfg, st, sid, Open(cfg, st, st.sessions[sid].call))
  {
    match st.sessions[sid].call
    case FundCall(_, _, _) => OpenFuelOk(cfg, st, sid);
    case AuthorizeCall(_, _) => OpenFuelOk(cfg, st, sid);
    case ConfirmCall(_) => OpenFuelOk(cfg, st, sid);
    case _ => OpenLedgerOk(cfg, st, sid);
  }

  lemma InsertOk(cfg: Config, st: State, sid: nat)
    requires sid in st.sessions && SessionOk(cfg, st.txns, st.quotas, st.auths, sid, st.sessions[sid])
    requires st.sessions[sid].phase.Drafted? || st.sessions[sid].phase.Conflicted?
    ensures EffectOk(cfg, st, sid, Next(cfg, st, sid))
  {
    if st.sessions[sid].phase.Conflicted? {
      FindKeySound(st.txns, st.sessions[sid].phase.key);
    }
  }

  lemma LockOk(cfg: Config, st: State, sid: nat)
    requires sid in st.sessions && SessionOk(cfg, st.txns, st.quotas, st.auths, sid, st.sessions[sid])
    requires st.sessions[sid].phase.Inserted? || st.sessions[sid].phase.Locked?
    ensures EffectOk(cfg, st, sid, Next(cfg, st, sid))
  {
  }

  /** A commit never meets its key: the claim has kept every other call with that key waiting. */
  lemma WritingOk(cfg: Config, st: State, sid: nat, d: Draft, w: seq<Posting>)
    requires ValidConfig(cfg) && Inv(cfg, st) && sid in st.sessions && st.sessions[sid].phase == Writing(d, w)
    ensures EffectOk(cfg, st, sid, Next(cfg, st, sid))
    ensures !Next(cfg, st, sid).End?
  {
    var s := st.sessions[sid];
    assert SessionOk(cfg, st.txns, st.quotas, st.auths, sid, s);
    assert HeldKey(s) == d.key;
    if |w| < |Plan(d.purpose)| {
      assert w + [Plan(d.purpose)[|w|]] <= Plan(d.purpose);
    } else {
      DraftSound(cfg, s.call, d);
    }
  }

  lemma FundCommitOk(cfg: Config, st: State, sid: nat)
    requires QuotasOk(cfg, st.quotas, st.auths) && sid in st.sessions && st.sessions[sid].phase == Staged(1)
    requires FundOk(cfg, st.sessions[sid].call) && NonNegative(st.sessions[sid].call)
    ensures EffectOk(cfg, st, sid, WriteFuel(st, sid, st.sessions[sid].call, 1))
  {
    FundKeepsQuotas(cfg, st.quotas, st.auths, st.sessions[sid].call);
  }

  lemma ReserveCommitOk(cfg: Config, st: State, sid: nat)
    requires QuotasOk(cfg, st.quotas, st.auths) && AuthsOwned(st.auths, st.sessions)
    requires sid in st.sessions && st.sessions[sid].phase == Staged(2) && st.sessions[sid].call.AuthorizeCall?
    requires var call := st.sessions[sid].call; call.vehicle in st.quotas && 0 < call.cents <= st.quotas[call.vehicle].Available()
    ensures EffectOk(cfg, st, sid, WriteFuel(st, sid, st.sessions[sid].call, 2))
  {
    var call := st.sessions[sid].call;
    assert sid !in st.auths;
    ReserveKeepsQuotas(cfg, st.quotas, st.auths, sid, call.vehicle, call.cents);
  }

  lemma FuelStatementOk(cfg: Config, st: State, sid: nat, n: nat)
    requires Inv(cfg, st) && sid in st.sessions && st.sessions[sid].phase == Staged(n)
    ensures EffectOk(cfg, st, sid, WriteFuel(st, sid, st.sessions[sid].call, n))
  {
    var s := st.sessions[sid];
    assert SessionOk(cfg, st.txns, st.quotas, st.auths, sid, s);
    if n == Writes(s.call) {
      match s.call
      case FundCall(_, _, _) => FundCommitOk(cfg, st, sid);
      case AuthorizeCall(_, _) => ReserveCommitOk(cfg, st, sid);
      case ConfirmCall(a) => ConfirmCommitOk(cfg, st, sid, a);
    }
  }

  lemma ConfirmOwnRows(cfg: Config, quotas: map<VehicleId, Quota>, auths: map<nat, Authorization>, a: nat)
    requires a in auths && auths[a].status == Reserved && auths[a].vehicle in quotas
    ensures OnlyOwnRows(quotas, auths, Debit(quotas, auths[a].vehicle, auths[a].cents), Confirm(auths, a), Some(AuthRow(a)))
  {
  }

  lemma ConfirmCommitOk(cfg: Config, st: State, sid: nat, a: nat)
    requires QuotasOk(cfg, st.quotas, st.auths) && sid in st.sessions && st.sessions[sid].phase == Staged(2)
    requires st.sessions[sid].call == ConfirmCall(a) && a in st.auths && st.auths[a].status == Reserved
    ensures EffectOk(cfg, st, sid, WriteFuel(st, sid, ConfirmCall(a), 2))
  {
    var x := st.auths[a];
    assert x.vehicle in st.quotas;
    ConfirmKeepsQuotas(cfg, st.quotas, st.auths, a);
    ConfirmOwnRows(cfg, st.quotas, st.auths, a);
    ConfirmStoreOk(cfg, st, sid, a, Debit(st.quotas, x.vehicle, x.cents), Confirm(st.auths, a));
  }

  lemma ConfirmStoreOk(cfg: Config, st: State, sid: nat, a: nat, quotas: map<VehicleId, Quota>,
                       auths: map<nat, Authorization>)
    requires sid in st.sessions && st.sessions[sid].phase == Staged(2) && st.sessions[sid].call == ConfirmCall(a)
    requires QuotasOk(cfg, quotas, auths) && OnlyOwnRows(st.quotas, st.auths, quotas, auths, Some(AuthRow(a)))
    requires auths.Keys == st.auths.Keys && a in auths && auths[a].status == Confirmed
    ensures EffectOk(cfg, st, sid, Store(quotas, auths, Settled(auths[a].vehicle, auths[a].cents, false)))
  {
  }

  lemma NextOk(cfg: Config, st: State, sid: nat)
    requires ValidConfig(cfg) && Inv(cfg, st) && sid in st.sessions
    ensures EffectOk(cfg, st, sid, Next(cfg, st, sid))
  {
    assert SessionOk(cfg, st.txns, st.quotas, st.auths, sid, st.sessions[sid]);
    match st.sessions[sid].phase
    case Begun => OpenOk(cfg, st, sid);
    case Writing(d, w) => WritingOk(cfg, st, sid, d, w);
    case Measured(_) =>
    case Staged(n) => FuelStatementOk(cfg, st, sid, n);
    case Done(_) =>
    case Inserted(_) => LockOk(cfg, st, sid);
    case Locked(_) => LockOk(cfg, st, sid);
    case _ => InsertOk(cfg, st, sid);
  }

  lemma ApplyKeepsInv(cfg: Config, st: State, e: Event)
    requires ValidConfig(cfg) && Inv(cfg, st) && Admissible(e)
    ensures Inv(cfg, Apply(cfg, st, e))
  {
    match e
    case Start(sid, call, at) =>
      if sid !in st.sessions {
        var s := Session(call, at, Begun);
        RecordsKept(cfg, st.txns, st.auths, st.sessions, sid, s);
        SessionsKept(cfg, st.txns, st.quotas, st.auths, st.sessions, sid, s);
      }
    case Advance(sid) =>
      if sid in st.sessions {
        NextOk(cfg, st, sid);
        PerformKeepsInv(cfg, st, sid, Next(cfg, st, sid));
      }
    case Fail(sid) =>
      if sid in st.sessions && !st.sessions[sid].phase.Done? {
        assert SessionOk(cfg, st.txns, st.quotas, st.auths, sid, st.sessions[sid]);
        PerformKeepsInv(cfg, st, sid, End(Failed(Aborted)));
      }
  }

  predicate AllAdmissible(events: seq<Event>) { forall e :: e in events ==> Admissible(e) }

  lemma {:induction false} RunKeepsInv(cfg: Config, events: seq<Event>)
    requires ValidConfig(cfg) && AllAdmissible(events)
    ensures Inv(cfg, Run(cfg, events))
  {
    if events != [] {
      RunKeepsInv(cfg, events[..|events| - 1]);
      ApplyKeepsInv(cfg, Run(cfg, events[..|events| - 1]), events[|events| - 1]);
    }
  }
}
