/** Calls on the money tables as programs of database statements that interleave.
    Every statement is one step; a transaction's own writes stay private until its commit. */
module Protocol {
  import opened Wrappers
  import opened Ledger
  import opened FareSplits

  /** The assignment tables and the configured percentages, fixed during a run. */
  datatype Config = Config(
    ownerOf: map<VehicleId, UserId>, driverOf: map<VehicleId, UserId>, platformPct: int, driverPct: int)

  datatype Call =
    | TopupCall(commuter: UserId, cents: int)
    | ChargeCall(commuter: UserId, vehicle: VehicleId, cents: int, key: string)
    | TransferCall(owner: UserId, from: AccountType, to: AccountType, cents: int)
    | AllocateCall(owner: UserId, pct: int)
    | FundCall(owner: UserId, vehicle: VehicleId, cents: int)
    | AuthorizeCall(vehicle: VehicleId, cents: int)
    | ConfirmCall(auth: nat)

  datatype Error =
    | IdempotencyRequired | NoActiveDriver | InsufficientFunds | InvalidAmount
    | NothingToAllocate | NotFound | NotOwnersVehicle | Aborted

  datatype Outcome =
    | Success(txn: nat, replayed: bool)
    | Failed(error: Error)
    | Funded
    | Denied(available: int)
    | Authorized(auth: nat)
    | Settled(vehicle: VehicleId, cents: int, already: bool)

  datatype Row = AccountRow(account: Account) | QuotaRow(vehicle: VehicleId) | AuthRow(auth: nat)

  datatype Quota = Quota(owner: UserId, quota: int, reserved: int, used: int) {
    function Available(): int { quota - reserved - used }
  }

  datatype Status = Reserved | Confirmed

  datatype Authorization = Authorization(vehicle: VehicleId, cents: int, status: Status)

  /** A ledger transaction being put together. */
  datatype Draft = Draft(key: Option<string>, purpose: Purpose)

  datatype Phase =
    | Begun
    | Drafted(draft: Draft)                         // amounts and accounts known, nothing inserted
    | Conflicted(key: string)                       // the keyed insert did nothing
    | Inserted(draft: Draft)                        // transaction row inserted, key claimed
    | Locked(draft: Draft)                          // account row locked
    | Writing(draft: Draft, written: seq<Posting>)  // balance checked; postings being inserted
    | Measured(balance: int)                        // funding: fuel balance read
    | Staged(writes: nat)                           // fuel writes made, not committed
    | Done(outcome: Outcome)

  datatype Session = Session(call: Call, at: nat, phase: Phase)

  datatype State = State(
    txns: seq<Txn>,                     // committed, in commit order
    claims: map<string, nat>,           // keys of inserted, uncommitted rows
    locks: map<Row, nat>,               // FOR UPDATE row locks
    quotas: map<VehicleId, Quota>,
    auths: map<nat, Authorization>,
    sessions: map<nat, Session>)

  datatype Event =
    | Start(sid: nat, call: Call, at: nat)
    | Advance(sid: nat)
    | Fail(sid: nat)                    // a statement errors or the client goes away: rollback

  const EMPTY := State([], map[], map[], map[], map[], map[])

  // ----- what a session holds -----

  function HeldRow(s: Session): Option<Row> {
    match s.phase
    case Locked(d) => DebitRow(d)
    case Writing(d, _) => DebitRow(d)
    case Staged(_) =>
      (match s.call
       case AuthorizeCall(v, _) => Some(QuotaRow(v))
       case ConfirmCall(a) => Some(AuthRow(a))
       case _ => None)
    case _ => None
  }

  function DebitRow(d: Draft): Option<Row> {
    match Debited(d.purpose) case None => None case Some(a) => Some(AccountRow(a))
  }

  function HeldKey(s: Session): Option<string> {
    match s.phase
    case Inserted(d) => d.key
    case Locked(d) => d.key
    case Writing(d, _) => d.key
    case _ => None
  }

  // ----- statements -----

  /** What a statement does, decided from the rows it reads. */
  datatype Effect =
    | Wait                                   // blocked by another transaction's row lock or key
    | Move(next: Phase)
    | TakeLock(row: Row, next: Phase)
    | TakeKey(key: string, next: Phase)
    | End(outcome: Outcome)                  // rollback, or a transaction that wrote nothing
    | Post(txn: Txn)                         // commit of a ledger transaction
    | Store(quotas: map<VehicleId, Quota>, auths: map<nat, Authorization>, outcome: Outcome)

  function FareDraft(cfg: Config, commuter: UserId, vehicle: VehicleId, cents: int, key: string): Draft
    requires vehicle in cfg.ownerOf && vehicle in cfg.driverOf
  {
    Draft(Some(key), Fare(commuter, vehicle, cfg.driverOf[vehicle], cfg.ownerOf[vehicle], cents,
                          SplitFare(cents, cfg.platformPct, cfg.driverPct)))
  }

  function OpenCharge(cfg: Config, commuter: UserId, vehicle: VehicleId, cents: int, key: string): Effect {
    if key == "" then End(Failed(IdempotencyRequired))
    else if vehicle !in cfg.ownerOf || vehicle !in cfg.driverOf then End(Failed(NoActiveDriver))
    else Move(Drafted(FareDraft(cfg, commuter, vehicle, cents, key)))
  }

  function OpenTransfer(owner: UserId, from: AccountType, to: AccountType, cents: int): Effect {
    if cents <= 0 then End(Failed(InvalidAmount))
    else Move(Drafted(Draft(None, Transfer(owner, from, to, cents))))
  }

  /** Allocate reads the revenue balance without a lock, then hands the withheld amount to InternalTransfer. */
  function OpenAllocate(txns: seq<Txn>, owner: UserId, pct: int): Effect {
    var cents := GoDiv(Balance(txns, RevenueOf(owner)) * pct, 100);
    if cents <= 0 then End(Failed(NothingToAllocate))
    else OpenTransfer(owner, OwnerRevenue, FuelAccount, cents)
  }

  function OpenFund(cfg: Config, txns: seq<Txn>, owner: UserId, vehicle: VehicleId, cents: int): Effect {
    if cents <= 0 then End(Failed(InvalidAmount))
    else if vehicle !in cfg.ownerOf then End(Failed(NotFound))
    else if cfg.ownerOf[vehicle] != owner then End(Failed(NotOwnersVehicle))
    else Move(Measured(Balance(txns, FuelOf(owner))))
  }

  function OpenAuthorize(st: State, vehicle: VehicleId, cents: int): Effect {
    if cents <= 0 then End(Failed(InvalidAmount))
    else if vehicle !in st.quotas then End(Denied(0))
    else if QuotaRow(vehicle) in st.locks then Wait
    else if cents > st.quotas[vehicle].Available() then End(Denied(st.quotas[vehicle].Available()))
    else TakeLock(QuotaRow(vehicle), Staged(0))
  }

  function OpenConfirm(st: State, auth: nat): Effect {
    if auth !in st.auths then End(Failed(NotFound))
    else if AuthRow(auth) in st.locks then Wait
    else if st.auths[auth].status == Confirmed then End(Settled(st.auths[auth].vehicle, st.auths[auth].cents, true))
    else TakeLock(AuthRow(auth), Staged(0))
  }

  /** The first statement of each call, with the checks the code makes before and after it. */
  function Open(cfg: Config, st: State, call: Call): Effect {
    match call
    case TopupCall(commuter, cents) => Move(Drafted(Draft(None, Topup(commuter, cents))))
    case ChargeCall(commuter, vehicle, cents, key) => OpenCharge(cfg, commuter, vehicle, cents, key)
    case TransferCall(owner, from, to, cents) => OpenTransfer(owner, from, to, cents)
    case AllocateCall(owner, pct) => OpenAllocate(st.txns, owner, pct)
    case FundCall(owner, vehicle, cents) => OpenFund(cfg, st.txns, owner, vehicle, cents)
    case AuthorizeCall(vehicle, cents) => OpenAuthorize(st, vehicle, cents)
    case ConfirmCall(auth) => OpenConfirm(st, auth)
  }

  function FindKey(txns: seq<Txn>, key: string): Option<nat> {
    if txns == [] then None
    else if txns[|txns| - 1].key == Some(key) then Some(txns[|txns| - 1].id)
    else FindKey(txns[..|txns| - 1], key)
  }

  /** INSERT ... ON CONFLICT DO NOTHING: waits for an uncommitted row with the same key. */
  function InsertTransaction(st: State, d: Draft): Effect {
    match d.key
    case None => Move(Inserted(d))
    case Some(k) =>
      if FindKey(st.txns, k).Some? then Move(Conflicted(k))
      else if k in st.claims then Wait
      else TakeKey(k, Inserted(d))
  }

  function FetchExisting(txns: seq<Txn>, key: string): Effect {
    match FindKey(txns, key)
    case None => End(Failed(NotFound))
    case Some(id) => End(Success(id, true))
  }

  /** SELECT ... FOR UPDATE: waits while another transaction holds the row. A top-up locks nothing. */
  function LockAccount(locks: map<Row, nat>, d: Draft): Effect {
    match Debited(d.purpose)
    case None => Move(Writing(d, []))
    case Some(a) => if AccountRow(a) in locks then Wait else TakeLock(AccountRow(a), Locked(d))
  }

  function CheckBalance(txns: seq<Txn>, d: Draft): Effect {
    if Debited(d.purpose).Some? && Balance(txns, Debited(d.purpose).value) < d.purpose.cents
    then End(Failed(InsufficientFunds))
    else Move(Writing(d, []))
  }

  /** The next posting, or the commit once all are in. A commit that meets the key already
      committed is answered like a replay. */
  function WritePosting(txns: seq<Txn>, sid: nat, at: nat, d: Draft, written: seq<Posting>): Effect {
    if |written| < |Plan(d.purpose)| then Move(Writing(d, written + [Plan(d.purpose)[|written|]]))
    else if d.key.Some? && FindKey(txns, d.key.value).Some? then End(Success(FindKey(txns, d.key.value).value, true))
    else Post(Txn(sid, d.key, d.purpose, at, written))
  }

  ghost function QuotasOf(quotas: map<VehicleId, Quota>, owner: UserId): map<VehicleId, int> {
    map v | v in quotas && quotas[v].owner == owner :: quotas[v].quota
  }

  ghost function Earmarked(quotas: map<VehicleId, Quota>, owner: UserId): int {
    Sums.Sum(QuotasOf(quotas, owner))
  }

  function CheckEarmarks(earmarked: int, cents: int, balance: int): Effect {
    if earmarked + cents > balance then End(Failed(InsufficientFunds)) else Move(Staged(0))
  }

  /** Statements a fuel transaction makes before its commit. */
  function Writes(call: Call): nat {
    match call case FundCall(_, _, _) => 1 case AuthorizeCall(_, _) => 2 case ConfirmCall(_) => 2 case _ => 0
  }

  /** The upsert of vehicle_fuel_quotas. */
  function Upsert(quotas: map<VehicleId, Quota>, owner: UserId, v: VehicleId, cents: int): map<VehicleId, Quota> {
    if v in quotas then quotas[v := quotas[v].(quota := quotas[v].quota + cents)]
    else quotas[v := Quota(owner, cents, 0, 0)]
  }

  function Reserve(quotas: map<VehicleId, Quota>, v: VehicleId, cents: int): map<VehicleId, Quota>
    requires v in quotas
  {
    quotas[v := quotas[v].(reserved := quotas[v].reserved + cents)]
  }

  /** reserved_cents moves to used_cents. */
  function Debit(quotas: map<VehicleId, Quota>, v: VehicleId, cents: int): map<VehicleId, Quota>
    requires v in quotas
  {
    quotas[v := quotas[v].(reserved := quotas[v].reserved - cents, used := quotas[v].used + cents)]
  }

  function Confirm(auths: map<nat, Authorization>, auth: nat): map<nat, Authorization>
    requires auth in auths
  {
    auths[auth := auths[auth].(status := Confirmed)]
  }

  /** The next fuel write, or the commit that makes them all visible. */
  function WriteFuel(st: State, sid: nat, call: Call, writes: nat): Effect {
    if writes < Writes(call) then Move(Staged(writes + 1)) else
    match call
    case FundCall(owner, v, cents) => Store(Upsert(st.quotas, owner, v, cents), st.auths, Funded)
    case AuthorizeCall(v, cents) =>
      if v !in st.quotas then Wait
      else Store(Reserve(st.quotas, v, cents), st.auths[sid := Authorization(v, cents, Reserved)], Authorized(sid))
    case ConfirmCall(auth) =>
      if auth !in st.auths || st.auths[auth].vehicle !in st.quotas then Wait
      else var a := st.auths[auth];
           Store(Debit(st.quotas, a.vehicle, a.cents), Confirm(st.auths, auth), Settled(a.vehicle, a.cents, false))
    case _ => Wait
  }

  /** The next statement of a session, on the latest committed rows. */
  ghost function Next(cfg: Config, st: State, sid: nat): Effect
    requires sid in st.sessions
  {
    var s := st.sessions[sid];
    match s.phase
    case Begun => Open(cfg, st, s.call)
    case Drafted(d) => InsertTransaction(st, d)
    case Conflicted(k) => FetchExisting(st.txns, k)
    case Inserted(d) => LockAccount(st.locks, d)
    case Locked(d) => CheckBalance(st.txns, d)
    case Writing(d, w) => WritePosting(st.txns, sid, s.at, d, w)
    case Measured(b) => if s.call.FundCall? then CheckEarmarks(Earmarked(st.quotas, s.call.owner), s.call.cents, b) else Wait
    case Staged(n) => WriteFuel(st, sid, s.call, n)
    case Done(_) => Wait
  }

  function Goto(st: State, sid: nat, phase: Phase): (r: State)
    requires sid in st.sessions
    ensures r.sessions.Keys == st.sessions.Keys
  {
    st.(sessions := st.sessions[sid := st.sessions[sid].(phase := phase)])
  }

  function Without<K, V>(m: map<K, V>, k: Option<K>): map<K, V> {
    match k case None => m case Some(x) => m - {x}
  }

  /** End of the transaction, committed or rolled back: lock and key claim are given up. */
  function Finish(st: State, sid: nat, outcome: Outcome): (r: State)
    requires sid in st.sessions
    ensures r.sessions.Keys == st.sessions.Keys
  {
    Goto(st.(locks := Without(st.locks, HeldRow(st.sessions[sid])), claims := Without(st.claims, HeldKey(st.sessions[sid]))),
         sid, Done(outcome))
  }

  function Perform(st: State, sid: nat, e: Effect): (r: State)
    requires sid in st.sessions
    ensures r.sessions.Keys == st.sessions.Keys
  {
    match e
    case Wait => st
    case Move(p) => Goto(st, sid, p)
    case TakeLock(r, p) => Goto(st.(locks := st.locks[r := sid]), sid, p)
    case TakeKey(k, p) => Goto(st.(claims := st.claims[k := sid]), sid, p)
    case End(o) => Finish(st, sid, o)
    case Post(t) => Finish(st.(txns := st.txns + [t]), sid, Success(t.id, false))
    case Store(quotas, auths, o) => Finish(st.(quotas := quotas, auths := auths), sid, o)
  }

  ghost function Apply(cfg: Config, st: State, e: Event): State {
    match e
    case Start(sid, call, at) =>
      if sid in st.sessions then st else st.(sessions := st.sessions[sid := Session(call, at, Begun)])
    case Advance(sid) => if sid in st.sessions then Perform(st, sid, Next(cfg, st, sid)) else st
    case Fail(sid) =>
      if sid in st.sessions && !st.sessions[sid].phase.Done? then Finish(st, sid, Failed(Aborted)) else st
  }

  ghost function Run(cfg: Config, events: seq<Event>): State {
    if events == [] then EMPTY else Apply(cfg, Run(cfg, events[..|events| - 1]), events[|events| - 1])
  }

  // ----- the inductive invariant -----

  /** Amounts the handlers and the fare tables let through. */
  predicate NonNegative(call: Call) {
    match call
    case TopupCall(_, cents) => cents >= 0
    case ChargeCall(_, _, cents, _) => cents >= 0
    case _ => true
  }

  predicate Admissible(e: Event) { e.Start? ==> NonNegative(e.call) }

  predicate ValidConfig(cfg: Config) { ValidPercentages(cfg.platformPct, cfg.driverPct) }

  /** The drafts a call may produce. */
  predicate DraftFor(cfg: Config, call: Call, d: Draft) {
    match call
    case TopupCall(commuter, cents) => d == Draft(None, Topup(commuter, cents))
    case ChargeCall(commuter, vehicle, cents, key) =>
      vehicle in cfg.ownerOf && vehicle in cfg.driverOf && d == FareDraft(cfg, commuter, vehicle, cents, key)
    case TransferCall(owner, from, to, cents) => cents > 0 && d == Draft(None, Transfer(owner, from, to, cents))
    case AllocateCall(owner, _) =>
      d.purpose.Transfer? && d.purpose.cents > 0
      && d == Draft(None, Transfer(owner, OwnerRevenue, FuelAccount, d.purpose.cents))
    case _ => false
  }

  predicate HasTxn(txns: seq<Txn>, id: nat, call: Call) {
    exists i :: 0 <= i < |txns| && txns[i].id == id && (call.ChargeCall? ==> txns[i].key == Some(call.key))
  }

  predicate SessionOk(cfg: Config, txns: seq<Txn>, quotas: map<VehicleId, Quota>, auths: map<nat, Authorization>,
                      sid: nat, s: Session) {
    && NonNegative(s.call)
    && match s.phase
       case Begun => true
       case Drafted(d) => DraftFor(cfg, s.call, d)
       case Conflicted(k) => s.call.ChargeCall? && s.call.key == k && FindKey(txns, k).Some?
       case Inserted(d) => DraftFor(cfg, s.call, d)
       case Locked(d) => DraftFor(cfg, s.call, d) && Debited(d.purpose).Some?
       case Writing(d, w) =>
         && DraftFor(cfg, s.call, d)
         && w <= Plan(d.purpose)
         && (Debited(d.purpose).Some? ==> Balance(txns, Debited(d.purpose).value) >= d.purpose.cents)
       case Measured(_) => FundOk(cfg, s.call)
       case Staged(n) =>
         && n <= Writes(s.call)
         && (match s.call
             case FundCall(_, _, _) => FundOk(cfg, s.call)
             case AuthorizeCall(v, cents) => v in quotas && 0 < cents <= quotas[v].Available()
             case ConfirmCall(a) => a in auths && auths[a].status == Reserved
             case _ => false)
       case Done(Success(id, replayed)) =>
         HasTxn(txns, id, s.call) && (if replayed then s.call.ChargeCall? else id == sid)
       case Done(Authorized(a)) => a == sid
       case Done(Settled(v, cents, _)) =>
         s.call.ConfirmCall? && s.call.auth in auths && auths[s.call.auth] == Authorization(v, cents, Confirmed)
       case Done(_) => true
  }

  predicate FundOk(cfg: Config, call: Call) {
    call.FundCall? && call.cents > 0 && call.vehicle in cfg.ownerOf && cfg.ownerOf[call.vehicle] == call.owner
  }

  type Sessions = map<nat, Session>

  /** The lock table holds exactly the rows that sessions hold, each for one session. */
  predicate LocksMatch(locks: map<Row, nat>, sessions: Sessions) {
    && (forall r :: r in locks ==> locks[r] in sessions && HeldRow(sessions[locks[r]]) == Some(r))
    && (forall u {:trigger HeldRow(sessions[u])} :: u in sessions && HeldRow(sessions[u]).Some? ==>
          HeldRow(sessions[u]).value in locks && locks[HeldRow(sessions[u]).value] == u)
  }

  /** The same for idempotency keys. */
  predicate ClaimsMatch(claims: map<string, nat>, sessions: Sessions) {
    && (forall k :: k in claims ==> claims[k] in sessions && HeldKey(sessions[claims[k]]) == Some(k))
    && (forall u {:trigger HeldKey(sessions[u])} :: u in sessions && HeldKey(sessions[u]).Some? ==>
          HeldKey(sessions[u]).value in claims && claims[HeldKey(sessions[u]).value] == u)
  }

  predicate ClaimsFree(claims: map<string, nat>, txns: seq<Txn>) {
    forall k :: k in claims ==> FindKey(txns, k).None?
  }

  /** A committed transaction was committed by the call whose number it bears. */
  predicate TxnOk(cfg: Config, t: Txn, sessions: Sessions) {
    && WellFormed(t)
    && t.id in sessions && sessions[t.id].phase == Done(Success(t.id, false)) && sessions[t.id].at == t.at
    && DraftFor(cfg, sessions[t.id].call, Draft(t.key, t.purpose))
  }

  predicate TxnsOk(cfg: Config, txns: seq<Txn>, sessions: Sessions) {
    forall i {:trigger TxnOk(cfg, txns[i], sessions)} :: 0 <= i < |txns| ==> TxnOk(cfg, txns[i], sessions)
  }

  predicate TxnsDistinct(txns: seq<Txn>) {
    && (forall i, j :: 0 <= i < j < |txns| ==> txns[i].id != txns[j].id)
    && (forall i, j :: 0 <= i < j < |txns| && txns[i].key.Some? ==> txns[i].key != txns[j].key)
  }

  ghost predicate Solvent(txns: seq<Txn>) {
    forall a: Account :: a != FUNDING ==> Balance(txns, a) >= 0
  }

  ghost function AuthCents(auths: map<nat, Authorization>, v: VehicleId, status: Status): map<nat, int> {
    map a | a in auths && auths[a].vehicle == v && auths[a].status == status :: auths[a].cents
  }

  /** A quota row agrees with the authorization log. */
  ghost predicate QuotaOk(cfg: Config, v: VehicleId, q: Quota, auths: map<nat, Authorization>) {
    && v in cfg.ownerOf && q.owner == cfg.ownerOf[v]
    && q.reserved == Sums.Sum(AuthCents(auths, v, Reserved)) >= 0
    && q.used == Sums.Sum(AuthCents(auths, v, Confirmed)) >= 0
    && q.Available() >= 0
  }

  ghost predicate QuotasOk(cfg: Config, quotas: map<VehicleId, Quota>, auths: map<nat, Authorization>) {
    && (forall v {:trigger QuotaOk(cfg, v, quotas[v], auths)} :: v in quotas ==> QuotaOk(cfg, v, quotas[v], auths))
    && (forall a :: a in auths ==> auths[a].cents > 0 && auths[a].vehicle in quotas)
  }

  predicate AuthsOwned(auths: map<nat, Authorization>, sessions: Sessions) {
    forall a :: a in auths ==> a in sessions && sessions[a].phase == Done(Authorized(a))
  }

  predicate SessionsOk(cfg: Config, txns: seq<Txn>, quotas: map<VehicleId, Quota>, auths: map<nat, Authorization>,
                       sessions: Sessions) {
    forall u {:trigger SessionOk(cfg, txns, quotas, auths, u, sessions[u])} ::
      u in sessions ==> SessionOk(cfg, txns, quotas, auths, u, sessions[u])
  }

  ghost predicate Inv(cfg: Config, st: State) {
    && LocksMatch(st.locks, st.sessions)
    && ClaimsMatch(st.claims, st.sessions)
    && ClaimsFree(st.claims, st.txns)
    && TxnsOk(cfg, st.txns, st.sessions)
    && TxnsDistinct(st.txns)
    && Solvent(st.txns)
    && QuotasOk(cfg, st.quotas, st.auths)
    && AuthsOwned(st.auths, st.sessions)
    && SessionsOk(cfg, st.txns, st.quotas, st.auths, st.sessions)
  }
}
