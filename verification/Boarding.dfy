/** Boarding scans: boarding/handlers.go over the money machine, the live seats, the issued codes and the limiter. */
module Boarding {
  import opened Wrappers
  import Protocol
  import Telemetry
  import PassCodes
  import RateLimiter

  type UserId = nat
  type VehicleId = nat
  type Instant = int
  type Token = string

  const CODE_WINDOW: int := 60
  const CODE_MAX: nat := 10

  datatype Pass = Pass(commuter: UserId, route: Telemetry.RouteId, fare: int, expires: Instant, nonce: string)

  /** Signature checking is a parameter: what it accepts, it returns the signed pass of. */
  datatype Desk = Desk(cfg: Protocol.Config, vehicleOf: map<UserId, VehicleId>, verify: Token -> Option<Pass>)

  ghost predicate ValidDesk(desk: Desk) {
    Protocol.ValidConfig(desk.cfg)
    && forall t: Token {:trigger desk.verify(t)} :: desk.verify(t).Some? ==> desk.verify(t).value.fare >= 0
  }

  datatype Refusal =
    | NothingSent | TooManyAttempts | InvalidPass | PassExpired | NoAssignment | NotOnline
    | NotCharged(error: Protocol.Error)

  datatype Scan =
    | Verified(driver: UserId, pass: Pass)
    | Charging(pass: Pass, vehicle: VehicleId)
    | Refused(why: Refusal)
    | Boarded(pass: Pass, vehicle: VehicleId, txn: nat, replayed: bool, seated: bool)

  /** taken logs, in order, the scans that took a seat. A scan's charge is the money session of the same number. */
  datatype State = State(
    money: Protocol.State,
    vehicles: map<VehicleId, Telemetry.Vehicle>,
    rows: seq<PassCodes.IssuedPass>,
    tries: seq<RateLimiter.Attempt>,
    scans: map<nat, Scan>,
    taken: seq<nat>)

  const EMPTY := State(Protocol.EMPTY, map[], [], [], map[], [])

  datatype Event =
    | Codes(codes: PassCodes.Op)                                         // a pass is issued, a code looked up, rows swept
    | ScanToken(scan: nat, driver: UserId, token: Token, at: Instant)    // signature and expiry
    | ScanCode(scan: nat, driver: UserId, typed: string, at: Instant)    // no token: limiter, lookup, then as for one
    | CheckDriver(scan: nat, clock: nat)                                 // assignment, online on the route; charge begins
    | Conclude(scan: nat, at: Instant)                                   // the charge has answered; the seat
    | Money(event: Protocol.Event)                                       // any statement of any money call
    | Edit(vehicle: VehicleId, op: Telemetry.Op, at: Instant)            // any other change to the live store

  function Judged(desk: Desk, driver: UserId, token: Token, at: Instant): Scan {
    match desk.verify(token)
    case None => Refused(InvalidPass)
    case Some(pass) => if at > pass.expires then Refused(PassExpired) else Verified(driver, pass)
  }

  function CheckedVehicle(desk: Desk, vehicles: map<VehicleId, Telemetry.Vehicle>, driver: UserId, pass: Pass): Scan {
    if driver !in desk.vehicleOf then Refused(NoAssignment)
    else
      var v := desk.vehicleOf[driver];
      if v !in vehicles || vehicles[v].route != pass.route then Refused(NotOnline) else Charging(pass, v)
  }

  function ChargeFor(pass: Pass, v: VehicleId): Protocol.Call {
    Protocol.ChargeCall(pass.commuter, v, pass.fare, pass.nonce)
  }

  function SeatTaken(vehicles: map<VehicleId, Telemetry.Vehicle>, v: VehicleId, at: Instant)
    : map<VehicleId, Telemetry.Vehicle>
  {
    Telemetry.Mutated(vehicles, v, Telemetry.AdjustSeats(None, -1), at)
  }

  /** After the charge: a seat only for a fresh one, and only while the vehicle is tracked. */
  function Concluded(b: State, n: nat, at: Instant): State
    requires n in b.scans && b.scans[n].Charging? && n in b.money.sessions && b.money.sessions[n].phase.Done?
  {
    var pass, v := b.scans[n].pass, b.scans[n].vehicle;
    match b.money.sessions[n].phase.outcome
    case Success(txn, replayed) =>
      if replayed || v !in b.vehicles then b.(scans := b.scans[n := Boarded(pass, v, txn, replayed, false)])
      else b.(scans := b.scans[n := Boarded(pass, v, txn, false, true)],
              vehicles := SeatTaken(b.vehicles, v, at), taken := b.taken + [n])
    case Failed(e) => b.(scans := b.scans[n := Refused(NotCharged(e))])
    case _ => b
  }

  function Free(b: State, n: nat): bool { n !in b.scans && n !in b.money.sessions }

  ghost function Next(desk: Desk, b: State, e: Event): State {
    match e
    case Codes(codes) => b.(rows := PassCodes.Next(b.rows, codes))
    case ScanToken(n, driver, token, at) =>
      if !Free(b, n) then b else b.(scans := b.scans[n := Judged(desk, driver, token, at)])
    case ScanCode(n, driver, typed, at) => if !Free(b, n) then b else CodeScanned(desk, b, n, driver, typed, at)
    case CheckDriver(n, at) =>
      if n !in b.scans || !b.scans[n].Verified? || n in b.money.sessions then b
      else
        var s := CheckedVehicle(desk, b.vehicles, b.scans[n].driver, b.scans[n].pass);
        var b' := b.(scans := b.scans[n := s]);
        if s.Charging? then b'.(money := Protocol.Apply(desk.cfg, b.money, Protocol.Start(n, ChargeFor(s.pass, s.vehicle), at)))
        else b'
    case Conclude(n, at) =>
      if n in b.scans && b.scans[n].Charging? && n in b.money.sessions && b.money.sessions[n].phase.Done?
      then Concluded(b, n, at) else b
    case Money(m) => if m.Start? && m.sid in b.scans then b else b.(money := Protocol.Apply(desk.cfg, b.money, m))
    case Edit(v, op, at) => b.(vehicles := Telemetry.Mutated(b.vehicles, v, op, at))
  }

  function CodeScanned(desk: Desk, b: State, n: nat, driver: UserId, typed: string, at: Instant): State {
    var b' := b.(tries := b.tries + [RateLimiter.Attempt(driver, at)]);
    if typed == "" then b.(scans := b.scans[n := Refused(NothingSent)])
    else if !RateLimiter.Admits(RateLimiter.Log(b.tries, driver, CODE_WINDOW, CODE_MAX), at, CODE_WINDOW, CODE_MAX)
    then b'.(scans := b.scans[n := Refused(TooManyAttempts)])
    else
      var found := PassCodes.Resolved(b.rows, typed, at);
      b'.(rows := PassCodes.Next(b.rows, PassCodes.Lookup(typed, at)),
          scans := b.scans[n := match found case None => Refused(InvalidPass)
                                            case Some(p) => Judged(desk, driver, p.token, at)])
  }

  ghost function Run(desk: Desk, b: State, events: seq<Event>): State {
    if events == [] then b else Next(desk, Run(desk, b, events[..|events| - 1]), events[|events| - 1])
  }

  predicate Admissible(e: Event) { e.Money? ==> Protocol.Admissible(e.event) }

  predicate AllAdmissible(events: seq<Event>) { forall i :: 0 <= i < |events| ==> Admissible(events[i]) }
}

/** Each pass pays once and takes at most one seat. */
module BoardingSafety {
  import opened Wrappers
  import opened Boarding
  import Ledger
  import Protocol
  import ProtocolSafety
  import LedgerTheorems
  import Telemetry
  import Convergence
  import PassCodes
  import RateLimiter

  /** How a scan and the money session of its number stand to each other. */
  predicate ScanOk(money: Protocol.State, n: nat, s: Scan) {
    match s
    case Verified(_, pass) => n !in money.sessions && pass.fare >= 0
    case Charging(pass, v) => n in money.sessions && money.sessions[n].call == ChargeFor(pass, v)
    case Boarded(pass, v, txn, replayed, seated) =>
      && n in money.sessions && money.sessions[n].call == ChargeFor(pass, v)
      && money.sessions[n].phase == Protocol.Done(Protocol.Success(txn, replayed))
      && (seated ==> !replayed)
    case Refused(NotCharged(e)) =>
      n in money.sessions && money.sessions[n].phase == Protocol.Done(Protocol.Failed(e))
    case Refused(_) => n !in money.sessions
  }

  predicate ScansOk(money: Protocol.State, scans: map<nat, Scan>) {
    forall n {:trigger ScanOk(money, n, scans[n])} :: n in scans ==> ScanOk(money, n, scans[n])
  }

  predicate TookSeat(scans: map<nat, Scan>, n: nat) { n in scans && scans[n].Boarded? && scans[n].seated }

  predicate TakenOk(scans: map<nat, Scan>, taken: seq<nat>) {
    && (forall i :: 0 <= i < |taken| ==> TookSeat(scans, taken[i]))
    && (forall i, j :: 0 <= i < j < |taken| ==> taken[i] != taken[j])
  }

  ghost predicate Inv(desk: Desk, b: State) {
    Protocol.Inv(desk.cfg, b.money) && ScansOk(b.money, b.scans) && TakenOk(b.scans, b.taken)
  }

  // ----- money events and scans -----

  /** No money event changes a call or a finished session, and only Start makes one. */
  lemma SessionsLast(cfg: Protocol.Config, st: Protocol.State, e: Protocol.Event, n: nat)
    ensures var st' := Protocol.Apply(cfg, st, e);
            && (n in st.sessions ==>
                  n in st'.sessions && st'.sessions[n].call == st.sessions[n].call
                  && (st.sessions[n].phase.Done? ==> st'.sessions[n].phase == st.sessions[n].phase))
            && (n !in st.sessions && n in st'.sessions ==> e.Start? && e.sid == n)
  {
    if e.Advance? && e.sid in st.sessions {
      ProtocolSafety.PerformTouches(st, e.sid, Protocol.Next(cfg, st, e.sid));
    }
  }

  lemma MoneyKeepsScans(cfg: Protocol.Config, money: Protocol.State, scans: map<nat, Scan>, e: Protocol.Event)
    requires ScansOk(money, scans) && !(e.Start? && e.sid in scans)
    ensures ScansOk(Protocol.Apply(cfg, money, e), scans)
  {
    forall n {:trigger ScanOk(Protocol.Apply(cfg, money, e), n, scans[n])} | n in scans
      ensures ScanOk(Protocol.Apply(cfg, money, e), n, scans[n])
    {
      assert ScanOk(money, n, scans[n]);
      SessionsLast(cfg, money, e, n);
    }
  }

  lemma ScanReplaced(money: Protocol.State, scans: map<nat, Scan>, n: nat, s: Scan, taken: seq<nat>)
    requires ScansOk(money, scans) && ScanOk(money, n, s) && TakenOk(scans, taken)
    requires n in scans ==> !scans[n].Boarded?
    ensures ScansOk(money, scans[n := s]) && TakenOk(scans[n := s], taken) && n !in taken
  {
    var scans' := scans[n := s];
    forall m {:trigger ScanOk(money, m, scans'[m])} | m in scans' ensures ScanOk(money, m, scans'[m]) {
      if m != n {
        assert ScanOk(money, m, scans[m]);
      }
    }
  }

  // ----- one event -----

  lemma JudgedOk(desk: Desk, money: Protocol.State, n: nat, driver: UserId, token: Token, at: Instant)
    requires ValidDesk(desk) && n !in money.sessions
    ensures ScanOk(money, n, Judged(desk, driver, token, at))
  {
  }

  lemma CodeScanKeepsInv(desk: Desk, b: State, n: nat, driver: UserId, typed: string, at: Instant)
    requires ValidDesk(desk) && Inv(desk, b) && Free(b, n)
    ensures Inv(desk, CodeScanned(desk, b, n, driver, typed, at))
  {
    var s := CodeScanned(desk, b, n, driver, typed, at).scans[n];
    var found := PassCodes.Resolved(b.rows, typed, at);
    if found.Some? {
      JudgedOk(desk, b.money, n, driver, found.value.token, at);
    }
    assert ScanOk(b.money, n, s);
    ScanReplaced(b.money, b.scans, n, s, b.taken);
  }

  lemma CheckDriverKeepsInv(desk: Desk, b: State, n: nat, at: nat)
    requires ValidDesk(desk) && Inv(desk, b)
    ensures Inv(desk, Next(desk, b, CheckDriver(n, at)))
  {
    if n in b.scans && b.scans[n].Verified? && n !in b.money.sessions {
      assert ScanOk(b.money, n, b.scans[n]);
      var s := CheckedVehicle(desk, b.vehicles, b.scans[n].driver, b.scans[n].pass);
      if s.Charging? {
        ChargeStartKeepsInv(desk, b, n, s, at);
      } else {
        ScanReplaced(b.money, b.scans, n, s, b.taken);
      }
    }
  }

  lemma ChargeStartKeepsInv(desk: Desk, b: State, n: nat, s: Scan, at: nat)
    requires ValidDesk(desk) && Inv(desk, b) && n in b.scans && b.scans[n].Verified? && n !in b.money.sessions
    requires s.Charging? && s.pass.fare >= 0
    ensures var money' := Protocol.Apply(desk.cfg, b.money, Protocol.Start(n, ChargeFor(s.pass, s.vehicle), at));
            Inv(desk, b.(scans := b.scans[n := s], money := money'))
  {
    var e := Protocol.Start(n, ChargeFor(s.pass, s.vehicle), at);
    ProtocolSafety.ApplyKeepsInv(desk.cfg, b.money, e);
    var others := b.scans - {n};
    assert ScansOk(b.money, others) by {
      forall m {:trigger ScanOk(b.money, m, others[m])} | m in others ensures ScanOk(b.money, m, others[m]) {
        assert ScanOk(b.money, m, b.scans[m]);
      }
    }
    MoneyKeepsScans(desk.cfg, b.money, others, e);
    var money' := Protocol.Apply(desk.cfg, b.money, e);
    var scans' := b.scans[n := s];
    forall m {:trigger ScanOk(money', m, scans'[m])} | m in scans' ensures ScanOk(money', m, scans'[m]) {
      if m != n {
        assert ScanOk(money', m, others[m]);
      }
    }
  }

  lemma ConcludeKeepsInv(desk: Desk, b: State, n: nat, at: Instant)
    requires Inv(desk, b)
    ensures Inv(desk, Next(desk, b, Conclude(n, at)))
  {
    if n in b.scans && b.scans[n].Charging? && n in b.money.sessions && b.money.sessions[n].phase.Done? {
      assert ScanOk(b.money, n, b.scans[n]);
      var b' := Concluded(b, n, at);
      ScanReplaced(b.money, b.scans, n, b'.scans[n], b.taken);
    }
  }

  lemma NextKeepsInv(desk: Desk, b: State, e: Event)
    requires ValidDesk(desk) && Inv(desk, b) && Admissible(e)
    ensures Inv(desk, Next(desk, b, e))
  {
    match e
    case ScanToken(n, driver, token, at) =>
      if Free(b, n) {
        JudgedOk(desk, b.money, n, driver, token, at);
        ScanReplaced(b.money, b.scans, n, Judged(desk, driver, token, at), b.taken);
      }
    case ScanCode(n, driver, typed, at) => if Free(b, n) { CodeScanKeepsInv(desk, b, n, driver, typed, at); }
    case CheckDriver(n, at) => CheckDriverKeepsInv(desk, b, n, at);
    case Conclude(n, at) => ConcludeKeepsInv(desk, b, n, at);
    case Money(m) =>
      if !(m.Start? && m.sid in b.scans) {
        ProtocolSafety.ApplyKeepsInv(desk.cfg, b.money, m);
        MoneyKeepsScans(desk.cfg, b.money, b.scans, m);
      }
    case _ =>
  }

  lemma {:induction false} RunKeepsInv(desk: Desk, events: seq<Event>)
    requires ValidDesk(desk) && AllAdmissible(events)
    ensures Inv(desk, Run(desk, EMPTY, events))
  {
    if events != [] {
      RunKeepsInv(desk, events[..|events| - 1]);
      NextKeepsInv(desk, Run(desk, EMPTY, events[..|events| - 1]), events[|events| - 1]);
    } else {
      ProtocolSafety.RunKeepsInv(desk.cfg, []);
    }
  }

  // ----- what a run promises -----

  function NonceOf(b: State, n: nat): string
    requires n in b.scans && b.scans[n].Boarded?
  {
    b.scans[n].pass.nonce
  }

  /** The fare scan n paid for its pass, if it paid one. */
  predicate Paid(b: State, n: nat, t: Ledger.Txn) {
    && n in b.scans && b.scans[n].Boarded?
    && t in b.money.txns && t.id == n && t.key == Some(NonceOf(b, n))
    && t.purpose.Fare? && t.purpose.commuter == b.scans[n].pass.commuter && t.purpose.cents == b.scans[n].pass.fare
    && t.purpose.vehicle == b.scans[n].vehicle
  }

  ghost predicate PaidFor(b: State, n: nat) { exists t :: Paid(b, n, t) }

  /** In every run: a seat taken was paid for, and no nonce is charged twice or takes two seats. */
  lemma OneFareOneSeat(desk: Desk, events: seq<Event>)
    requires ValidDesk(desk) && AllAdmissible(events)
    ensures var b := Run(desk, EMPTY, events);
      && (forall i :: 0 <= i < |b.taken| ==> PaidFor(b, b.taken[i]))
      && (forall i, j :: 0 <= i < j < |b.taken| ==> NonceOf(b, b.taken[i]) != NonceOf(b, b.taken[j]))
      && (forall i, j :: 0 <= i < j < |b.money.txns| && b.money.txns[i].key.Some? ==>
            b.money.txns[i].key != b.money.txns[j].key)
  {
    RunKeepsInv(desk, events);
    var b := Run(desk, EMPTY, events);
    forall i | 0 <= i < |b.taken| ensures PaidFor(b, b.taken[i]) {
      var t := SeatIsPaid(desk, b, b.taken[i]);
    }
    forall i, j | 0 <= i < j < |b.taken| ensures NonceOf(b, b.taken[i]) != NonceOf(b, b.taken[j]) {
      SeatsDiffer(desk, b, b.taken[i], b.taken[j]);
    }
  }

  lemma SeatIsPaid(desk: Desk, b: State, n: nat) returns (t: Ledger.Txn)
    requires Inv(desk, b) && TookSeat(b.scans, n)
    ensures Paid(b, n, t)
  {
    assert ScanOk(b.money, n, b.scans[n]);
    var m := b.money;
    assert Protocol.SessionOk(desk.cfg, m.txns, m.quotas, m.auths, n, m.sessions[n]);
    var i :| 0 <= i < |m.txns| && m.txns[i].id == n && m.txns[i].key == Some(NonceOf(b, n));
    t := m.txns[i];
    assert Protocol.TxnOk(desk.cfg, t, m.sessions);
  }

  lemma SeatsDiffer(desk: Desk, b: State, n: nat, m: nat)
    requires Inv(desk, b) && TookSeat(b.scans, n) && TookSeat(b.scans, m) && n != m
    ensures NonceOf(b, n) != NonceOf(b, m)
  {
    assert ScanOk(b.money, n, b.scans[n]) && ScanOk(b.money, m, b.scans[m]);
    if NonceOf(b, n) == NonceOf(b, m) {
      LedgerTheorems.SoundBooksChargeOnce(desk.cfg, b.money, NonceOf(b, n));
      assert LedgerTheorems.Charged(b.money, n, NonceOf(b, n), b.scans[n].txn, false);
      assert LedgerTheorems.Charged(b.money, m, NonceOf(b, n), b.scans[m].txn, false);
    }
  }

  /** A scan that ends refused has put nothing in the ledger and taken no seat. */
  lemma RefusedScanChangesNothing(desk: Desk, events: seq<Event>, n: nat)
    requires ValidDesk(desk) && AllAdmissible(events)
    requires var b := Run(desk, EMPTY, events); n in b.scans && b.scans[n].Refused?
    ensures var b := Run(desk, EMPTY, events); n !in b.taken && forall t :: t in b.money.txns ==> t.id != n
  {
    RunKeepsInv(desk, events);
    var b := Run(desk, EMPTY, events);
    assert ScanOk(b.money, n, b.scans[n]);
    forall t | t in b.money.txns ensures t.id != n {
      var i :| 0 <= i < |b.money.txns| && b.money.txns[i] == t;
      assert Protocol.TxnOk(desk.cfg, b.money.txns[i], b.money.sessions);
    }
  }

  /** Only the end of a fresh charge takes a seat: every other event of a scan leaves the live store alone. */
  lemma SeatsMoveOnlyOnFreshCharge(desk: Desk, b: State, e: Event)
    requires !e.Edit? && Next(desk, b, e).vehicles != b.vehicles
    ensures e.Conclude? && e.scan in b.money.sessions
    ensures exists txn :: b.money.sessions[e.scan].phase == Protocol.Done(Protocol.Success(txn, false))
    ensures var v := b.scans[e.scan].vehicle;
            && Next(desk, b, e).taken == b.taken + [e.scan]
            && v in b.vehicles
            && Next(desk, b, e).vehicles.Keys == b.vehicles.Keys
            && Next(desk, b, e).vehicles[v].available == Telemetry.Clamp(b.vehicles[v].available - 1, 0, b.vehicles[v].total)
            && forall u :: u in b.vehicles && u != v ==> Next(desk, b, e).vehicles[u] == b.vehicles[u]
  {
    var v := b.scans[e.scan].vehicle;
    assert b.money.sessions[e.scan].phase == Protocol.Done(Protocol.Success(b.money.sessions[e.scan].phase.outcome.txn, false));
    forall u ensures u in Next(desk, b, e).vehicles <==> u in b.vehicles {
      assert Telemetry.At(Next(desk, b, e).vehicles, u)
             == if u == v then Telemetry.At(Next(desk, b, e).vehicles, v) else Telemetry.At(b.vehicles, u);
    }
    forall u | u in b.vehicles && u != v ensures Next(desk, b, e).vehicles[u] == b.vehicles[u] {
      assert Telemetry.At(Next(desk, b, e).vehicles, u) == Telemetry.At(b.vehicles, u);
    }
  }

  // ----- what lets a scan through -----

  /** A token passes exactly when it is genuine and not past its expiry. */
  lemma TokenVerdict(desk: Desk, b: State, n: nat, driver: UserId, token: Token, at: Instant)
    requires Free(b, n)
    ensures var s, pass := Next(desk, b, ScanToken(n, driver, token, at)).scans[n], desk.verify(token);
            && (pass.None? ==> s == Refused(InvalidPass))
            && (pass.Some? && at > pass.value.expires ==> s == Refused(PassExpired))
            && (pass.Some? && at <= pass.value.expires ==> s == Verified(driver, pass.value))
    ensures Next(desk, b, ScanToken(n, driver, token, at))
            == b.(scans := b.scans[n := Next(desk, b, ScanToken(n, driver, token, at)).scans[n]])
  {
  }

  lemma DriverIsAdmitted(tries: seq<RateLimiter.Attempt>, driver: UserId, at: Instant)
    requires RateLimiter.ClockMovesForward(tries) && (tries != [] ==> tries[|tries| - 1].at <= at)
    ensures RateLimiter.Admits(RateLimiter.Log(tries, driver, CODE_WINDOW, CODE_MAX), at, CODE_WINDOW, CODE_MAX)
            <==> RateLimiter.AdmittedSince(tries, driver, 60, 10, at - 60) < 10
  {
    RateLimiter.AdmittedExactlyWhen(tries, driver, 60, 10, at);
  }

  lemma RefusedCodeIs(desk: Desk, b: State, n: nat, driver: UserId, typed: string, at: Instant)
    requires var log := RateLimiter.Log(b.tries, driver, CODE_WINDOW, CODE_MAX);
             typed == "" || !RateLimiter.Admits(log, at, CODE_WINDOW, CODE_MAX)
    ensures CodeScanned(desk, b, n, driver, typed, at)
            == b.(tries := if typed == "" then b.tries else b.tries + [RateLimiter.Attempt(driver, at)],
                  scans := b.scans[n := Refused(if typed == "" then NothingSent else TooManyAttempts)])
  {
  }

  lemma AdmittedCodeIs(desk: Desk, b: State, n: nat, driver: UserId, typed: string, at: Instant)
    requires var log := RateLimiter.Log(b.tries, driver, CODE_WINDOW, CODE_MAX);
             typed != "" && RateLimiter.Admits(log, at, CODE_WINDOW, CODE_MAX)
    ensures var b', row := CodeScanned(desk, b, n, driver, typed, at), PassCodes.Resolved(b.rows, typed, at);
            n in b'.scans
            && b'.scans[n] == match row case None => Refused(InvalidPass) case Some(p) => Judged(desk, driver, p.token, at)
  {
  }

  lemma AdmittedCodeSweeps(desk: Desk, b: State, n: nat, driver: UserId, typed: string, at: Instant)
    requires var log := RateLimiter.Log(b.tries, driver, CODE_WINDOW, CODE_MAX);
             typed != "" && RateLimiter.Admits(log, at, CODE_WINDOW, CODE_MAX)
    ensures var b' := CodeScanned(desk, b, n, driver, typed, at);
            b'.tries == b.tries + [RateLimiter.Attempt(driver, at)] && b'.rows == PassCodes.Swept(b.rows, at - 600)
  {
  }

  /** A code that is not empty costs an attempt; ten admitted in the last minute shut the driver out; an admitted one passes
      exactly when it leads to a row whose token is genuine and not past its expiry. */
  lemma CodeVerdict(desk: Desk, b: State, n: nat, driver: UserId, typed: string, at: Instant)
    requires Free(b, n) && RateLimiter.ClockMovesForward(b.tries) && (b.tries != [] ==> b.tries[|b.tries| - 1].at <= at)
    ensures var b' := Next(desk, b, ScanCode(n, driver, typed, at)); var s := b'.scans[n];
            var admitted := RateLimiter.AdmittedSince(b.tries, driver, 60, 10, at - 60) < 10;
            var row := PassCodes.Resolved(b.rows, typed, at);
            && b'.tries == (if typed == "" then b.tries else b.tries + [RateLimiter.Attempt(driver, at)])
            && (typed == "" ==> s == Refused(NothingSent) && b'.rows == b.rows)
            && (typed != "" && !admitted ==> s == Refused(TooManyAttempts) && b'.rows == b.rows)
            && (typed != "" && admitted ==>
                  && b'.rows == PassCodes.Swept(b.rows, at - 600)
                  && (row.None? ==> s == Refused(InvalidPass))
                  && (row.Some? ==>
                        var pass := desk.verify(row.value.token);
                        s == if pass.None? then Refused(InvalidPass)
                             else if at > pass.value.expires then Refused(PassExpired) else Verified(driver, pass.value)))
  {
    DriverIsAdmitted(b.tries, driver, at);
    if typed == "" || RateLimiter.AdmittedSince(b.tries, driver, 60, 10, at - 60) >= 10 {
      RefusedCodeIs(desk, b, n, driver, typed, at);
    } else {
      AdmittedCodeIs(desk, b, n, driver, typed, at);
      AdmittedCodeSweeps(desk, b, n, driver, typed, at);
    }
  }

  /** A verified scan starts its charge exactly when the driver's own vehicle is online on the pass's route. */
  lemma DriverVerdict(desk: Desk, b: State, n: nat, clock: nat)
    requires n in b.scans && b.scans[n].Verified? && n !in b.money.sessions
    ensures var b', driver, pass := Next(desk, b, CheckDriver(n, clock)), b.scans[n].driver, b.scans[n].pass;
            && n in b'.scans
            && (driver !in desk.vehicleOf ==> b'.scans[n] == Refused(NoAssignment))
            && (driver in desk.vehicleOf ==>
                  var v := desk.vehicleOf[driver]; var onRoute := v in b.vehicles && b.vehicles[v].route == pass.route;
                  && (!onRoute ==> b'.scans[n] == Refused(NotOnline))
                  && (onRoute ==>
                        && b'.scans[n] == Charging(pass, v) && n in b'.money.sessions
                        && b'.money.sessions[n].call == Protocol.ChargeCall(pass.commuter, v, pass.fare, pass.nonce)))
            && (!b'.scans[n].Charging? ==> b'.money == b.money)
  {
  }

  /** So a scan of a token gets as far as its charge exactly when all of it holds. */
  lemma ScanReachesCharge(desk: Desk, b: State, n: nat, driver: UserId, token: Token, at: Instant, clock: nat)
    requires Free(b, n)
    ensures var b' := Next(desk, Next(desk, b, ScanToken(n, driver, token, at)), CheckDriver(n, clock));
            var pass := desk.verify(token);
            (n in b'.scans && b'.scans[n].Charging?) <==>
            && pass.Some? && at <= pass.value.expires && driver in desk.vehicleOf
            && desk.vehicleOf[driver] in b.vehicles && b.vehicles[desk.vehicleOf[driver]].route == pass.value.route
  {
    TokenVerdict(desk, b, n, driver, token, at);
    var b1 := Next(desk, b, ScanToken(n, driver, token, at));
    if b1.scans[n].Verified? {
      DriverVerdict(desk, b1, n, clock);
    }
  }

  /** When the charge is through: boarded with its transaction, in a seat exactly if it was fresh and the vehicle is tracked. */
  lemma ChargeVerdict(desk: Desk, b: State, n: nat, at: Instant)
    requires n in b.scans && b.scans[n].Charging? && n in b.money.sessions
    ensures var b', pass, v, phase := Next(desk, b, Conclude(n, at)), b.scans[n].pass, b.scans[n].vehicle,
                                 b.money.sessions[n].phase;
            match phase
            case Done(Failed(e)) => b' == b.(scans := b.scans[n := Refused(NotCharged(e))])
            case Done(Success(txn, replayed)) =>
              var seated := !replayed && v in b.vehicles;
              && b'.scans == b.scans[n := Boarded(pass, v, txn, replayed, seated)]
              && b'.taken == (if seated then b.taken + [n] else b.taken)
              && (!seated ==> b'.vehicles == b.vehicles)
              && (seated ==>
                    var left := b.vehicles[v].available - 1;
                    b'.vehicles == b.vehicles[v := b.vehicles[v].(
                        available := if left < 0 then 0 else if left > b.vehicles[v].total then b.vehicles[v].total else left,
                        updated := at)])
            case _ => b' == b
  {
  }

  /** Some earlier token or code was this driver's, and this pass was genuine and not past its expiry then. */
  ghost predicate WasShown(desk: Desk, events: seq<Event>, n: nat, driver: UserId, pass: Pass) {
    exists k :: 0 <= k < |events| && ShownAt(desk, Run(desk, EMPTY, events[..k]), events[k], n, driver, pass)
  }

  predicate ShownAt(desk: Desk, b: State, e: Event, n: nat, driver: UserId, pass: Pass) {
    match e
    case ScanToken(m, d, token, at) => m == n && d == driver && desk.verify(token) == Some(pass) && at <= pass.expires
    case ScanCode(m, d, typed, at) =>
      && m == n && d == driver && typed != "" && at <= pass.expires
      && PassCodes.Resolved(b.rows, typed, at).Some?
      && desk.verify(PassCodes.Resolved(b.rows, typed, at).value.token) == Some(pass)
    case _ => false
  }

  /** At some earlier moment that driver was checked, and the driver's vehicle was this one, online on the pass's route. */
  ghost predicate WasChecked(desk: Desk, events: seq<Event>, n: nat, pass: Pass, v: VehicleId) {
    exists k :: 0 <= k < |events| && CheckedAt(desk, events, k, n, pass, v)
  }

  ghost predicate CheckedAt(desk: Desk, events: seq<Event>, k: nat, n: nat, pass: Pass, v: VehicleId)
    requires k < |events|
  {
    var b := Run(desk, EMPTY, events[..k]);
    && events[k].CheckDriver? && events[k].scan == n && v in b.vehicles && b.vehicles[v].route == pass.route
    && exists driver :: driver in desk.vehicleOf && desk.vehicleOf[driver] == v && WasShown(desk, events[..k], n, driver, pass)
  }

  /** What the run must have seen for a scan to be where it is. */
  ghost predicate Earned(desk: Desk, events: seq<Event>, n: nat, s: Scan) {
    match s
    case Verified(driver, pass) => WasShown(desk, events, n, driver, pass)
    case Charging(pass, v) => WasChecked(desk, events, n, pass, v)
    case Boarded(pass, v, _, _, _) => WasChecked(desk, events, n, pass, v)
    case Refused(_) => true
  }

  lemma EarnedStays(desk: Desk, events: seq<Event>, e: Event, n: nat, s: Scan)
    requires Earned(desk, events, n, s)
    ensures Earned(desk, events + [e], n, s)
  {
    var more := events + [e];
    assert forall k :: 0 <= k < |events| ==> more[k] == events[k] && more[..k] == events[..k];
    match s
    case Verified(driver, pass) =>
      var k :| 0 <= k < |events| && ShownAt(desk, Run(desk, EMPTY, events[..k]), events[k], n, driver, pass);
      assert ShownAt(desk, Run(desk, EMPTY, more[..k]), more[k], n, driver, pass);
    case Charging(pass, v) => CheckedStays(desk, events, e, n, pass, v);
    case Boarded(pass, v, _, _, _) => CheckedStays(desk, events, e, n, pass, v);
    case _ =>
  }

  lemma CheckedStays(desk: Desk, events: seq<Event>, e: Event, n: nat, pass: Pass, v: VehicleId)
    requires WasChecked(desk, events, n, pass, v)
    ensures WasChecked(desk, events + [e], n, pass, v)
  {
    var more := events + [e];
    var k :| 0 <= k < |events| && CheckedAt(desk, events, k, n, pass, v);
    assert more[k] == events[k] && more[..k] == events[..k];
    assert CheckedAt(desk, more, k, n, pass, v);
  }

  /** Where a scan's standing can come from in one event. */
  predicate ComesFrom(desk: Desk, b: State, e: Event, n: nat, s: Scan) {
    match s
    case Verified(driver, pass) => (n in b.scans && b.scans[n] == s) || ShownAt(desk, b, e, n, driver, pass)
    case Charging(pass, v) =>
      && n in b.scans
      && (b.scans[n] == s
          || (&& e.CheckDriver? && e.scan == n && b.scans[n].Verified? && b.scans[n].pass == pass
              && b.scans[n].driver in desk.vehicleOf && desk.vehicleOf[b.scans[n].driver] == v
              && v in b.vehicles && b.vehicles[v].route == pass.route))
    case Boarded(pass, v, _, _, _) => n in b.scans && (b.scans[n] == s || b.scans[n] == Charging(pass, v))
    case Refused(_) => true
  }

  lemma CodeComesFrom(desk: Desk, b: State, n: nat, driver: UserId, typed: string, at: Instant)
    requires n !in b.scans
    ensures ComesFrom(desk, b, ScanCode(n, driver, typed, at), n, CodeScanned(desk, b, n, driver, typed, at).scans[n])
  {
  }

  lemma ScanComesFrom(desk: Desk, b: State, e: Event, n: nat)
    requires n in Next(desk, b, e).scans
    ensures ComesFrom(desk, b, e, n, Next(desk, b, e).scans[n])
  {
    if e.ScanCode? {
      if e.scan == n && Free(b, n) {
        CodeComesFrom(desk, b, n, e.driver, e.typed, e.at);
      } else {
        assert Next(desk, b, e).scans[n] == b.scans[n];
      }
    }
  }

  lemma EarnedFrom(desk: Desk, events: seq<Event>, e: Event, n: nat, s: Scan)
    requires var b := Run(desk, EMPTY, events);
             ComesFrom(desk, b, e, n, s) && (n in b.scans ==> Earned(desk, events, n, b.scans[n]))
    ensures Earned(desk, events + [e], n, s)
  {
    var b, more := Run(desk, EMPTY, events), events + [e];
    assert more[|events|] == e && more[..|events|] == events;
    if n in b.scans {
      EarnedStays(desk, events, e, n, b.scans[n]);
    }
    match s
    case Verified(driver, pass) =>
      if n !in b.scans || b.scans[n] != s {
        assert ShownAt(desk, Run(desk, EMPTY, more[..|events|]), more[|events|], n, driver, pass);
      }
    case Charging(pass, v) =>
      if b.scans[n] != s {
        assert CheckedAt(desk, more, |events|, n, pass, v);
      }
    case _ =>
  }

  lemma {:induction false} RunEarns(desk: Desk, events: seq<Event>, n: nat)
    requires n in Run(desk, EMPTY, events).scans
    ensures Earned(desk, events, n, Run(desk, EMPTY, events).scans[n])
  {
    var front, last := events[..|events| - 1], events[|events| - 1];
    if n in Run(desk, EMPTY, front).scans {
      RunEarns(desk, front, n);
    }
    assert events == front + [last];
    ScanComesFrom(desk, Run(desk, EMPTY, front), last, n);
    EarnedFrom(desk, front, last, n, Run(desk, EMPTY, events).scans[n]);
  }

  /** In every run: whoever boarded had shown that driver a genuine, unexpired pass, and then the driver's own vehicle
      was online on the pass's route. */
  lemma BoardedWasChecked(desk: Desk, events: seq<Event>, n: nat)
    requires var b := Run(desk, EMPTY, events); n in b.scans && (b.scans[n].Boarded? || b.scans[n].Charging?)
    ensures var s := Run(desk, EMPTY, events).scans[n]; WasChecked(desk, events, n, s.pass, s.vehicle)
  {
    RunEarns(desk, events, n);
  }

  // ----- seats -----

  predicate RealCapacities(events: seq<Event>) {
    forall i :: 0 <= i < |events| && events[i].Edit? && events[i].op.GoOnline? ==> events[i].op.total >= 0
  }

  lemma OneEditInRange(vehicles: map<VehicleId, Telemetry.Vehicle>, v: VehicleId, op: Telemetry.Op, at: Instant)
    requires Convergence.SeatsInRange(vehicles) && (op.GoOnline? ==> op.total >= 0)
    ensures Convergence.SeatsInRange(Telemetry.Mutated(vehicles, v, op, at))
  {
    var after := Telemetry.Mutated(vehicles, v, op, at);
    forall u | u in after ensures 0 <= after[u].available <= after[u].total {
      assert Telemetry.At(after, u)
             == if u == v then Telemetry.After(Telemetry.At(vehicles, v), op, at) else Telemetry.At(vehicles, u);
    }
  }

  /** Scans, drivers coming and going and seat edits, in any order: seats stay within capacity. */
  lemma {:induction false} SeatsStayInRange(desk: Desk, events: seq<Event>)
    requires RealCapacities(events)
    ensures Convergence.SeatsInRange(Run(desk, EMPTY, events).vehicles)
  {
    if events != [] {
      SeatsStayInRange(desk, events[..|events| - 1]);
      var b, e := Run(desk, EMPTY, events[..|events| - 1]), events[|events| - 1];
      if e.Edit? {
        OneEditInRange(b.vehicles, e.vehicle, e.op, e.at);
      } else if e.Conclude? && e.scan in b.scans && b.scans[e.scan].Charging? {
        OneEditInRange(b.vehicles, b.scans[e.scan].vehicle, Telemetry.AdjustSeats(None, -1), e.at);
      }
    }
  }

  // ----- codes and tokens -----

  predicate NothingAfter(events: seq<Event>, now: Instant) {
    forall i :: 0 <= i < |events| ==> NotAfter(events[i], now)
  }

  predicate NotAfter(e: Event, now: Instant) {
    match e
    case Codes(op) => op.at <= now
    case ScanCode(_, _, _, at) => at <= now
    case _ => true
  }

  /** What a run of boarding events does to the table of codes. */
  ghost function CodeOps(desk: Desk, b: State, events: seq<Event>): seq<PassCodes.Op> {
    if events == [] then []
    else CodeOps(desk, b, events[..|events| - 1]) + OpOf(Run(desk, b, events[..|events| - 1]), events[|events| - 1])
  }

  function OpOf(b: State, e: Event): seq<PassCodes.Op> {
    match e
    case Codes(op) => [op]
    case ScanCode(n, driver, typed, at) =>
      if typed != "" && Free(b, n)
         && RateLimiter.Admits(RateLimiter.Log(b.tries, driver, CODE_WINDOW, CODE_MAX), at, CODE_WINDOW, CODE_MAX)
      then [PassCodes.Lookup(typed, at)] else []
    case _ => []
  }

  lemma {:induction false} RowsFollow(desk: Desk, b: State, events: seq<Event>, now: Instant)
    requires NothingAfter(events, now)
    ensures Run(desk, b, events).rows == PassCodes.Run(b.rows, CodeOps(desk, b, events))
    ensures PassCodes.NoneAfter(CodeOps(desk, b, events), now)
  {
    if events != [] {
      var front, last := events[..|events| - 1], events[|events| - 1];
      RowsFollow(desk, b, front, now);
      RowsStep(desk, Run(desk, b, front), last, now);
      OpsJoin(b.rows, CodeOps(desk, b, front), OpOf(Run(desk, b, front), last), now);
    }
  }

  lemma RowsStep(desk: Desk, b: State, e: Event, now: Instant)
    requires NotAfter(e, now)
    ensures Next(desk, b, e).rows == PassCodes.Run(b.rows, OpOf(b, e))
    ensures |OpOf(b, e)| <= 1 && PassCodes.NoneAfter(OpOf(b, e), now)
  {
    if OpOf(b, e) != [] {
      assert OpOf(b, e)[..0] == [];
    }
  }

  lemma OpsJoin(rows: seq<PassCodes.IssuedPass>, ops: seq<PassCodes.Op>, more: seq<PassCodes.Op>, now: Instant)
    requires |more| <= 1 && PassCodes.NoneAfter(ops, now) && PassCodes.NoneAfter(more, now)
    ensures PassCodes.Run(rows, ops + more) == PassCodes.Run(PassCodes.Run(rows, ops), more)
    ensures PassCodes.NoneAfter(ops + more, now)
  {
    if more == [] {
      assert ops + more == ops;
    } else {
      assert (ops + more)[..|ops|] == ops && more[..0] == [];
    }
  }

  /** Two states alike in all but the codes' own bookkeeping. */
  predicate SameButCodes(b: State, c: State) {
    b.money == c.money && b.vehicles == c.vehicles && b.scans == c.scans && b.taken == c.taken
  }

  /**
   * After anything at all has happened since a pass was issued, an admitted scan of its code, however typed, does
   * what a scan of its token does, up to the end of the grace after its expiry.
   */
  lemma CodeScanIsTokenScan(desk: Desk, b: State, events: seq<Event>, p: PassCodes.IssuedPass,
                            n: nat, driver: UserId, typed: string, at: Instant)
    requires PassCodes.CodesDiffer(b.rows) && p in b.rows
    requires PassCodes.IsCode(p.code) && PassCodes.IsVariant(typed, p.code)
    requires NothingAfter(events, at) && at <= p.expires + 600
    requires RateLimiter.Admits(RateLimiter.Log(Run(desk, b, events).tries, driver, CODE_WINDOW, CODE_MAX), at,
                                CODE_WINDOW, CODE_MAX)
    ensures SameButCodes(Next(desk, Run(desk, b, events), ScanCode(n, driver, typed, at)),
                         Next(desk, Run(desk, b, events), ScanToken(n, driver, p.token, at)))
  {
    RowsFollow(desk, b, events, at);
    PassCodes.CodeLeadsToItsPass(b.rows, CodeOps(desk, b, events), p, typed, at);
  }

  /** Past the grace the two part: the token is told it expired, the code that it never was, unless it was reissued. */
  lemma PastGraceTheyPart(desk: Desk, b: State, events: seq<Event>, p: PassCodes.IssuedPass,
                          n: nat, driver: UserId, typed: string, at: Instant)
    requires PassCodes.CodesDiffer(b.rows) && p in b.rows
    requires PassCodes.IsCode(p.code) && PassCodes.IsVariant(typed, p.code)
    requires NothingAfter(events, at) && at > p.expires + 600
    requires desk.verify(p.token).Some? && at > desk.verify(p.token).value.expires
    requires RateLimiter.Admits(RateLimiter.Log(Run(desk, b, events).tries, driver, CODE_WINDOW, CODE_MAX), at,
                                CODE_WINDOW, CODE_MAX)
    requires Free(Run(desk, b, events), n)
    ensures var c := Run(desk, b, events);
            && Next(desk, c, ScanToken(n, driver, p.token, at)).scans[n] == Refused(PassExpired)
            && PassCodes.Resolved(c.rows, typed, at) != Some(p)
            && (PassCodes.Resolved(c.rows, typed, at).None? ==>
                  Next(desk, c, ScanCode(n, driver, typed, at)).scans[n] == Refused(InvalidPass))
  {
    RowsFollow(desk, b, events, at);
    PassCodes.CodeLeadsToItsPass(b.rows, CodeOps(desk, b, events), p, typed, at);
  }
}
