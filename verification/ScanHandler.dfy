/** ScanPass from start to end on the live objects, when nothing its charge waits for is held. */
module ScanHandler {
  import opened Wrappers
  import opened Boarding
  import Ledger
  import Protocol
  import LedgerTheorems
  import MoneyAnswers
  import MoneyDatabase
  import Telemetry
  import LiveServer
  import PassCodes
  import RateLimiter

  /** Either may be empty, which is the same as not sent; the token wins. */
  datatype Request = Request(token: Token, typed: string)

  predicate ByToken(req: Request) { req.token != "" }
  predicate ByCode(req: Request) { req.token == "" && req.typed != "" }

  class Handlers {
    const desk: Desk
    const db: MoneyDatabase.Database
    const live: LiveServer.VehicleStateStore
    const hub: LiveServer.Hub
    const passes: PassCodes.PassStore
    const limiter: RateLimiter.CodeRateLimiter

    constructor (desk: Desk, db: MoneyDatabase.Database, live: LiveServer.VehicleStateStore, hub: LiveServer.Hub,
                 passes: PassCodes.PassStore, limiter: RateLimiter.CodeRateLimiter)
      ensures this.desk == desk && this.db == db && this.live == live && this.hub == hub
      ensures this.passes == passes && this.limiter == limiter
    {
      this.desk, this.db, this.live, this.hub, this.passes, this.limiter := desk, db, live, hub, passes, limiter;
    }

    /** The token behind a request: the one sent, or the one its code leads to if the limiter lets the driver try. */
    method Resolve(driver: UserId, req: Request, now: Instant) returns (found: Result)
      requires limiter.Valid()
      modifies limiter, passes, if driver in limiter.attempts then {limiter.attempts[driver].data} else {}
      ensures limiter.Valid()
      ensures ByToken(req) ==> found == Found(req.token)
      ensures !ByToken(req) && !ByCode(req) ==> found == NotFound(NothingSent)
      ensures !ByCode(req) ==>
                && passes.rows == old(passes.rows)
                && limiter.attempts == old(limiter.attempts) && limiter.Times(driver) == old(limiter.Times(driver))
      ensures ByCode(req) ==>
                limiter.Times(driver) == RateLimiter.Recorded(old(limiter.Times(driver)), now, limiter.window, limiter.max)
      ensures ByCode(req) && !RateLimiter.Admits(old(limiter.Times(driver)), now, limiter.window, limiter.max) ==>
                found == NotFound(TooManyAttempts) && passes.rows == old(passes.rows)
      ensures ByCode(req) && RateLimiter.Admits(old(limiter.Times(driver)), now, limiter.window, limiter.max) ==>
                && passes.rows == PassCodes.Swept(old(passes.rows), now - PassCodes.SWEEP_GRACE)
                && found == match PassCodes.Resolved(old(passes.rows), req.typed, now)
                            case None => NotFound(InvalidPass) case Some(p) => Found(p.token)
    {
      if req.token == "" && req.typed == "" {
        return NotFound(NothingSent);
      }
      if req.token != "" {
        return Found(req.token);
      }
      var ok := limiter.Allow(driver, now);
      if !ok {
        return NotFound(TooManyAttempts);
      }
      var row := passes.Lookup(req.typed, now);
      if row.None? {
        return NotFound(InvalidPass);
      }
      found := Found(row.value.token);
    }

    function Watchers(token: Token): set<LiveServer.Mailbox>
      reads hub
    {
      if desk.verify(token).Some? then hub.Listening(desk.verify(token).value.route) else {}
    }

    /** From a token on: signature, expiry, driver on the route, the charge, and the seat of a fresh one. */
    method Board(n: nat, driver: UserId, token: Token, now: nat) returns (reply: Scan)
      requires db.cfg == desk.cfg && n !in db.sessions
      requires ChargeUnhindered(desk, live.vehicles, db.View(), driver, token, now)
      modifies db, live, Watchers(token)
      ensures reply.Refused? || reply.Boarded?
      ensures var judged := Judged(desk, driver, token, now);
              match judged
              case Verified(_, pass) =>
                (var checked := CheckedVehicle(desk, old(live.vehicles), driver, pass);
                 if checked.Charging? then Answers(desk.cfg, old(db.View()), n, checked, reply) else reply == checked)
              case _ => reply == judged
      ensures desk.verify(token).None? ==> reply == Refused(InvalidPass)
      ensures desk.verify(token).Some? ==>
                var pass := desk.verify(token).value;
                if now > pass.expires then reply == Refused(PassExpired)
                else if driver !in desk.vehicleOf then reply == Refused(NoAssignment)
                else
                  var v := desk.vehicleOf[driver];
                  if v !in old(live.vehicles) || old(live.vehicles)[v].route != pass.route then reply == Refused(NotOnline)
                  else if reply.Refused? then reply.why.NotCharged?
                  else reply.pass == pass && reply.vehicle == v
      ensures reply.Boarded? ==> reply.seated == !reply.replayed
      ensures if reply.Boarded? && !reply.replayed
              then |db.txns| == |old(db.txns)| + 1 && old(db.txns) < db.txns
                   && PaidBy(desk.cfg, db.txns[|old(db.txns)|], n, reply.pass, reply.vehicle)
              else db.txns == old(db.txns)
      ensures live.vehicles
              == if reply.Boarded? && reply.seated then SeatTaken(old(live.vehicles), reply.vehicle, now)
                 else old(live.vehicles)
      ensures reply.Boarded? && reply.seated ==> reply.vehicle in live.vehicles
      ensures forall m :: m in Watchers(token) ==>
                m.ch == if reply.Boarded? && reply.seated
                        then Telemetry.Pushed(old(m.ch), SeatNews(live.vehicles, reply.vehicle)) else old(m.ch)
    {
      var pass := desk.verify(token);
      if pass.None? {
        return Refused(InvalidPass);
      }
      if now > pass.value.expires {
        return Refused(PassExpired);
      }
      if driver !in desk.vehicleOf {
        return Refused(NoAssignment);
      }
      var v := desk.vehicleOf[driver];
      if v !in live.vehicles || live.vehicles[v].route != pass.value.route {
        return Refused(NotOnline);
      }
      ghost var books := db.View();
      var outcome := db.ChargeFare(n, ChargeFor(pass.value, v), now);
      if outcome == Protocol.Success(n, false) {
        FareIsPaid(desk.cfg, db.txns[|books.txns|], n, pass.value, v, now);
      }
      if outcome.Failed? {
        return Refused(NotCharged(outcome.error));
      }
      if outcome.replayed {
        return Boarded(pass.value, v, outcome.txn, true, false);
      }
      var state := live.AdjustSeats(v, None, -1, now);
      assert Telemetry.At(live.vehicles, v) == state;
      if state.Some? {
        hub.Publish(state.value.route, Telemetry.Update(v, Telemetry.ToView(state.value)));
      }
      reply := Boarded(pass.value, v, outcome.txn, false, state.Some?);
    }
  }

  /** If the scan gets as far as its charge, nobody holds what the charge waits for. */
  predicate ChargeUnhindered(desk: Desk, vehicles: map<VehicleId, Telemetry.Vehicle>, money: Protocol.State,
                             driver: UserId, token: Token, now: nat) {
    match Judged(desk, driver, token, now)
    case Verified(_, pass) =>
      (match CheckedVehicle(desk, vehicles, driver, pass)
       case Charging(_, v) => LedgerTheorems.Unhindered(desk.cfg, money, ChargeFor(pass, v))
       case _ => true)
    case _ => true
  }

  function SeatNews(vehicles: map<VehicleId, Telemetry.Vehicle>, v: VehicleId): Telemetry.Event
    requires v in vehicles
  {
    Telemetry.Update(v, Telemetry.ToView(vehicles[v]))
  }

  /** The fare of a pass on this vehicle, charged by call n under the pass's nonce and split as configured. */
  predicate PaidBy(cfg: Protocol.Config, t: Ledger.Txn, n: nat, pass: Pass, v: VehicleId) {
    && t.id == n && t.key == Some(pass.nonce) && t.purpose.Fare?
    && t.purpose.commuter == pass.commuter && t.purpose.vehicle == v && t.purpose.cents == pass.fare
    && (Protocol.ValidConfig(cfg) && pass.fare >= 0 ==> MoneyAnswers.SplitAsConfigured(cfg, t))
  }

  lemma FareIsPaid(cfg: Protocol.Config, t: Ledger.Txn, n: nat, pass: Pass, v: VehicleId, now: nat)
    requires v in cfg.ownerOf && v in cfg.driverOf
    requires var d := Protocol.FareDraft(cfg, pass.commuter, v, pass.fare, pass.nonce);
             t == Ledger.Txn(n, d.key, d.purpose, now, Ledger.Plan(d.purpose))
    ensures PaidBy(cfg, t, n, pass, v)
  {
    if Protocol.ValidConfig(cfg) && pass.fare >= 0 {
      MoneyAnswers.DraftedFareIsSplit(cfg, t, ChargeFor(pass, v));
    }
  }

  predicate Answers(cfg: Protocol.Config, money: Protocol.State, n: nat, charging: Scan, reply: Scan)
    requires charging.Charging?
  {
    match MoneyDatabase.ChargeOutcome(cfg, money, n, ChargeFor(charging.pass, charging.vehicle))
    case Success(txn, replayed) => reply == Boarded(charging.pass, charging.vehicle, txn, replayed, !replayed)
    case Failed(e) => reply == Refused(NotCharged(e))
    case _ => false
  }

  datatype Result = Found(token: Token) | NotFound(why: Refusal)
}
