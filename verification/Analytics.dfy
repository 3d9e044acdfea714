/** The owner figures of analytics/repo.go, derived from postings and reconciled with each other. */
module Analytics {
  import opened Wrappers
  import opened Ledger
  import opened Protocol
  import opened ProtocolSafety
  import Sums

  /** created_at in [from, to). */
  datatype Range = Range(from: int, to: int) {
    predicate Has(at: nat) { from <= at < to }
  }

  predicate OwnedFare(t: Txn, o: UserId) { t.purpose.Fare? && t.purpose.owner == o }

  /** Sum of one transaction's postings on accounts of a type. */
  function OnType(ps: seq<Posting>, kind: AccountType): int { PostingTotal(ps, Some(kind)) }

  // ----- the queries -----

  /** SUM(lp.amount_cents) on the owner's revenue account over fares in range. */
  function Revenue(txns: seq<Txn>, o: UserId, r: Range): int {
    if txns == [] then 0 else
    var t := txns[|txns| - 1];
    Revenue(txns[..|txns| - 1], o, r)
    + if t.purpose.Fare? && r.Has(t.at) then PostingSum(t.postings, RevenueOf(o)) else 0
  }

  predicate Touches(ps: seq<Posting>, a: Account) { exists i :: 0 <= i < |ps| && ps[i].account == a }

  /** COUNT(DISTINCT lt.id) of the same rows. */
  function Trips(txns: seq<Txn>, o: UserId, r: Range): nat {
    if txns == [] then 0 else
    var t := txns[|txns| - 1];
    Trips(txns[..|txns| - 1], o, r)
    + if t.purpose.Fare? && r.Has(t.at) && Touches(t.postings, RevenueOf(o)) then 1 else 0
  }

  /** SUM over accounts of a type, scoped by the owner in the fare's metadata. */
  function TypeTotal(txns: seq<Txn>, kind: AccountType, o: UserId, r: Range): int {
    if txns == [] then 0 else
    var t := txns[|txns| - 1];
    TypeTotal(txns[..|txns| - 1], kind, o, r)
    + if OwnedFare(t, o) && r.Has(t.at) then OnType(t.postings, kind) else 0
  }

  /** What commuters were charged on the owner's vehicles. */
  function FaresCharged(txns: seq<Txn>, o: UserId, r: Range): int {
    if txns == [] then 0 else
    var t := txns[|txns| - 1];
    FaresCharged(txns[..|txns| - 1], o, r) + if OwnedFare(t, o) && r.Has(t.at) then t.purpose.cents else 0
  }

  // ----- reconciliation -----

  predicate AllWellFormed(txns: seq<Txn>) { forall t :: t in txns ==> WellFormed(t) }

  lemma FareParts(t: Txn, o: UserId)
    requires WellFormed(t) && t.purpose.Fare?
    ensures PostingSum(t.postings, RevenueOf(o)) == if t.purpose.owner == o then t.purpose.split.owner else 0
    ensures Touches(t.postings, RevenueOf(o)) <==> t.purpose.owner == o
    ensures OnType(t.postings, PlatformFee) == t.purpose.split.platform
    ensures OnType(t.postings, DriverEarnings) == t.purpose.split.driver
  {
    var ps := t.postings;
    QuadSum(ps[0], ps[1], ps[2], ps[3], RevenueOf(o));
    PairSum(ps[0], ps[1], RevenueOf(o));
    PairSum(ps[2], ps[3], RevenueOf(o));
    assert ps[2].account == RevenueOf(t.purpose.owner);
  }

  /** Revenue is scoped by account ownership, the other two figures by metadata; together they are the
      fares charged, to the cent. */
  lemma {:induction false} SummaryReconciles(txns: seq<Txn>, o: UserId, r: Range)
    requires AllWellFormed(txns)
    ensures Revenue(txns, o, r) + TypeTotal(txns, PlatformFee, o, r) + TypeTotal(txns, DriverEarnings, o, r)
            == FaresCharged(txns, o, r)
  {
    if txns != [] {
      var t := txns[|txns| - 1];
      assert t in txns;
      SummaryReconciles(txns[..|txns| - 1], o, r);
      if t.purpose.Fare? {
        FareParts(t, o);
      }
    }
  }

  lemma {:induction false} RangesAddUp(txns: seq<Txn>, o: UserId, from: int, mid: int, to: int)
    requires from <= mid <= to
    ensures Revenue(txns, o, Range(from, to)) == Revenue(txns, o, Range(from, mid)) + Revenue(txns, o, Range(mid, to))
    ensures Trips(txns, o, Range(from, to)) == Trips(txns, o, Range(from, mid)) + Trips(txns, o, Range(mid, to))
    ensures forall k :: TypeTotal(txns, k, o, Range(from, to))
                        == TypeTotal(txns, k, o, Range(from, mid)) + TypeTotal(txns, k, o, Range(mid, to))
    ensures FaresCharged(txns, o, Range(from, to))
            == FaresCharged(txns, o, Range(from, mid)) + FaresCharged(txns, o, Range(mid, to))
  {
    if txns != [] {
      RangesAddUp(txns[..|txns| - 1], o, from, mid, to);
    }
  }

  // ----- grouped figures -----

  datatype Stat = Stat(trips: nat, cents: int)

  datatype Grouping = ByVehicle | ByDriver

  /** The metadata field a grouped query groups by. */
  function GroupKey(g: Grouping, p: Purpose): nat
    requires p.Fare?
  {
    match g case ByVehicle => p.vehicle case ByDriver => p.driver
  }

  /** The rows of the grouped query, one per matching posting. */
  predicate InGroupQuery(g: Grouping, t: Txn, p: Posting, o: UserId, r: Range) {
    t.purpose.Fare? && r.Has(t.at)
    && match g
       case ByVehicle => p.account == RevenueOf(o)
       case ByDriver => p.account.kind == DriverEarnings && t.purpose.owner == o
  }

  function Bump(stats: map<nat, Stat>, k: nat, cents: int): map<nat, Stat> {
    var was := if k in stats then stats[k] else Stat(0, 0);
    stats[k := Stat(was.trips + 1, was.cents + cents)]
  }

  ghost function TripsOf(stats: map<nat, Stat>): map<nat, int> { map k | k in stats :: stats[k].trips }
  ghost function CentsOf(stats: map<nat, Stat>): map<nat, int> { map k | k in stats :: stats[k].cents }

  lemma BumpAdds(stats: map<nat, Stat>, k: nat, cents: int)
    ensures Sums.Sum(TripsOf(Bump(stats, k, cents))) == Sums.Sum(TripsOf(stats)) + 1
    ensures Sums.Sum(CentsOf(Bump(stats, k, cents))) == Sums.Sum(CentsOf(stats)) + cents
  {
    var was := if k in stats then stats[k] else Stat(0, 0);
    assert TripsOf(Bump(stats, k, cents)) == TripsOf(stats)[k := was.trips + 1];
    assert CentsOf(Bump(stats, k, cents)) == CentsOf(stats)[k := was.cents + cents];
    Sums.SumPut(TripsOf(stats), k, was.trips + 1);
    Sums.SumPut(CentsOf(stats), k, was.cents + cents);
  }

  function RowStats(stats: map<nat, Stat>, g: Grouping, t: Txn, ps: seq<Posting>, o: UserId, r: Range): map<nat, Stat> {
    if ps == [] then stats else
    var last, front := ps[|ps| - 1], RowStats(stats, g, t, ps[..|ps| - 1], o, r);
    if InGroupQuery(g, t, last, o, r) then Bump(front, GroupKey(g, t.purpose), last.cents) else front
  }

  /** GROUP BY over the matching postings, in ledger order. */
  function GroupStats(g: Grouping, txns: seq<Txn>, o: UserId, r: Range): map<nat, Stat> {
    if txns == [] then map[] else
    var t := txns[|txns| - 1];
    RowStats(GroupStats(g, txns[..|txns| - 1], o, r), g, t, t.postings, o, r)
  }

  /** The result map as the code fills it, row by row. */
  method StatsForOwner(g: Grouping, txns: seq<Txn>, o: UserId, r: Range) returns (stats: map<nat, Stat>)
    ensures stats == GroupStats(g, txns, o, r)
  {
    stats := map[];
    for i := 0 to |txns|
      invariant stats == GroupStats(g, txns[..i], o, r)
    {
      var t := txns[i];
      ghost var before := stats;
      for j := 0 to |t.postings|
        invariant stats == RowStats(before, g, t, t.postings[..j], o, r)
      {
        var p := t.postings[j];
        if InGroupQuery(g, t, p, o, r) {
          var k := GroupKey(g, t.purpose);
          var was := if k in stats then stats[k] else Stat(0, 0);
          stats := stats[k := Stat(was.trips + 1, was.cents + p.cents)];
        }
        assert t.postings[..j + 1][..j] == t.postings[..j];
      }
      assert t.postings[..|t.postings|] == t.postings && txns[..i + 1][..i] == txns[..i];
    }
    assert txns[..|txns|] == txns;
  }

  function Share(g: Grouping, p: Purpose): int
    requires p.Fare?
  {
    match g case ByVehicle => p.split.owner case ByDriver => p.split.driver
  }

  /** One fare contributes exactly one row to its own group. */
  lemma FareRow(stats: map<nat, Stat>, g: Grouping, t: Txn, o: UserId, r: Range)
    requires WellFormed(t)
    ensures RowStats(stats, g, t, t.postings, o, r)
            == if OwnedFare(t, o) && r.Has(t.at) then Bump(stats, GroupKey(g, t.purpose), Share(g, t.purpose)) else stats
  {
    if t.purpose.Fare? {
      var ps := t.postings;
      assert ps[..4] == ps && ps[..4][..3] == ps[..3] && ps[..3][..2] == ps[..2] && ps[..2][..1] == ps[..1]
             && ps[..1][..0] == [];
      assert RowStats(stats, g, t, ps[..1], o, r) == stats;
      assert RowStats(stats, g, t, ps[..2], o, r)
             == if g == ByDriver && InGroupQuery(g, t, ps[1], o, r) then Bump(stats, t.purpose.driver, ps[1].cents) else stats;
    } else {
      NoRows(stats, g, t, t.postings, o, r);
    }
  }

  lemma {:induction false} NoRows(stats: map<nat, Stat>, g: Grouping, t: Txn, ps: seq<Posting>, o: UserId, r: Range)
    requires !t.purpose.Fare?
    ensures RowStats(stats, g, t, ps, o, r) == stats
  {
    if ps != [] {
      NoRows(stats, g, t, ps[..|ps| - 1], o, r);
    }
  }

  /** A fare of the owner in range, on vehicle k or by driver k. */
  predicate Concerns(g: Grouping, t: Txn, o: UserId, r: Range, k: nat) {
    t.purpose.Fare? && t.purpose.owner == o && r.from <= t.at < r.to
    && match g case ByVehicle => t.purpose.vehicle == k case ByDriver => t.purpose.driver == k
  }

  function CountFor(g: Grouping, txns: seq<Txn>, o: UserId, r: Range, k: nat): nat {
    if txns == [] then 0 else
    var t := txns[|txns| - 1];
    CountFor(g, txns[..|txns| - 1], o, r, k) + if Concerns(g, t, o, r, k) then 1 else 0
  }

  /** What those fares put on the owner's revenue account, or on the driver's earnings account. */
  function CentsFor(g: Grouping, txns: seq<Txn>, o: UserId, r: Range, k: nat): int {
    if txns == [] then 0 else
    var t := txns[|txns| - 1];
    CentsFor(g, txns[..|txns| - 1], o, r, k)
    + if !Concerns(g, t, o, r, k) then 0
      else PostingSum(t.postings, match g case ByVehicle => Account(Some(o), OwnerRevenue)
                                          case ByDriver => Account(Some(k), DriverEarnings))
  }

  lemma ShareIsPosted(g: Grouping, t: Txn, o: UserId, r: Range, k: nat)
    requires WellFormed(t) && Concerns(g, t, o, r, k)
    ensures Share(g, t.purpose) == PostingSum(t.postings, match g case ByVehicle => Account(Some(o), OwnerRevenue)
                                                                  case ByDriver => Account(Some(k), DriverEarnings))
  {
    var a := match g case ByVehicle => Account(Some(o), OwnerRevenue) case ByDriver => Account(Some(k), DriverEarnings);
    var ps := t.postings;
    QuadSum(ps[0], ps[1], ps[2], ps[3], a);
    PairSum(ps[0], ps[1], a);
    PairSum(ps[2], ps[3], a);
  }

  /** Every vehicle and driver with fares appears, with exactly the count and sum of its own fares. */
  lemma {:induction false} StatsAreExact(g: Grouping, txns: seq<Txn>, o: UserId, r: Range, k: nat)
    requires AllWellFormed(txns)
    ensures k in GroupStats(g, txns, o, r) <==> CountFor(g, txns, o, r, k) > 0
    ensures k in GroupStats(g, txns, o, r) ==>
              GroupStats(g, txns, o, r)[k] == Stat(CountFor(g, txns, o, r, k), CentsFor(g, txns, o, r, k))
    ensures k !in GroupStats(g, txns, o, r) ==> CentsFor(g, txns, o, r, k) == 0
  {
    if txns != [] {
      var t, front := txns[|txns| - 1], txns[..|txns| - 1];
      assert t in txns;
      StatsAreExact(g, front, o, r, k);
      FareRow(GroupStats(g, front, o, r), g, t, o, r);
      if Concerns(g, t, o, r, k) {
        ShareIsPosted(g, t, o, r, k);
      }
    }
  }

  /** Per-vehicle and per-driver figures add up to the summary. */
  lemma {:induction false} StatsSumToSummary(txns: seq<Txn>, o: UserId, r: Range)
    requires AllWellFormed(txns)
    ensures Sums.Sum(TripsOf(GroupStats(ByVehicle, txns, o, r))) == Trips(txns, o, r)
    ensures Sums.Sum(CentsOf(GroupStats(ByVehicle, txns, o, r))) == Revenue(txns, o, r)
    ensures Sums.Sum(TripsOf(GroupStats(ByDriver, txns, o, r))) == Trips(txns, o, r)
    ensures Sums.Sum(CentsOf(GroupStats(ByDriver, txns, o, r))) == TypeTotal(txns, DriverEarnings, o, r)
  {
    if txns != [] {
      var t, front := txns[|txns| - 1], txns[..|txns| - 1];
      assert t in txns && front + [t] == txns;
      StatsSumToSummary(front, o, r);
      StatsStep(front, t, o, r, ByVehicle);
      StatsStep(front, t, o, r, ByDriver);
      if t.purpose.Fare? {
        FareParts(t, o);
      }
    } else {
      assert TripsOf(map[]) == map[] && CentsOf(map[]) == map[];
    }
  }

  lemma StatsStep(front: seq<Txn>, t: Txn, o: UserId, r: Range, g: Grouping)
    requires WellFormed(t)
    ensures var counted := OwnedFare(t, o) && r.Has(t.at);
            && Sums.Sum(TripsOf(GroupStats(g, front + [t], o, r)))
               == Sums.Sum(TripsOf(GroupStats(g, front, o, r))) + (if counted then 1 else 0)
            && Sums.Sum(CentsOf(GroupStats(g, front + [t], o, r)))
               == Sums.Sum(CentsOf(GroupStats(g, front, o, r))) + (if counted then Share(g, t.purpose) else 0)
  {
    assert (front + [t])[..|front|] == front;
    var stats := GroupStats(g, front, o, r);
    FareRow(stats, g, t, o, r);
    if t.purpose.Fare? {
      BumpAdds(stats, GroupKey(g, t.purpose), Share(g, t.purpose));
    }
  }

  /** What each figure counts of one fare. */
  lemma FareCounts(txns: seq<Txn>, t: Txn, o: UserId, r: Range)
    requires WellFormed(t)
    ensures Trips([], o, r) == 0 && Revenue([], o, r) == 0 && FaresCharged([], o, r) == 0
    ensures forall k :: TypeTotal([], k, o, r) == 0
    ensures var counted := t.purpose.Fare? && t.purpose.owner == o && r.from <= t.at < r.to; var all := txns + [t];
            && Trips(all, o, r) == Trips(txns, o, r) + (if counted then 1 else 0)
            && Revenue(all, o, r) == Revenue(txns, o, r) + (if counted then t.purpose.split.owner else 0)
            && TypeTotal(all, PlatformFee, o, r)
               == TypeTotal(txns, PlatformFee, o, r) + (if counted then t.purpose.split.platform else 0)
            && TypeTotal(all, DriverEarnings, o, r)
               == TypeTotal(txns, DriverEarnings, o, r) + (if counted then t.purpose.split.driver else 0)
            && FaresCharged(all, o, r) == FaresCharged(txns, o, r) + (if counted then t.purpose.cents else 0)
  {
    assert (txns + [t])[..|txns|] == txns;
    if t.purpose.Fare? {
      FareParts(t, o);
    }
  }

  /** The hypothesis of the lemmas above, for the ledger of any run. */
  lemma RunIsWellFormed(cfg: Config, events: seq<Event>)
    requires ValidConfig(cfg) && AllAdmissible(events)
    ensures AllWellFormed(Run(cfg, events).txns)
  {
    RunKeepsInv(cfg, events);
    var st := Run(cfg, events);
    forall t | t in st.txns ensures WellFormed(t) {
      var i :| 0 <= i < |st.txns| && st.txns[i] == t;
      assert TxnOk(cfg, st.txns[i], st.sessions);
    }
  }
}
