/** Where the money of a ledger came from and went, per purpose. */
module MoneyTotals {
  import opened Wrappers
  import opened Ledger
  import opened Sums

  datatype Measure =
    | ToppedUp | FaresPaid | OwnerShares
    | OwnerShareOf(owner: UserId)
    | AllocatedBy(owner: UserId)

  function Amount(p: Purpose, m: Measure): int {
    match m
    case ToppedUp => if p.Topup? then p.cents else 0
    case FaresPaid => if p.Fare? then p.cents else 0
    case OwnerShares => if p.Fare? then p.split.owner else 0
    case OwnerShareOf(o) => if p.Fare? && p.owner == o then p.split.owner else 0
    case AllocatedBy(o) => if p.Transfer? && p.owner == o then p.cents else 0
  }

  function Total(txns: seq<Txn>, m: Measure): int {
    if txns == [] then 0 else Total(txns[..|txns| - 1], m) + Amount(txns[|txns| - 1].purpose, m)
  }

  /** The application transfers money only from an owner's revenue to the same owner's fuel account. */
  predicate FuelOnly(p: Purpose) { p.Transfer? ==> p.from == OwnerRevenue && p.to == FuelAccount }

  predicate AllFuelOnly(txns: seq<Txn>) { forall t :: t in txns ==> WellFormed(t) && FuelOnly(t.purpose) }

  lemma PurposeEffect(p: Purpose, o: UserId)
    requires Sound(p) && FuelOnly(p)
    ensures PostingSum(Plan(p), FuelOf(o)) == Amount(p, AllocatedBy(o))
    ensures PostingSum(Plan(p), RevenueOf(o)) == Amount(p, OwnerShareOf(o)) - Amount(p, AllocatedBy(o))
    ensures PostingTotal(Plan(p), Some(CommuterWallet)) == Amount(p, ToppedUp) - Amount(p, FaresPaid)
    ensures 0 <= Amount(p, OwnerShareOf(o)) <= Amount(p, OwnerShares) <= Amount(p, FaresPaid)
  {
    var s := Plan(p);
    if p.Fare? {
      QuadSum(s[0], s[1], s[2], s[3], FuelOf(o));
      QuadSum(s[0], s[1], s[2], s[3], RevenueOf(o));
      PairSum(s[2], s[3], FuelOf(o));
      PairSum(s[2], s[3], RevenueOf(o));
    }
    PairSum(s[0], s[1], FuelOf(o));
    PairSum(s[0], s[1], RevenueOf(o));
  }

  /** Balances explained by purposes: fuel is what was allocated, revenue what was earned and not
      allocated, the wallets together what was topped up and not spent. */
  lemma {:induction false} BalancesExplained(txns: seq<Txn>, o: UserId)
    requires AllFuelOnly(txns)
    ensures Balance(txns, FuelOf(o)) == Total(txns, AllocatedBy(o))
    ensures Balance(txns, RevenueOf(o)) == Total(txns, OwnerShareOf(o)) - Total(txns, AllocatedBy(o))
    ensures LedgerTotal(txns, Some(CommuterWallet)) == Total(txns, ToppedUp) - Total(txns, FaresPaid)
    ensures 0 <= Total(txns, OwnerShareOf(o)) <= Total(txns, OwnerShares) <= Total(txns, FaresPaid)
  {
    if txns != [] {
      assert txns[|txns| - 1] in txns;
      PurposeEffect(txns[|txns| - 1].purpose, o);
      BalancesExplained(txns[..|txns| - 1], o);
    }
  }

  /** With no wallet overdrawn, no more can be spent than was topped up. */
  lemma SpentWithinToppedUp(txns: seq<Txn>)
    requires AllFuelOnly(txns) && forall u :: Balance(txns, WalletOf(u)) >= 0
    ensures Total(txns, FaresPaid) <= Total(txns, ToppedUp)
  {
    var wallets := Accounts(txns, Some(CommuterWallet));
    forall a | a in wallets ensures Selects(Some(CommuterWallet), a) && Balance(txns, a) >= 0 {
      var t, p :| t in txns && p in t.postings && Selects(Some(CommuterWallet), p.account) && p.account == a;
      assert a == WalletOf(a.owner.value);
    }
    BalancesCoverLedger(wallets, txns, Some(CommuterWallet));
    SumNonNegative(Balances(wallets, txns));
    BalancesExplained(txns, 0);
  }
}
