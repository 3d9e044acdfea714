/** The double-entry ledger of wallet/repo.go: accounts, postings and committed transactions. */
module Ledger {
  import opened Wrappers
  import opened Sums

  type UserId = nat
  type VehicleId = nat

  datatype AccountType =
    | CommuterWallet | DriverEarnings | OwnerRevenue | PlatformFee | FundingSource | FuelAccount

  /** Accounts are unique per (owner, type); system accounts have no owner. */
  datatype Account = Account(owner: Option<UserId>, kind: AccountType)

  const FUNDING := Account(None, FundingSource)
  const PLATFORM := Account(None, PlatformFee)

  function WalletOf(u: UserId): Account { Account(Some(u), CommuterWallet) }
  function RevenueOf(u: UserId): Account { Account(Some(u), OwnerRevenue) }
  function EarningsOf(u: UserId): Account { Account(Some(u), DriverEarnings) }
  function FuelOf(u: UserId): Account { Account(Some(u), FuelAccount) }

  datatype Posting = Posting(account: Account, cents: int)

  datatype FareSplit = FareSplit(platform: int, driver: int, owner: int)

  /** Go's `/` truncates toward zero. */
  function GoDiv(a: int, b: int): int
    requires b > 0
  {
    if a >= 0 then a / b else -((-a) / b)
  }

  function SplitFare(fare: int, platformPct: int, driverPct: int): FareSplit {
    var platform := GoDiv(fare * platformPct, 100);
    var driver := GoDiv(fare * driverPct, 100);
    FareSplit(platform, driver, fare - platform - driver)
  }

  /** What a transaction is for, with the metadata the source stores beside it. */
  datatype Purpose =
    | Topup(commuter: UserId, cents: int)
    | Fare(commuter: UserId, vehicle: VehicleId, driver: UserId, owner: UserId, cents: int, split: FareSplit)
    | Transfer(owner: UserId, from: AccountType, to: AccountType, cents: int)

  /** The postings each kind of transaction inserts, in statement order. */
  function Plan(p: Purpose): seq<Posting> {
    match p
    case Topup(commuter, cents) =>
      [Posting(FUNDING, -cents), Posting(WalletOf(commuter), cents)]
    case Fare(commuter, _, driver, owner, cents, split) =>
      [Posting(WalletOf(commuter), -cents), Posting(EarningsOf(driver), split.driver),
       Posting(RevenueOf(owner), split.owner), Posting(PLATFORM, split.platform)]
    case Transfer(owner, from, to, cents) =>
      [Posting(Account(Some(owner), from), -cents), Posting(Account(Some(owner), to), cents)]
  }

  /** The account that is locked and read before money leaves it; a top-up locks nothing. */
  function Debited(p: Purpose): Option<Account> {
    match p
    case Topup(_, _) => None
    case Fare(commuter, _, _, _, _, _) => Some(WalletOf(commuter))
    case Transfer(owner, from, _, _) => Some(Account(Some(owner), from))
  }

  /** One committed ledger_transactions row with its postings. */
  datatype Txn = Txn(id: nat, key: Option<string>, purpose: Purpose, at: nat, postings: seq<Posting>)

  function PostingSum(ps: seq<Posting>, a: Account): int {
    if ps == [] then 0
    else PostingSum(ps[..|ps| - 1], a) + (if ps[|ps| - 1].account == a then ps[|ps| - 1].cents else 0)
  }

  /** Selects the accounts of one type, or all accounts. */
  predicate Selects(kind: Option<AccountType>, a: Account) { kind == None || kind == Some(a.kind) }

  function PostingTotal(ps: seq<Posting>, kind: Option<AccountType>): int {
    if ps == [] then 0
    else PostingTotal(ps[..|ps| - 1], kind) + (if Selects(kind, ps[|ps| - 1].account) then ps[|ps| - 1].cents else 0)
  }

  /** An account's balance is always the sum of its postings. */
  function Balance(txns: seq<Txn>, a: Account): int {
    if txns == [] then 0
    else Balance(txns[..|txns| - 1], a) + PostingSum(txns[|txns| - 1].postings, a)
  }

  /** The sum of the postings on all accounts of a type, or on all accounts. */
  function LedgerTotal(txns: seq<Txn>, kind: Option<AccountType>): int {
    if txns == [] then 0
    else LedgerTotal(txns[..|txns| - 1], kind) + PostingTotal(txns[|txns| - 1].postings, kind)
  }

  lemma BalanceAppend(txns: seq<Txn>, t: Txn, a: Account)
    ensures Balance(txns + [t], a) == Balance(txns, a) + PostingSum(t.postings, a)
  {
    assert (txns + [t])[..|txns|] == txns;
  }

  lemma PairSum(p: Posting, q: Posting, a: Account)
    ensures PostingSum([p, q], a) == (if p.account == a then p.cents else 0) + (if q.account == a then q.cents else 0)
    ensures forall k :: PostingTotal([p, q], k)
              == (if Selects(k, p.account) then p.cents else 0) + (if Selects(k, q.account) then q.cents else 0)
  {
    assert [p, q][..1] == [p] && [p][..0] == [];
    assert PostingSum([p], a) == if p.account == a then p.cents else 0;
    assert forall k :: PostingTotal([p], k) == if Selects(k, p.account) then p.cents else 0;
  }

  lemma QuadSum(p: Posting, q: Posting, r: Posting, s: Posting, a: Account)
    ensures PostingSum([p, q, r, s], a) == PostingSum([p, q], a) + PostingSum([r, s], a)
    ensures forall k :: PostingTotal([p, q, r, s], k) == PostingTotal([p, q], k) + PostingTotal([r, s], k)
  {
    assert [p, q, r, s][..3] == [p, q, r] && [p, q, r][..2] == [p, q];
    PairSum(p, q, a);
    PairSum(r, s, a);
    assert forall k :: PostingTotal([p, q, r], k) == PostingTotal([p, q], k) + if Selects(k, r.account) then r.cents else 0;
  }

  /** A purpose as the application builds it: non-negative, the split adding up to the fare. */
  predicate Sound(p: Purpose) {
    && p.cents >= 0
    && (p.Fare? ==> p.split.platform >= 0 && p.split.driver >= 0 && p.split.owner >= 0
                    && p.split.platform + p.split.driver + p.split.owner == p.cents)
  }

  /** What one transaction does to one account. */
  lemma PlanEffect(p: Purpose, a: Account)
    requires Sound(p)
    ensures a != FUNDING && Debited(p) != Some(a) ==> PostingSum(Plan(p), a) >= 0
    ensures Debited(p) == Some(a) ==> PostingSum(Plan(p), a) >= -p.cents
    ensures PostingTotal(Plan(p), None) == 0
  {
    match p
    case Topup(commuter, cents) =>
      PairSum(Posting(FUNDING, -cents), Posting(WalletOf(commuter), cents), a);
    case Fare(commuter, _, driver, owner, cents, split) =>
      var p0, p1 := Posting(WalletOf(commuter), -cents), Posting(EarningsOf(driver), split.driver);
      var p2, p3 := Posting(RevenueOf(owner), split.owner), Posting(PLATFORM, split.platform);
      QuadSum(p0, p1, p2, p3, a);
      PairSum(p0, p1, a);
      PairSum(p2, p3, a);
    case Transfer(owner, from, to, cents) =>
      PairSum(Posting(Account(Some(owner), from), -cents), Posting(Account(Some(owner), to), cents), a);
  }

  /** A committed transaction carries exactly the postings its purpose calls for. */
  predicate WellFormed(t: Txn) {
    Sound(t.purpose) && t.postings == Plan(t.purpose)
  }

  // ----- conservation -----

  /** Every committed ledger sums to zero. */
  lemma {:induction false} LedgerSumsToZero(txns: seq<Txn>)
    requires forall t :: t in txns ==> WellFormed(t)
    ensures LedgerTotal(txns, None) == 0
  {
    if txns != [] {
      var last := txns[|txns| - 1];
      assert last in txns;
      PlanEffect(last.purpose, FUNDING);
      LedgerSumsToZero(txns[..|txns| - 1]);
    }
  }

  /** The accounts of the selected type that some posting touches. */
  function Touched(ps: seq<Posting>, kind: Option<AccountType>): set<Account> {
    set p | p in ps && Selects(kind, p.account) :: p.account
  }

  function Accounts(txns: seq<Txn>, kind: Option<AccountType>): set<Account> {
    set t, p | t in txns && p in t.postings && Selects(kind, p.account) :: p.account
  }

  ghost function Balances(accounts: set<Account>, txns: seq<Txn>): map<Account, int> {
    map a | a in accounts :: Balance(txns, a)
  }

  lemma {:induction false} SumOfZeros(m: map<Account, int>)
    requires forall a :: a in m ==> m[a] == 0
    ensures Sum(m) == 0
    decreases |m|
  {
    if m != map[] {
      var a :| a in m;
      SumTake(m, a);
      assert (m - {a}).Keys == m.Keys - {a};
      SumOfZeros(m - {a});
    }
  }

  ghost function Spread(base: map<Account, int>, ps: seq<Posting>): map<Account, int> {
    map a | a in base :: base[a] + PostingSum(ps, a)
  }

  lemma {:induction false} PostingsSpread(base: map<Account, int>, ps: seq<Posting>, kind: Option<AccountType>)
    requires Touched(ps, kind) <= base.Keys && forall a :: a in base ==> Selects(kind, a)
    ensures Sum(Spread(base, ps)) == Sum(base) + PostingTotal(ps, kind)
  {
    if ps == [] {
      assert Spread(base, ps) == base;
    } else {
      var last, front := ps[|ps| - 1], ps[..|ps| - 1];
      assert last in ps && forall p :: p in front ==> p in ps;
      assert Touched(front, kind) <= Touched(ps, kind);
      PostingsSpread(base, front, kind);
      var before := Spread(base, front);
      if Selects(kind, last.account) {
        assert last.account in Touched(ps, kind);
        SumPut(before, last.account, before[last.account] + last.cents);
        assert Spread(base, ps) == before[last.account := before[last.account] + last.cents];
      } else {
        assert Spread(base, ps) == before;
      }
    }
  }

  /** Balances summed over any set that covers the touched accounts of a type give that type's total. */
  lemma {:induction false} BalancesCoverLedger(accounts: set<Account>, txns: seq<Txn>, kind: Option<AccountType>)
    requires Accounts(txns, kind) <= accounts && forall a :: a in accounts ==> Selects(kind, a)
    ensures Sum(Balances(accounts, txns)) == LedgerTotal(txns, kind)
  {
    if txns == [] {
      SumOfZeros(Balances(accounts, txns));
    } else {
      var last, front := txns[|txns| - 1], txns[..|txns| - 1];
      assert last in txns && forall t :: t in front ==> t in txns;
      assert Accounts(front, kind) <= Accounts(txns, kind) && Touched(last.postings, kind) <= Accounts(txns, kind);
      BalancesCoverLedger(accounts, front, kind);
      PostingsSpread(Balances(accounts, front), last.postings, kind);
      assert Balances(accounts, txns) == Spread(Balances(accounts, front), last.postings);
    }
  }

  /** What left the funding source is exactly what all other accounts hold together. */
  lemma MoneyIsConserved(accounts: set<Account>, txns: seq<Txn>)
    requires forall t :: t in txns ==> WellFormed(t)
    requires Accounts(txns, None) <= accounts && FUNDING in accounts
    ensures -Balance(txns, FUNDING) == Sum(Balances(accounts - {FUNDING}, txns))
  {
    LedgerSumsToZero(txns);
    BalancesCoverLedger(accounts, txns, None);
    SumTake(Balances(accounts, txns), FUNDING);
    assert Balances(accounts, txns) - {FUNDING} == Balances(accounts - {FUNDING}, txns);
  }
}
