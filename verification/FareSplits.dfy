/** Arithmetic of splitFare (wallet/repo.go). */
module FareSplits {
  import opened Ledger

  const MAX_INT64: int := 0x7FFF_FFFF_FFFF_FFFF

  predicate ValidPercentages(platformPct: int, driverPct: int) {
    platformPct >= 0 && driverPct >= 0 && platformPct + driverPct <= 100
  }

  predicate SharesAddUp(fare: int, s: FareSplit) {
    s.platform >= 0 && s.driver >= 0 && s.owner >= 0 && s.platform + s.driver + s.owner == fare
  }

  lemma ScaleBounds(fare: int, p: int, q: int)
    requires fare >= 0 && p >= 0 && q >= 0 && p + q <= 100
    ensures fare * p >= 0 && fare * q >= 0 && fare * p + fare * q <= fare * 100
  {
    assert fare * p + fare * q == fare * (p + q);
    assert fare * (100 - (p + q)) >= 0;
  }

  /** No cent is lost or invented, and rounding favours the owner by less than two cents. */
  lemma SplitIsExact(fare: int, platformPct: int, driverPct: int)
    requires fare >= 0 && ValidPercentages(platformPct, driverPct)
    ensures SharesAddUp(fare, SplitFare(fare, platformPct, driverPct))
    ensures 0 <= 100 * SplitFare(fare, platformPct, driverPct).owner - fare * (100 - platformPct - driverPct) < 200
    ensures 0 <= fare * platformPct - 100 * SplitFare(fare, platformPct, driverPct).platform < 100
    ensures 0 <= fare * driverPct - 100 * SplitFare(fare, platformPct, driverPct).driver < 100
  {
    ScaleBounds(fare, platformPct, driverPct);
    var s := SplitFare(fare, platformPct, driverPct);
    assert fare * (100 - platformPct - driverPct) == fare * 100 - fare * platformPct - fare * driverPct;
  }

  /** The percentages for which every fare splits into non-negative shares are exactly the valid ones. */
  lemma SplitNeverNegativeIff(platformPct: int, driverPct: int)
    ensures (forall fare: nat :: SharesAddUp(fare, SplitFare(fare, platformPct, driverPct)))
            <==> ValidPercentages(platformPct, driverPct)
  {
    if ValidPercentages(platformPct, driverPct) {
      forall fare: nat ensures SharesAddUp(fare, SplitFare(fare, platformPct, driverPct)) {
        SplitIsExact(fare, platformPct, driverPct);
      }
    } else {
      var s := SplitFare(100, platformPct, driverPct);
      assert s.platform == platformPct && s.driver == driverPct;
      assert !SharesAddUp(100, s);
    }
  }

  /** Products the code forms before dividing stay inside int64. */
  lemma SplitFitsInt64(fare: int, platformPct: int, driverPct: int)
    requires 0 <= fare <= MAX_INT64 / 100 && ValidPercentages(platformPct, driverPct)
    ensures 0 <= fare * platformPct <= MAX_INT64 && 0 <= fare * driverPct <= MAX_INT64
    ensures var s := SplitFare(fare, platformPct, driverPct);
            s.platform <= fare && s.driver <= fare && s.owner <= fare
  {
    ScaleBounds(fare, platformPct, driverPct);
    SplitIsExact(fare, platformPct, driverPct);
  }

  lemma Distribute(a: int, b: int, p: int)
    ensures (a + b) * p == a * p + b * p
  {
  }

  function TotalFare(fares: seq<nat>): nat {
    if fares == [] then 0 else TotalFare(fares[..|fares| - 1]) + fares[|fares| - 1]
  }

  function TotalPlatform(fares: seq<nat>, platformPct: int, driverPct: int): int {
    if fares == [] then 0
    else TotalPlatform(fares[..|fares| - 1], platformPct, driverPct)
         + SplitFare(fares[|fares| - 1], platformPct, driverPct).platform
  }

  lemma PlatformRounding(fare: int, platformPct: int, driverPct: int)
    requires fare >= 0 && ValidPercentages(platformPct, driverPct)
    ensures 0 <= fare * platformPct - 100 * SplitFare(fare, platformPct, driverPct).platform < 100
  {
    SplitIsExact(fare, platformPct, driverPct);
  }

  /** Over any n >= 1 charges the platform falls short of its exact percentage by less than n cents. */
  lemma {:induction false} PlatformShortfall(fares: seq<nat>, platformPct: int, driverPct: int)
    requires ValidPercentages(platformPct, driverPct)
    ensures var shortfall := TotalFare(fares) * platformPct - 100 * TotalPlatform(fares, platformPct, driverPct);
            0 <= shortfall && (fares != [] ==> shortfall < 100 * |fares|) && (fares == [] ==> shortfall == 0)
  {
    if fares != [] {
      var last, front := fares[|fares| - 1], fares[..|fares| - 1];
      PlatformShortfall(front, platformPct, driverPct);
      Distribute(TotalFare(front), last, platformPct);
      PlatformRounding(last, platformPct, driverPct);
    }
  }
}
