/** Catalogue route names: routeName of catalogue/import.go. */
module RouteNames {

  function Digit(d: nat): char
    requires d < 10
  {
    ('0' as int + d) as char
  }

  function Digits(n: nat): (s: string)
    ensures s != []
  {
    if n < 10 then [Digit(n)] else Digits(n / 10) + [Digit(n % 10)]
  }

  /** fmt's %d. */
  function Decimal(i: int): string {
    if i < 0 then "-" + Digits(-i) else Digits(i)
  }

  function Heading(origin: string, dest: string): string {
    origin + " - " + dest + " (CoCT #"
  }

  function RouteName(origin: string, dest: string, objectId: int): string {
    Heading(origin, dest) + Decimal(objectId) + ")"
  }

  lemma {:induction false} DigitsAreDigits(n: nat)
    ensures forall k :: 0 <= k < |Digits(n)| ==> '0' <= Digits(n)[k] <= '9'
  {
    if n >= 10 {
      DigitsAreDigits(n / 10);
    }
  }

  lemma {:induction false} DigitsInjective(n: nat, m: nat)
    requires Digits(n) == Digits(m)
    ensures n == m
  {
    if n >= 10 && m >= 10 {
      var s := Digits(n);
      assert s[..|s| - 1] == Digits(n / 10) && s[..|s| - 1] == Digits(m / 10);
      assert s[|s| - 1] == Digit(n % 10) == Digit(m % 10);
      DigitsInjective(n / 10, m / 10);
    }
  }

  lemma DecimalInjective(i: int, j: int)
    requires Decimal(i) == Decimal(j)
    ensures i == j
  {
    DigitsAreDigits(if i < 0 then -i else i);
    DigitsAreDigits(if j < 0 then -j else j);
    assert (i < 0) == (Decimal(i)[0] == '-') && (j < 0) == (Decimal(j)[0] == '-');
    if i < 0 {
      assert Decimal(i)[1..] == Digits(-i) && Decimal(j)[1..] == Digits(-j);
      DigitsInjective(-i, -j);
    } else {
      DigitsInjective(i, j);
    }
  }

  predicate LastHash(s: string, p: nat) {
    p < |s| && s[p] == '#' && forall k :: p < k < |s| ==> s[k] != '#'
  }

  /** The last # of a name is the one before its number, whatever the ranks are called. */
  lemma NameSplits(origin: string, dest: string, objectId: int)
    ensures var s, p := RouteName(origin, dest, objectId), |Heading(origin, dest)| - 1;
            p >= 0 && LastHash(s, p) && |s| == p + 2 + |Decimal(objectId)| && s[p + 1..|s| - 1] == Decimal(objectId)
  {
    DigitsAreDigits(if objectId < 0 then -objectId else objectId);
  }

  /** Rows with different OBJECTIDs get different route names. */
  lemma NameInjective(o1: string, d1: string, i: int, o2: string, d2: string, j: int)
    requires RouteName(o1, d1, i) == RouteName(o2, d2, j)
    ensures i == j
  {
    NameSplits(o1, d1, i);
    NameSplits(o2, d2, j);
    DecimalInjective(i, j);
  }

  /** The number a string of digits stands for. */
  function Reading(s: string): int {
    if s == [] then 0 else 10 * Reading(s[..|s| - 1]) + (s[|s| - 1] as int - '0' as int)
  }

  /** Digits without a leading zero read back as the number. */
  lemma {:induction false} DigitsReadBack(n: nat)
    ensures Reading(Digits(n)) == n && (n > 0 ==> Digits(n)[0] != '0') && (n == 0 ==> Digits(n) == "0")
  {
    if n >= 10 {
      DigitsReadBack(n / 10);
      assert Digits(n)[..|Digits(n)| - 1] == Digits(n / 10);
    } else {
      assert Digits(n)[..0] == [];
    }
  }

  /** A route is named after its origin, its destination and its OBJECTID, in that order and this form. */
  lemma NameReadsBack(origin: string, dest: string, objectId: int)
    ensures RouteName(origin, dest, objectId) == origin + " - " + dest + " (CoCT #" + Decimal(objectId) + ")"
    ensures objectId >= 0 ==> Reading(Decimal(objectId)) == objectId
    ensures objectId < 0 ==> Decimal(objectId)[0] == '-' && Reading(Decimal(objectId)[1..]) == -objectId
  {
    DigitsReadBack(if objectId < 0 then -objectId else objectId);
  }
}
