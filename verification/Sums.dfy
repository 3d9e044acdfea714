/** Stock types and finite sums shared by the other modules. */
module Wrappers {
  datatype Option<+T> = None | Some(value: T)
}

/** Sums over the values of a finite map, as SQL's SUM over the selected rows of a table. */
module Sums {

  ghost function Sum<K(!new)>(m: map<K, int>): int {
    if m == map[] then 0
    else
      var k :| k in m;
      m[k] + Sum(m - {k})
  }

  /** Any row may be taken out first. */
  lemma {:induction false} SumTake<K(!new)>(m: map<K, int>, k: K)
    requires k in m
    ensures Sum(m) == m[k] + Sum(m - {k})
    decreases |m|
  {
    var j :| j in m && Sum(m) == m[j] + Sum(m - {j});
    if j != k {
      assert |m - {j}| < |m| && |m - {k}| < |m| by {
        assert (m - {j}).Keys == m.Keys - {j} && (m - {k}).Keys == m.Keys - {k};
      }
      SumTake(m - {j}, k);
      SumTake(m - {k}, j);
      assert m - {j} - {k} == m - {k} - {j};
    }
  }

  /** Writing one row moves the sum by exactly the change of that row. */
  lemma SumPut<K(!new)>(m: map<K, int>, k: K, v: int)
    ensures Sum(m[k := v]) == Sum(m) - (if k in m then m[k] else 0) + v
  {
    SumTake(m[k := v], k);
    if k in m {
      SumTake(m, k);
      assert m[k := v] - {k} == m - {k};
    } else {
      assert m[k := v] - {k} == m;
    }
  }

  lemma {:induction false} SumNonNegative<K(!new)>(m: map<K, int>)
    requires forall k :: k in m ==> m[k] >= 0
    ensures Sum(m) >= 0
    decreases |m|
  {
    if m != map[] {
      var k :| k in m;
      SumTake(m, k);
      assert (m - {k}).Keys == m.Keys - {k};
      SumNonNegative(m - {k});
    }
  }

  lemma {:induction false} SumMonotone<K(!new)>(small: map<K, int>, big: map<K, int>)
    requires small.Keys == big.Keys
    requires forall k :: k in small ==> small[k] <= big[k]
    ensures Sum(small) <= Sum(big)
    decreases |small|
  {
    if small != map[] {
      var k :| k in small;
      SumTake(small, k);
      SumTake(big, k);
      assert (small - {k}).Keys == small.Keys - {k} == (big - {k}).Keys;
      SumMonotone(small - {k}, big - {k});
    } else {
      assert big == map[];
    }
  }

  lemma UnionByOne<K(!new)>(a: map<K, int>, b: map<K, int>, k: K)
    requires a.Keys !! b.Keys && k in b
    ensures a + b == (a + (b - {k}))[k := b[k]] && k !in a + (b - {k})
  {
  }

  lemma {:induction false} SumUnion<K(!new)>(a: map<K, int>, b: map<K, int>)
    requires a.Keys !! b.Keys
    ensures Sum(a + b) == Sum(a) + Sum(b)
    decreases |b|
  {
    if b == map[] {
      assert a + b == a;
    } else {
      var k :| k in b;
      assert (b - {k}).Keys == b.Keys - {k};
      SumUnion(a, b - {k});
      UnionByOne(a, b, k);
      SumTake(b, k);
      SumPut(a + (b - {k}), k, b[k]);
    }
  }
}
