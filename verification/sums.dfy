/** Sums of real values over finite maps. */
module Sums {

  ghost function Sum<K(!new)>(m: map<K, real>): real
    decreases |m|
  {
    if m == map[] then 0.0
    else
      var k :| k in m;
      assert |m - {k}| < |m|;
      m[k] + Sum(m - {k})
  }

  /** Any key may be taken out of the sum, not only the one the definition picks. */
  lemma {:induction false} SumWithout<K(!new)>(m: map<K, real>, k: K)
    requires k in m
    ensures Sum(m) == m[k] + Sum(m - {k})
    decreases |m|
  {
    var j :| j in m && Sum(m) == m[j] + Sum(m - {j});
    if j != k {
      assert |m - {j}| < |m| && |m - {k}| < |m|;
      SumWithout(m - {j}, k);
      SumWithout(m - {k}, j);
      assert m - {j} - {k} == m - {k} - {j};
    }
  }

  /** Writing one entry changes the sum by the difference of that entry. */
  lemma SumUpdate<K(!new)>(m: map<K, real>, k: K, v: real)
    ensures Sum(m[k := v]) == Sum(m) + v - (if k in m then m[k] else 0.0)
  {
    var n := m[k := v];
    SumWithout(n, k);
    if k in m {
      SumWithout(m, k);
      assert n - {k} == m - {k};
    } else {
      assert n - {k} == m;
    }
  }

  lemma {:induction false} SumNonNegative<K(!new)>(m: map<K, real>)
    requires forall k :: k in m ==> m[k] >= 0.0
    ensures Sum(m) >= 0.0
    ensures forall k :: k in m ==> m[k] <= Sum(m)
    decreases |m|
  {
    forall k | k in m ensures 0.0 <= m[k] <= Sum(m) {
      assert |m - {k}| < |m|;
      SumNonNegative(m - {k});
      SumWithout(m, k);
    }
    if m != map[] {
      var k :| k in m;
    }
  }

  /** Sums add entry by entry. */
  lemma {:induction false} SumOfTwo<K(!new)>(a: map<K, real>, b: map<K, real>, c: map<K, real>)
    requires a.Keys == b.Keys == c.Keys
    requires forall k :: k in a ==> c[k] == a[k] + b[k]
    ensures Sum(c) == Sum(a) + Sum(b)
    decreases |a|
  {
    if a == map[] {
      assert b == map[] && c == map[];
    } else {
      var k :| k in a;
      assert |a - {k}| < |a|;
      SumOfTwo(a - {k}, b - {k}, c - {k});
      SumWithout(a, k);
      SumWithout(b, k);
      SumWithout(c, k);
    }
  }
}
