/** Sums over finite maps. */
module Totals {

  /** The sum of the values of a map, over its keys in any order. */
  ghost function Sum<K>(m: map<K, real>): real
    decreases |m|
  {
    if m == map[] then 0.0
    else
      var k :| k in m;
      assert |m - {k}| < |m| by { CardinalityAfterRemoval(m, k); }
      m[k] + Sum(m - {k})
  }

  lemma CardinalityAfterRemoval<K, V>(m: map<K, V>, k: K)
    requires k in m
    ensures |m - {k}| == |m| - 1
  {
    assert (m - {k}).Keys == m.Keys - {k};
    assert |m.Keys - {k}| == |m.Keys| - 1;
  }

  /** The sum does not depend on the key that is taken out first. */
  lemma {:induction false} SumWithout<K>(m: map<K, real>, k: K)
    requires k in m
    ensures Sum(m) == m[k] + Sum(m - {k})
    decreases |m|
  {
    var j :| j in m && Sum(m) == m[j] + Sum(m - {j});
    if j != k {
      CardinalityAfterRemoval(m, j);
      CardinalityAfterRemoval(m, k);
      SumWithout(m - {j}, k);
      SumWithout(m - {k}, j);
      assert m - {j} - {k} == m - {k} - {j};
    }
  }

  lemma SumInsert<K>(m: map<K, real>, k: K, v: real)
    requires k !in m
    ensures Sum(m[k := v]) == Sum(m) + v
  {
    SumWithout(m[k := v], k);
    assert m[k := v] - {k} == m;
  }

  lemma SumUpdate<K>(m: map<K, real>, k: K, v: real)
    requires k in m
    ensures Sum(m[k := v]) == Sum(m) - m[k] + v
  {
    SumWithout(m, k);
    SumWithout(m[k := v], k);
    assert m[k := v] - {k} == m - {k};
  }

  lemma UnionWithout<K, V>(m: map<K, V>, n: map<K, V>, k: K)
    requires m.Keys !! n.Keys && k in n
    ensures m.Keys !! (n - {k}).Keys && k !in m + (n - {k})
    ensures m + n == (m + (n - {k}))[k := n[k]]
  {
  }

  lemma {:induction false} SumUnion<K>(m: map<K, real>, n: map<K, real>)
    requires m.Keys !! n.Keys
    ensures Sum(m + n) == Sum(m) + Sum(n)
    decreases |n|
  {
    hide Sum;
    if n == map[] {
      assert m + n == m;
      SumOfNone(n);
    } else {
      var k :| k in n;
      CardinalityAfterRemoval(n, k);
      UnionWithout(m, n, k);
      SumUnion(m, n - {k});
      SumWithout(n, k);
      SumInsert(m + (n - {k}), k, n[k]);
    }
  }

  lemma SumOfNone<K>(m: map<K, real>)
    requires m == map[]
    ensures Sum(m) == 0.0
  {
  }

  lemma {:induction false} SumNonNegative<K>(m: map<K, real>)
    requires forall k :: k in m ==> 0.0 <= m[k]
    ensures 0.0 <= Sum(m)
    decreases |m|
  {
    if m != map[] {
      var k :| k in m && Sum(m) == m[k] + Sum(m - {k});
      CardinalityAfterRemoval(m, k);
      SumNonNegative(m - {k});
    }
  }

  /** Sums are monotone in every value. */
  lemma {:induction false} SumAtMost<K>(m: map<K, real>, n: map<K, real>)
    requires m.Keys == n.Keys
    requires forall k :: k in m ==> m[k] <= n[k]
    ensures Sum(m) <= Sum(n)
    decreases |m|
  {
    if m == map[] {
      assert n == map[];
    } else {
      var k :| k in m && Sum(m) == m[k] + Sum(m - {k});
      CardinalityAfterRemoval(m, k);
      SumWithout(n, k);
      SumAtMost(m - {k}, n - {k});
    }
  }

  lemma {:induction false} SumOfZeros<K>(m: map<K, real>)
    requires forall k :: k in m ==> m[k] == 0.0
    ensures Sum(m) == 0.0
    decreases |m|
  {
    if m != map[] {
      var k :| k in m && Sum(m) == m[k] + Sum(m - {k});
      CardinalityAfterRemoval(m, k);
      SumOfZeros(m - {k});
    }
  }

  predicate Scaled(c: real, x: real, y: real) {
    y == c * x
  }

  lemma ScaledSum(c: real, x: real, y: real, x': real, y': real)
    requires Scaled(c, x, y) && Scaled(c, x', y')
    ensures Scaled(c, x + x', y + y')
  {
  }

  /** Scaling every value scales the sum. */
  lemma {:induction false} SumScaled<K>(m: map<K, real>, n: map<K, real>, c: real)
    requires m.Keys == n.Keys
    requires forall k :: k in m ==> Scaled(c, m[k], n[k])
    ensures Scaled(c, Sum(m), Sum(n))
    decreases |m|
  {
    if m == map[] {
      assert n == map[];
    } else {
      var k :| k in m && Sum(m) == m[k] + Sum(m - {k});
      CardinalityAfterRemoval(m, k);
      SumWithout(n, k);
      SumScaled(m - {k}, n - {k}, c);
      ScaledSum(c, m[k], n[k], Sum(m - {k}), Sum(n - {k}));
    }
  }
}
