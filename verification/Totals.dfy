/** Finite sums and counts over table rows. */
module Totals {

  /** SELECT COALESCE(SUM(...), 0). */
  ghost function Total<K>(m: map<K, int>): int
    decreases |m.Keys|
  {
    if m == map[] then 0
    else
      var k :| k in m;
      assert (m - {k}).Keys == m.Keys - {k};
      m[k] + Total(m - {k})
  }

  lemma {:induction false} TotalSplit<K>(m: map<K, int>, k: K)
    requires k in m
    ensures Total(m) == m[k] + Total(m - {k})
    decreases |m.Keys|
  {
    var c :| c in m && Total(m) == m[c] + Total(m - {c});
    if c != k {
      assert (m - {c}).Keys == m.Keys - {c};
      assert (m - {k}).Keys == m.Keys - {k};
      TotalSplit(m - {c}, k);
      TotalSplit(m - {k}, c);
      assert m - {c} - {k} == m - {k} - {c};
    }
  }

  lemma TotalPut<K>(m: map<K, int>, k: K, v: int)
    ensures Total(m[k := v]) == Total(m) + v - (if k in m then m[k] else 0)
  {
    TotalSplit(m[k := v], k);
    if k in m {
      TotalSplit(m, k);
      assert m[k := v] - {k} == m - {k};
    } else {
      assert m[k := v] - {k} == m;
    }
  }

  lemma {:induction false} TotalUnion<K>(a: map<K, int>, b: map<K, int>)
    requires a.Keys !! b.Keys
    ensures Total(a + b) == Total(a) + Total(b)
    decreases |b.Keys|
  {
    if b == map[] {
      assert a + b == a;
    } else {
      var k :| k in b;
      var rest := b - {k};
      assert rest.Keys == b.Keys - {k};
      TotalUnion(a, rest);
      UnionPut(a, b, k);
      TotalPut(a + rest, k, b[k]);
      TotalSplit(b, k);
    }
  }

  lemma UnionPut<K, V>(a: map<K, V>, b: map<K, V>, k: K)
    requires a.Keys !! b.Keys && k in b
    ensures k !in a + (b - {k})
    ensures a + b == (a + (b - {k}))[k := b[k]]
  {
    assert (a + b).Keys == (a + (b - {k}))[k := b[k]].Keys;
  }

  lemma {:induction false} TotalBounds<K>(m: map<K, int>)
    requires forall k :: k in m ==> 0 <= m[k]
    ensures 0 <= Total(m)
    ensures forall k :: k in m ==> m[k] <= Total(m)
    decreases |m.Keys|
  {
    forall k | k in m
      ensures m[k] <= Total(m)
    {
      TotalSplit(m, k);
      assert (m - {k}).Keys == m.Keys - {k};
      TotalBounds(m - {k});
    }
    if m != map[] {
      var k :| k in m;
      assert m[k] <= Total(m);
    }
  }

  lemma {:induction false} TotalMonotone<K>(a: map<K, int>, b: map<K, int>)
    requires forall k :: k in a ==> k in b && a[k] <= b[k]
    requires forall k :: k in b ==> 0 <= b[k]
    ensures Total(a) <= Total(b)
    decreases |a.Keys|
  {
    if a == map[] {
      TotalBounds(b);
    } else {
      var k :| k in a;
      assert (a - {k}).Keys == a.Keys - {k};
      TotalSplit(a, k);
      TotalSplit(b, k);
      TotalMonotone(a - {k}, b - {k});
    }
  }

  lemma {:induction false} PositiveTotalHasPositive<K>(m: map<K, int>) returns (k: K)
    requires 0 < Total(m)
    ensures k in m && 0 < m[k]
    decreases |m.Keys|
  {
    k :| k in m;
    if m[k] <= 0 {
      TotalSplit(m, k);
      assert (m - {k}).Keys == m.Keys - {k};
      k := PositiveTotalHasPositive(m - {k});
    }
  }

  /** The aggregate as a loop over the rows. */
  method Sum<K(==)>(m: map<K, int>) returns (total: int)
    ensures total == Total(m)
  {
    var left := m;
    total := 0;
    while left != map[]
      invariant total + Total(left) == Total(m)
      decreases |left.Keys|
    {
      var k :| k in left;
      TotalSplit(left, k);
      total := total + left[k];
      assert (left - {k}).Keys == left.Keys - {k};
      left := left - {k};
    }
  }
}
