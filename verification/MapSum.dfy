/** Sums of a weight over the values of a finite map. */
module MapSum {

  ghost function Total<K, V>(m: map<K, V>, w: V -> int): int
    decreases |m|
  {
    if m == map[] then 0
    else
      var k :| k in m;
      assert k !in (m - {k});
      assert m == (m - {k})[k := m[k]];
      w(m[k]) + Total(m - {k}, w)
  }

  lemma {:induction false} TotalRemove<K, V>(m: map<K, V>, k: K, w: V -> int)
    requires k in m
    ensures Total(m, w) == w(m[k]) + Total(m - {k}, w)
    decreases |m|
  {
    var c :| c in m && Total(m, w) == w(m[c]) + Total(m - {c}, w);
    if c != k {
      assert m == (m - {c})[c := m[c]];
      TotalRemove(m - {c}, k, w);
      assert m == (m - {k})[k := m[k]];
      TotalRemove(m - {k}, c, w);
      assert m - {c} - {k} == m - {k} - {c};
    }
  }

  /** What one map assignment does to the sum. */
  lemma TotalUpdate<K, V>(m: map<K, V>, k: K, v: V, w: V -> int)
    ensures Total(m[k := v], w) == Total(m, w) - (if k in m then w(m[k]) else 0) + w(v)
  {
    TotalRemove(m[k := v], k, w);
    assert m[k := v] - {k} == m - {k};
    if k in m {
      TotalRemove(m, k, w);
    } else {
      assert m - {k} == m;
    }
  }

  lemma {:induction false} TotalCongruent<K, V>(m: map<K, V>, n: map<K, V>, w: V -> int)
    requires m.Keys == n.Keys
    requires forall k :: k in m ==> w(m[k]) == w(n[k])
    ensures Total(m, w) == Total(n, w)
    decreases |m|
  {
    if m != map[] {
      var k :| k in m;
      TotalRemove(m, k, w);
      TotalRemove(n, k, w);
      assert m == (m - {k})[k := m[k]];
      TotalCongruent(m - {k}, n - {k}, w);
    } else {
      assert n == map[];
    }
  }

  lemma {:induction false} TotalNonNegative<K, V>(m: map<K, V>, w: V -> int)
    requires forall k :: k in m ==> w(m[k]) >= 0
    ensures Total(m, w) >= 0
    decreases |m|
  {
    if m != map[] {
      var k :| k in m;
      TotalRemove(m, k, w);
      assert m == (m - {k})[k := m[k]];
      TotalNonNegative(m - {k}, w);
    }
  }
}
