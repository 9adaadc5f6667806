// Sums over finite maps: the model's `SELECT SUM(...)` and its directory sizes.
module MapSums {

  ghost function Sum<K>(m: map<K, int>): int
    decreases |m|
  {
    if m == map[] then 0
    else
      var k :| k in m;
      m[k] + Sum(m - {k})
  }

  // The sum does not depend on the key that Sum happens to remove first.
  lemma {:induction false} SumRemove<K>(m: map<K, int>, k: K)
    requires k in m
    ensures Sum(m) == m[k] + Sum(m - {k})
    decreases |m|
  {
    var k0 :| k0 in m && Sum(m) == m[k0] + Sum(m - {k0});
    if k0 != k {
      SumRemove(m - {k0}, k);
      SumRemove(m - {k}, k0);
      assert m - {k0} - {k} == m - {k} - {k0};
    }
  }

  lemma SumInsert<K>(m: map<K, int>, k: K, v: int)
    requires k !in m
    ensures Sum(m[k := v]) == Sum(m) + v
  {
    SumRemove(m[k := v], k);
    assert m[k := v] - {k} == m;
  }

  lemma SumUpdate<K>(m: map<K, int>, k: K, v: int)
    requires k in m
    ensures Sum(m[k := v]) == Sum(m) - m[k] + v
  {
    SumRemove(m, k);
    SumInsert(m - {k}, k, v);
    assert (m - {k})[k := v] == m[k := v];
  }

  lemma {:induction false} SumNonNegative<K>(m: map<K, int>)
    requires forall k :: k in m ==> 0 <= m[k]
    ensures 0 <= Sum(m)
    decreases |m|
  {
    if m != map[] {
      var k :| k in m && Sum(m) == m[k] + Sum(m - {k});
      SumNonNegative(m - {k});
    }
  }

  // A map that is pointwise no larger on a subset of the keys has no larger sum.
  lemma {:induction false} SumMonotone<K>(a: map<K, int>, b: map<K, int>)
    requires a.Keys <= b.Keys
    requires forall k :: k in a ==> a[k] <= b[k]
    requires forall k :: k in b ==> 0 <= b[k]
    ensures Sum(a) <= Sum(b)
    decreases |b|
  {
    if a == map[] {
      SumNonNegative(b);
    } else {
      var k :| k in a && Sum(a) == a[k] + Sum(a - {k});
      SumRemove(b, k);
      SumMonotone(a - {k}, b - {k});
    }
  }

  lemma {:induction false} SumZero<K>(m: map<K, int>)
    requires forall k :: k in m ==> m[k] == 0
    ensures Sum(m) == 0
    decreases |m|
  {
    if m != map[] {
      var k :| k in m && Sum(m) == m[k] + Sum(m - {k});
      SumZero(m - {k});
    }
  }

  // Keys that contribute nothing may be left out.
  lemma {:induction false} SumSupport<K>(a: map<K, int>, b: map<K, int>)
    requires a.Keys <= b.Keys
    requires forall k :: k in b ==> b[k] == if k in a then a[k] else 0
    ensures Sum(a) == Sum(b)
    decreases |b|
  {
    if b != map[] {
      var k :| k in b && Sum(b) == b[k] + Sum(b - {k});
      SumSupport(a - {k}, b - {k});
      if k in a { SumRemove(a, k); } else { assert a - {k} == a; }
    }
  }

  // Walking a map key by key: nothing seen yet, one more seen, everything seen.
  lemma SumNone<K>(m: map<K, int>)
    ensures Sum(m - m.Keys) == 0 && m - {} == m
  {
  }

  lemma SumPeel<K>(m: map<K, int>, rest: set<K>, k: K)
    requires k in rest && rest <= m.Keys
    ensures Sum(m - (rest - {k})) == Sum(m - rest) + m[k]
  {
    assert m - (rest - {k}) == (m - rest)[k := m[k]];
    SumInsert(m - rest, k, m[k]);
  }
}
