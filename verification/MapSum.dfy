/** The sum of the values of a finite map of integers. */
module MapSum {

  ghost function Sum<K>(m: map<K, int>): int
    decreases |m|
  {
    if m == map[] then 0
    else
      var k :| k in m;
      m[k] + Sum(m - {k})
  }

  /** Any key may be taken out first. */
  lemma {:induction false} SumWithout<K>(m: map<K, int>, k: K)
    requires k in m
    ensures Sum(m) == m[k] + Sum(m - {k})
    decreases |m|
  {
    var p :| p in m && Sum(m) == m[p] + Sum(m - {p});
    if p != k {
      assert m - {p} - {k} == m - {k} - {p};
      SumWithout(m - {p}, k);
      SumWithout(m - {k}, p);
    }
  }

  lemma SumUpdate<K>(m: map<K, int>, k: K, v: int)
    ensures Sum(m[k := v]) == Sum(m) + v - if k in m then m[k] else 0
  {
    var after := m[k := v];
    SumWithout(after, k);
    assert after - {k} == m - {k};
    if k in m {
      SumWithout(m, k);
    } else {
      assert m - {k} == m;
    }
  }

  lemma {:induction false} SumNonneg<K>(m: map<K, int>)
    requires forall k :: k in m ==> m[k] >= 0
    ensures Sum(m) >= 0
    ensures forall k :: k in m ==> m[k] <= Sum(m)
    decreases |m|
  {
    forall k | k in m
      ensures 0 <= m[k] <= Sum(m)
    {
      SumWithout(m, k);
      SumNonneg(m - {k});
    }
    if m == map[] {
    } else {
      var k :| k in m;
      assert 0 <= m[k] <= Sum(m);
    }
  }

  /** Part of a map of nonnegative values sums to no more than the whole. */
  lemma {:induction false} SumPart<K>(part: map<K, int>, m: map<K, int>)
    requires forall k :: k in part ==> k in m && part[k] == m[k]
    requires forall k :: k in m ==> m[k] >= 0
    ensures Sum(part) <= Sum(m)
    decreases |part|
  {
    if part == map[] {
      SumNonneg(m);
    } else {
      var k :| k in part;
      SumWithout(part, k);
      SumWithout(m, k);
      SumPart(part - {k}, m - {k});
    }
  }
}
