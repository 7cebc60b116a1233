/** Finite sums over the values of a map, used for every "total over all rooms / seats / accounts". */
module Sums {

  /** The sum of all values. The order in which keys are picked is irrelevant: see SumAt. */
  ghost function Sum<K>(m: map<K, int>): int
    decreases |m.Keys|
  {
    if m.Keys == {} then 0 else m[Pick(m)] + Sum(Without(m, Pick(m)))
  }

  ghost function Pick<K>(m: map<K, int>): (k: K)
    requires m.Keys != {}
    ensures k in m
  {
    var k :| k in m.Keys;
    k
  }

  ghost function Without<K>(m: map<K, int>, k: K): (w: map<K, int>)
    requires k in m
    ensures w.Keys == m.Keys - {k} && |w.Keys| == |m.Keys| - 1
  {
    m - {k}
  }

  lemma WithoutSwap<K>(m: map<K, int>, j: K, k: K)
    requires j in m && k in m && j != k
    ensures Without(Without(m, j), k) == Without(Without(m, k), j)
  {
    assert {j} + {k} == {k} + {j};
  }

  lemma WithoutUpdate<K>(m: map<K, int>, k: K, v: int)
    ensures Without(m[k := v], k) == if k in m then Without(m, k) else m
  {
    var n := m[k := v] - {k};
    assert n.Keys == m.Keys - {k};
    assert forall j :: j in n ==> n[j] == m[j];
    if k in m {
      assert n == m - {k};
    } else {
      assert n == m;
    }
  }

  /** Any key may be taken out first. */
  lemma {:induction false} SumAt<K>(m: map<K, int>, k: K)
    requires k in m
    ensures Sum(m) == m[k] + Sum(Without(m, k))
    decreases |m.Keys|
  {
    var j := Pick(m);
    if j != k {
      var mj, mk := Without(m, j), Without(m, k);
      SumAt(mj, k);
      SumAt(mk, j);
      WithoutSwap(m, j, k);
    }
  }

  /** Writing one key moves the sum by the difference at that key. */
  lemma SumUpdate<K>(m: map<K, int>, k: K, v: int)
    ensures Sum(m[k := v]) == Sum(m) - (if k in m then m[k] else 0) + v
  {
    SumAt(m[k := v], k);
    WithoutUpdate(m, k, v);
    if k in m {
      SumAt(m, k);
    }
  }

  lemma {:induction false} SumNonNegative<K>(m: map<K, int>)
    requires forall k :: k in m ==> m[k] >= 0
    ensures Sum(m) >= 0
    decreases |m.Keys|
  {
    if m.Keys != {} {
      var k := Pick(m);
      SumAt(m, k);
      SumNonNegative(Without(m, k));
    }
  }

  /** One summand of a non-negative sum is no larger than the whole. */
  lemma SumCovers<K>(m: map<K, int>, k: K)
    requires k in m
    requires forall j :: j in m ==> m[j] >= 0
    ensures m[k] <= Sum(m)
  {
    SumAt(m, k);
    SumNonNegative(Without(m, k));
  }

  lemma {:induction false} SumLeq<K>(m: map<K, int>, n: map<K, int>)
    requires m.Keys == n.Keys
    requires forall k :: k in m ==> m[k] <= n[k]
    ensures Sum(m) <= Sum(n)
    decreases |m.Keys|
  {
    if m.Keys != {} {
      var k := Pick(m);
      SumAt(m, k);
      SumAt(n, k);
      SumLeq(Without(m, k), Without(n, k));
    } else {
      assert n.Keys == {};
    }
  }

  lemma {:induction false} SumZero<K>(m: map<K, int>)
    requires forall k :: k in m ==> m[k] == 0
    ensures Sum(m) == 0
    decreases |m.Keys|
  {
    if m.Keys != {} {
      var k := Pick(m);
      SumAt(m, k);
      SumZero(Without(m, k));
    }
  }

  /** A sum that is `c` on a set of keys and 0 elsewhere is `c` times the size of the set. */
  lemma {:induction false} SumIndicator<K>(m: map<K, int>, on: set<K>, c: int)
    requires on <= m.Keys
    requires forall k :: k in m ==> m[k] == if k in on then c else 0
    ensures Sum(m) == c * |on|
    decreases |on|
  {
    if on == {} {
      SumZero(m);
    } else {
      var k :| k in on;
      SumAt(m, k);
      IndicatorRest(m, on, c, k);
      SumIndicator(Without(m, k), on - {k}, c);
    }
  }

  lemma IndicatorRest<K>(m: map<K, int>, on: set<K>, c: int, k: K)
    requires on <= m.Keys && k in on
    requires forall j :: j in m ==> m[j] == if j in on then c else 0
    ensures on - {k} <= Without(m, k).Keys && |on - {k}| == |on| - 1
    ensures forall j :: j in Without(m, k) ==> Without(m, k)[j] == if j in on - {k} then c else 0
    ensures c * |on| == c + c * |on - {k}|
  {
  }

  /** Sums add key by key. */
  lemma {:induction false} SumAdd<K>(m: map<K, int>, n: map<K, int>, total: map<K, int>)
    requires m.Keys == n.Keys == total.Keys
    requires forall k :: k in total ==> total[k] == m[k] + n[k]
    ensures Sum(total) == Sum(m) + Sum(n)
    decreases |m.Keys|
  {
    if m.Keys != {} {
      var k := Pick(m);
      SumAt(m, k);
      SumAt(n, k);
      SumAt(total, k);
      SumAdd(Without(m, k), Without(n, k), Without(total, k));
    } else {
      assert n.Keys == {} && total.Keys == {};
    }
  }

  /** A non-negative sum vanishes only where every summand does. */
  lemma SumVanishes<K>(m: map<K, int>)
    requires forall k :: k in m ==> m[k] >= 0
    ensures Sum(m) == 0 <==> forall k :: k in m ==> m[k] == 0
  {
    if Sum(m) == 0 {
      forall k | k in m
        ensures m[k] == 0
      {
        SumCovers(m, k);
      }
    }
    if forall k :: k in m ==> m[k] == 0 {
      SumZero(m);
    }
  }

  /** Keys that map to 0 may be left out. */
  lemma {:induction false} SumIgnoresZeros<K>(m: map<K, int>, wider: map<K, int>)
    requires m.Keys <= wider.Keys
    requires forall k :: k in wider ==> wider[k] == if k in m then m[k] else 0
    ensures Sum(wider) == Sum(m)
    decreases |wider.Keys|
  {
    if k :| k in wider && k !in m {
      SumAt(wider, k);
      SumIgnoresZeros(m, Without(wider, k));
    } else {
      assert wider == m;
    }
  }
}
