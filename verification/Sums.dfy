/** Sums over finite maps. */
module Sums {

  ghost function Pick(m: map<int, int>): (k: int)
    requires exists k :: k in m
    ensures k in m
  {
    var k :| k in m; k
  }

  ghost function Sum(m: map<int, int>): int
    decreases m.Keys
  {
    if forall k :: k !in m then 0 else m[Pick(m)] + Sum(m - {Pick(m)})
  }

  lemma {:induction false} SumWithout(m: map<int, int>, k: int)
    requires k in m
    ensures Sum(m) == m[k] + Sum(m - {k})
    decreases m.Keys
  {
    var j := Pick(m);
    if j != k {
      SumWithout(m - {j}, k);
      SumWithout(m - {k}, j);
      assert m - {j} - {k} == m - {k} - {j};
    }
  }

  lemma SumWith(m: map<int, int>, k: int, x: int)
    ensures Sum(m[k := x]) == Sum(m) + x - (if k in m then m[k] else 0)
  {
    SumWithout(m[k := x], k);
    if k in m {
      SumWithout(m, k);
      assert m[k := x] - {k} == m - {k};
    } else {
      assert m[k := x] - {k} == m;
    }
  }
}
