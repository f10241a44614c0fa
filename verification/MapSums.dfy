/** Sums over account maps: the totals that the programs shadow with counters. */
module MapSums {

  type Id = nat

  /** The sum of `f` over the values of `m`. */
  ghost function Sum<V(!new)>(m: map<Id, V>, f: V -> int): int
  {
    if m == map[] then 0
    else
      var k :| k in m;
      f(m[k]) + Sum(m - {k}, f)
  }

  /** The sum does not depend on the key it is unfolded at. */
  lemma {:induction false} SumSplit<V(!new)>(m: map<Id, V>, f: V -> int, k: Id)
    requires k in m
    ensures Sum(m, f) == f(m[k]) + Sum(m - {k}, f)
    decreases m
  {
    var j :| j in m && Sum(m, f) == f(m[j]) + Sum(m - {j}, f);
    if j != k {
      SumSplit(m - {j}, f, k);
      SumSplit(m - {k}, f, j);
      assert m - {j} - {k} == m - {k} - {j};
    }
  }

  /** What a key contributes to the sum, absent keys contributing nothing. */
  ghost function At<V(!new)>(m: map<Id, V>, f: V -> int, k: Id): int {
    if k in m then f(m[k]) else 0
  }

  lemma SumPut<V(!new)>(m: map<Id, V>, f: V -> int, k: Id, v: V)
    ensures Sum(m[k := v], f) == Sum(m, f) - At(m, f, k) + f(v)
  {
    SumSplit(m[k := v], f, k);
    assert m[k := v] - {k} == m - {k};
    if k in m {
      SumSplit(m, f, k);
    } else {
      assert m - {k} == m;
    }
  }

  lemma SumDrop<V(!new)>(m: map<Id, V>, f: V -> int, k: Id)
    ensures Sum(m - {k}, f) == Sum(m, f) - At(m, f, k)
  {
    if k in m {
      SumSplit(m, f, k);
    } else {
      assert m - {k} == m;
    }
  }

  /** If h = f + c * g on every value then the same holds of the sums. */
  lemma {:induction false} SumLinear<V(!new)>(m: map<Id, V>, h: V -> int, f: V -> int, g: V -> int, c: int)
    requires forall k :: k in m ==> h(m[k]) == f(m[k]) + c * g(m[k])
    ensures Sum(m, h) == Sum(m, f) + c * Sum(m, g)
    decreases m
  {
    if m == map[] {
    } else {
      var k :| k in m;
      SumSplit(m, h, k);
      SumSplit(m, f, k);
      SumSplit(m, g, k);
      SumLinear(m - {k}, h, f, g, c);
      assert c * (g(m[k]) + Sum(m - {k}, g)) == c * g(m[k]) + c * Sum(m - {k}, g);
    }
  }

  lemma {:induction false} SumNonNegative<V(!new)>(m: map<Id, V>, f: V -> int)
    requires forall k :: k in m ==> f(m[k]) >= 0
    ensures Sum(m, f) >= 0
    decreases m
  {
    if m == map[] {
    } else {
      var k :| k in m;
      SumSplit(m, f, k);
      SumNonNegative(m - {k}, f);
    }
  }

  /** A term of a sum of non-negative terms is at most the sum. */
  lemma SumAtLeast<V(!new)>(m: map<Id, V>, f: V -> int, k: Id)
    requires k in m
    requires forall j :: j in m ==> f(m[j]) >= 0
    ensures f(m[k]) <= Sum(m, f)
  {
    SumSplit(m, f, k);
    SumNonNegative(m - {k}, f);
  }

  lemma {:induction false} SumZero<V(!new)>(m: map<Id, V>, f: V -> int)
    requires forall k :: k in m ==> f(m[k]) == 0
    ensures Sum(m, f) == 0
    decreases m
  {
    if m == map[] {
    } else {
      var k :| k in m;
      SumSplit(m, f, k);
      SumZero(m - {k}, f);
    }
  }

  /** Pointwise comparison, also across two maps over the same keys. */
  lemma {:induction false} SumPointwise<V(!new), W(!new)>(m: map<Id, V>, f: V -> int, n: map<Id, W>, g: W -> int)
    requires m.Keys == n.Keys
    requires forall k :: k in m ==> f(m[k]) <= g(n[k])
    ensures Sum(m, f) <= Sum(n, g)
    decreases m
  {
    if m == map[] {
      assert n == map[];
    } else {
      var k :| k in m;
      SumSplit(m, f, k);
      SumSplit(n, g, k);
      SumPointwise(m - {k}, f, n - {k}, g);
    }
  }

  lemma SumScaled<V(!new)>(m: map<Id, V>, h: V -> int, f: V -> int, c: int)
    requires forall k :: k in m ==> h(m[k]) == c * f(m[k])
    ensures Sum(m, h) == c * Sum(m, f)
  {
    var zero := (v: V) => 0;
    SumZero(m, zero);
    SumLinear(m, h, zero, f, c);
  }
}
