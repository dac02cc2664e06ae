/** Shared vocabulary: optional values, results with an error case, and sums over finite maps. */
module Common {

  /** A nullable column or an absent optional argument. */
  datatype Option<+T> = None | Some(value: T)

  /** A value returned, or the error thrown instead. */
  datatype Result<+T, +E> = Ok(value: T) | Err(error: E)

  /** The sum of `f` over the values of `m`. */
  ghost function SumOver<K, V>(m: map<K, V>, f: V -> nat): nat
  {
    if m == map[] then 0
    else
      var k :| k in m;
      f(m[k]) + SumOver(m - {k}, f)
  }

  /** Any key may be taken out of the sum first. */
  lemma {:induction false} SumSplit<K, V>(m: map<K, V>, f: V -> nat, k: K)
    requires k in m
    ensures SumOver(m, f) == f(m[k]) + SumOver(m - {k}, f)
    decreases |m|
  {
    var first :| first in m && SumOver(m, f) == f(m[first]) + SumOver(m - {first}, f);
    if first != k {
      SumSplit(m - {first}, f, k);
      SumSplit(m - {k}, f, first);
      assert m - {first} - {k} == m - {k} - {first};
    }
  }

  /** Replacing (or adding) one value changes the sum by exactly that value. */
  lemma SumUpdate<K, V>(m: map<K, V>, f: V -> nat, k: K, v: V)
    ensures SumOver(m[k := v], f) == f(v) + SumOver(m - {k}, f)
    ensures k in m ==> SumOver(m[k := v], f) == SumOver(m, f) - f(m[k]) + f(v)
    ensures k !in m ==> SumOver(m[k := v], f) == SumOver(m, f) + f(v)
  {
    SumSplit(m[k := v], f, k);
    assert m[k := v] - {k} == m - {k};
    if k in m {
      SumSplit(m, f, k);
    } else {
      assert m - {k} == m;
    }
  }

  /** When no value grows and every value under a key of `shrunk` shrinks, the sum shrinks by at least |shrunk|. */
  lemma {:induction false} SumShrinks<K, V>(before: map<K, V>, after: map<K, V>, f: V -> nat, shrunk: set<K>)
    requires before.Keys == after.Keys
    requires forall k :: k in before ==> f(after[k]) + (if k in shrunk then 1 else 0) <= f(before[k])
    requires shrunk <= before.Keys
    ensures SumOver(after, f) + |shrunk| <= SumOver(before, f)
    decreases |before|
  {
    if before == map[] {
      assert after == map[];
      assert shrunk == {};
    } else {
      var k :| k in before;
      SumSplit(before, f, k);
      SumSplit(after, f, k);
      SumShrinks(before - {k}, after - {k}, f, shrunk - {k});
      assert shrunk == if k in shrunk then (shrunk - {k}) + {k} else shrunk - {k};
    }
  }
}
