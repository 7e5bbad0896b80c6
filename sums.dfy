/**
 * Sums of integers over a finite set of keys, the order-free counterpart of
 * Python's `sum(d[k] for k in d)` over a dict. The summing order is left
 * unspecified; the lemmas show that it does not matter.
 */
module Sums {

  /** The sum of `f` over `keys`, taking the keys in an unspecified order. */
  ghost function SumOver<K>(f: K -> int, keys: set<K>): int
    decreases keys
  {
    if keys == {} then 0
    else
      var k :| k in keys;
      f(k) + SumOver(f, keys - {k})
  }

  /** Any key may be taken out first: the sum does not depend on the order. */
  lemma {:induction false} SumOverRemove<K>(f: K -> int, keys: set<K>, k: K)
    requires k in keys
    ensures SumOver(f, keys) == f(k) + SumOver(f, keys - {k})
    decreases keys
  {
    var j :| j in keys && SumOver(f, keys) == f(j) + SumOver(f, keys - {j});
    if j != k {
      SumOverRemove(f, keys - {j}, k);
      SumOverRemove(f, keys - {k}, j);
      assert keys - {j} - {k} == keys - {k} - {j};
    }
  }

  /** Two functions that agree on the keys have the same sum over them. */
  lemma {:induction false} SumOverAgree<K>(f: K -> int, g: K -> int, keys: set<K>)
    requires forall k :: k in keys ==> f(k) == g(k)
    ensures SumOver(f, keys) == SumOver(g, keys)
    decreases keys
  {
    if keys != {} {
      var k :| k in keys;
      SumOverRemove(f, keys, k);
      SumOverRemove(g, keys, k);
      SumOverAgree(f, g, keys - {k});
    }
  }

  /** A function that is zero on the keys sums to zero over them. */
  lemma {:induction false} SumOverZero<K>(f: K -> int, keys: set<K>)
    requires forall k :: k in keys ==> f(k) == 0
    ensures SumOver(f, keys) == 0
    decreases keys
  {
    if keys != {} {
      var k :| k in keys;
      SumOverRemove(f, keys, k);
      SumOverZero(f, keys - {k});
    }
  }
}
