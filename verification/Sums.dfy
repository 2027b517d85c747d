/** Finite sums over a set of keys, and how they change when one summand does. */
module Sums {
  ghost function SumOver<K(!new)>(keys: set<K>, f: K -> int): int {
    if keys == {} then 0
    else
      var k :| k in keys;
      f(k) + SumOver(keys - {k}, f)
  }

  /** Any key can be taken out first. */
  lemma {:induction false} SumRemove<K(!new)>(keys: set<K>, f: K -> int, k: K)
    requires k in keys
    ensures SumOver(keys, f) == f(k) + SumOver(keys - {k}, f)
  {
    var j :| j in keys && SumOver(keys, f) == f(j) + SumOver(keys - {j}, f);
    if j != k {
      SumRemove(keys - {j}, f, k);
      SumRemove(keys - {k}, f, j);
      assert keys - {j} - {k} == keys - {k} - {j};
    }
  }

  lemma {:induction false} SumAgrees<K(!new)>(keys: set<K>, f: K -> int, g: K -> int)
    requires forall k | k in keys :: f(k) == g(k)
    ensures SumOver(keys, f) == SumOver(keys, g)
  {
    if keys != {} {
      var k :| k in keys;
      SumRemove(keys, f, k);
      SumRemove(keys, g, k);
      SumAgrees(keys - {k}, f, g);
    }
  }

  /** Writing one key changes the sum by the change of that summand. */
  lemma SumPut<K(!new)>(keys: set<K>, f: K -> int, g: K -> int, k: K)
    requires forall j | j in keys && j != k :: f(j) == g(j)
    ensures SumOver(keys + {k}, g) == SumOver(keys, f) + g(k) - if k in keys then f(k) else 0
  {
    SumRemove(keys + {k}, g, k);
    if k in keys {
      SumRemove(keys, f, k);
      assert keys + {k} - {k} == keys - {k};
      SumAgrees(keys - {k}, f, g);
    } else {
      assert keys + {k} - {k} == keys;
      SumAgrees(keys, f, g);
    }
  }

  /** A summand-wise linear change is a linear change of the sum. */
  lemma {:induction false} SumShift<K(!new)>(keys: set<K>, f: K -> int, g: K -> int, h: K -> int, c: int)
    requires forall k | k in keys :: h(k) == f(k) + c * g(k)
    ensures SumOver(keys, h) == SumOver(keys, f) + c * SumOver(keys, g)
  {
    if keys != {} {
      var k :| k in keys;
      SumRemove(keys, f, k);
      SumRemove(keys, g, k);
      SumRemove(keys, h, k);
      SumShift(keys - {k}, f, g, h, c);
      assert c * (g(k) + SumOver(keys - {k}, g)) == c * g(k) + c * SumOver(keys - {k}, g);
    }
  }

  lemma {:induction false} SumAtMost<K(!new)>(keys: set<K>, f: K -> int, g: K -> int)
    requires forall k | k in keys :: f(k) <= g(k)
    ensures SumOver(keys, f) <= SumOver(keys, g)
  {
    if keys != {} {
      var k :| k in keys;
      SumRemove(keys, f, k);
      SumRemove(keys, g, k);
      SumAtMost(keys - {k}, f, g);
    }
  }

  lemma {:induction false} SumNonNeg<K(!new)>(keys: set<K>, f: K -> int)
    requires forall k | k in keys :: 0 <= f(k)
    ensures 0 <= SumOver(keys, f)
  {
    if keys != {} {
      var k :| k in keys;
      SumRemove(keys, f, k);
      SumNonNeg(keys - {k}, f);
    }
  }
}
