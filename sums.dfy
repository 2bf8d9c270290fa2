/**
 Sums over finite maps, used to state what a product's stock should be: the
 net of every transaction and every order line that names it, however many
 rows each table holds and in whatever order they were written.
 */
module Sums {

  /** The sum of the values of a finite map; the order of the keys does not matter. */
  ghost function MapSum<K>(m: map<K, int>): int
    decreases |m|
  {
    if |m| == 0 then 0
    else
      var k :| k in m;
      m[k] + MapSum(m - {k})
  }

  /** Any key can be split off a map's sum, whichever one the definition picked. */
  lemma {:induction false} MapSumRemove<K>(m: map<K, int>, k: K)
    requires k in m
    ensures MapSum(m) == m[k] + MapSum(m - {k})
    decreases |m|
  {
    var j :| j in m && MapSum(m) == m[j] + MapSum(m - {j}) by {
      assert |m| != 0;
    }
    if j != k {
      var mj, mk := m - {j}, m - {k};
      assert |mj| < |m| && |mk| < |m| by {
        assert mj.Keys == m.Keys - {j};
        assert mk.Keys == m.Keys - {k};
      }
      var rest := mj - {k};
      assert rest == mk - {j};
      assert MapSum(mj) == m[k] + MapSum(rest) by { MapSumRemove(mj, k); }
      assert MapSum(mk) == m[j] + MapSum(rest) by { MapSumRemove(mk, j); }
    }
  }

  /** Writing `v` at key `k` replaces the old value's share of the sum by `v`. */
  lemma MapSumUpdate<K>(m: map<K, int>, k: K, v: int)
    ensures MapSum(m[k := v]) == MapSum(m) - (if k in m then m[k] else 0) + v
  {
    MapSumRemove(m[k := v], k);
    assert m[k := v] - {k} == m - {k};
    if k in m {
      MapSumRemove(m, k);
    } else {
      assert m - {k} == m;
    }
  }

  /** Deleting key `k` takes its value out of the sum; deleting an absent key changes nothing. */
  lemma MapSumDelete<K>(m: map<K, int>, k: K)
    ensures MapSum(m - {k}) == MapSum(m) - (if k in m then m[k] else 0)
  {
    if k in m {
      MapSumRemove(m, k);
    } else {
      assert m - {k} == m;
    }
  }
}
