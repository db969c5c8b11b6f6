/** Counting the pairs of an indexed family of finite sets. */
module Fibers {
  function Spread<K, T>(m: map<K, set<T>>): set<(K, T)> {
    set k, t | k in m && t in m[k] :: (k, t)
  }

  function Fiber<K(==), T>(k: K, s: set<T>): set<(K, T)> {
    set t | t in s :: (k, t)
  }

  lemma {:induction false} FiberCard<K, T>(k: K, s: set<T>)
    ensures |Fiber(k, s)| == |s|
  {
    if s == {} {
      assert Fiber(k, s) == {};
    } else {
      var t :| t in s;
      FiberCard(k, s - {t});
      assert Fiber(k, s) == Fiber(k, s - {t}) + {(k, t)};
    }
  }

  lemma SpreadSplit<K, T>(m: map<K, set<T>>, k: K)
    requires k in m
    ensures |Spread(m)| == |Spread(m - {k})| + |m[k]|
  {
    FiberCard(k, m[k]);
    assert Spread(m) == Spread(m - {k}) + Fiber(k, m[k]);
  }

  /** Replacing one member of the family changes the count by the difference of the two members. */
  lemma SpreadUpdate<K, T>(m: map<K, set<T>>, k: K, s: set<T>)
    ensures |Spread(m[k := s])| == |Spread(m)| + |s| - (if k in m then |m[k]| else 0)
  {
    SpreadSplit(m[k := s], k);
    if k in m {
      SpreadSplit(m, k);
    } else {
      assert m - {k} == m;
    }
    assert m[k := s] - {k} == m - {k};
  }

  lemma {:induction false} EmptySpread<K, T>(m: map<K, set<T>>)
    requires forall k | k in m :: m[k] == {}
    ensures Spread(m) == {}
  {
  }

  /** An injective map has at most as many keys as any set its values lie in. */
  lemma {:induction false} InjectionCard<K, V>(m: map<K, V>, values: set<V>)
    requires m.Values <= values
    requires forall j, k | j in m && k in m && m[j] == m[k] :: j == k
    ensures |m| <= |values|
  {
    if m != map[] {
      var k :| k in m;
      var rest := m - {k};
      assert m[k] in m.Values;
      forall v | v in rest.Values
        ensures v in values - {m[k]}
      {
        var j :| j in rest && rest[j] == v;
        assert j in m && m[j] == v;
      }
      InjectionCard(rest, values - {m[k]});
      assert m.Keys == rest.Keys + {k};
    }
  }

  /** A family of disjoint subsets has no more elements than the set they lie in. */
  lemma DisjointSpread<K, T>(m: map<K, set<T>>, whole: set<T>)
    requires forall k | k in m :: m[k] <= whole
    requires forall k, k', t | k in m && k' in m && t in m[k] && t in m[k'] :: k == k'
    ensures |Spread(m)| <= |whole|
  {
    var index := map p | p in Spread(m) :: p.1;
    forall t | t in index.Values
      ensures t in whole
    {
    }
    assert index.Keys == Spread(m);
    InjectionCard(index, whole);
  }
}
