/** Sums over what players have: a map from player to whatever is his. */
module Ledger {

  /** What everything in the map is worth together. */
  ghost function Total<V>(m: map<string, V>, worth: V -> int): int
    decreases |m|
  {
    if m == map[] then 0 else
    var k :| k in m;
    worth(m[k]) + Total(m - {k}, worth)
  }

  lemma {:induction false} TotalRemoved<V>(m: map<string, V>, k: string, worth: V -> int)
    requires k in m
    ensures Total(m, worth) == worth(m[k]) + Total(m - {k}, worth)
    decreases |m|
  {
    var j :| j in m && Total(m, worth) == worth(m[j]) + Total(m - {j}, worth);
    if j != k {
      TotalRemoved(m - {j}, k, worth);
      TotalRemoved(m - {k}, j, worth);
      assert m - {j} - {k} == m - {k} - {j};
    }
  }

  function Worth<V>(m: map<string, V>, k: string, worth: V -> int): int {
    if k in m then worth(m[k]) else 0
  }

  lemma TotalUpdated<V>(m: map<string, V>, k: string, v: V, worth: V -> int)
    ensures Total(m[k := v], worth) == Total(m, worth) - Worth(m, k, worth) + worth(v)
  {
    var n := m[k := v];
    TotalRemoved(n, k, worth);
    if k in m {
      TotalRemoved(m, k, worth);
      assert n - {k} == m - {k};
    } else {
      assert n - {k} == m;
    }
  }

  lemma TotalDropped<V>(m: map<string, V>, k: string, worth: V -> int)
    ensures Total(m - {k}, worth) == Total(m, worth) - Worth(m, k, worth)
  {
    if k in m {
      TotalRemoved(m, k, worth);
    } else {
      assert m - {k} == m;
    }
  }

  function Counter(m: map<string, int>, k: string): int {
    if k in m then m[k] else 0
  }

  const ITSELF: int -> int := (n: int) => n

  function Added(m: map<string, int>, more: map<string, int>): map<string, int> {
    map k | k in m.Keys + more.Keys :: Counter(m, k) + Counter(more, k)
  }

  lemma AddedOne(m: map<string, int>, more: map<string, int>, k: string)
    requires k in more
    ensures Added(m, more) == Added(m[k := Counter(m, k) + more[k]], more - {k})
  {
    var one, rest := m[k := Counter(m, k) + more[k]], more - {k};
    forall j | j in Added(m, more)
      ensures j in Added(one, rest) && Added(one, rest)[j] == Added(m, more)[j]
    {
    }
    assert Added(m, more).Keys == Added(one, rest).Keys;
  }

  lemma NothingAdded(m: map<string, int>)
    ensures Added(m, map[]) == m
    ensures Total(map[], ITSELF) == 0
  {
  }

  lemma {:induction false} TotalAdded(m: map<string, int>, more: map<string, int>)
    ensures Total(Added(m, more), ITSELF) == Total(m, ITSELF) + Total(more, ITSELF)
    decreases |more|
  {
    hide Total;
    hide Added;
    if more == map[] {
      NothingAdded(m);
    } else {
      var k :| k in more;
      AddedOne(m, more, k);
      assert (more - {k}).Keys == more.Keys - {k};
      TotalAdded(m[k := Counter(m, k) + more[k]], more - {k});
      TotalUpdated(m, k, Counter(m, k) + more[k], ITSELF);
      TotalRemoved(more, k, ITSELF);
    }
  }
}
