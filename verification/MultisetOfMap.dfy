/** The values of a map counted with multiplicity. */
module MultisetOfMap {
  ghost function Pick<K, V>(m: map<K, V>): (k: K)
    requires m != map[]
    ensures k in m
  {
    assert m.Keys != {};
    var k :| k in m.Keys; k
  }

  ghost function Values<K, V>(m: map<K, V>): multiset<V>
    decreases |m.Keys|
  {
    if m == map[] then multiset{}
    else
      var k := Pick(m);
      assert (m - {k}).Keys == m.Keys - {k};
      multiset{m[k]} + Values(m - {k})
  }

  /** Unfolding at any key, not just the picked one. */
  lemma {:induction false} ValuesRemove<K, V>(m: map<K, V>, k: K)
    requires k in m
    ensures Values(m) == multiset{m[k]} + Values(m - {k})
    decreases |m.Keys|
  {
    var p := Pick(m);
    var mp, mk := m - {p}, m - {k};
    assert Values(m) == multiset{m[p]} + Values(mp);
    if p != k {
      assert mp.Keys == m.Keys - {p} && mk.Keys == m.Keys - {k};
      assert mp - {k} == mk - {p};
      ValuesRemove(mp, k);
      ValuesRemove(mk, p);
      assert mp[k] == m[k] && mk[p] == m[p];
    }
  }

  lemma ValuesInsert<K, V>(m: map<K, V>, k: K, v: V)
    requires k !in m
    ensures Values(m[k := v]) == multiset{v} + Values(m)
  {
    ValuesRemove(m[k := v], k);
    assert m[k := v] - {k} == m;
  }
}
