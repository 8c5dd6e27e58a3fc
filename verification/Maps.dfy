/** Maps that take no value twice. */
module Maps {
  ghost predicate Injective<K, V>(m: map<K, V>) {
    forall t, u :: t in m && u in m && m[t] == m[u] ==> t == u
  }

  lemma ValuesWith<K, V>(m: map<K, V>, k: K, v: V)
    requires Injective(m) && k !in m && v !in m.Values
    ensures Injective(m[k := v]) && m[k := v].Values == m.Values + {v}
  {
    var m' := m[k := v];
    assert k in m';
    forall u | u in m.Values ensures u in m'.Values {
      var t :| t in m && m[t] == u;
      assert t in m' && m'[t] == u;
    }
  }

  lemma ValuesWithout<K, V>(m: map<K, V>, k: K)
    requires Injective(m) && k in m
    ensures Injective(m - {k}) && (m - {k}).Values == m.Values - {m[k]}
  {
    forall u | u in m.Values - {m[k]} ensures u in (m - {k}).Values {
      var t :| t in m && m[t] == u;
      assert t in m - {k} && (m - {k})[t] == u;
    }
  }

  lemma SizeOfValues<K, V>(m: map<K, V>)
    requires Injective(m)
    ensures |m.Keys| == |m.Values|
    decreases m.Keys
  {
    if m == map[] {
      assert m.Values == {};
    } else {
      var k :| k in m;
      ValuesWithout(m, k);
      SizeOfValues(m - {k});
      assert (m - {k}).Keys == m.Keys - {k};
    }
  }
}
