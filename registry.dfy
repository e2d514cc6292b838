/**
 * The three QHash tables of MainWindow are finite maps from a call id to a
 * handle (a popup handle or a timer handle).  Two handlers recover the call id
 * from a handle with QHash::key(value), a linear search over the table that
 * yields a default-constructed (empty) QString when no key holds the value.
 */
module Registry {

  /** The call id the event feed attaches to every channel event. */
  type CallId = string

  /** What QHash::key returns when no entry holds the value. */
  const NoKey: CallId := ""

  /** No two keys of `m` hold the same handle. */
  ghost predicate Injective(m: map<CallId, nat>)
  {
    forall a, b :: a in m && b in m && a != b ==> m[a] != m[b]
  }

  /** The specification of QHash::key: some key holding `v`, or NoKey. */
  ghost function KeyOf(m: map<CallId, nat>, v: nat): (k: CallId)
    ensures v in m.Values ==> k in m && m[k] == v
    ensures v !in m.Values ==> k == NoKey
  {
    if v in m.Values then
      var k :| k in m && m[k] == v; k
    else
      NoKey
  }

  /** In a table without shared handles, the key holding `v` is the only one. */
  lemma KeyOfUnique(m: map<CallId, nat>, k: CallId)
    requires Injective(m)
    requires k in m
    ensures KeyOf(m, m[k]) == k
  {
  }

  /** QHash::remove(key) on a table without shared handles drops exactly that key's handle. */
  lemma RemoveKey(m: map<CallId, nat>, k: CallId)
    requires Injective(m) && k in m
    ensures Injective(m - {k})
    ensures (m - {k}).Values == m.Values - {m[k]}
    ensures |m - {k}| == |m| - 1
  {
    var r := m - {k};
    assert r.Keys == m.Keys - {k};
    forall v | v in m.Values - {m[k]} ensures v in r.Values {
      var j :| j in m && m[j] == v;
      assert j != k && r[j] == v;
    }
  }

  /** QHash::insert(key, value) with a handle no other key holds keeps handles unshared. */
  lemma InsertKey(m: map<CallId, nat>, k: CallId, v: nat)
    requires Injective(m) && v !in (m - {k}).Values
    ensures Injective(m[k := v])
    ensures m[k := v].Values == (m - {k}).Values + {v}
  {
    var r := m[k := v];
    forall a, b | a in r && b in r && a != b ensures r[a] != r[b] {
      if a == k {
        assert r[b] == (m - {k})[b];
      } else if b == k {
        assert r[a] == (m - {k})[a];
      }
    }
    forall w | w in r.Values ensures w in (m - {k}).Values + {v} {
      var j :| j in r && r[j] == w;
      if j != k { assert (m - {k})[j] == w; }
    }
    forall w | w in (m - {k}).Values ensures w in r.Values {
      var j :| j in m - {k} && (m - {k})[j] == w;
      assert r[j] == w;
    }
    assert r[k] == v;
  }

  /** QHash::key(value): scan the keys until one holds `v`. */
  method FindKey(m: map<CallId, nat>, v: nat) returns (k: CallId)
    ensures v in m.Values ==> k in m && m[k] == v
    ensures v !in m.Values ==> k == NoKey
    ensures Injective(m) ==> k == KeyOf(m, v)
  {
    var rest := m.Keys;
    while rest != {}
      invariant rest <= m.Keys
      invariant forall j :: j in m && j !in rest ==> m[j] != v
      decreases rest
    {
      var j :| j in rest;
      if m[j] == v {
        if Injective(m) {
          KeyOfUnique(m, j);
        }
        return j;
      }
      rest := rest - {j};
    }
    k := NoKey;
  }
}
