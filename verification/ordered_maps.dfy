/** Insertion-ordered maps: the behaviour shared by a Python `dict` and a
    JavaScript `Map` that the scripts rely on. Writing an existing key
    replaces its value in place; writing a new key appends it; iteration
    follows insertion order; the size is the number of keys. */
module OrderedMaps {

  /** Both scripts key their maps by the store's displayed name. */
  type Key = string

  datatype OrderedMap<V> = OrderedMap(keys: seq<Key>, values: map<Key, V>) {

    /** Keys are listed once each, and the listed keys are exactly the keys
        that have a value. */
    ghost predicate Valid() {
      && Distinct(keys)
      && forall k :: k in values <==> k in keys
    }

    /** `len(d)` / `m.size`. */
    function Size(): nat {
      |keys|
    }

    /** The set of keys, ignoring order. */
    function KeySet(): set<Key> {
      values.Keys
    }
  }

  ghost predicate Distinct<K>(s: seq<K>) {
    forall i, j :: 0 <= i < j < |s| ==> s[i] != s[j]
  }

  function Empty<V>(): (m: OrderedMap<V>)
    ensures m.Valid() && m.Size() == 0 && m.KeySet() == {}
  {
    OrderedMap([], map[])
  }

  /** `d[k] = v` / `m.set(k, v)`. */
  function Put<V>(m: OrderedMap<V>, k: Key, v: V): (r: OrderedMap<V>)
    ensures m.Valid() ==> r.Valid()
    // the written key now holds the written value, every other key keeps its own
    ensures k in r.values && r.values[k] == v
    ensures forall k' :: k' != k ==> (k' in r.values <==> k' in m.values)
    ensures forall k' :: k' != k && k' in m.values ==> r.values[k'] == m.values[k']
    ensures r.KeySet() == m.KeySet() + {k}
    // the existing order is kept: an overwrite does not move its key
    ensures m.keys <= r.keys
    // the size grows by one exactly when the key is new
    ensures r.Size() == if k in m.values then m.Size() else m.Size() + 1
  {
    if k in m.values then OrderedMap(m.keys, m.values[k := v])
    else OrderedMap(m.keys + [k], m.values[k := v])
  }

  /** A map whose keys all lie in `u` has at most `|u|` entries: the measure
      that bounds a harvest over a finite set of names. */
  lemma {:induction false} SizeBound<V>(m: OrderedMap<V>, u: set<Key>)
    requires m.Valid()
    requires m.KeySet() <= u
    ensures m.Size() <= |u|
  {
    DistinctBound(m.keys, u);
  }

  lemma {:induction false} DistinctBound<K>(s: seq<K>, u: set<K>)
    requires Distinct(s)
    requires forall i :: 0 <= i < |s| ==> s[i] in u
    ensures |s| <= |u|
  {
    if |s| > 0 {
      var last := s[|s| - 1];
      var rest := s[..|s| - 1];
      assert forall i :: 0 <= i < |rest| ==> rest[i] in u - {last} by {
        forall i | 0 <= i < |rest|
          ensures rest[i] in u - {last}
        {
          assert rest[i] == s[i] && s[i] != s[|s| - 1];
        }
      }
      DistinctBound(rest, u - {last});
    }
  }

  /** When one map's key list extends another's, equal sizes mean that no
      key was added: "the size did not change" is "no new name". */
  lemma SameSizeSameKeys<V>(m: OrderedMap<V>, m': OrderedMap<V>)
    requires m.Valid() && m'.Valid()
    requires m.keys <= m'.keys
    ensures m'.Size() == m.Size() <==> m'.KeySet() == m.KeySet()
  {
    if m'.Size() != m.Size() {
      var k := m'.keys[m.Size()];
      assert k in m'.KeySet();
      assert k !in m.keys by {
        forall i | 0 <= i < |m.keys|
          ensures m.keys[i] != k
        {
          assert m.keys[i] == m'.keys[i];
        }
      }
    }
  }
}
