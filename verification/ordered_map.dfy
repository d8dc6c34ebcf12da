/** The JavaScript `Map` with string keys, as the stores of the blog and of the
    webhook registry use it: lookup by key, `set` that replaces a value in
    place or appends a new key, `delete` that reports whether the key was
    there, and `values()` in insertion order. */
module OrderedMap {
  import opened Wrappers
  import Sequences

  /** Keys in insertion order beside the key-to-value map. */
  datatype Raw<V> = Raw(order: seq<string>, entries: map<string, V>) {

    predicate Valid() {
      && (forall i, j :: 0 <= i < j < |order| ==> order[i] != order[j])
      && (forall k :: k in entries ==> k in order)
      && (forall i :: 0 <= i < |order| ==> order[i] in entries)
    }
  }

  type OMap<V> = m: Raw<V> | m.Valid() witness Raw([], map[])

  function Empty<V>(): (m: OMap<V>)
    ensures m.entries == map[] && m.order == []
  {
    Raw([], map[])
  }

  /** `map.get(key)`, with `undefined` as `None`. */
  function Get<V>(m: OMap<V>, key: string): (r: Option<V>)
    ensures r.Some? <==> key in m.entries
    ensures r.Some? ==> r.value == m.entries[key]
  {
    if key in m.entries then Some(m.entries[key]) else None
  }

  /** `map.set(key, value)`: an existing key keeps its place in the order. */
  function Set<V>(m: OMap<V>, key: string, value: V): (r: OMap<V>)
    ensures r.entries == m.entries[key := value]
    ensures key in m.entries ==> r.order == m.order
    ensures key !in m.entries ==> r.order == m.order + [key]
  {
    if key in m.entries then Raw(m.order, m.entries[key := value])
    else Raw(m.order + [key], m.entries[key := value])
  }

  /** The test `k !== key`. */
  function Other(key: string): string -> bool {
    k => k != key
  }

  /** `order` with every occurrence of `key` removed: the other keys keep
      their relative order. */
  function Without(order: seq<string>, key: string): (r: seq<string>)
    ensures r == Sequences.Filter(order, Other(key))
    ensures forall k :: k in r <==> k in order && k != key
    ensures |r| <= |order|
    ensures (forall i, j :: 0 <= i < j < |order| ==> order[i] != order[j]) ==>
              forall i, j :: 0 <= i < j < |r| ==> r[i] != r[j]
  {
    if |order| == 0 then []
    else if order[0] == key then Without(order[1..], key)
    else
      var rest := Without(order[1..], key);
      assert (forall i, j :: 0 <= i < j < |order| ==> order[i] != order[j]) ==> order[0] !in rest by {
        if forall i, j :: 0 <= i < j < |order| ==> order[i] != order[j] {
          assert forall j :: 0 <= j < |order[1..]| ==> order[1..][j] == order[j + 1];
        }
      }
      [order[0]] + rest
  }

  /** `map.delete(key)`: the map without `key`, and whether `key` was there. */
  function Delete<V>(m: OMap<V>, key: string): (r: (OMap<V>, bool))
    ensures r.1 <==> key in m.entries
    ensures r.0.entries == m.entries - {key}
    ensures r.0.order == Without(m.order, key)
  {
    var r: Raw<V> := Raw(Without(m.order, key), m.entries - {key});
    assert forall i :: 0 <= i < |r.order| ==> r.order[i] in r.order;
    (r, key in m.entries)
  }

  /** `Array.from(map.values())`: one value per key, in insertion order. */
  function Values<V>(m: OMap<V>): (r: seq<V>)
    ensures |r| == |m.order| == |m.entries|
    ensures forall i :: 0 <= i < |r| ==> m.order[i] in m.entries && r[i] == m.entries[m.order[i]]
  {
    DistinctCardinality(m);
    seq(|m.order|, i requires 0 <= i < |m.order| => m.entries[m.order[i]])
  }

  /** Every stored value appears in `Values`, and nothing else does. */
  lemma ValuesAreEntries<V>(m: OMap<V>, v: V)
    ensures v in Values(m) <==> exists k :: k in m.entries && m.entries[k] == v
  {
    var vs := Values(m);
    if exists k :: k in m.entries && m.entries[k] == v {
      var k :| k in m.entries && m.entries[k] == v;
      var i :| 0 <= i < |m.order| && m.order[i] == k;
      assert vs[i] == v;
    }
  }

  lemma {:induction false} DistinctCardinality<V>(m: OMap<V>)
    ensures |m.order| == |m.entries|
  {
    DistinctSeqCardinality(m.order);
    assert m.entries.Keys == set k | k in m.order;
  }

  lemma {:induction false} DistinctSeqCardinality(s: seq<string>)
    requires forall i, j :: 0 <= i < j < |s| ==> s[i] != s[j]
    ensures |set k | k in s| == |s|
  {
    if |s| > 0 {
      var rest := s[1..];
      DistinctSeqCardinality(rest);
      assert (set k | k in s) == (set k | k in rest) + {s[0]};
      assert s[0] !in rest;
    }
  }
}
