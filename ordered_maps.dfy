/** A JavaScript `Map`: a finite map whose iteration order is the order in
    which keys were first inserted. `set` on a key already present replaces
    its value and keeps its position. */
module OrderedMaps {
  import opened Types
  import opened Seqs

  datatype OrderedMap<K(!new), V> = OrderedMap(keys: seq<K>, entries: map<K, V>)
  {
    /** Each key is listed once, and the listed keys are the keys of the map. */
    ghost predicate Valid()
    {
      && (forall i, j :: 0 <= i < j < |keys| ==> keys[i] != keys[j])
      && (forall k :: k in entries <==> k in keys)
    }

    /** `m.get(k)`, with `None` for `undefined`. */
    function Get(k: K): (r: Option<V>)
      ensures r.Some? <==> k in entries
      ensures r.Some? ==> r.value == entries[k]
    {
      if k in entries then Some(entries[k]) else None
    }

    /** `m.set(k, v)`. */
    function Set(k: K, v: V): (r: OrderedMap<K, V>)
      ensures Valid() ==> r.Valid()
      ensures r.entries == entries[k := v]
      ensures k in entries ==> r.keys == keys
      ensures k !in entries ==> r.keys == keys + [k]
    {
      if k in entries then OrderedMap(keys, entries[k := v])
      else OrderedMap(keys + [k], entries[k := v])
    }

    /** `Array.from(m.values())`. */
    function Values(): (r: seq<V>)
      requires Valid()
      ensures |r| == |keys|
      ensures forall i :: 0 <= i < |keys| ==> r[i] == entries[keys[i]]
    {
      ValuesOf(keys, entries)
    }
  }

  /** The empty map, `new Map()`. */
  function Empty<K(!new), V>(): (m: OrderedMap<K, V>)
    ensures m.Valid() && m.keys == [] && m.entries == map[]
  {
    OrderedMap([], map[])
  }

  /** The values stored under `ks`, in the order of `ks`. */
  function ValuesOf<K, V>(ks: seq<K>, entries: map<K, V>): (r: seq<V>)
    requires forall i :: 0 <= i < |ks| ==> ks[i] in entries
    ensures |r| == |ks|
    ensures forall i :: 0 <= i < |ks| ==> r[i] == entries[ks[i]]
  {
    if ks == [] then [] else [entries[ks[0]]] + ValuesOf(ks[1..], entries)
  }

  /** The predicate "is a key of `m`". */
  function InMap<K, V>(m: map<K, V>): K -> bool
  {
    k => k in m
  }

  /** `ids.map(id => m.get(id)).filter(v => v !== undefined)`: the values of the
      known ids, in the order of `ids`, unknown ids skipped. */
  function LookupAll<K(!new), V>(ids: seq<K>, m: map<K, V>): (r: seq<V>)
    ensures |r| == |Filter(InMap(m), ids)| <= |ids|
    ensures forall i :: 0 <= i < |r| ==> r[i] == m[Filter(InMap(m), ids)[i]]
  {
    if ids == [] then []
    else if ids[0] in m then [m[ids[0]]] + LookupAll(ids[1..], m)
    else LookupAll(ids[1..], m)
  }

  /** A `set` of a new key appends its value to the iteration; a `set` of a
      present key replaces the value in place. */
  lemma SetValues<K(!new), V>(m: OrderedMap<K, V>, k: K, v: V)
    requires m.Valid()
    ensures k !in m.entries ==> m.Set(k, v).Values() == m.Values() + [v]
    ensures k in m.entries ==>
      exists i :: 0 <= i < |m.keys| && m.keys[i] == k && m.Set(k, v).Values() == m.Values()[i := v]
  {
    var r := m.Set(k, v);
    if k in m.entries {
      var i :| 0 <= i < |m.keys| && m.keys[i] == k;
      assert r.Values() == m.Values()[i := v];
    } else {
      assert r.Values() == m.Values() + [v];
    }
  }
}
