/**
 * Python's insertion-ordered `dict` with string keys: the key order is kept
 * as a sequence beside the key/value map. Assigning to a key already present
 * replaces its value and keeps its place; assigning to a new key appends it.
 */
module Dicts {
  import opened Geometry

  ghost predicate Distinct(ks: seq<string>)
  {
    forall i, j :: 0 <= i < j < |ks| ==> ks[i] != ks[j]
  }

  datatype ODict<V> = ODict(keys: seq<string>, entries: map<string, V>)
  {
    /** The order lists every key of the map exactly once. */
    ghost predicate Valid()
    {
      && Distinct(keys)
      && (forall k :: k in entries <==> k in keys)
    }

    /** `d.get(k)` */
    function Get(k: string): (r: Option<V>)
      ensures r.Some? <==> k in entries
    {
      if k in entries then Some(entries[k]) else None
    }

    /** `d[k] = v` */
    function Put(k: string, v: V): (r: ODict<V>)
      ensures Valid() ==> r.Valid()
      ensures r.Get(k) == Some(v)
      ensures forall k' :: k' != k ==> r.Get(k') == Get(k')
      ensures Valid() && k in keys ==> r.keys == keys
      ensures Valid() && k !in keys ==> r.keys == keys + [k]
    {
      ODict(if k in entries then keys else keys + [k], entries[k := v])
    }
  }

  function Empty<V>(): (d: ODict<V>)
    ensures d.Valid() && d.keys == []
    ensures forall k :: d.Get(k) == None
  {
    ODict([], map[])
  }

  /** Writing one key twice leaves the later value, in the first write's place. */
  lemma PutPut<V>(d: ODict<V>, k: string, v: V, w: V)
    ensures d.Put(k, v).Put(k, w) == d.Put(k, w)
  {
    assert d.Put(k, v).keys == d.Put(k, w).keys;
    assert d.Put(k, v).Put(k, w).entries == d.Put(k, w).entries;
  }
}
