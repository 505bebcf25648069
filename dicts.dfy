/** Python's dict: a map that remembers the order in which keys were first
    inserted. Overwriting a key keeps its position. */
module Dicts {
  import opened Errors

  datatype Dict<K(==), V> = Dict(keys: seq<K>, m: map<K, V>) {
    /** The insertion order lists every key exactly once. */
    ghost predicate Valid() {
      && (forall i, j :: 0 <= i < j < |keys| ==> keys[i] != keys[j])
      && (forall k :: k in m ==> k in keys)
      && (forall i :: 0 <= i < |keys| ==> keys[i] in m)
    }
  }

  function Empty<K(==), V>(): (d: Dict<K, V>)
    ensures d.Valid() && d.keys == [] && d.m == map[]
  {
    Dict([], map[])
  }

  /** d[k] = v */
  function Put<K(==), V>(d: Dict<K, V>, k: K, v: V): (r: Dict<K, V>)
    requires d.Valid()
    ensures r.Valid()
    ensures r.m == d.m[k := v]
    ensures k in d.m ==> r.keys == d.keys
    ensures k !in d.m ==> r.keys == d.keys + [k]
  {
    if k in d.m then Dict(d.keys, d.m[k := v]) else Dict(d.keys + [k], d.m[k := v])
  }

  /** Storing under k adds k to the keys and no other. */
  lemma PutKeys<K, V>(d: Dict<K, V>, k: K, v: V)
    requires d.Valid()
    ensures Put(d, k, v).m.Keys == d.m.Keys + {k}
  {
  }

  /** d.get(k) */
  function Get<K(==), V>(d: Dict<K, V>, k: K): (r: Option<V>)
    ensures r.Some? <==> k in d.m
    ensures r.Some? ==> r.value == d.m[k]
  {
    if k in d.m then Some(d.m[k]) else None
  }
}
