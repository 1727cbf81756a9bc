/** Python's `dict` with string keys, as the aggregators use it: a mapping
    that also remembers the order in which its keys were first inserted,
    which is the order in which `dict.items()` yields them. */
module Dicts {

  datatype Dict<V> = Dict(keys: seq<string>, entries: map<string, V>) {

    /** Every key is listed once, and the listed keys are the mapped ones. */
    ghost predicate Valid() {
      && (forall i, j :: 0 <= i < j < |keys| ==> keys[i] != keys[j])
      && (forall k :: k in entries <==> k in keys)
    }

    /** `d[k] = v`: a key already present keeps its place and gets the new
        value; a new key goes at the end. Every other key keeps its value. */
    function Set(k: string, v: V): (d: Dict<V>)
      requires Valid()
      ensures d.Valid()
      ensures k in d.entries && d.entries[k] == v
      ensures forall k' :: k' != k ==> (k' in d.entries <==> k' in entries)
      ensures forall k' :: k' != k && k' in entries ==> d.entries[k'] == entries[k']
      ensures d.keys == if k in entries then keys else keys + [k]
    {
      if k in entries then Dict(keys, entries[k := v]) else Dict(keys + [k], entries[k := v])
    }
  }

  /** `{}` */
  function Empty<V>(): (d: Dict<V>)
    ensures d.Valid() && d.keys == [] && d.entries == map[]
  {
    Dict([], map[])
  }

  /** Copying the entries of one dictionary into another in key order: when
      the keys copied so far are the first `j` keys of `keys`, which are
      distinct, the next key is new, and inserting it keeps the copied keys a
      prefix of `keys`. */
  lemma InsertNext<U, V>(source: Dict<U>, j: nat, copy: Dict<V>, v: V)
    requires source.Valid() && j < |source.keys|
    requires copy.Valid() && copy.keys == source.keys[..j]
    ensures source.keys[j] !in copy.entries
    ensures copy.Set(source.keys[j], v).keys == source.keys[..j + 1]
  {
    var k := source.keys[j];
    forall i | 0 <= i < j ensures copy.keys[i] != k {
      assert copy.keys[i] == source.keys[i];
    }
    assert source.keys[..j + 1] == source.keys[..j] + [k];
  }

  /** A dictionary is determined by its keys, in order, and their values. */
  lemma DictEqual<V>(a: Dict<V>, b: Dict<V>)
    requires a.Valid() && b.Valid() && a.keys == b.keys
    requires forall k :: k in a.entries && k in b.entries ==> a.entries[k] == b.entries[k]
    ensures a == b
  {
    assert a.entries.Keys == b.entries.Keys;
  }
}
