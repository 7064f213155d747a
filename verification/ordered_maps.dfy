/**
 * A PHP array with string keys: a finite map together with the order in
 * which its keys were first inserted.  Writing to a key that is already
 * present replaces the value and keeps the key's position, as PHP does.
 */
module OrderedMaps {

  datatype OMap<K(==,!new), V> = OMap(keys: seq<K>, vals: map<K, V>) {

    /** Keys are distinct and are exactly the keys of the map. */
    ghost predicate Valid() {
      && (forall i, j | 0 <= i < j < |keys| :: keys[i] != keys[j])
      && (forall k :: k in vals <==> k in keys)
    }

    /** `$a[$k] = $v` */
    function Put(k: K, v: V): (r: OMap<K, V>)
      ensures r.vals == vals[k := v]
      ensures k in vals ==> r.keys == keys
      ensures k !in vals ==> r.keys == keys + [k]
      ensures Valid() ==> r.Valid()
    {
      OMap(if k in vals then keys else keys + [k], vals[k := v])
    }
  }

  function Empty<K(==,!new), V>(): (r: OMap<K, V>)
    ensures r.Valid() && r.keys == [] && r.vals == map[]
  {
    OMap([], map[])
  }

  /** Writing a value that is already stored changes nothing, not even the order. */
  lemma PutPresent<K(!new), V>(m: OMap<K, V>, k: K, v: V)
    requires k in m.vals && m.vals[k] == v
    ensures m.Put(k, v) == m
  {
    assert m.vals[k := v] == m.vals;
  }
}
