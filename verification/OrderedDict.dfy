/** An insertion-ordered dictionary: assigning to a key that is present keeps its
    place, a new key goes to the end. */
module OrderedDict {

  datatype Dict<K(==), V> = Dict(keys: seq<K>, data: map<K, V>) {

    ghost predicate Valid() {
      && (forall i, j | 0 <= i < j < |keys| :: keys[i] != keys[j])
      && (forall k | k in keys :: k in data)
      && (forall k | k in data :: k in keys)
    }

    predicate Has(k: K) {
      k in data
    }

    function Put(k: K, v: V): (d: Dict<K, V>)
      ensures d.data == data[k := v]
      ensures Has(k) ==> d.keys == keys
      ensures Valid() ==> d.Valid()
    {
      Dict(if k in data then keys else keys + [k], data[k := v])
    }
  }

  function Empty<K(==), V>(): (d: Dict<K, V>)
    ensures d.Valid()
  {
    Dict([], map[])
  }
}
