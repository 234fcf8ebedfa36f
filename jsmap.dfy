/**
  A JavaScript `Map`: a dictionary that remembers the order in which its keys
  were first set. `Set` on a new key appends it; `Set` on a present key
  replaces its value and keeps its position; `Values` lists the values in key
  order, as `Array.from(map.values())` does.
 */
module JsMap {

  datatype OrderedMap<K(==,!new), V> = OrderedMap(keys: seq<K>, entries: map<K, V>)
  {
    ghost predicate Valid()
    {
      && (forall i, j :: 0 <= i < j < |keys| ==> keys[i] != keys[j])
      && (forall k :: k in entries <==> k in keys)
    }

    function Values(): (vs: seq<V>)
      requires Valid()
      ensures |vs| == |keys|
      ensures forall i :: 0 <= i < |keys| ==> vs[i] == entries[keys[i]]
    {
      seq(|keys|, i requires 0 <= i < |keys| => entries[keys[i]])
    }

    function Set(k: K, v: V): (m: OrderedMap<K, V>)
      requires Valid()
      ensures m.Valid()
      ensures k in m.entries && m.entries[k] == v
      ensures m.entries.Keys == entries.Keys + {k}
      ensures m.entries - {k} == entries - {k}
      ensures k in entries ==> m.keys == keys
      ensures k !in entries ==> m.keys == keys + [k] && m.Values() == Values() + [v]
    {
      if k in entries then
        OrderedMap(keys, entries[k := v])
      else
        var m := OrderedMap(keys + [k], entries[k := v]);
        assert forall i :: 0 <= i < |keys| ==> keys[i] != k;
        assert forall i :: 0 <= i < |keys| ==> m.Values()[i] == Values()[i];
        m
    }
  }

  function Empty<K(==,!new), V>(): (m: OrderedMap<K, V>)
    ensures m.Valid() && m.Values() == []
  {
    OrderedMap([], map[])
  }
}
