/**
 * A Python `dict`: a finite map that also remembers the order in which its
 * keys were first inserted. Assigning to a key that is already present
 * replaces its value and keeps its position; a new key goes to the end.
 */
module OrderedDict {

  datatype Dict<K(==,!new), V> = Dict(order: seq<K>, items: map<K, V>) {

    /** The keys are listed once each, and exactly the keys of `items` are listed. */
    ghost predicate Valid() {
      && (forall i, j :: 0 <= i < j < |order| ==> order[i] != order[j])
      && (forall k :: k in items <==> k in order)
    }

    /** `d[k] = v` */
    function Set(k: K, v: V): (d: Dict<K, V>)
      ensures d.items == items[k := v]
      ensures k in items ==> d.order == order
      ensures k !in items ==> d.order == order + [k]
      ensures Valid() ==> d.Valid()
    {
      Dict(if k in items then order else order + [k], items[k := v])
    }

    /** `d.get(k, default)` */
    function Get(k: K, default: V): V {
      if k in items then items[k] else default
    }
  }

  function Empty<K(==,!new), V>(): (d: Dict<K, V>)
    ensures d.Valid() && d.order == [] && d.items == map[]
  {
    Dict([], map[])
  }
}
