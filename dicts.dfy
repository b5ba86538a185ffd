/** A Python `dict`: a map that remembers the order in which its keys were first inserted. */
module Dicts {
  import opened Wrappers

  datatype Dict<K(==), V> = Dict(keys: seq<K>, entries: map<K, V>) {

    /** The keys are distinct and are exactly the keys of the map. */
    ghost predicate Valid()
    {
      && (forall i, j :: 0 <= i < j < |keys| ==> keys[i] != keys[j])
      && entries.Keys == (set i | 0 <= i < |keys| :: keys[i])
    }

    /** `d.get(k)` */
    function Get(k: K): Option<V>
    {
      if k in entries then Some(entries[k]) else None
    }

    /** `d[k] = v`: an existing key keeps its place, a new key goes last. */
    function Put(k: K, v: V): (d: Dict<K, V>)
      requires Valid()
      ensures d.Valid()
      ensures d.entries == entries[k := v]
      ensures d.keys == if k in entries then keys else keys + [k]
    {
      var ks := if k in entries then keys else keys + [k];
      assert (set i | 0 <= i < |ks| :: ks[i]) == entries.Keys + {k} by {
        forall x | x in entries.Keys + {k} ensures x in (set i | 0 <= i < |ks| :: ks[i]) {
          if x != k || k in entries {
            var i :| 0 <= i < |keys| && keys[i] == x;
            assert ks[i] == x;
          } else {
            assert ks[|keys|] == x;
          }
        }
      }
      Dict(ks, entries[k := v])
    }

    /** `list(d.values())` */
    function Values(): (vs: seq<V>)
      ensures Valid() ==> |vs| == |keys| && forall i :: 0 <= i < |keys| ==> vs[i] == entries[keys[i]]
    {
      assert Valid() ==> forall i :: 0 <= i < |keys| ==> keys[i] in entries;
      ValuesOf(keys, entries)
    }
  }

  /** The values under `ks`, in that order, skipping keys the map lacks. */
  function ValuesOf<K(==), V>(ks: seq<K>, m: map<K, V>): (vs: seq<V>)
    ensures (forall i :: 0 <= i < |ks| ==> ks[i] in m) ==>
      |vs| == |ks| && forall i :: 0 <= i < |ks| ==> vs[i] == m[ks[i]]
    decreases |ks|
  {
    if ks == [] then []
    else
      var rest := ValuesOf(ks[1..], m);
      (if ks[0] in m then [m[ks[0]]] else []) + rest
  }

  function Empty<K(==), V>(): (d: Dict<K, V>)
    ensures d.Valid() && d.keys == [] && d.entries == map[]
  {
    Dict([], map[])
  }
}
