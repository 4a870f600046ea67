/** The few Python built-ins the server relies on: `None`, an insertion-ordered
    `dict` with string keys, and the slice `s[:n]`. */
module Builtins {

  /** Python's `None` or a value. */
  datatype Option<+T> = None | Some(value: T)

  /** A Python `dict` keyed by strings. Besides the key/value map it remembers the
      order in which keys were first inserted, because iterating over `items()`
      follows that order and assigning to an existing key keeps its place. */
  datatype Dict<V> = Dict(keys: seq<string>, entries: map<string, V>) {

    /** The key order lists every key of the map exactly once. */
    ghost predicate Valid() {
      && (forall i, j :: 0 <= i < j < |keys| ==> keys[i] != keys[j])
      && (forall k :: k in entries <==> k in keys)
    }

    /** `d[k] = v`: a new key goes to the end of the order, an existing key keeps
        its position; only the entry for `k` changes. */
    function Put(k: string, v: V): (d: Dict<V>)
      requires Valid()
      ensures d.Valid()
      ensures k in d.entries && d.entries[k] == v
      ensures forall j :: j != k ==> (j in d.entries <==> j in entries)
      ensures forall j :: j != k && j in entries ==> d.entries[j] == entries[j]
      ensures keys <= d.keys
      ensures |d.keys| == if k in entries then |keys| else |keys| + 1
    {
      if k in entries then Dict(keys, entries[k := v])
      else Dict(keys + [k], entries[k := v])
    }
  }

  /** The empty `{}`. */
  function EmptyDict<V>(): (d: Dict<V>)
    ensures d.Valid() && d.keys == [] && d.entries == map[]
  {
    Dict([], map[])
  }

  /** `s[:n]`: the first `n` characters of `s`, or all of `s` when it is shorter. */
  function Prefix(s: string, n: nat): (r: string)
    ensures r <= s
    ensures |r| == if |s| < n then |s| else n
  {
    if |s| < n then s else s[..n]
  }
}
