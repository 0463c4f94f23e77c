/** Python's `dict`, as the report script uses it: a lookup table that also
    remembers the order in which its keys were first stored, and iterates
    in that order. */
module OrderedDict {

  /** `keys` lists every key once, in first-stored order; `entries` gives
      each key's value. */
  datatype Dict<K, V> = Dict(keys: seq<K>, entries: map<K, V>)

  predicate Distinct<K(==)>(s: seq<K>) {
    forall i, j :: 0 <= i < j < |s| ==> s[i] != s[j]
  }

  ghost predicate Valid<K(!new), V>(d: Dict<K, V>) {
    Distinct(d.keys) && forall k :: k in d.entries <==> k in d.keys
  }

  function Empty<K(!new), V>(): (d: Dict<K, V>)
    ensures Valid(d) && d.keys == [] && d.entries == map[]
  {
    Dict([], map[])
  }

  /** `d[k]` on a `defaultdict`: the stored value, or what the default
      factory makes when `k` is missing. */
  function Get<K, V>(d: Dict<K, V>, k: K, default: V): V {
    if k in d.entries then d.entries[k] else default
  }

  /** `d[k] = v`: an existing key keeps its place, a new key goes last. */
  function Put<K(!new), V>(d: Dict<K, V>, k: K, v: V): (r: Dict<K, V>)
    ensures Valid(d) ==> Valid(r)
    ensures r.entries == d.entries[k := v]
    ensures r.keys == if k in d.keys then d.keys else d.keys + [k]
  {
    if k in d.keys then Dict(d.keys, d.entries[k := v])
    else Dict(d.keys + [k], d.entries[k := v])
  }

  /** `d[k] += n` on a `defaultdict(int)`: a missing key counts from 0. */
  function AddTo<K(!new)>(d: Dict<K, int>, k: K, n: int): (r: Dict<K, int>)
    ensures Valid(d) ==> Valid(r)
    ensures Get(r, k, 0) == Get(d, k, 0) + n
    ensures forall j :: j != k ==> Get(r, j, 0) == Get(d, j, 0)
    ensures r.keys == if k in d.keys then d.keys else d.keys + [k]
  {
    Put(d, k, Get(d, k, 0) + n)
  }
}
