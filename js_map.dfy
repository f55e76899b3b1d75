/**
 * A JavaScript `Map<string, string>` as a value: its entries, and the order in
 * which its keys were first inserted (the order `Map.prototype.keys` yields).
 */
module JsMap {
  import opened Wrappers

  datatype StringMap = StringMap(keys: seq<string>, entries: map<string, string>)

  /** `new Map()` */
  const Empty: StringMap := StringMap([], map[])

  /** No element of `s` occurs twice. */
  predicate Distinct<T(==)>(s: seq<T>)
  {
    forall i, j :: 0 <= i < j < |s| ==> s[i] != s[j]
  }

  /** No key is listed twice, and the listed keys are exactly the entries' keys. */
  ghost predicate Valid(m: StringMap)
  {
    && Distinct(m.keys)
    && (forall k :: k in m.entries <==> k in m.keys)
  }

  /** `map.get(k)`: the value stored under `k`, or `undefined`. */
  function Get(m: StringMap, k: string): (r: Option<string>)
    ensures r.Some? <==> k in m.entries
    ensures r.Some? ==> r.value == m.entries[k]
  {
    if k in m.entries then Some(m.entries[k]) else None
  }

  /**
   * `map.set(k, v)`: afterwards `k` maps to `v` and every other key keeps its
   * value; a new key goes to the end of the key order, an existing one keeps
   * its place.
   */
  function Set(m: StringMap, k: string, v: string): (r: StringMap)
    ensures Get(r, k) == Some(v)
    ensures forall k' :: k' != k ==> Get(r, k') == Get(m, k')
    ensures k in m.entries ==> r.keys == m.keys
    ensures k !in m.entries ==> r.keys == m.keys + [k]
    ensures Valid(m) ==> Valid(r)
  {
    if k in m.entries then StringMap(m.keys, m.entries[k := v])
    else StringMap(m.keys + [k], m.entries[k := v])
  }

  /** `Array.from(map.keys())`: the keys in insertion order. */
  function Keys(m: StringMap): (r: seq<string>)
    requires Valid(m)
    ensures forall k :: k in r <==> k in m.entries
    ensures Distinct(r)
  {
    m.keys
  }
}
