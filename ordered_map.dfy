/**
 * A JavaScript `Map<string, V>`: `set` on a present key replaces the value
 * in place, `set` on a new key appends it, `delete` reports whether the key
 * was present, and `values()` walks the entries in insertion order.
 */
module OrderedMap {
  import opened Common
  import opened Seqs

  datatype OMap<V> = OMap(keys: seq<string>, entries: map<string, V>)

  ghost predicate Distinct(s: seq<string>) {
    forall i, j :: 0 <= i < j < |s| ==> s[i] != s[j]
  }

  /** The key order lists each key of the entries exactly once. */
  ghost predicate Valid<V>(m: OMap<V>) {
    Distinct(m.keys) && forall k :: k in m.entries <==> k in m.keys
  }

  function Empty<V>(): (m: OMap<V>)
    ensures Valid(m)
    ensures forall k :: Get(m, k) == None
  {
    OMap([], map[])
  }

  /** `m.get(k)`. */
  function Get<V>(m: OMap<V>, k: string): Option<V> {
    if k in m.entries then Some(m.entries[k]) else None
  }

  /** `m.set(k, v)`. */
  function Put<V>(m: OMap<V>, k: string, v: V): (m': OMap<V>)
    requires Valid(m)
    ensures Valid(m')
    ensures forall k' :: Get(m', k') == if k' == k then Some(v) else Get(m, k')
    ensures k in m.entries ==> m'.keys == m.keys
    ensures k !in m.entries ==> m'.keys == m.keys + [k]
  {
    if k in m.entries then OMap(m.keys, m.entries[k := v])
    else OMap(m.keys + [k], m.entries[k := v])
  }

  /** `keys` with `k` taken out, order kept. */
  function Without(keys: seq<string>, k: string): (r: seq<string>)
    ensures forall x :: x in r <==> x in keys && x != k
    ensures Distinct(keys) ==> Distinct(r)
    ensures IsSubsequence(r, keys)
  {
    if keys == [] then []
    else if keys[0] == k then Without(keys[1..], k)
    else
      var r := [keys[0]] + Without(keys[1..], k);
      assert Distinct(keys) ==> keys[0] !in keys[1..];
      r
  }

  /** `m.delete(k)`: the map without `k`, and whether `k` was there. */
  function Delete<V>(m: OMap<V>, k: string): (r: (OMap<V>, bool))
    requires Valid(m)
    ensures Valid(r.0)
    ensures r.1 <==> k in m.entries
    ensures forall k' :: Get(r.0, k') == if k' == k then None else Get(m, k')
    ensures IsSubsequence(r.0.keys, m.keys)
  {
    (OMap(Without(m.keys, k), m.entries - {k}), k in m.entries)
  }

  /** `Array.from(m.values())`. */
  function Values<V>(m: OMap<V>): (vs: seq<V>)
    requires Valid(m)
    ensures |vs| == |m.keys|
    ensures forall i :: 0 <= i < |vs| ==> m.keys[i] in m.entries && vs[i] == m.entries[m.keys[i]]
  {
    seq(|m.keys|, i requires 0 <= i < |m.keys| => m.entries[m.keys[i]])
  }

  /** Every stored value is among the values, at its key's position. */
  lemma ValueListed<V>(m: OMap<V>, k: string)
    requires Valid(m) && k in m.entries
    ensures exists i :: 0 <= i < |m.keys| && m.keys[i] == k && Values(m)[i] == m.entries[k]
  {
    var i :| 0 <= i < |m.keys| && m.keys[i] == k;
    assert Values(m)[i] == m.entries[k];
  }
}
