/**
 * Python dictionaries iterate in insertion order: assigning to an existing key
 * keeps its position, deleting a key drops it, and inserting a new key puts it
 * last. `ODict` models such a dictionary as the sequence of its keys in
 * iteration order together with the map from keys to values.
 */
module OrderedMap {
  import opened Wrappers

  datatype ODict<K(==), V> = ODict(keys: seq<K>, entries: map<K, V>) {

    /** Keys are distinct and are exactly the keys of `entries`. */
    ghost predicate Valid() {
      && (forall i, j :: 0 <= i < j < |keys| ==> keys[i] != keys[j])
      && (forall k :: k in entries ==> k in keys)
      && (forall k :: k in keys ==> k in entries)
    }

    predicate Contains(k: K) {
      k in entries
    }

    /** `d.get(k)`. */
    function Get(k: K): (r: Option<V>)
      ensures r.Some? <==> k in entries
      ensures r.Some? ==> r.value == entries[k]
    {
      if k in entries then Some(entries[k]) else None
    }

    /** `d[k] = v`: an existing key keeps its place, a new key goes last. */
    function Put(k: K, v: V): (r: ODict<K, V>)
      requires Valid()
      ensures r.Valid()
      ensures r.entries == entries[k := v]
      ensures k in entries ==> r.keys == keys
      ensures k !in entries ==> r.keys == keys + [k]
    {
      if k in entries then ODict(keys, entries[k := v])
      else ODict(keys + [k], entries[k := v])
    }

    /** `del d[k]` when present; unchanged otherwise. */
    function Remove(k: K): (r: ODict<K, V>)
      requires Valid()
      ensures r.Valid()
      ensures r.entries == entries - {k}
      ensures r.keys == Without(keys, k)
    {
      WithoutDistinct(keys, k);
      ODict(Without(keys, k), entries - {k})
    }
  }

  function Empty<K(==), V>(): (d: ODict<K, V>)
    ensures d.Valid() && d.keys == [] && d.entries == map[]
  {
    ODict([], map[])
  }

  /** The sequence with every occurrence of `k` dropped, order kept. */
  function Without<K(==)>(s: seq<K>, k: K): (r: seq<K>)
    ensures forall x :: x in r ==> x in s && x != k
    ensures forall x :: x in s && x != k ==> x in r
    ensures |r| <= |s|
  {
    if s == [] then []
    else if s[0] == k then Without(s[1..], k)
    else [s[0]] + Without(s[1..], k)
  }

  ghost predicate Distinct<K>(s: seq<K>) {
    forall i, j :: 0 <= i < j < |s| ==> s[i] != s[j]
  }

  lemma {:induction false} WithoutDistinct<K>(s: seq<K>, k: K)
    requires Distinct(s)
    ensures Distinct(Without(s, k))
  {
    if s != [] {
      WithoutDistinct(s[1..], k);
      if s[0] != k {
        var r := Without(s[1..], k);
        assert s[0] !in r by {
          assert s[0] !in s[1..];
        }
      }
    }
  }

  /** Removing a key that is not there leaves the key order as it was. */
  lemma {:induction false} WithoutAbsent<K>(s: seq<K>, k: K)
    requires k !in s
    ensures Without(s, k) == s
  {
    if s != [] {
      WithoutAbsent(s[1..], k);
      assert s == [s[0]] + s[1..];
    }
  }

  /** Appending a key and then dropping it is the same as dropping it. */
  lemma {:induction false} WithoutAppend<K>(s: seq<K>, k: K)
    ensures Without(s + [k], k) == Without(s, k)
  {
    if s == [] {
      assert [k][1..] == [];
    } else {
      assert (s + [k])[1..] == s[1..] + [k];
      WithoutAppend(s[1..], k);
    }
  }

  /** Storing a key and then deleting it leaves the dictionary as deleting it alone does. */
  lemma PutThenRemove<K, V>(d: ODict<K, V>, k: K, v: V)
    requires d.Valid()
    ensures d.Put(k, v).Remove(k) == d.Remove(k)
  {
    if k !in d.entries {
      WithoutAppend(d.keys, k);
    }
    assert d.Put(k, v).Remove(k).entries == d.Remove(k).entries;
  }

  /** Removing the first key of a distinct sequence leaves the rest as it was. */
  lemma RemoveFirst<K>(s: seq<K>)
    requires s != [] && Distinct(s)
    ensures Without(s, s[0]) == s[1..]
  {
    WithoutAbsent(s[1..], s[0]);
  }
}
