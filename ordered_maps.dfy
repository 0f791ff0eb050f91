/** A JavaScript `Map`: a dictionary that remembers the order in which keys were
    first inserted. Setting an existing key keeps its position; deleting a key
    removes it from the order; iteration (`values()`, `entries()`) follows the
    order. */
module OrderedMaps {

  predicate Distinct<K(==,!new)>(s: seq<K>) {
    forall i, j :: 0 <= i < j < |s| ==> s[i] != s[j]
  }

  /** `s` with every occurrence of `k` dropped, the rest in order. */
  function Without<K(==,!new)>(s: seq<K>, k: K): (r: seq<K>)
    ensures forall x :: x in r <==> x in s && x != k
    ensures |r| <= |s|
    ensures Distinct(s) ==> Distinct(r)
    decreases |s|
  {
    if s == [] then []
    else if s[0] == k then Without(s[1..], k)
    else
      var rest := Without(s[1..], k);
      assert s[0] !in s[1..] ==> s[0] !in rest;
      [s[0]] + rest
  }

  datatype OrderedMap<K(==,!new), V> = OrderedMap(keys: seq<K>, entries: map<K, V>) {

    /** The order lists every key of the dictionary exactly once. */
    ghost predicate Valid() {
      Distinct(keys) && (forall k :: k in entries <==> k in keys)
    }

    /** The values in iteration order. */
    function Values(): (vs: seq<V>)
      requires Valid()
      ensures |vs| == |keys|
      ensures forall i :: 0 <= i < |keys| ==> vs[i] == entries[keys[i]]
    {
      seq(|keys|, i requires 0 <= i < |keys| => entries[keys[i]])
    }

    /** `map.set(k, v)`. */
    function Put(k: K, v: V): (r: OrderedMap<K, V>)
      requires Valid()
      ensures r.Valid()
      ensures r.entries == entries[k := v]
      ensures k in entries ==> r.keys == keys
      ensures k !in entries ==> r.keys == keys + [k]
    {
      if k in entries then OrderedMap(keys, entries[k := v])
      else OrderedMap(keys + [k], entries[k := v])
    }

    /** `map.delete(k)`. */
    function Remove(k: K): (r: OrderedMap<K, V>)
      requires Valid()
      ensures r.Valid()
      ensures r.entries == entries - {k}
      ensures r.keys == Without(keys, k)
    {
      OrderedMap(Without(keys, k), entries - {k})
    }
  }

  function Empty<K(==,!new), V>(): (m: OrderedMap<K, V>)
    ensures m.Valid() && m.entries == map[] && m.keys == []
  {
    OrderedMap([], map[])
  }

  /** Index of a key in the order. */
  function IndexOf<K(==,!new)>(s: seq<K>, k: K): (i: nat)
    requires k in s
    ensures i < |s| && s[i] == k
    ensures forall j :: 0 <= j < i ==> s[j] != k
  {
    if s[0] == k then 0 else 1 + IndexOf(s[1..], k)
  }

  /** Setting an existing key replaces its value in place; setting a new key
      appends its value; iteration order is otherwise unchanged. */
  lemma PutValues<K(!new), V>(m: OrderedMap<K, V>, k: K, v: V)
    requires m.Valid()
    ensures k in m.entries ==> m.Put(k, v).Values() == m.Values()[IndexOf(m.keys, k) := v]
    ensures k !in m.entries ==> m.Put(k, v).Values() == m.Values() + [v]
  {
    var r := m.Put(k, v);
    if k in m.entries {
      var i := IndexOf(m.keys, k);
      forall j | 0 <= j < |m.keys| ensures r.Values()[j] == m.Values()[i := v][j] {
        if j != i { assert m.keys[j] != k; }
      }
    } else {
      forall j | 0 <= j < |m.keys| ensures r.Values()[j] == (m.Values() + [v])[j] {
        assert m.keys[j] != k;
      }
    }
  }

  /** Deleting a key drops exactly the values stored under the other keys' order:
      every value that remains belongs to a key other than `k`, in the old order. */
  lemma {:induction false} WithoutKeepsOrder<K(!new)>(s: seq<K>, k: K, i: nat, j: nat)
    requires i < j < |Without(s, k)|
    ensures exists a, b :: 0 <= a < b < |s| && s[a] == Without(s, k)[i] && s[b] == Without(s, k)[j]
    decreases |s|
  {
    var r := Without(s, k);
    if s[0] == k {
      WithoutKeepsOrder(s[1..], k, i, j);
      var a, b :| 0 <= a < b < |s[1..]| && s[1..][a] == r[i] && s[1..][b] == r[j];
      assert s[a + 1] == r[i] && s[b + 1] == r[j];
    } else {
      var rest := Without(s[1..], k);
      assert r == [s[0]] + rest;
      if i == 0 {
        assert r[j] == rest[j - 1];
        assert r[j] in s[1..];
        var b :| 0 <= b < |s[1..]| && s[1..][b] == r[j];
        assert s[0] == r[0] && s[b + 1] == r[j];
      } else {
        WithoutKeepsOrder(s[1..], k, i - 1, j - 1);
        var a, b :| 0 <= a < b < |s[1..]| && s[1..][a] == rest[i - 1] && s[1..][b] == rest[j - 1];
        assert s[a + 1] == r[i] && s[b + 1] == r[j];
      }
    }
  }
}
