/** A JavaScript `Map` as a value: entries in insertion order, at most one per key.  Setting a key
    that is present keeps its place; deleting it and setting it again moves it to the end. */
module InsertionOrder {
  import opened Basics

  datatype Pair<+K, +V> = Pair(key: K, value: V)

  function Lookup<K(==), V>(m: seq<Pair<K, V>>, k: K): Option<V> {
    if m == [] then None else if m[0].key == k then Some(m[0].value) else Lookup(m[1..], k)
  }

  function Put<K(==), V>(m: seq<Pair<K, V>>, k: K, v: V): (r: seq<Pair<K, V>>)
    ensures r != []
  {
    if m == [] then [Pair(k, v)]
    else if m[0].key == k then [Pair(k, v)] + m[1..]
    else [m[0]] + Put(m[1..], k, v)
  }

  function Delete<K(==), V>(m: seq<Pair<K, V>>, k: K): (r: seq<Pair<K, V>>)
    ensures |r| == if Lookup(m, k).Some? then |m| - 1 else |m|
  {
    if m == [] then [] else if m[0].key == k then m[1..] else [m[0]] + Delete(m[1..], k)
  }

  function Keys<K, V>(m: seq<Pair<K, V>>): (r: seq<K>)
    ensures |r| == |m|
  {
    if m == [] then [] else [m[0].key] + Keys(m[1..])
  }

  predicate Distinct<K(==), V>(m: seq<Pair<K, V>>) {
    m == [] || (Lookup(m[1..], m[0].key).None? && Distinct(m[1..]))
  }

  lemma {:induction false} LookupPut<K, V>(m: seq<Pair<K, V>>, k: K, v: V, other: K)
    ensures Lookup(Put(m, k, v), other) == if other == k then Some(v) else Lookup(m, other)
    ensures |Put(m, k, v)| == if Lookup(m, k).Some? then |m| else |m| + 1
  {
    if m != [] && m[0].key != k {
      LookupPut(m[1..], k, v, other);
      assert Put(m, k, v)[1..] == Put(m[1..], k, v);
    }
  }

  lemma {:induction false} LookupDelete<K, V>(m: seq<Pair<K, V>>, k: K, other: K)
    requires Distinct(m)
    ensures Lookup(Delete(m, k), other) == if other == k then None else Lookup(m, other)
  {
    if m != [] && m[0].key != k {
      LookupDelete(m[1..], k, other);
      assert Delete(m, k)[1..] == Delete(m[1..], k);
    }
  }

  lemma {:induction false} PutDistinct<K, V>(m: seq<Pair<K, V>>, k: K, v: V)
    requires Distinct(m)
    ensures Distinct(Put(m, k, v))
  {
    if m != [] && m[0].key != k {
      PutDistinct(m[1..], k, v);
      LookupPut(m[1..], k, v, m[0].key);
      assert Put(m, k, v)[1..] == Put(m[1..], k, v);
    }
  }

  lemma {:induction false} DeleteDistinct<K, V>(m: seq<Pair<K, V>>, k: K)
    requires Distinct(m)
    ensures Distinct(Delete(m, k))
  {
    if m != [] && m[0].key != k {
      DeleteDistinct(m[1..], k);
      LookupDelete(m[1..], k, m[0].key);
      assert Delete(m, k)[1..] == Delete(m[1..], k);
    }
  }

  lemma {:induction false} KeysHold<K, V>(m: seq<Pair<K, V>>, k: K)
    ensures k in Keys(m) <==> Lookup(m, k).Some?
  {
    if m != [] {
      KeysHold(m[1..], k);
    }
  }

  lemma {:induction false} EntryAt<K, V>(m: seq<Pair<K, V>>, j: nat)
    requires Distinct(m) && j < |m|
    ensures Keys(m)[j] == m[j].key && Lookup(m, m[j].key) == Some(m[j].value)
  {
    if j > 0 {
      EntryAt(m[1..], j - 1);
      assert m[1..][j - 1] == m[j];
    }
  }
}
