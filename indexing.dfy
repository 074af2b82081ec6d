/** The two ways the lookup hook derives tables from a list: a JavaScript `Map` built
    from `[key, value]` pairs, inserted in list order so that a later pair overwrites an
    earlier one with the same key, and a `reduce` that appends every element to the
    array of its group. Each is given as a function that folds over the list from the
    left, a method with the loop that builds it, and its meaning in terms of the list:
    the last element with a key, and the elements with a key in list order. */
module Indexing {
  import opened Wrappers

  /** Index of the last element of `s` whose key is `k`, or -1 when there is none. */
  function LastIndexWithKey<K(==), V>(s: seq<V>, key: V -> K, k: K): (i: int)
    ensures -1 <= i < |s|
    ensures 0 <= i ==> key(s[i]) == k
    ensures forall j :: i < j < |s| ==> key(s[j]) != k
  {
    if s == [] then -1
    else if key(s[|s| - 1]) == k then |s| - 1
    else LastIndexWithKey(s[..|s| - 1], key, k)
  }

  /** The last element of `s` whose key is `k`. */
  function LastWithKey<K(==), V>(s: seq<V>, key: V -> K, k: K): Option<V> {
    var i := LastIndexWithKey(s, key, k);
    if i < 0 then None else Some(s[i])
  }

  /** The elements of `s` whose key is `k`, in the order of `s`. */
  function WithKey<K(==), V(==)>(s: seq<V>, key: V -> K, k: K): (r: seq<V>)
    ensures |r| <= |s|
    ensures forall i :: 0 <= i < |r| ==> r[i] in s && key(r[i]) == k
    ensures forall i :: 0 <= i < |s| && key(s[i]) == k ==> s[i] in r
  {
    if s == [] then []
    else
      var init := WithKey(s[..|s| - 1], key, k);
      var x := s[|s| - 1];
      assert forall i :: 0 <= i < |s| - 1 ==> s[i] == s[..|s| - 1][i];
      if key(x) == k then init + [x] else init
  }

  /** `new Map(s.map(x => [key(x), x]))`. */
  function IndexBy<K(==), V>(s: seq<V>, key: V -> K): map<K, V> {
    if s == [] then map[]
    else IndexBy(s[..|s| - 1], key)[key(s[|s| - 1]) := s[|s| - 1]]
  }

  /** `s.reduce((acc, x) => { if (!acc[key(x)]) acc[key(x)] = []; acc[key(x)].push(x); return acc; }, {})`. */
  function GroupBy<K(==), V>(s: seq<V>, key: V -> K): map<K, seq<V>> {
    if s == [] then map[]
    else
      var acc := GroupBy(s[..|s| - 1], key);
      var k := key(s[|s| - 1]);
      var group := if k in acc then acc[k] else [];
      acc[k := group + [s[|s| - 1]]]
  }

  /** `Map.get`: `undefined` for a key that was never set. */
  function Get<K(==), V>(m: map<K, V>, k: K): Option<V> {
    if k in m then Some(m[k]) else None
  }

  /** A map built by in-order insertion answers every key with the last element
      that has it, and has no other keys. */
  lemma {:induction false} IndexByIsLastWithKey<K, V>(s: seq<V>, key: V -> K, k: K)
    ensures Get(IndexBy(s, key), k) == LastWithKey(s, key, k)
  {
    if s != [] {
      IndexByIsLastWithKey(s[..|s| - 1], key, k);
    }
  }

  /** The grouping holds, under each key, exactly the elements with that key in list
      order, and has a key only if some element carries it. */
  lemma {:induction false} GroupByIsWithKey<K, V>(s: seq<V>, key: V -> K, k: K)
    ensures k in GroupBy(s, key) <==> WithKey(s, key, k) != []
    ensures k in GroupBy(s, key) ==> GroupBy(s, key)[k] == WithKey(s, key, k)
  {
    if s != [] {
      GroupByIsWithKey(s[..|s| - 1], key, k);
    }
  }

  /** The loop inside the `Map` constructor: insert the pairs one by one. */
  method BuildIndex<K(==), V>(s: seq<V>, key: V -> K) returns (m: map<K, V>)
    ensures m == IndexBy(s, key)
  {
    m := map[];
    for i := 0 to |s|
      invariant m == IndexBy(s[..i], key)
    {
      assert s[..i + 1][..i] == s[..i];
      m := m[key(s[i]) := s[i]];
    }
    assert s[..|s|] == s;
  }

  /** The `reduce` loop: create a group on first sight of a key, then push. */
  method BuildGroups<K(==), V>(s: seq<V>, key: V -> K) returns (acc: map<K, seq<V>>)
    ensures acc == GroupBy(s, key)
  {
    acc := map[];
    for i := 0 to |s|
      invariant acc == GroupBy(s[..i], key)
    {
      assert s[..i + 1][..i] == s[..i];
      var k := key(s[i]);
      if k !in acc {
        acc := acc[k := []];
      }
      acc := acc[k := acc[k] + [s[i]]];
    }
    assert s[..|s|] == s;
  }
}
