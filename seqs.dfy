/** Generic sequence helpers shared by the store, the cache and the views:
    filtering, mapping, and the view of a record list as a map keyed by id. */
module Seqs {
  import opened Wrappers

  /** `Array.prototype.filter`: the elements satisfying `p`, in their original order. */
  function Filter<T>(s: seq<T>, p: T -> bool): (r: seq<T>)
    ensures |r| <= |s|
  {
    if s == [] then [] else (if p(s[0]) then [s[0]] else []) + Filter(s[1..], p)
  }

  /** Filtering keeps exactly the elements satisfying `p`, ... */
  lemma {:induction false} FilterMembers<T>(s: seq<T>, p: T -> bool, x: T)
    ensures x in Filter(s, p) <==> x in s && p(x)
  {
    if s != [] {
      assert s == [s[0]] + s[1..];
      FilterMembers(s[1..], p, x);
    }
  }

  /** ... each as often as it occurs in `s`, so the result is a sub-multiset of `s`. */
  lemma {:induction false} FilterCount<T>(s: seq<T>, p: T -> bool, x: T)
    ensures multiset(Filter(s, p))[x] == if p(x) then multiset(s)[x] else 0
  {
    if s != [] {
      assert s == [s[0]] + s[1..];
      FilterCount(s[1..], p, x);
    }
  }

  /** Filtering distributes over concatenation, so it keeps the relative order of what it keeps. */
  lemma {:induction false} FilterConcat<T>(a: seq<T>, b: seq<T>, p: T -> bool)
    ensures Filter(a + b, p) == Filter(a, p) + Filter(b, p)
  {
    if a == [] {
      assert a + b == b;
    } else {
      var head := if p(a[0]) then [a[0]] else [];
      var ab := a + b;
      assert ab[0] == a[0] && ab[1..] == a[1..] + b;
      assert Filter(ab, p) == head + Filter(a[1..] + b, p);
      FilterConcat(a[1..], b, p);
      assert Filter(a, p) == head + Filter(a[1..], p);
    }
  }

  /** Filtering with a predicate every element satisfies changes nothing. */
  lemma {:induction false} FilterAll<T>(s: seq<T>, p: T -> bool)
    requires forall i :: 0 <= i < |s| ==> p(s[i])
    ensures Filter(s, p) == s
  {
    if s != [] {
      FilterAll(s[1..], p);
    }
  }

  /** `Array.prototype.indexOf`: the first position holding `x`, or -1. */
  function IndexOf<T(==)>(s: seq<T>, x: T): (i: int)
    ensures -1 <= i < |s|
    ensures i >= 0 ==> s[i] == x && forall j :: 0 <= j < i ==> s[j] != x
    ensures i == -1 <==> x !in s
  {
    if s == [] then -1
    else if s[0] == x then 0
    else
      var k := IndexOf(s[1..], x);
      assert s == [s[0]] + s[1..];
      if k == -1 then -1 else k + 1
  }

  /** `Array.prototype.findIndex` on a key: the first position whose element has key `k`, or -1. */
  function FindIndex<K(==), V>(s: seq<V>, key: V -> K, k: K): (i: int)
    ensures -1 <= i < |s|
    ensures i >= 0 ==> key(s[i]) == k && forall j :: 0 <= j < i ==> key(s[j]) != k
    ensures i == -1 <==> forall j :: 0 <= j < |s| ==> key(s[j]) != k
  {
    if s == [] then -1
    else if key(s[0]) == k then 0
    else
      var n := FindIndex(s[1..], key, k);
      assert forall j :: 1 <= j < |s| ==> s[j] == s[1..][j - 1];
      if n == -1 then -1 else n + 1
  }

  /** `Array.prototype.find` on a key: the first element with key `k`. */
  function Find<K(==), V>(s: seq<V>, key: V -> K, k: K): (r: Option<V>)
    ensures r.Some? ==> r.value in s && key(r.value) == k
    ensures r.None? <==> forall j :: 0 <= j < |s| ==> key(s[j]) != k
    ensures forall j :: 0 <= j < |s| && key(s[j]) == k && (forall i :: 0 <= i < j ==> key(s[i]) != k) ==> r == Some(s[j])
  {
    var i := FindIndex(s, key, k);
    if i >= 0 then Some(s[i]) else None
  }

  /** `Array.prototype.map`. */
  function MapSeq<T, U>(s: seq<T>, f: T -> U): (r: seq<U>)
    ensures |r| == |s|
    ensures forall i :: 0 <= i < |s| ==> r[i] == f(s[i])
  {
    seq(|s|, i requires 0 <= i < |s| => f(s[i]))
  }

  /** The keys of the elements of `s`. */
  function Keys<K, V>(s: seq<V>, key: V -> K): set<K> {
    if s == [] then {} else Keys(s[..|s| - 1], key) + {key(s[|s| - 1])}
  }

  /** The key of every element is among the keys, and every key is that of some element. */
  lemma {:induction false} KeysAt<K, V>(s: seq<V>, key: V -> K, i: nat)
    requires i < |s|
    ensures key(s[i]) in Keys(s, key)
  {
    if i < |s| - 1 {
      KeysAt(s[..|s| - 1], key, i);
    }
  }

  /** A list has no keys exactly when it is empty. */
  lemma KeysEmpty<K, V>(s: seq<V>, key: V -> K)
    ensures Keys(s, key) == {} <==> s == []
  {
    if s != [] {
      KeysAt(s, key, 0);
    }
  }

  /** No two elements of `s` share a key. */
  predicate DistinctKeys<K(==), V>(s: seq<V>, key: V -> K) {
    forall i, j :: 0 <= i < j < |s| ==> key(s[i]) != key(s[j])
  }

  /** Every entry of `m` is filed under its own key (an object store's `keyPath`). */
  predicate KeyedByOwnKey<K(==), V>(m: map<K, V>, key: V -> K) {
    forall k :: k in m ==> key(m[k]) == k
  }

  /** A key among the keys is the key of some element. */
  lemma {:induction false} KeysWitness<K, V>(s: seq<V>, key: V -> K, k: K) returns (i: nat)
    requires k in Keys(s, key)
    ensures i < |s| && key(s[i]) == k
  {
    if key(s[|s| - 1]) == k {
      i := |s| - 1;
    } else {
      i := KeysWitness(s[..|s| - 1], key, k);
    }
  }

  /** The map obtained by putting the elements of `s` one after another under their keys:
      what a cleared object store holds after `put` of each element in turn (the last put wins). */
  function KeyedBy<K(==), V(==)>(s: seq<V>, key: V -> K): (m: map<K, V>)
    ensures m.Keys == Keys(s, key)
    ensures KeyedByOwnKey(m, key)
  {
    if s == [] then map[]
    else
      var init := s[..|s| - 1];
      assert s == init + [s[|s| - 1]];
      KeyedBy(init, key)[key(s[|s| - 1]) := s[|s| - 1]]
  }

  /** Appending an element puts it under its key. */
  lemma KeyedByAppend<K, V>(s: seq<V>, v: V, key: V -> K)
    ensures KeyedBy(s + [v], key) == KeyedBy(s, key)[key(v) := v]
  {
    assert (s + [v])[..|s + [v]| - 1] == s;
  }

  /** The entry under a key is the LAST element of `s` with that key. */
  lemma {:induction false} KeyedByLastWins<K, V>(s: seq<V>, key: V -> K, j: nat)
    requires j < |s|
    requires forall i :: j < i < |s| ==> key(s[i]) != key(s[j])
    ensures key(s[j]) in KeyedBy(s, key) && KeyedBy(s, key)[key(s[j])] == s[j]
  {
    var init := s[..|s| - 1];
    assert s == init + [s[|s| - 1]];
    if j < |s| - 1 {
      KeyedByLastWins(init, key, j);
    }
  }

  /** With distinct keys, the map has as many entries as the sequence has elements. */
  lemma {:induction false} KeyedBySize<K, V>(s: seq<V>, key: V -> K)
    requires DistinctKeys(s, key)
    ensures |KeyedBy(s, key)| == |s|
  {
    if s != [] {
      var init := s[..|s| - 1];
      var last := s[|s| - 1];
      assert s == init + [last];
      assert DistinctKeys(init, key);
      KeyedBySize(init, key);
      if key(last) in Keys(init, key) {
        var i := KeysWitness(init, key, key(last));
      }
    }
  }

  /** Records with a given key removed, the others kept in order (`list.filter(x => x.id !== k)`). */
  function RemoveKey<K(==), V>(s: seq<V>, key: V -> K, k: K): (r: seq<V>)
    ensures |r| <= |s|
  {
    if s == [] then []
    else
      var init := s[..|s| - 1];
      assert s == init + [s[|s| - 1]];
      RemoveKey(init, key, k) + if key(s[|s| - 1]) != k then [s[|s| - 1]] else []
  }

  /** What `RemoveKey` keeps: exactly the elements whose key differs from `k`. */
  lemma {:induction false} RemoveKeyMembers<K, V>(s: seq<V>, key: V -> K, k: K, x: V)
    ensures x in RemoveKey(s, key, k) <==> x in s && key(x) != k
  {
    if s != [] {
      var init := s[..|s| - 1];
      assert s == init + [s[|s| - 1]];
      RemoveKeyMembers(init, key, k, x);
    }
  }

  /** Removing a key from the list removes it from the keyed view and changes nothing else. */
  lemma {:induction false} KeyedByRemoveKey<K, V>(s: seq<V>, key: V -> K, k: K)
    ensures KeyedBy(RemoveKey(s, key, k), key) == KeyedBy(s, key) - {k}
  {
    if s != [] {
      var init := s[..|s| - 1];
      var last := s[|s| - 1];
      var rest := RemoveKey(init, key, k);
      KeyedByRemoveKey(init, key, k);
      assert KeyedBy(s, key) == KeyedBy(init, key)[key(last) := last];
      if key(last) != k {
        assert RemoveKey(s, key, k) == rest + [last];
        KeyedByAppend(rest, last, key);
        assert KeyedBy(rest + [last], key) == (KeyedBy(init, key) - {k})[key(last) := last];
      } else {
        assert RemoveKey(s, key, k) == rest + [];
        assert rest + [] == rest;
      }
    }
  }

  /** `RemoveKey` is the filter on a differing key, so it keeps the other records in their order. */
  lemma {:induction false} RemoveKeyIsFilter<K, V>(s: seq<V>, key: V -> K, k: K)
    ensures RemoveKey(s, key, k) == Filter(s, (x: V) => key(x) != k)
  {
    if s != [] {
      var init := s[..|s| - 1];
      var last := s[|s| - 1];
      assert s == init + [last];
      RemoveKeyIsFilter(init, key, k);
      FilterConcat(init, [last], (x: V) => key(x) != k);
      assert [last][1..] == [];
    }
  }

  /** Each record without the key is kept as many times as it occurs, and none with it. */
  lemma RemoveKeyCount<K, V>(s: seq<V>, key: V -> K, k: K, x: V)
    ensures multiset(RemoveKey(s, key, k))[x] == if key(x) != k then multiset(s)[x] else 0
  {
    RemoveKeyIsFilter(s, key, k);
    FilterCount(s, (y: V) => key(y) != k, x);
  }

  /** Every record with the key of `v` replaced by `v`, the others kept in place
      (`list.map(x => x.id === v.id ? v : x)`). */
  function ReplaceByKey<K(==), V>(s: seq<V>, key: V -> K, v: V): (r: seq<V>)
    ensures |r| == |s|
  {
    if s == [] then []
    else
      var init := s[..|s| - 1];
      var last := s[|s| - 1];
      ReplaceByKey(init, key, v) + [if key(last) == key(v) then v else last]
  }

  /** Position by position: `v` where the key matches, the old record elsewhere. */
  lemma {:induction false} ReplaceByKeyAt<K, V>(s: seq<V>, key: V -> K, v: V, i: nat)
    requires i < |s|
    ensures ReplaceByKey(s, key, v)[i] == if key(s[i]) == key(v) then v else s[i]
  {
    if i < |s| - 1 {
      ReplaceByKeyAt(s[..|s| - 1], key, v, i);
    }
  }

  /** Replacing a record whose key is present is a put into the keyed view. */
  lemma {:induction false} KeyedByReplaceByKey<K, V>(s: seq<V>, key: V -> K, v: V)
    requires key(v) in Keys(s, key)
    ensures KeyedBy(ReplaceByKey(s, key, v), key) == KeyedBy(s, key)[key(v) := v]
  {
    var init := s[..|s| - 1];
    var last := s[|s| - 1];
    var rInit := ReplaceByKey(init, key, v);
    var rLast := if key(last) == key(v) then v else last;
    assert ReplaceByKey(s, key, v) == rInit + [rLast];
    KeyedByAppend(rInit, rLast, key);
    var before := KeyedBy(init, key);
    assert KeyedBy(s, key) == before[key(last) := last];
    if key(v) in Keys(init, key) {
      KeyedByReplaceByKey(init, key, v);
      PutPut(before, key(v), v, key(last), rLast);
    } else {
      KeyedByReplaceAbsent(init, key, v);
    }
  }

  /** Two puts into a map: the later wins on the same key, and puts on distinct keys commute. */
  lemma PutPut<K, V>(m: map<K, V>, k1: K, v1: V, k2: K, v2: V)
    ensures k1 == k2 ==> m[k1 := v1][k2 := v2] == m[k2 := v2]
    ensures k1 != k2 ==> m[k1 := v1][k2 := v2] == m[k2 := v2][k1 := v1]
  {
  }

  /** Replacing by a key that is absent changes nothing. */
  lemma KeyedByReplaceAbsent<K, V>(s: seq<V>, key: V -> K, v: V)
    requires key(v) !in Keys(s, key)
    ensures ReplaceByKey(s, key, v) == s
  {
    var r := ReplaceByKey(s, key, v);
    forall i | 0 <= i < |s| ensures r[i] == s[i] {
      ReplaceByKeyAt(s, key, v, i);
      KeysAt(s, key, i);
    }
  }
}
