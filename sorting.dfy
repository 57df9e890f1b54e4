/** `Array.prototype.sort` with a comparator on one key, as the timeline views use it:
    a stable sort, so records with equal keys keep their relative order. */
module Sorting {
  import opened Seqs

  /** `le` orders any two keys. */
  ghost predicate Total<K(!new)>(le: (K, K) -> bool) {
    forall a, b :: le(a, b) || le(b, a)
  }

  ghost predicate Transitive<K(!new)>(le: (K, K) -> bool) {
    forall a, b, c :: le(a, b) && le(b, c) ==> le(a, c)
  }

  /** Every record's key comes `le` before the keys of all later records. */
  predicate SortedBy<T, K>(s: seq<T>, key: T -> K, le: (K, K) -> bool) {
    forall i, j :: 0 <= i < j < |s| ==> le(key(s[i]), key(s[j]))
  }

  /** Put `x` before the first record whose key it may precede: behind every record with a
      strictly smaller key and ahead of the ones with an equal key. */
  function Insert<T, K>(x: T, s: seq<T>, key: T -> K, le: (K, K) -> bool): (r: seq<T>)
    ensures |r| == |s| + 1
  {
    if s == [] then [x]
    else if le(key(x), key(s[0])) then [x] + s
    else [s[0]] + Insert(x, s[1..], key, le)
  }

  /** Insertion sort: the first record goes into the sorted rest ahead of its equals. */
  function SortBy<T, K>(s: seq<T>, key: T -> K, le: (K, K) -> bool): (r: seq<T>)
    ensures |r| == |s|
  {
    if s == [] then [] else Insert(s[0], SortBy(s[1..], key, le), key, le)
  }

  /** Where `Insert` puts `x`: after a prefix of records it may not precede. */
  lemma {:induction false} InsertSplit<T, K>(x: T, s: seq<T>, key: T -> K, le: (K, K) -> bool) returns (m: nat)
    ensures m <= |s| && Insert(x, s, key, le) == s[..m] + [x] + s[m..]
    ensures forall j :: 0 <= j < m ==> !le(key(x), key(s[j]))
  {
    if s == [] {
      m := 0;
    } else if le(key(x), key(s[0])) {
      m := 0;
    } else {
      var k := InsertSplit(x, s[1..], key, le);
      m := k + 1;
      assert s[..m] == [s[0]] + s[1..][..k];
      assert s[m..] == s[1..][k..];
    }
  }

  /** Inserting keeps a sorted list sorted. */
  lemma {:induction false} InsertSorted<T, K(!new)>(x: T, s: seq<T>, key: T -> K, le: (K, K) -> bool)
    requires Total(le) && Transitive(le)
    requires SortedBy(s, key, le)
    ensures SortedBy(Insert(x, s, key, le), key, le)
  {
    if s != [] && !le(key(x), key(s[0])) {
      InsertSorted(x, s[1..], key, le);
      var r := Insert(x, s, key, le);
      var t := Insert(x, s[1..], key, le);
      assert r == [s[0]] + t;
      forall j | 0 < j < |r|
        ensures le(key(s[0]), key(r[j]))
      {
        var m := InsertSplit(x, s[1..], key, le);
        assert t == s[1..][..m] + [x] + s[1..][m..];
        if j - 1 < m {
          assert r[j] == s[1..][j - 1] == s[j];
        } else if j - 1 == m {
          assert r[j] == x;
        } else {
          assert r[j] == s[1..][j - 2] == s[j - 1];
        }
      }
    }
  }

  /** The sort orders the records. */
  lemma {:induction false} SortBySorted<T, K(!new)>(s: seq<T>, key: T -> K, le: (K, K) -> bool)
    requires Total(le) && Transitive(le)
    ensures SortedBy(SortBy(s, key, le), key, le)
  {
    if s != [] {
      SortBySorted(s[1..], key, le);
      InsertSorted(s[0], SortBy(s[1..], key, le), key, le);
    }
  }

  /** The sort is a permutation: every record occurs as often as before. */
  lemma {:induction false} SortByPermutation<T, K>(s: seq<T>, key: T -> K, le: (K, K) -> bool)
    ensures multiset(SortBy(s, key, le)) == multiset(s)
  {
    if s != [] {
      SortByPermutation(s[1..], key, le);
      var t := SortBy(s[1..], key, le);
      var m := InsertSplit(s[0], t, key, le);
      assert t == t[..m] + t[m..];
      assert s == [s[0]] + s[1..];
    }
  }

  /** The sort is stable: the records with any one key, picked out by `p`, come out in
      their original order. */
  lemma {:induction false} SortByStable<T, K(!new)>(s: seq<T>, key: T -> K, le: (K, K) -> bool, k: K, p: T -> bool)
    requires Total(le)
    requires forall x :: p(x) <==> key(x) == k
    ensures Filter(SortBy(s, key, le), p) == Filter(s, p)
  {
    if s != [] {
      var t := SortBy(s[1..], key, le);
      SortByStable(s[1..], key, le, k, p);
      InsertStable(s[0], t, key, le, k, p);
      FilterConcat([s[0]], t, p);
      FilterConcat([s[0]], s[1..], p);
      assert s == [s[0]] + s[1..];
    }
  }

  /** Among the records with one key, an inserted record goes first, where it was. */
  lemma InsertStable<T, K(!new)>(x: T, t: seq<T>, key: T -> K, le: (K, K) -> bool, k: K, p: T -> bool)
    requires Total(le)
    requires forall x :: p(x) <==> key(x) == k
    ensures Filter(Insert(x, t, key, le), p) == Filter([x] + t, p)
  {
    var m := InsertSplit(x, t, key, le);
    var front, back := t[..m], t[m..];
    assert t == front + back;
    FilterConcat(front + [x], back, p);
    FilterConcat(front, [x], p);
    FilterConcat(front, back, p);
    FilterConcat([x], t, p);
    if key(x) == k {
      FrontSkipped(x, t, key, le, k, p, m);
    }
  }

  /** The records `Insert` puts ahead of a record do not share its key. */
  lemma FrontSkipped<T, K(!new)>(x: T, t: seq<T>, key: T -> K, le: (K, K) -> bool, k: K, p: T -> bool, m: nat)
    requires Total(le)
    requires forall x :: p(x) <==> key(x) == k
    requires key(x) == k && m <= |t|
    requires forall j :: 0 <= j < m ==> !le(key(x), key(t[j]))
    ensures Filter(t[..m], p) == []
  {
    forall j | 0 <= j < m
      ensures !p(t[..m][j])
    {
      assert t[..m][j] == t[j];
      assert le(k, k);
    }
    FilterNone(t[..m], p);
  }

  /** Filtering with a predicate no element satisfies leaves nothing. */
  lemma {:induction false} FilterNone<T>(s: seq<T>, p: T -> bool)
    requires forall j :: 0 <= j < |s| ==> !p(s[j])
    ensures Filter(s, p) == []
  {
    if s != [] {
      FilterNone(s[1..], p);
    }
  }

  /** Filtering a sorted list leaves it sorted. */
  lemma {:induction false} FilterKeepsSorted<T, K>(s: seq<T>, key: T -> K, le: (K, K) -> bool, p: T -> bool)
    requires SortedBy(s, key, le)
    ensures SortedBy(Filter(s, p), key, le)
  {
    if s != [] {
      FilterKeepsSorted(s[1..], key, le, p);
      var rest := Filter(s[1..], p);
      forall j | 0 <= j < |rest|
        ensures le(key(s[0]), key(rest[j]))
      {
        FilterMembers(s[1..], p, rest[j]);
        var k :| 0 <= k < |s[1..]| && s[1..][k] == rest[j];
        assert s[k + 1] == rest[j];
      }
    }
  }
}
