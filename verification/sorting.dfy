/** A stable insertion sort by an integer key, the order `Array.prototype.sort` gives with a key comparator. */
module Sorting {
  predicate SortedBy<T>(s: seq<T>, key: T -> int) {
    forall i, j :: 0 <= i < j < |s| ==> key(s[i]) <= key(s[j])
  }

  /** The keys run `k, k+1, ...` from the front. */
  predicate KeyedFrom<T>(s: seq<T>, key: T -> int, k: int) {
    forall i :: 0 <= i < |s| ==> key(s[i]) == k + i
  }

  /** Puts `x` before the first element whose key is not smaller, so that equal keys keep their order. */
  function InsertBy<T>(x: T, s: seq<T>, key: T -> int): seq<T> {
    if s == [] then [x]
    else if key(x) <= key(s[0]) then [x] + s
    else [s[0]] + InsertBy(x, s[1..], key)
  }

  /** Inserting adds exactly `x` and keeps a sorted list sorted. */
  lemma {:induction false} InsertBySorted<T>(x: T, s: seq<T>, key: T -> int)
    ensures multiset(InsertBy(x, s, key)) == multiset(s) + multiset{x}
    ensures SortedBy(s, key) ==> SortedBy(InsertBy(x, s, key), key)
  {
    if s != [] && key(x) > key(s[0]) {
      var tail := InsertBy(x, s[1..], key);
      InsertBySorted(x, s[1..], key);
      assert s == [s[0]] + s[1..];
      if SortedBy(s, key) {
        forall j | 0 <= j < |tail|
          ensures key(s[0]) <= key(tail[j])
        {
          assert tail[j] in multiset(tail);
          if tail[j] != x {
            assert tail[j] in s[1..];
          }
        }
        assert SortedBy([s[0]] + tail, key);
      }
    }
  }

  function SortBy<T>(s: seq<T>, key: T -> int): seq<T> {
    if s == [] then [] else InsertBy(s[0], SortBy(s[1..], key), key)
  }

  /** Sorting permutes the list into key order. */
  lemma {:induction false} SortBySorted<T>(s: seq<T>, key: T -> int)
    ensures multiset(SortBy(s, key)) == multiset(s) && SortedBy(SortBy(s, key), key)
  {
    if s != [] {
      SortBySorted(s[1..], key);
      InsertBySorted(s[0], SortBy(s[1..], key), key);
      assert s == [s[0]] + s[1..];
    }
  }

  /** The smallest element of a sorted list is the one keyed `k` of a list keyed from `k` with the same elements. */
  lemma SameHead<T>(a: seq<T>, b: seq<T>, key: T -> int, k: int)
    requires SortedBy(a, key) && KeyedFrom(b, key, k) && multiset(a) == multiset(b) && a != []
    ensures b != [] && a[0] == b[0]
  {
    assert a[0] in multiset(b);
    var j :| 0 <= j < |b| && b[j] == a[0];
    assert b[0] in multiset(a);
    var i :| 0 <= i < |a| && a[i] == b[0];
    assert key(a[0]) <= key(a[i]) == k;
  }

  lemma TailMultiset<T>(s: seq<T>)
    requires s != []
    ensures multiset(s[1..]) == multiset(s) - multiset{s[0]}
  {
    assert s == [s[0]] + s[1..];
  }

  /** A sorted list with the same elements as a list keyed `k, k+1, ...` is that list. */
  lemma {:induction false} SortedUnique<T>(a: seq<T>, b: seq<T>, key: T -> int, k: int)
    requires SortedBy(a, key) && KeyedFrom(b, key, k) && multiset(a) == multiset(b)
    ensures a == b
    decreases |b|
  {
    if a == [] {
      assert |multiset(b)| == 0;
    } else {
      SameHead(a, b, key, k);
      TailMultiset(a);
      TailMultiset(b);
      SortedUnique(a[1..], b[1..], key, k + 1);
    }
  }

  /** Any permutation of a list keyed `0, 1, ...` sorts back to that list. */
  lemma SortByKeyed<T>(s: seq<T>, b: seq<T>, key: T -> int)
    requires multiset(s) == multiset(b) && KeyedFrom(b, key, 0)
    ensures SortBy(s, key) == b
  {
    SortBySorted(s, key);
    SortedUnique(SortBy(s, key), b, key, 0);
  }
}
