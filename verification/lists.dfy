/** Array and string operations the source uses through the JavaScript library: the separator search of `split`, keyed `findIndex` and `splice(i, 1)`. */
module Lists {
  import opened Wrappers

  /** The search `split` makes for its separator: the position of the first `x`, or -1 when there is none. */
  function FirstIndex<T(==)>(s: seq<T>, x: T): (k: int)
    ensures k == -1 <==> x !in s
    ensures k != -1 ==> 0 <= k < |s| && s[k] == x && x !in s[..k]
  {
    if s == [] then -1
    else if s[0] == x then 0
    else
      var k := FirstIndex(s[1..], x);
      assert s[1..][..if k == -1 then 0 else k] == s[1..if k == -1 then 1 else k + 1];
      if k == -1 then -1 else k + 1
  }

  /** An occurrence with none before it is the one `findIndex` reports. */
  lemma FirstIndexAt<T>(s: seq<T>, x: T, i: nat)
    requires i < |s| && s[i] == x && x !in s[..i]
    ensures FirstIndex(s, x) == i
  {
  }

  /** `splice(i, 1)`: the sequence without its element at position `i`. */
  function RemoveAt<T>(s: seq<T>, i: nat): (r: seq<T>)
    requires i < |s|
    ensures |r| == |s| - 1
    ensures forall k :: 0 <= k < i ==> r[k] == s[k]
    ensures forall k :: i <= k < |r| ==> r[k] == s[k + 1]
  {
    s[..i] + s[i + 1..]
  }

  /** Removing an element that occurs in `s` removes exactly one occurrence of it. */
  lemma RemoveAtMultiset<T>(s: seq<T>, i: nat)
    requires i < |s|
    ensures multiset(RemoveAt(s, i)) + multiset{s[i]} == multiset(s)
  {
    assert s == s[..i] + [s[i]] + s[i + 1..];
  }

  /** `findIndex(e => key(e) === k)`: the first position whose key is `k`, or -1 when there is none. */
  function KeyIndex<T, K(==)>(s: seq<T>, key: T -> K, k: K): (i: int)
    ensures -1 <= i < |s|
    ensures i == -1 <==> forall j :: 0 <= j < |s| ==> key(s[j]) != k
    ensures i != -1 ==> key(s[i]) == k && forall j :: 0 <= j < i ==> key(s[j]) != k
  {
    if s == [] then -1
    else if key(s[0]) == k then 0
    else
      var i := KeyIndex(s[1..], key, k);
      if i == -1 then -1 else i + 1
  }

  /**
   * `s[findIndex(...)] = x` after the "not found" guard: the first element keyed `k` becomes
   * `x`, every other element stays; with no such element the call throws `missing`.
   */
  function ReplaceKeyed<T, K(==)>(s: seq<T>, key: T -> K, k: K, x: T, missing: Fault): (r: Result<seq<T>>)
    ensures r.Err? <==> forall j :: 0 <= j < |s| ==> key(s[j]) != k
    ensures r.Err? ==> r.error == missing
    ensures r.Ok? ==> |r.value| == |s| && r.value[KeyIndex(s, key, k)] == x
    ensures r.Ok? ==> forall j :: 0 <= j < |s| && j != KeyIndex(s, key, k) ==> r.value[j] == s[j]
  {
    var i := KeyIndex(s, key, k);
    if i == -1 then Err(missing) else Ok(s[i := x])
  }

  /**
   * `s.splice(findIndex(...), 1)` after the "not found" guard: exactly one element, the first
   * keyed `k`, leaves, and the others keep their order (those before it stay in place, those
   * after it move down by one); with no such element the call throws `missing`.
   */
  function RemoveKeyed<T, K(==)>(s: seq<T>, key: T -> K, k: K, missing: Fault): (r: Result<seq<T>>)
    ensures r.Err? <==> forall j :: 0 <= j < |s| ==> key(s[j]) != k
    ensures r.Err? ==> r.error == missing
    ensures r.Ok? ==> |r.value| == |s| - 1 && multiset(r.value) + multiset{s[KeyIndex(s, key, k)]} == multiset(s)
    ensures r.Ok? ==> forall j :: 0 <= j < KeyIndex(s, key, k) ==> r.value[j] == s[j]
    ensures r.Ok? ==> forall j :: KeyIndex(s, key, k) <= j < |r.value| ==> r.value[j] == s[j + 1]
  {
    var i := KeyIndex(s, key, k);
    if i == -1 then Err(missing)
    else
      RemoveAtMultiset(s, i);
      Ok(RemoveAt(s, i))
  }

  /** Removing by the key of an element just appended, when no earlier element has that key, gives back the list before the append. */
  lemma {:induction false} AppendThenRemove<T, K>(s: seq<T>, key: T -> K, x: T, missing: Fault)
    requires forall j :: 0 <= j < |s| ==> key(s[j]) != key(x)
    ensures RemoveKeyed(s + [x], key, key(x), missing) == Ok(s)
  {
    var t := s + [x];
    assert t[|s|] == x;
    assert KeyIndex(t, key, key(x)) == |s|;
    assert RemoveAt(t, |s|) == s;
  }

  /** Replacing an element by one with the same key leaves the key in place, so a second identical replace changes nothing. */
  lemma {:induction false} ReplaceIdempotent<T, K>(s: seq<T>, key: T -> K, x: T, missing: Fault)
    requires ReplaceKeyed(s, key, key(x), x, missing).Ok?
    ensures ReplaceKeyed(ReplaceKeyed(s, key, key(x), x, missing).value, key, key(x), x, missing) == ReplaceKeyed(s, key, key(x), x, missing)
  {
    var i := KeyIndex(s, key, key(x));
    var r := ReplaceKeyed(s, key, key(x), x, missing).value;
    assert r == s[i := x];
    assert forall j :: 0 <= j < i ==> r[j] == s[j];
    assert KeyIndex(r, key, key(x)) == i;
    assert r[i := x] == r;
  }

  /** `s.filter(p)`: the elements satisfying `p`, in their order. */
  function Filter<T>(s: seq<T>, p: T -> bool): (r: seq<T>)
    ensures |r| <= |s|
  {
    if s == [] then [] else Filter(s[..|s| - 1], p) + (if p(s[|s| - 1]) then [s[|s| - 1]] else [])
  }

  /** The filter keeps exactly the elements satisfying the predicate. */
  lemma {:induction false} FilterMembers<T>(s: seq<T>, p: T -> bool, x: T)
    ensures x in Filter(s, p) <==> x in s && p(x)
  {
    if s != [] {
      FilterMembers(s[..|s| - 1], p, x);
      assert s == s[..|s| - 1] + [s[|s| - 1]];
    }
  }

  /** Filtering a list all of whose elements pass gives the list back. */
  lemma {:induction false} FilterAll<T>(s: seq<T>, p: T -> bool)
    requires forall k :: 0 <= k < |s| ==> p(s[k])
    ensures Filter(s, p) == s
  {
    if s != [] {
      FilterAll(s[..|s| - 1], p);
    }
  }

  /** Filtering a list none of whose elements pass gives the empty list. */
  lemma {:induction false} FilterNone<T>(s: seq<T>, p: T -> bool)
    requires forall k :: 0 <= k < |s| ==> !p(s[k])
    ensures Filter(s, p) == []
  {
    if s != [] {
      FilterNone(s[..|s| - 1], p);
    }
  }

  /** One more element filtered: what the filter of a prefix becomes when the loop advances. */
  lemma FilterStep<T>(s: seq<T>, p: T -> bool, i: nat)
    requires i < |s|
    ensures Filter(s[..i + 1], p) == Filter(s[..i], p) + (if p(s[i]) then [s[i]] else [])
  {
    assert s[..i + 1][..i] == s[..i];
  }

  /** Every element the filter keeps satisfies the predicate. */
  lemma FilterSatisfies<T>(s: seq<T>, p: T -> bool)
    ensures forall k :: 0 <= k < |Filter(s, p)| ==> p(Filter(s, p)[k])
  {
    forall k | 0 <= k < |Filter(s, p)|
      ensures p(Filter(s, p)[k])
    {
      FilterMembers(s, p, Filter(s, p)[k]);
    }
  }
}
