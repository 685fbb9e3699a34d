/**
 * The topic list of the example application's Redux slice, as values: what each reducer
 * makes of `state.topics`. The list is meant to satisfy `topics[i].index == i`.
 */
module SliceTopics {
  import opened Wrappers
  import opened Core
  import opened Lists
  import ThreeTopic
  import Sorting

  /**
   * The keys of a `TopicFolder_ThreeJSON` beyond those of `Topic_Three`; `None` is a missing
   * key. `dueDate` and `assignedTo` may also be present and `null`.
   */
  datatype Rest = Rest(modifiedDate: Option<string>, modifiedAuthor: Option<string>, topicType: Option<string>,
                       topicStatus: Option<string>, dueDate: Option<Option<string>>, assignedTo: Option<Option<string>>,
                       comments: Option<seq<Comment>>, viewpoints: Option<seq<Viewpoint>>, components: Option<seq<Components>>,
                       fieldOfView: Option<real>, aspectRatio: Option<real>)

  /** A topic in the slice: the fields `Topic_Three` carries and the rest. */
  datatype Topic = Topic(base: ThreeTopic.TopicJson, rest: Rest)

  function IndexOf(t: Topic): int {
    t.base.index
  }

  function UuidOf(t: Topic): string {
    t.base.uuid
  }

  function WithIndex(t: Topic, i: int): Topic {
    t.(base := t.base.(index := i))
  }

  /** The slice's invariant: every topic's index is its position. */
  predicate Indexed(ts: seq<Topic>) {
    forall i :: 0 <= i < |ts| ==> IndexOf(ts[i]) == i
  }

  predicate DistinctUuids(ts: seq<Topic>) {
    forall i, j :: 0 <= i < j < |ts| ==> UuidOf(ts[i]) != UuidOf(ts[j])
  }

  /** `topics.sort((a, b) => a.index - b.index)`. */
  function SortByIndex(ts: seq<Topic>): seq<Topic> {
    Sorting.SortBy(ts, IndexOf)
  }

  // ----- updateTopicIndex -----

  /** The `forEach` callback: indices in `[newIndex, oldIndex)` go up by one, those in `(oldIndex, newIndex]` down by one. */
  function Shift(t: Topic, oldIndex: int, newIndex: int): Topic {
    var i := IndexOf(t);
    if i >= newIndex && i < oldIndex then WithIndex(t, i + 1)
    else if i <= newIndex && i > oldIndex then WithIndex(t, i - 1)
    else t
  }

  /** `topics.filter(obj => obj.uuid !== uuid).forEach(...)`: every topic with another uuid is shifted in place. */
  function ShiftOthers(ts: seq<Topic>, uuid: string, oldIndex: int, newIndex: int): (r: seq<Topic>)
    ensures |r| == |ts|
    ensures forall k :: 0 <= k < |ts| ==> r[k] == if UuidOf(ts[k]) != uuid then Shift(ts[k], oldIndex, newIndex) else ts[k]
  {
    seq(|ts|, k requires 0 <= k < |ts| => if UuidOf(ts[k]) != uuid then Shift(ts[k], oldIndex, newIndex) else ts[k])
  }

  /** The list before sorting: the moved topic gets `newIndex`, the others are shifted. */
  function Shifted(ts: seq<Topic>, oldIndex: nat, newIndex: int): seq<Topic>
    requires oldIndex < |ts|
  {
    ShiftOthers(ts[oldIndex := WithIndex(ts[oldIndex], newIndex)], UuidOf(ts[oldIndex]), oldIndex, newIndex)
  }

  /** `updateTopicIndex`: reading a missing topic throws; otherwise the shifted list, sorted by index. */
  function Reorder(ts: seq<Topic>, oldIndex: int, newIndex: int): (r: Result<seq<Topic>>)
    ensures r.Err? <==> !(0 <= oldIndex < |ts|)
    ensures r.Ok? ==> r.value == SortByIndex(Shifted(ts, oldIndex, newIndex))
  {
    if 0 <= oldIndex < |ts| then Ok(SortByIndex(Shifted(ts, oldIndex, newIndex))) else Err(UndefinedRead("index"))
  }

  function Decrement(ts: seq<Topic>): (r: seq<Topic>)
    ensures |r| == |ts| && forall k :: 0 <= k < |ts| ==> r[k] == WithIndex(ts[k], IndexOf(ts[k]) - 1)
  {
    seq(|ts|, k requires 0 <= k < |ts| => WithIndex(ts[k], IndexOf(ts[k]) - 1))
  }

  function Increment(ts: seq<Topic>): (r: seq<Topic>)
    ensures |r| == |ts| && forall k :: 0 <= k < |ts| ==> r[k] == WithIndex(ts[k], IndexOf(ts[k]) + 1)
  {
    seq(|ts|, k requires 0 <= k < |ts| => WithIndex(ts[k], IndexOf(ts[k]) + 1))
  }

  /** The intended move: the topic at `oldIndex` taken out and put back at `newIndex`, indices renumbered. */
  function Moved(ts: seq<Topic>, oldIndex: nat, newIndex: nat): seq<Topic>
    requires oldIndex < |ts| && newIndex < |ts|
  {
    if oldIndex < newIndex then
      ts[..oldIndex] + Decrement(ts[oldIndex + 1..newIndex + 1]) + [WithIndex(ts[oldIndex], newIndex)] + ts[newIndex + 1..]
    else if newIndex < oldIndex then
      ts[..newIndex] + [WithIndex(ts[oldIndex], newIndex)] + Increment(ts[newIndex..oldIndex]) + ts[oldIndex + 1..]
    else ts
  }

  /** The topics with their indices cleared: what a reordering must not change. */
  function Unindexed(ts: seq<Topic>): (r: seq<Topic>)
    ensures |r| == |ts| && forall k :: 0 <= k < |ts| ==> r[k] == WithIndex(ts[k], 0)
  {
    seq(|ts|, k requires 0 <= k < |ts| => WithIndex(ts[k], 0))
  }

  /** Moving down keeps the list indexed. */
  lemma MovedDownIndexed(ts: seq<Topic>, oldIndex: nat, newIndex: nat)
    requires Indexed(ts) && oldIndex < newIndex < |ts|
    ensures Indexed(Moved(ts, oldIndex, newIndex))
  {
    var m := Moved(ts, oldIndex, newIndex);
    var c := Decrement(ts[oldIndex + 1..newIndex + 1]);
    forall i | 0 <= i < |m|
      ensures IndexOf(m[i]) == i
    {
      if oldIndex <= i < newIndex {
        assert m[i] == c[i - oldIndex];
      }
    }
  }

  /** Moving up keeps the list indexed. */
  lemma MovedUpIndexed(ts: seq<Topic>, oldIndex: nat, newIndex: nat)
    requires Indexed(ts) && newIndex < oldIndex < |ts|
    ensures Indexed(Moved(ts, oldIndex, newIndex))
  {
    var m := Moved(ts, oldIndex, newIndex);
    var c := Increment(ts[newIndex..oldIndex]);
    forall i | 0 <= i < |m|
      ensures IndexOf(m[i]) == i
    {
      if newIndex < i <= oldIndex {
        assert m[i] == c[i - newIndex - 1];
      }
    }
  }

  /** Moving down keeps the other topics, apart from their indices, in their order. */
  lemma MovedDownKeepsOthers(ts: seq<Topic>, oldIndex: nat, newIndex: nat)
    requires oldIndex < newIndex < |ts|
    ensures Unindexed(RemoveAt(Moved(ts, oldIndex, newIndex), newIndex)) == Unindexed(RemoveAt(ts, oldIndex))
  {
    var m := Moved(ts, oldIndex, newIndex);
    var c := Decrement(ts[oldIndex + 1..newIndex + 1]);
    var l, r := RemoveAt(m, newIndex), RemoveAt(ts, oldIndex);
    forall k | 0 <= k < |l|
      ensures WithIndex(l[k], 0) == WithIndex(r[k], 0)
    {
      if oldIndex <= k < newIndex {
        assert l[k] == c[k - oldIndex];
      }
    }
  }

  /** Moving up keeps the other topics, apart from their indices, in their order. */
  lemma MovedUpKeepsOthers(ts: seq<Topic>, oldIndex: nat, newIndex: nat)
    requires newIndex < oldIndex < |ts|
    ensures Unindexed(RemoveAt(Moved(ts, oldIndex, newIndex), newIndex)) == Unindexed(RemoveAt(ts, oldIndex))
  {
    var m := Moved(ts, oldIndex, newIndex);
    var c := Increment(ts[newIndex..oldIndex]);
    var l, r := RemoveAt(m, newIndex), RemoveAt(ts, oldIndex);
    forall k | 0 <= k < |l|
      ensures WithIndex(l[k], 0) == WithIndex(r[k], 0)
    {
      if newIndex <= k < oldIndex {
        assert l[k] == c[k - newIndex];
      }
    }
  }

  /**
   * Moving keeps the list indexed, puts the moved topic at `newIndex`, and keeps the others,
   * apart from their indices, in their order.
   */
  lemma MovedShape(ts: seq<Topic>, oldIndex: nat, newIndex: nat)
    requires Indexed(ts) && oldIndex < |ts| && newIndex < |ts|
    ensures var m := Moved(ts, oldIndex, newIndex);
      && Indexed(m) && m[newIndex] == WithIndex(ts[oldIndex], newIndex)
      && Unindexed(RemoveAt(m, newIndex)) == Unindexed(RemoveAt(ts, oldIndex))
  {
    if oldIndex < newIndex {
      MovedDownIndexed(ts, oldIndex, newIndex);
      MovedDownKeepsOthers(ts, oldIndex, newIndex);
    } else if newIndex < oldIndex {
      MovedUpIndexed(ts, oldIndex, newIndex);
      MovedUpKeepsOthers(ts, oldIndex, newIndex);
    } else {
      assert WithIndex(ts[oldIndex], newIndex) == ts[oldIndex];
    }
  }

  /** With distinct uuids, the `filter` skips exactly the moved topic. */
  lemma ShiftedAt(ts: seq<Topic>, oldIndex: nat, newIndex: int, i: nat)
    requires DistinctUuids(ts) && oldIndex < |ts| && i < |ts|
    ensures Shifted(ts, oldIndex, newIndex)[i] == if i == oldIndex then WithIndex(ts[oldIndex], newIndex) else Shift(ts[i], oldIndex, newIndex)
  {
    if i < oldIndex {
      assert UuidOf(ts[i]) != UuidOf(ts[oldIndex]);
    } else if i > oldIndex {
      assert UuidOf(ts[oldIndex]) != UuidOf(ts[i]);
    }
  }

  /** Moving down, the shifted list is the intended one with the moved topic still in its old place. */
  lemma ShiftedDown(ts: seq<Topic>, oldIndex: nat, newIndex: nat)
    requires Indexed(ts) && DistinctUuids(ts) && oldIndex < newIndex < |ts|
    ensures multiset(Shifted(ts, oldIndex, newIndex)) == multiset(Moved(ts, oldIndex, newIndex))
  {
    var s := Shifted(ts, oldIndex, newIndex);
    var a, x, c, d := ts[..oldIndex], [WithIndex(ts[oldIndex], newIndex)], Decrement(ts[oldIndex + 1..newIndex + 1]), ts[newIndex + 1..];
    forall i | 0 <= i < |s|
      ensures s[i] == (a + x + c + d)[i]
    {
      ShiftedAt(ts, oldIndex, newIndex, i);
      if oldIndex < i <= newIndex {
        assert c[i - oldIndex - 1] == WithIndex(ts[i], i - 1);
      }
    }
    assert s == a + x + c + d;
  }

  /** Moving up, the shifted list is the intended one with the moved topic still in its old place. */
  lemma ShiftedUp(ts: seq<Topic>, oldIndex: nat, newIndex: nat)
    requires Indexed(ts) && DistinctUuids(ts) && newIndex < oldIndex < |ts|
    ensures multiset(Shifted(ts, oldIndex, newIndex)) == multiset(Moved(ts, oldIndex, newIndex))
  {
    var s := Shifted(ts, oldIndex, newIndex);
    var a, x, c, d := ts[..newIndex], [WithIndex(ts[oldIndex], newIndex)], Increment(ts[newIndex..oldIndex]), ts[oldIndex + 1..];
    forall i | 0 <= i < |s|
      ensures s[i] == (a + c + x + d)[i]
    {
      ShiftedAt(ts, oldIndex, newIndex, i);
      if newIndex <= i < oldIndex {
        assert c[i - newIndex] == WithIndex(ts[i], i + 1);
      }
    }
    assert s == a + c + x + d;
  }

  /** Under the invariant and with distinct uuids, shifting gives the elements of the intended move. */
  lemma ShiftedIsMoved(ts: seq<Topic>, oldIndex: nat, newIndex: nat)
    requires Indexed(ts) && DistinctUuids(ts) && oldIndex < |ts| && newIndex < |ts|
    ensures multiset(Shifted(ts, oldIndex, newIndex)) == multiset(Moved(ts, oldIndex, newIndex))
  {
    if oldIndex < newIndex {
      ShiftedDown(ts, oldIndex, newIndex);
    } else if newIndex < oldIndex {
      ShiftedUp(ts, oldIndex, newIndex);
    } else {
      var s := Shifted(ts, oldIndex, newIndex);
      forall i | 0 <= i < |s|
        ensures s[i] == ts[i]
      {
        ShiftedAt(ts, oldIndex, newIndex, i);
      }
      assert s == ts;
    }
  }

  /**
   * `updateTopicIndex` on an indexed list of distinct topics performs the intended move: the
   * result is indexed, holds the moved topic at `newIndex` and the others in their order;
   * with `oldIndex == newIndex` nothing changes.
   */
  lemma ReorderMoves(ts: seq<Topic>, oldIndex: nat, newIndex: nat)
    requires Indexed(ts) && DistinctUuids(ts) && oldIndex < |ts| && newIndex < |ts|
    ensures Reorder(ts, oldIndex, newIndex) == Ok(Moved(ts, oldIndex, newIndex))
    ensures Indexed(Reorder(ts, oldIndex, newIndex).value)
    ensures oldIndex == newIndex ==> Reorder(ts, oldIndex, newIndex) == Ok(ts)
  {
    MovedShape(ts, oldIndex, newIndex);
    ShiftedIsMoved(ts, oldIndex, newIndex);
    var m := Moved(ts, oldIndex, newIndex);
    assert Sorting.KeyedFrom(m, IndexOf, 0);
    Sorting.SortByKeyed(Shifted(ts, oldIndex, newIndex), m, IndexOf);
  }

  // ----- removeTopic -----

  /** Where `splice(index, 1)` starts: a negative index counts from the end, an index past the end removes nothing. */
  function SpliceStart(length: nat, index: int): (start: nat)
    ensures start <= length
  {
    if index < 0 then (if length + index < 0 then 0 else length + index)
    else if index > length then length else index
  }

  /** `splice(index, 1)`. */
  function Splice(ts: seq<Topic>, index: int): (r: seq<Topic>)
    ensures SpliceStart(|ts|, index) < |ts| ==> r == RemoveAt(ts, SpliceStart(|ts|, index))
    ensures SpliceStart(|ts|, index) == |ts| ==> r == ts
  {
    var start := SpliceStart(|ts|, index);
    if start < |ts| then RemoveAt(ts, start) else ts
  }

  /**
   * What a new `BCF.THREE.Topic` makes of what the loop reads, with `fromJSON` then `toJSON`;
   * `None` is the `undefined` read at a negative position. That class is not part of this
   * model, so the round trip is a parameter, and it may throw.
   */
  type Revive = Option<Topic> -> Result<Topic>

  /** The loop body: the round trip with `index--` between `fromJSON` and `toJSON`. */
  function Rewritten(t: Option<Topic>, revive: Revive): Result<Topic> {
    match revive(t)
    case Err(e) => Err(e)
    case Ok(x) => Ok(WithIndex(x, IndexOf(x) - 1))
  }

  /**
   * The `for` loop from position `i` on: each position is replaced by the rewrite of what it
   * holds. A negative position holds `undefined`, and what is written there is not a list
   * element. The first exception ends the loop, and the reducer's draft is discarded.
   */
  function RewriteFrom(ts: seq<Topic>, i: int, revive: Revive): Result<seq<Topic>>
    decreases |ts| - i
  {
    if i >= |ts| then Ok(ts)
    else if i < 0 then
      match Rewritten(None, revive)
      case Err(e) => Err(e)
      case Ok(_) => RewriteFrom(ts, i + 1, revive)
    else
      match Rewritten(Some(ts[i]), revive)
      case Err(e) => Err(e)
      case Ok(x) => RewriteFrom(ts[i := x], i + 1, revive)
  }

  /** `removeTopic` as written: splice, then rewrite every position from the payload's index on. */
  function RemoveAsWritten(ts: seq<Topic>, index: int, revive: Revive): Result<seq<Topic>> {
    RewriteFrom(Splice(ts, index), index, revive)
  }

  /** The round trip gives back every topic it reads. */
  ghost predicate Faithful(ts: seq<Topic>, revive: Revive) {
    forall k :: 0 <= k < |ts| ==> revive(Some(ts[k])) == Ok(ts[k])
  }

  /** The loop never touches the topics before its start, and keeps the length. */
  lemma {:induction false} RewriteFromKeepsPrefix(ts: seq<Topic>, i: int, revive: Revive)
    ensures RewriteFrom(ts, i, revive).Ok? ==>
      |RewriteFrom(ts, i, revive).value| == |ts| && forall k :: 0 <= k < i && k < |ts| ==> RewriteFrom(ts, i, revive).value[k] == ts[k]
    decreases |ts| - i
  {
    if i < 0 && i < |ts| {
      RewriteFromKeepsPrefix(ts, i + 1, revive);
    } else if 0 <= i < |ts| && Rewritten(Some(ts[i]), revive).Ok? {
      var x := Rewritten(Some(ts[i]), revive).value;
      RewriteFromKeepsPrefix(ts[i := x], i + 1, revive);
    }
  }

  /** With a faithful round trip the loop only lowers the indices from its start on. */
  lemma {:induction false} RewriteFromFaithful(ts: seq<Topic>, i: nat, revive: Revive)
    requires i <= |ts| && Faithful(ts[i..], revive)
    ensures RewriteFrom(ts, i, revive) == Ok(ts[..i] + Decrement(ts[i..]))
    decreases |ts| - i
  {
    if i < |ts| {
      assert ts[i..][0] == ts[i];
      var x := WithIndex(ts[i], IndexOf(ts[i]) - 1);
      var next := ts[i := x];
      var rest := ts[i + 1..];
      assert next[i + 1..] == rest;
      forall k | 0 <= k < |rest|
        ensures revive(Some(rest[k])) == Ok(rest[k])
      {
        assert rest[k] == ts[i..][k + 1];
      }
      assert Rewritten(Some(ts[i]), revive) == Ok(x);
      assert RewriteFrom(ts, i, revive) == RewriteFrom(next, i + 1, revive);
      RewriteFromFaithful(next, i + 1, revive);
      assert next[..i + 1] + Decrement(next[i + 1..]) == ts[..i] + Decrement(ts[i..]);
    } else {
      assert ts[..i] + Decrement(ts[i..]) == ts;
    }
  }

  /** The intended `removeTopic`: the topic at `index` leaves and every later one only has its index lowered. */
  function Remove(ts: seq<Topic>, index: nat): (r: seq<Topic>)
    requires index < |ts|
    ensures |r| == |ts| - 1
    ensures forall k :: 0 <= k < index ==> r[k] == ts[k]
    ensures forall k :: index <= k < |r| ==> r[k] == WithIndex(ts[k + 1], IndexOf(ts[k + 1]) - 1)
  {
    ts[..index] + Decrement(ts[index + 1..])
  }

  /** The intended removal keeps the list indexed. */
  lemma RemoveIndexed(ts: seq<Topic>, index: nat)
    requires Indexed(ts) && index < |ts|
    ensures Indexed(Remove(ts, index))
  {
    var r := Remove(ts, index);
    forall k | 0 <= k < |r|
      ensures IndexOf(r[k]) == k
    {
      if k >= index {
        assert IndexOf(ts[k + 1]) == k + 1;
      }
    }
  }

  /** Whatever the round trip does, the topics before the removed one are untouched. */
  lemma RemoveKeepsEarlier(ts: seq<Topic>, index: nat, revive: Revive)
    requires index < |ts| && RemoveAsWritten(ts, index, revive).Ok?
    ensures |RemoveAsWritten(ts, index, revive).value| == |ts| - 1
    ensures forall k :: 0 <= k < index ==> RemoveAsWritten(ts, index, revive).value[k] == ts[k]
  {
    RewriteFromKeepsPrefix(Splice(ts, index), index, revive);
  }

  /**
   * With a faithful round trip, `removeTopic` as written is the intended removal, so the list
   * stays indexed.
   */
  lemma RemoveAsWrittenIsRemove(ts: seq<Topic>, index: nat, revive: Revive)
    requires index < |ts| && Faithful(ts, revive)
    ensures RemoveAsWritten(ts, index, revive) == Ok(Remove(ts, index))
    ensures Indexed(ts) ==> Indexed(RemoveAsWritten(ts, index, revive).value)
  {
    var spliced := Splice(ts, index);
    assert spliced == ts[..index] + ts[index + 1..];
    assert spliced[index..] == ts[index + 1..];
    assert spliced[..index] == ts[..index];
    var rest := spliced[index..];
    forall k | 0 <= k < |rest|
      ensures revive(Some(rest[k])) == Ok(rest[k])
    {
      assert rest[k] == ts[index + 1 + k];
    }
    RewriteFromFaithful(spliced, index, revive);
    if Indexed(ts) {
      RemoveIndexed(ts, index);
    }
  }

  // ----- uuids -----

  /**
   * Where the `k`-th topic of a list came from, when the list is another with the topic at `o`
   * moved to `n`: `n` holds the moved topic, the others keep their order around it.
   */
  function Origin(o: nat, n: nat, k: nat): nat {
    if k == n then o
    else
      var r := if k < n then k else k - 1;
      if r < o then r else r + 1
  }

  /** Each topic of a moved list has the uuid of the topic it came from. */
  lemma OriginUuid(ts: seq<Topic>, m: seq<Topic>, o: nat, n: nat, k: nat)
    requires |m| == |ts| && o < |ts| && n < |ts| && k < |m|
    requires UuidOf(m[n]) == UuidOf(ts[o]) && Unindexed(RemoveAt(m, n)) == Unindexed(RemoveAt(ts, o))
    ensures Origin(o, n, k) < |ts| && UuidOf(m[k]) == UuidOf(ts[Origin(o, n, k)])
  {
    if k != n {
      var r := if k < n then k else k - 1;
      assert RemoveAt(m, n)[r] == m[k];
      assert Unindexed(RemoveAt(m, n))[r] == WithIndex(m[k], 0);
      assert Unindexed(RemoveAt(ts, o))[r] == WithIndex(ts[Origin(o, n, k)], 0);
    }
  }

  /** Moving a topic keeps the uuids distinct. */
  lemma MovedDistinct(ts: seq<Topic>, oldIndex: nat, newIndex: nat)
    requires Indexed(ts) && DistinctUuids(ts) && oldIndex < |ts| && newIndex < |ts|
    ensures DistinctUuids(Moved(ts, oldIndex, newIndex))
  {
    MovedShape(ts, oldIndex, newIndex);
    var m := Moved(ts, oldIndex, newIndex);
    assert |RemoveAt(m, newIndex)| == |RemoveAt(ts, oldIndex)|;
    forall i, j | 0 <= i < j < |m|
      ensures UuidOf(m[i]) != UuidOf(m[j])
    {
      OriginUuid(ts, m, oldIndex, newIndex, i);
      OriginUuid(ts, m, oldIndex, newIndex, j);
      var a, b := Origin(oldIndex, newIndex, i), Origin(oldIndex, newIndex, j);
      assert a != b;
      if a < b {
        assert UuidOf(ts[a]) != UuidOf(ts[b]);
      } else {
        assert UuidOf(ts[b]) != UuidOf(ts[a]);
      }
    }
  }

  /** The intended removal keeps the uuids distinct. */
  lemma RemoveDistinct(ts: seq<Topic>, index: nat)
    requires DistinctUuids(ts) && index < |ts|
    ensures DistinctUuids(Remove(ts, index))
  {
    var r := Remove(ts, index);
    forall i, j | 0 <= i < j < |r|
      ensures UuidOf(r[i]) != UuidOf(r[j])
    {
      var a, b := if i < index then i else i + 1, if j < index then j else j + 1;
      assert UuidOf(r[i]) == UuidOf(ts[a]) && UuidOf(r[j]) == UuidOf(ts[b]);
    }
  }
}
