/**
 * The example application's Redux slice `BCF`: the topic list, the selected topic, the
 * reducers that change them, and `createBCF`, which turns the list into the worker's build
 * request. A reducer that throws leaves the state as it was (the draft is discarded).
 */
module BcfSlice {
  import opened Wrappers
  import opened Lists
  import Core
  import Worker
  import Camera
  import ThreeTopic
  import SliceTopics
  import SliceComponents

  type Topic = SliceTopics.Topic

  /** The keys the issue form sends to `updateTopic`. */
  datatype Key = Title | Description | TopicStatus | TopicType | DueDate | AssignedTo

  /** `topic[key] = value`, then `topic.modifiedDate = date`. */
  function Touched(t: Topic, key: Key, value: string, date: string): Topic {
    var u := match key
      case Title => t.(base := t.base.(title := value))
      case Description => t.(base := t.base.(description := value))
      case TopicStatus => t.(rest := t.rest.(topicStatus := Some(value)))
      case TopicType => t.(rest := t.rest.(topicType := Some(value)))
      case DueDate => t.(rest := t.rest.(dueDate := Some(Some(value))))
      case AssignedTo => t.(rest := t.rest.(assignedTo := Some(Some(value))));
    u.(rest := u.rest.(modifiedDate := Some(date)))
  }

  /** The string a key holds; `None` when the key is missing or `null`. */
  function Field(t: Topic, key: Key): Option<string> {
    match key
    case Title => Some(t.base.title)
    case Description => Some(t.base.description)
    case TopicStatus => t.rest.topicStatus
    case TopicType => t.rest.topicType
    case DueDate => if t.rest.dueDate.Some? then t.rest.dueDate.value else None
    case AssignedTo => if t.rest.assignedTo.Some? then t.rest.assignedTo.value else None
  }

  /**
   * An edit sets the key and the modified date; every other key, the uuid, the index and the
   * camera are unchanged.
   */
  lemma TouchedSets(t: Topic, key: Key, value: string, date: string)
    ensures var u := Touched(t, key, value, date);
      && Field(u, key) == Some(value) && u.rest.modifiedDate == Some(date)
      && (forall other: Key :: other != key ==> Field(u, other) == Field(t, other))
      && u.base.(title := t.base.title, description := t.base.description) == t.base
      && u.rest.(modifiedDate := t.rest.modifiedDate, topicStatus := t.rest.topicStatus, topicType := t.rest.topicType,
                 dueDate := t.rest.dueDate, assignedTo := t.rest.assignedTo) == t.rest
  {
  }

  /** The slice's state: the topic list and the selected topic, a copy of one of them or `null`. */
  datatype Slice = Slice(topics: seq<Topic>, selectedTopic: Option<Topic>)

  /** The list's invariant: every topic's index is its position, and no two share a uuid. */
  predicate Valid(s: Slice) {
    SliceTopics.Indexed(s.topics) && SliceTopics.DistinctUuids(s.topics)
  }

  /** The selected topic is the one its index points at. */
  predicate Coherent(s: Slice) {
    s.selectedTopic.Some? ==>
      var i := SliceTopics.IndexOf(s.selectedTopic.value);
      0 <= i < |s.topics| && s.topics[i] == s.selectedTopic.value
  }

  // ----- createTopic -----

  /** The new topic gets the next index, is appended and becomes the selected topic. */
  function Created(s: Slice, made: Topic): Slice {
    var t := SliceTopics.WithIndex(made, |s.topics|);
    Slice(s.topics + [t], Some(t))
  }

  /**
   * A topic with a new uuid keeps the list valid; it is the last topic, with the index equal to
   * the old length, the earlier topics are untouched, and the selection is coherent.
   */
  lemma CreatedKeepsValid(s: Slice, made: Topic)
    requires Valid(s) && forall k :: 0 <= k < |s.topics| ==> SliceTopics.UuidOf(s.topics[k]) != SliceTopics.UuidOf(made)
    ensures var c := Created(s, made);
      && Valid(c) && Coherent(c) && |c.topics| == |s.topics| + 1 && c.topics[..|s.topics|] == s.topics
      && SliceTopics.IndexOf(c.topics[|s.topics|]) == |s.topics| && SliceTopics.UuidOf(c.topics[|s.topics|]) == SliceTopics.UuidOf(made)
  {
    var c := Created(s, made);
    assert c.topics[..|s.topics|] == s.topics;
  }

  // ----- updateTopic -----

  /**
   * `updateTopic` as written: it throws when nothing is selected or no topic sits at the
   * selected topic's index; otherwise it edits the topic at that index and the selected copy.
   */
  function Updated(s: Slice, key: Key, value: string, date: string): Result<Slice> {
    if s.selectedTopic.None? then Err(NullField("selectedTopic is null"))
    else
      var i := SliceTopics.IndexOf(s.selectedTopic.value);
      if !(0 <= i < |s.topics|) then Err(NullField("topic is null"))
      else Ok(Slice(s.topics[i := Touched(s.topics[i], key, value, date)], Some(Touched(s.selectedTopic.value, key, value, date))))
  }

  /** The intended `updateTopic`: the topic edited is the one with the selected topic's uuid. */
  function UpdatedByUuid(s: Slice, key: Key, value: string, date: string): Result<Slice> {
    if s.selectedTopic.None? then Err(NullField("selectedTopic is null"))
    else
      var i := KeyIndex(s.topics, SliceTopics.UuidOf, SliceTopics.UuidOf(s.selectedTopic.value));
      if i == -1 then Err(NullField("topic is null"))
      else Ok(Slice(s.topics[i := Touched(s.topics[i], key, value, date)], Some(Touched(s.selectedTopic.value, key, value, date))))
  }

  /** Editing a topic in place keeps the list valid: the edit changes neither uuid nor index. */
  lemma TouchedInPlace(ts: seq<Topic>, i: nat, key: Key, value: string, date: string)
    requires SliceTopics.Indexed(ts) && SliceTopics.DistinctUuids(ts) && i < |ts|
    ensures var r := ts[i := Touched(ts[i], key, value, date)];
      SliceTopics.Indexed(r) && SliceTopics.DistinctUuids(r)
  {
    var r := ts[i := Touched(ts[i], key, value, date)];
    assert forall k :: 0 <= k < |ts| ==> SliceTopics.UuidOf(r[k]) == SliceTopics.UuidOf(ts[k]) && SliceTopics.IndexOf(r[k]) == SliceTopics.IndexOf(ts[k]);
  }

  /**
   * The intended update fails exactly when nothing is selected or no topic has the selected
   * uuid; otherwise it edits the topic with that uuid, leaves every other topic alone and keeps
   * the list valid.
   */
  lemma UpdatedByUuidEditsSelected(s: Slice, key: Key, value: string, date: string)
    requires Valid(s)
    ensures var r := UpdatedByUuid(s, key, value, date);
      && (r.Err? <==> s.selectedTopic.None? || forall k :: 0 <= k < |s.topics| ==> SliceTopics.UuidOf(s.topics[k]) != SliceTopics.UuidOf(s.selectedTopic.value))
      && (r.Ok? ==>
            && Valid(r.value) && |r.value.topics| == |s.topics|
            && (forall k :: 0 <= k < |s.topics| ==>
                  if SliceTopics.UuidOf(s.topics[k]) == SliceTopics.UuidOf(s.selectedTopic.value)
                  then r.value.topics[k] == Touched(s.topics[k], key, value, date)
                  else r.value.topics[k] == s.topics[k]))
  {
    if s.selectedTopic.Some? {
      var u := SliceTopics.UuidOf(s.selectedTopic.value);
      var i := KeyIndex(s.topics, SliceTopics.UuidOf, u);
      if i != -1 {
        TouchedInPlace(s.topics, i, key, value, date);
        forall k | 0 <= k < |s.topics| && SliceTopics.UuidOf(s.topics[k]) == u
          ensures k == i
        {
          KeyIndexAt(s.topics, k);
        }
      }
    }
  }

  /** In a valid list the topic at position `i` is the first, and only, one with its uuid. */
  lemma KeyIndexAt(ts: seq<Topic>, i: nat)
    requires SliceTopics.DistinctUuids(ts) && i < |ts|
    ensures KeyIndex(ts, SliceTopics.UuidOf, SliceTopics.UuidOf(ts[i])) == i
  {
    var j := KeyIndex(ts, SliceTopics.UuidOf, SliceTopics.UuidOf(ts[i]));
    assert j != -1;
    assert j <= i;
  }

  /** While the selection is coherent, the update as written is the intended one, and keeps the slice valid and coherent. */
  lemma UpdateAgreesWhenCoherent(s: Slice, key: Key, value: string, date: string)
    requires Valid(s) && Coherent(s)
    ensures Updated(s, key, value, date) == UpdatedByUuid(s, key, value, date)
    ensures Updated(s, key, value, date).Ok? ==> Valid(Updated(s, key, value, date).value) && Coherent(Updated(s, key, value, date).value)
  {
    if s.selectedTopic.Some? {
      var i := SliceTopics.IndexOf(s.selectedTopic.value);
      KeyIndexAt(s.topics, i);
      TouchedInPlace(s.topics, i, key, value, date);
    }
  }

  // ----- updateTopicIndex, removeTopic, selectTopic, deselectTopic -----

  /** `updateTopicIndex`: the list is reordered; the selected copy is left as it was. */
  function Reordered(s: Slice, oldIndex: int, newIndex: int): Result<Slice> {
    match SliceTopics.Reorder(s.topics, oldIndex, newIndex)
    case Err(e) => Err(e)
    case Ok(ts) => Ok(Slice(ts, s.selectedTopic))
  }

  /** `removeTopic`: the list loses the topic at `index`; the selected copy is left as it was. */
  function Removed(s: Slice, index: int, revive: SliceTopics.Revive): Result<Slice> {
    match SliceTopics.RemoveAsWritten(s.topics, index, revive)
    case Err(e) => Err(e)
    case Ok(ts) => Ok(Slice(ts, s.selectedTopic))
  }

  /** `selectTopic(n)`: the topic at position `n`; a position with no topic reads `undefined`. */
  function Selected(s: Slice, n: int): Slice {
    Slice(s.topics, if 0 <= n < |s.topics| then Some(s.topics[n]) else None)
  }

  /** `deselectTopic`. */
  function Deselected(s: Slice): Slice {
    Slice(s.topics, None)
  }

  /** Moving a topic within a valid list keeps it valid, and the list is the intended move. */
  lemma ReorderKeepsValid(s: Slice, oldIndex: nat, newIndex: nat)
    requires Valid(s) && oldIndex < |s.topics| && newIndex < |s.topics|
    ensures Reordered(s, oldIndex, newIndex) == Ok(Slice(SliceTopics.Moved(s.topics, oldIndex, newIndex), s.selectedTopic))
    ensures Valid(Reordered(s, oldIndex, newIndex).value)
  {
    SliceTopics.ReorderMoves(s.topics, oldIndex, newIndex);
    SliceTopics.MovedDistinct(s.topics, oldIndex, newIndex);
  }

  /** With a faithful round trip, removing from a valid list keeps it valid, and the list is the intended removal. */
  lemma RemovedKeepsValid(s: Slice, index: nat, revive: SliceTopics.Revive)
    requires Valid(s) && index < |s.topics| && SliceTopics.Faithful(s.topics, revive)
    ensures Removed(s, index, revive) == Ok(Slice(SliceTopics.Remove(s.topics, index), s.selectedTopic))
    ensures Valid(Removed(s, index, revive).value)
  {
    SliceTopics.RemoveAsWrittenIsRemove(s.topics, index, revive);
    SliceTopics.RemoveDistinct(s.topics, index);
  }

  /**
   * In an indexed list, selecting always leaves a coherent selection: the topic at `n`
   * exactly when there is one.
   */
  lemma SelectedCoherent(s: Slice, n: int)
    requires SliceTopics.Indexed(s.topics)
    ensures Coherent(Selected(s, n)) && Coherent(Deselected(s))
    ensures Selected(s, n).selectedTopic.Some? <==> 0 <= n < |s.topics|
  {
  }

  /** A topic with the given uuid and index; its other fields are empty. */
  function Sample(uuid: string, index: int): Topic {
    var origin := Core.Vec3(0.0, 0.0, 0.0);
    SliceTopics.Topic(ThreeTopic.TopicJson(uuid, index, origin, origin, origin, "", "", "", "", ""),
                      SliceTopics.Rest(None, None, None, None, None, None, None, None, None, None, None))
  }

  /**
   * The selected topic's index goes stale. With `a` at position 0 selected and `b` at
   * position 1, moving `a` to position 1 leaves the selected copy's index at 0. The next
   * update then edits `b`, while the selected copy shows the edit; the intended update edits `a`.
   */
  lemma StaleSelectionEditsOtherTopic()
    ensures var s := Slice([Sample("a", 0), Sample("b", 1)], Some(Sample("a", 0)));
      var moved := Reordered(s, 0, 1);
      && Valid(s) && Coherent(s) && moved.Ok? && Valid(moved.value) && !Coherent(moved.value)
      && var u := Updated(moved.value, Title, "edited", "now");
      && u.Ok? && |u.value.topics| == 2 && SliceTopics.UuidOf(u.value.topics[0]) == "b" && u.value.topics[0].base.title == "edited"
      && u.value.topics[1].base.title == "" && u.value.selectedTopic.value.base.title == "edited"
      && var f := UpdatedByUuid(moved.value, Title, "edited", "now");
      && f.Ok? && |f.value.topics| == 2 && SliceTopics.UuidOf(f.value.topics[1]) == "a" && f.value.topics[1].base.title == "edited"
      && f.value.topics[0].base.title == ""
  {
    var a, b := Sample("a", 0), Sample("b", 1);
    var s := Slice([a, b], Some(a));
    ReorderKeepsValid(s, 0, 1);
    var m := SliceTopics.Moved(s.topics, 0, 1);
    assert SliceTopics.Decrement([b]) == [Sample("b", 0)];
    assert m == [Sample("b", 0), Sample("a", 1)];
    assert KeyIndex(m, SliceTopics.UuidOf, "a") == 1;
  }

  // ----- createBCF -----

  /** The keys `createBCF` copies through `JSON.parse(JSON.stringify(...))`, which throws on a missing one. */
  predicate Copyable(t: Topic) {
    t.rest.comments.Some? && t.rest.viewpoints.Some? && t.rest.components.Some?
  }

  /** The other keys a worker topic requires: present, and for `dueDate` and `assignedTo` possibly `null`. */
  predicate Complete(t: Topic) {
    t.rest.modifiedDate.Some? && t.rest.modifiedAuthor.Some? && t.rest.topicType.Some? && t.rest.topicStatus.Some?
    && t.rest.dueDate.Some? && t.rest.assignedTo.Some? && t.rest.fieldOfView.Some? && t.rest.aspectRatio.Some?
  }

  /** The camera `convertTopicCameraStateToBCFState` reads from a topic. */
  function CameraOf(t: Topic): Camera.TopicCameraState
    requires Complete(t)
  {
    Camera.TopicCameraState(t.base.position, t.base.target, t.base.direction, t.rest.fieldOfView.value, t.rest.aspectRatio.value)
  }

  /**
   * One topic of the request: the stored fields copied and the camera converted to BCF axes.
   * The worker topic carries no screenshot and no header of its own.
   */
  function ToWorker(t: Topic, normalize: Core.Vec3 -> Core.Vec3): (w: Worker.TopicFolder)
    requires Copyable(t) && Complete(t)
    ensures w.uuid == t.base.uuid && w.index == t.base.index && w.title == t.base.title && w.description == Some(t.base.description)
    ensures w.creationDate == t.base.creationDate && w.creationAuthor == t.base.creationAuthor
    ensures Some(w.modifiedDate) == t.rest.modifiedDate && Some(w.modifiedAuthor) == t.rest.modifiedAuthor
    ensures Some(w.topicType) == t.rest.topicType && Some(w.topicStatus) == t.rest.topicStatus
    ensures Some(w.dueDate) == t.rest.dueDate && Some(w.assignedTo) == t.rest.assignedTo
    ensures w.comments == t.rest.comments && Some(w.viewpoints) == t.rest.viewpoints && Some(w.components) == t.rest.components
    ensures Some(w.fieldOfView) == t.rest.fieldOfView && Some(w.aspectRatio) == t.rest.aspectRatio
    ensures Camera.FromBcfAxes(w.cameraViewPoint) == t.base.position && Camera.FromBcfAxes(w.cameraDirection) == t.base.direction
    ensures Camera.FromBcfAxes(w.cameraUpVector) == normalize(Camera.Sub(t.base.target, t.base.position))
    ensures w.screenshot.None? && w.header.None?
  {
    var camera := Camera.Convert(CameraOf(t), normalize);
    Worker.TopicFolder(
      t.base.uuid, t.base.title, Some(t.base.description), t.base.index, t.base.creationDate, t.base.creationAuthor,
      t.rest.modifiedDate.value, t.rest.modifiedAuthor.value, t.rest.topicType.value, t.rest.topicStatus.value,
      t.rest.dueDate.value, t.rest.assignedTo.value, t.rest.comments, t.rest.viewpoints.value, t.rest.components.value,
      camera.position, camera.direction, camera.up, t.rest.fieldOfView.value, t.rest.aspectRatio.value, None, None)
  }

  /** The header every export carries. */
  const ExportHeader := Worker.Header(Some("16ptFjkWnCdh4kqFvB0NRX"), None, Some(true), Some("0001"), None, None)

  /**
   * `createBCF`: the `begin` request with one worker topic per stored topic. A missing comment,
   * viewpoint or component list makes `JSON.parse` throw; a record missing another key the
   * worker requires is no worker topic, and the worker's schema rejects it.
   */
  function Export(ts: seq<Topic>, normalize: Core.Vec3 -> Core.Vec3): Result<Worker.Request> {
    if exists k :: 0 <= k < |ts| && !Copyable(ts[k]) then Err(InvalidJson)
    else if exists k :: 0 <= k < |ts| && !Complete(ts[k]) then Err(SchemaViolation)
    else Ok(Worker.Request(seq(|ts|, k requires 0 <= k < |ts| => ToWorker(ts[k], normalize)), ExportHeader))
  }

  /**
   * The export succeeds exactly when every topic has every key; it then holds one worker topic
   * per stored topic, in order, each with the stored fields and the converted camera, and the
   * constant header. A missing list fails the whole export, whatever the other topics hold.
   */
  lemma ExportShape(ts: seq<Topic>, normalize: Core.Vec3 -> Core.Vec3)
    ensures Export(ts, normalize).Ok? <==> forall k :: 0 <= k < |ts| ==> Copyable(ts[k]) && Complete(ts[k])
    ensures (exists k :: 0 <= k < |ts| && !Copyable(ts[k])) ==> Export(ts, normalize) == Err(InvalidJson)
    ensures Export(ts, normalize).Ok? ==>
      var r := Export(ts, normalize).value;
      && r.header == ExportHeader && |r.topics| == |ts|
      && forall k :: 0 <= k < |ts| ==> r.topics[k] == ToWorker(ts[k], normalize)
  {
  }

  /** The indices survive the export: a valid list gives worker topics indexed by position, with distinct uuids. */
  lemma ExportKeepsOrder(s: Slice, normalize: Core.Vec3 -> Core.Vec3)
    requires Valid(s) && Export(s.topics, normalize).Ok?
    ensures var r := Export(s.topics, normalize).value;
      && (forall k :: 0 <= k < |r.topics| ==> r.topics[k].index == k)
      && (forall i, j :: 0 <= i < j < |r.topics| ==> r.topics[i].uuid != r.topics[j].uuid)
  {
    ExportShape(s.topics, normalize);
  }

  // ----- the store -----

  /** The slice's state as the store holds it, each reducer a method. */
  class BcfState {
    var topics: seq<Topic>
    var selectedTopic: Option<Topic>

    function Current(): Slice
      reads this
    {
      Slice(topics, selectedTopic)
    }

    /** `initialState`: no topics, nothing selected. */
    constructor()
      ensures Current() == Slice([], None) && Valid(Current()) && Coherent(Current())
    {
      topics := [];
      selectedTopic := None;
    }

    /**
     * `createTopic`: the components are built from the viewer's selection and visibility; if
     * that throws nothing changes, otherwise the topic `attach` makes with them is appended
     * and selected. `attach` stands for `set`, `addViewpoint`, `addComponents` and `toJSON`
     * on the new topic object.
     */
    method CreateTopic(attach: Core.Components -> Topic, selected: seq<string>, visible: seq<string>, defaults: seq<string>,
                       componentState: Option<map<string, SliceComponents.ComponentState>>, generate: nat -> string)
      returns (r: Outcome)
      modifies this
      ensures var built := SliceComponents.Built(selected, visible, defaults, componentState, generate);
        && (built.Err? ==> r == Fail(built.error) && Current() == old(Current()))
        && (built.Ok? ==> r == Pass && Current() == Created(old(Current()), attach(built.value)))
    {
      var built := SliceComponents.Build(selected, visible, defaults, componentState, generate);
      if built.Err? {
        return Fail(built.error);
      }
      var topic := SliceTopics.WithIndex(attach(built.value), |topics|);
      topics := topics + [topic];
      selectedTopic := Some(topic);
      r := Pass;
    }

    /** `updateTopic`, as written. */
    method UpdateTopic(key: Key, value: string, date: string) returns (r: Outcome)
      modifies this
      ensures var u := Updated(old(Current()), key, value, date);
        && (u.Err? ==> r == Fail(u.error) && Current() == old(Current()))
        && (u.Ok? ==> r == Pass && Current() == u.value)
    {
      if selectedTopic.None? {
        return Fail(NullField("selectedTopic is null"));
      }
      var index := SliceTopics.IndexOf(selectedTopic.value);
      if !(0 <= index < |topics|) {
        return Fail(NullField("topic is null"));
      }
      topics := topics[index := Touched(topics[index], key, value, date)];
      selectedTopic := Some(Touched(selectedTopic.value, key, value, date));
      r := Pass;
    }

    /**
     * `updateTopicIndex`: the moved topic takes `newIndex`, the loop shifts every topic with
     * another uuid, then the list is sorted by index.
     */
    method UpdateTopicIndex(oldIndex: int, newIndex: int) returns (r: Outcome)
      modifies this
      ensures var u := Reordered(old(Current()), oldIndex, newIndex);
        && (u.Err? ==> r == Fail(u.error) && Current() == old(Current()))
        && (u.Ok? ==> r == Pass && Current() == u.value)
    {
      if !(0 <= oldIndex < |topics|) {
        return Fail(UndefinedRead("index"));
      }
      var uuid := SliceTopics.UuidOf(topics[oldIndex]);
      var start := topics[oldIndex := SliceTopics.WithIndex(topics[oldIndex], newIndex)];
      var goal := SliceTopics.ShiftOthers(start, uuid, oldIndex, newIndex);
      var draft := start;
      var k := 0;
      while k < |draft|
        invariant 0 <= k <= |draft| == |start|
        invariant forall j :: 0 <= j < k ==> draft[j] == goal[j]
        invariant forall j :: k <= j < |draft| ==> draft[j] == start[j]
      {
        if SliceTopics.UuidOf(draft[k]) != uuid {
          draft := draft[k := SliceTopics.Shift(draft[k], oldIndex, newIndex)];
        }
        k := k + 1;
      }
      assert draft == goal;
      topics := SliceTopics.SortByIndex(draft);
      r := Pass;
    }

    /**
     * `removeTopic`, as written: splice, then the loop from the payload's index rewrites each
     * position through the round trip; an exception discards the draft.
     */
    method RemoveTopic(index: int, revive: SliceTopics.Revive) returns (r: Outcome)
      modifies this
      ensures var u := Removed(old(Current()), index, revive);
        && (u.Err? ==> r == Fail(u.error) && Current() == old(Current()))
        && (u.Ok? ==> r == Pass && Current() == u.value)
    {
      var draft := SliceTopics.Splice(topics, index);
      var i := index;
      while i < |draft|
        invariant SliceTopics.RewriteFrom(draft, i, revive) == SliceTopics.RemoveAsWritten(topics, index, revive)
        decreases |draft| - i
      {
        if i < 0 {
          var x := SliceTopics.Rewritten(None, revive);
          if x.Err? {
            return Fail(x.error);
          }
        } else {
          var x := SliceTopics.Rewritten(Some(draft[i]), revive);
          if x.Err? {
            return Fail(x.error);
          }
          draft := draft[i := x.value];
        }
        i := i + 1;
      }
      topics := draft;
      r := Pass;
    }

    /** `selectTopic(n)`. */
    method SelectTopic(n: int)
      modifies this
      ensures Current() == Selected(old(Current()), n)
    {
      if 0 <= n < |topics| {
        selectedTopic := Some(topics[n]);
      } else {
        selectedTopic := None;
      }
    }

    /** `deselectTopic`. */
    method DeselectTopic()
      modifies this
      ensures Current() == Deselected(old(Current()))
    {
      selectedTopic := None;
    }
  }
}
