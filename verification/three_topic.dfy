/**
 * `Topic_Three`: a topic as it lives in three.js space — text fields, an index and the
 * camera as position, direction and target. Every read and write is guarded by `checkJSON`,
 * which throws on the first null among the camera vectors and the text fields.
 */
module ThreeTopic {
  import opened Wrappers
  import opened Core

  /** `defaultVector3`: the camera vectors of a new topic. */
  const DefaultVector := Vec3(-1.0, -1.0, -1.0)

  /** A topic record whose every field may be `null` (`None`): `Nullable<TopicJSON>`. */
  datatype NullableTopic = NullableTopic(
    uuid: Option<string>, index: Option<int>, position: Option<Vec3>, direction: Option<Vec3>, target: Option<Vec3>,
    screenshot: Option<string>, title: Option<string>, description: Option<string>,
    creationDate: Option<string>, creationAuthor: Option<string>)

  /** `TopicJSON`: what `get` and `toJSON` return once the checks pass. */
  datatype TopicJson = TopicJson(
    uuid: string, index: int, position: Vec3, direction: Vec3, target: Vec3,
    screenshot: string, title: string, description: string, creationDate: string, creationAuthor: string)

  /**
   * `checkCamera` then `checkJSON`: the first null field, in the order direction, position,
   * target, title, description, index, creationDate, creationAuthor, with the messages the
   * source throws (a null target reports "position is null", a null creation date "index is null").
   */
  function Check(t: NullableTopic): (r: Option<Fault>)
    ensures r.None? <==> (t.direction.Some? && t.position.Some? && t.target.Some? && t.title.Some? && t.description.Some?
                          && t.index.Some? && t.creationDate.Some? && t.creationAuthor.Some?)
  {
    if t.direction.None? then Some(NullField("direction is null"))
    else if t.position.None? then Some(NullField("position is null"))
    else if t.target.None? then Some(NullField("position is null"))
    else if t.title.None? then Some(NullField("title is null"))
    else if t.description.None? then Some(NullField("description is null"))
    else if t.index.None? then Some(NullField("index is null"))
    else if t.creationDate.None? then Some(NullField("index is null"))
    else if t.creationAuthor.None? then Some(NullField("creationAuthor is null"))
    else None
  }

  /** The record with every field present. */
  function Lift(j: TopicJson): (t: NullableTopic)
    ensures Check(t).None?
  {
    NullableTopic(Some(j.uuid), Some(j.index), Some(j.position), Some(j.direction), Some(j.target),
                  Some(j.screenshot), Some(j.title), Some(j.description), Some(j.creationDate), Some(j.creationAuthor))
  }

  /** The field when it is present, otherwise the current one: `Object.assign` copies only the keys given. */
  function Keep<T>(current: T, given: Option<T>): T {
    if given.Some? then given.value else current
  }

  /** The state a `Topic_Three` holds: every field but the description is a plain value. */
  datatype State = State(
    uuid: string, index: int, position: Vec3, direction: Vec3, target: Vec3,
    screenshot: string, title: string, description: Option<string>, creationDate: string, creationAuthor: string)

  /** The state of a new topic; `uuid` is the value `generateUUID()` gives. */
  function Initial(uuid: string): State {
    State(uuid, 0, DefaultVector, DefaultVector, DefaultVector, "", "", Some(""), "", "")
  }

  /** The class keeps its description non-null. */
  predicate Valid(s: State) {
    s.description.Some?
  }

  /** The state as the nullable record `get` and `toJSON` build before checking it. */
  function AsNullable(s: State): NullableTopic {
    NullableTopic(Some(s.uuid), Some(s.index), Some(s.position), Some(s.direction), Some(s.target),
                  Some(s.screenshot), Some(s.title), s.description, Some(s.creationDate), Some(s.creationAuthor))
  }

  /** `get` and `toJSON`: the current fields, or the exception `checkJSON` throws. */
  function Get(s: State): (r: Result<TopicJson>)
    ensures r.Ok? <==> Valid(s)
    ensures r.Ok? ==> Lift(r.value) == AsNullable(s)
    ensures r.Err? ==> r.error == NullField("description is null")
  {
    if s.description.None? then Err(NullField("description is null"))
    else Ok(TopicJson(s.uuid, s.index, s.position, s.direction, s.target, s.screenshot, s.title, s.description.value,
                      s.creationDate, s.creationAuthor))
  }

  /**
   * `set`: the checks first; when they pass every key given is assigned, otherwise nothing
   * changes. A null `uuid` or `screenshot` counts as a key not given.
   */
  function AfterSet(s: State, params: NullableTopic): (r: Result<State>)
    ensures r.Err? <==> Check(params).Some?
    ensures r.Err? ==> r.error == Check(params).value
  {
    match Check(params)
    case Some(fault) => Err(fault)
    case None =>
      Ok(State(Keep(s.uuid, params.uuid), params.index.value, params.position.value, params.direction.value, params.target.value,
               Keep(s.screenshot, params.screenshot), params.title.value, params.description,
               params.creationDate.value, params.creationAuthor.value))
  }

  /** A successful `set` keeps the topic valid and `get` then returns the values set. */
  lemma SetThenGet(s: State, params: NullableTopic)
    requires AfterSet(s, params).Ok?
    ensures var g := Get(AfterSet(s, params).value);
      && g.Ok?
      && g.value.title == params.title.value && g.value.description == params.description.value
      && g.value.index == params.index.value && g.value.creationDate == params.creationDate.value
      && g.value.creationAuthor == params.creationAuthor.value && g.value.position == params.position.value
      && g.value.direction == params.direction.value && g.value.target == params.target.value
  {
  }

  /**
   * `fromJSON`: throws on a null record, then on a null uuid, then as `checkJSON`; otherwise
   * copies uuid, the camera, title, description and index, and keeps screenshot, creation date
   * and creation author.
   */
  function AfterFromJson(s: State, json: Option<NullableTopic>): (r: Result<State>)
    ensures json.None? ==> r == Err(NullField("json is null"))
    ensures json.Some? && json.value.uuid.None? ==> r == Err(NullField("uuid is null"))
    ensures json.Some? && json.value.uuid.Some? ==> (r.Err? <==> Check(json.value).Some?)
    ensures r.Ok? ==> r.value.screenshot == s.screenshot && r.value.creationDate == s.creationDate
                      && r.value.creationAuthor == s.creationAuthor && Valid(r.value)
  {
    if json.None? then Err(NullField("json is null"))
    else
      var j := json.value;
      if j.uuid.None? then Err(NullField("uuid is null"))
      else
        match Check(j)
        case Some(fault) => Err(fault)
        case None =>
          Ok(s.(uuid := j.uuid.value, position := j.position.value, direction := j.direction.value, target := j.target.value,
                title := j.title.value, description := Some(j.description.value), index := j.index.value))
  }

  /** Reading a valid topic's JSON back in changes nothing. */
  lemma FromOwnJson(s: State)
    requires Valid(s)
    ensures AfterFromJson(s, Some(Lift(Get(s).value))) == Ok(s)
  {
  }

  /** A `fromJSON` that fails leaves a state that `get` can still read. */
  lemma ValidThroughout(s: State, params: NullableTopic, json: Option<NullableTopic>)
    requires Valid(s)
    ensures AfterSet(s, params).Ok? ==> Valid(AfterSet(s, params).value)
    ensures AfterFromJson(s, json).Ok? ==> Valid(AfterFromJson(s, json).value)
    ensures Get(s).Ok?
  {
  }

  class Topic {
    var uuid: string
    var index: int
    var position: Vec3
    var direction: Vec3
    var target: Vec3
    var screenshot: string
    var title: string
    var description: Option<string>
    var creationDate: string
    var creationAuthor: string

    function Current(): State
      reads this
    {
      State(uuid, index, position, direction, target, screenshot, title, description, creationDate, creationAuthor)
    }

    constructor(uuid: string)
      ensures Current() == Initial(uuid) && Valid(Current())
    {
      this.uuid := uuid;
      index := 0;
      direction := DefaultVector;
      position := DefaultVector;
      target := DefaultVector;
      screenshot := "";
      title := "";
      description := Some("");
      creationDate := "";
      creationAuthor := "";
    }

    method Set(params: NullableTopic) returns (r: Outcome)
      modifies this
      ensures var u := AfterSet(old(Current()), params);
        if u.Ok? then r == Pass && Current() == u.value else r == Fail(u.error) && Current() == old(Current())
    {
      var next := AfterSet(Current(), params);
      if next.Err? {
        return Fail(next.error);
      }
      Store(next.value);
      r := Pass;
    }

    method SetScreenshot(screenshot: string)
      modifies this
      ensures Current() == old(Current()).(screenshot := screenshot)
    {
      this.screenshot := screenshot;
    }

    /** `get` and `toJSON` build the same record. */
    method ToJson() returns (r: Result<TopicJson>)
      ensures r == Get(Current())
    {
      var json := NullableTopic(Some(uuid), Some(index), Some(position), Some(direction), Some(target),
                                Some(screenshot), Some(title), description, Some(creationDate), Some(creationAuthor));
      var fault := Check(json);
      if fault.Some? {
        return Err(fault.value);
      }
      r := Ok(TopicJson(uuid, index, position, direction, target, screenshot, title, description.value, creationDate, creationAuthor));
    }

    method FromJson(json: Option<NullableTopic>) returns (r: Outcome)
      modifies this
      ensures var u := AfterFromJson(old(Current()), json);
        if u.Ok? then r == Pass && Current() == u.value else r == Fail(u.error) && Current() == old(Current())
    {
      var next := AfterFromJson(Current(), json);
      if next.Err? {
        return Fail(next.error);
      }
      Store(next.value);
      r := Pass;
    }

    /** Assigns every field of the state. */
    method Store(s: State)
      modifies this
      ensures Current() == s
    {
      uuid, index, position, direction, target := s.uuid, s.index, s.position, s.direction, s.target;
      screenshot, title, description, creationDate, creationAuthor := s.screenshot, s.title, s.description, s.creationDate, s.creationAuthor;
    }
  }
}
