/**
 * `Component`: a reference to one IFC element, with setters, a partial `set` and the JSON
 * round trip. Its JSON shape is `Core.Component`, where the three descriptive fields are
 * optional; the object always holds all three.
 */
module ThreeComponent {
  import opened Wrappers
  import Core

  /** All three optional fields are present. */
  predicate Complete(c: Core.Component) {
    c.ifcGuid.Some? && c.originatingSystem.Some? && c.authoringToolId.Some?
  }

  /** A new component: the generated `uuid` and empty strings elsewhere. */
  function Initial(uuid: string): (c: Core.Component)
    ensures Complete(c)
  {
    Core.Component(uuid, Some(""), Some(""), Some(""))
  }

  /** The `??` of one optional field: the given value, or the current one when it is missing. */
  function Overlay(current: Option<string>, given: Option<string>): Option<string> {
    if given.Some? then given else current
  }

  /** `set({ ifcGuid, originatingSystem, authoringToolId })`: each field given non-null overwrites; `uuid` is kept. */
  function Patch(current: Core.Component, ifcGuid: Option<string>, originatingSystem: Option<string>, authoringToolId: Option<string>): Core.Component {
    current.(ifcGuid := Overlay(current.ifcGuid, ifcGuid),
             originatingSystem := Overlay(current.originatingSystem, originatingSystem),
             authoringToolId := Overlay(current.authoringToolId, authoringToolId))
  }

  /** `Object.assign(this, json)`: the required `uuid` and every field the JSON carries are copied. */
  function Assign(current: Core.Component, json: Core.Component): Core.Component {
    Patch(current, json.ifcGuid, json.originatingSystem, json.authoringToolId).(uuid := json.uuid)
  }

  /** What `fromJSON` on a new `Component` yields: the generated `uuid` is overwritten, missing fields stay `''`. */
  function Revive(json: Core.Component): (c: Core.Component)
    ensures c.uuid == json.uuid && Complete(c)
  {
    Assign(Initial(json.uuid), json)
  }

  /** Reviving does not depend on the generated `uuid` it overwrites. */
  lemma ReviveIgnoresGenerated(json: Core.Component, generated: string)
    ensures Assign(Initial(generated), json) == Revive(json)
  {
  }

  /** A patch keeps the object complete; its `uuid` and every field not given are unchanged. */
  lemma PatchKeeps(current: Core.Component, ifcGuid: Option<string>, originatingSystem: Option<string>, authoringToolId: Option<string>)
    requires Complete(current)
    ensures var c := Patch(current, ifcGuid, originatingSystem, authoringToolId);
      && Complete(c) && c.uuid == current.uuid
      && (ifcGuid.None? ==> c.ifcGuid == current.ifcGuid) && (ifcGuid.Some? ==> c.ifcGuid == ifcGuid)
      && (originatingSystem.None? ==> c.originatingSystem == current.originatingSystem)
      && (originatingSystem.Some? ==> c.originatingSystem == originatingSystem)
      && (authoringToolId.None? ==> c.authoringToolId == current.authoringToolId)
      && (authoringToolId.Some? ==> c.authoringToolId == authoringToolId)
  {
  }

  /** `fromJSON` then `toJSON` gives back the JSON exactly when all four fields are present in it. */
  lemma ReviveRoundTrip(json: Core.Component)
    ensures Revive(json) == json <==> Complete(json)
  {
  }

  /** `components.map(c => { new Component().fromJSON(c) ... })`, then `toJSON` on each. */
  function ReviveAll(cs: seq<Core.Component>): (r: seq<Core.Component>)
    ensures |r| == |cs| && forall k :: 0 <= k < |cs| ==> r[k] == Revive(cs[k])
  {
    if cs == [] then [] else [Revive(cs[0])] + ReviveAll(cs[1..])
  }

  /** A list survives the round trip exactly when each of its components does. */
  lemma ReviveAllRoundTrip(cs: seq<Core.Component>)
    ensures ReviveAll(cs) == cs <==> forall k :: 0 <= k < |cs| ==> Complete(cs[k])
  {
    if ReviveAll(cs) == cs {
      forall k | 0 <= k < |cs|
        ensures Complete(cs[k])
      {
        ReviveRoundTrip(cs[k]);
      }
    }
    if forall k :: 0 <= k < |cs| ==> Complete(cs[k]) {
      forall k | 0 <= k < |cs|
        ensures ReviveAll(cs)[k] == cs[k]
      {
        ReviveRoundTrip(cs[k]);
      }
    }
  }

  /** The `ifcGuid` the component lists match on. */
  function IfcGuidOf(c: Core.Component): Option<string> {
    c.ifcGuid
  }

  class Component {
    var uuid: string
    var ifcGuid: string
    var originatingSystem: string
    var authoringToolId: string

    /** `toJSON`: exactly the four fields as stored. */
    function ToJson(): (j: Core.Component)
      reads this
      ensures Complete(j) && j.uuid == uuid && j.ifcGuid == Some(ifcGuid)
      ensures j.originatingSystem == Some(originatingSystem) && j.authoringToolId == Some(authoringToolId)
    {
      Core.Component(uuid, Some(ifcGuid), Some(originatingSystem), Some(authoringToolId))
    }

    /** `generateUUID()` is the parameter `uuid`. */
    constructor(uuid: string)
      ensures ToJson() == Initial(uuid)
    {
      this.uuid := uuid;
      ifcGuid := "";
      originatingSystem := "";
      authoringToolId := "";
    }

    method Set(ifcGuid: Option<string>, originatingSystem: Option<string>, authoringToolId: Option<string>)
      modifies this
      ensures ToJson() == Patch(old(ToJson()), ifcGuid, originatingSystem, authoringToolId)
    {
      if ifcGuid.Some? {
        this.ifcGuid := ifcGuid.value;
      }
      if originatingSystem.Some? {
        this.originatingSystem := originatingSystem.value;
      }
      if authoringToolId.Some? {
        this.authoringToolId := authoringToolId.value;
      }
    }

    method SetIfcGuid(ifcGuid: string)
      modifies this
      ensures ToJson() == old(ToJson()).(ifcGuid := Some(ifcGuid))
    {
      this.ifcGuid := ifcGuid;
    }

    method SetOriginatingSystem(originatingSystem: string)
      modifies this
      ensures ToJson() == old(ToJson()).(originatingSystem := Some(originatingSystem))
    {
      this.originatingSystem := originatingSystem;
    }

    method SetAuthoringToolId(authoringToolId: string)
      modifies this
      ensures ToJson() == old(ToJson()).(authoringToolId := Some(authoringToolId))
    {
      this.authoringToolId := authoringToolId;
    }

    method FromJson(json: Core.Component)
      modifies this
      ensures ToJson() == Assign(old(ToJson()), json)
    {
      uuid := json.uuid;
      Set(json.ifcGuid, json.originatingSystem, json.authoringToolId);
    }
  }
}
