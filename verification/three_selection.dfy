/** `Selection`: a list of components, appended to, updated and removed by `ifcGuid`. */
module ThreeSelection {
  import opened Wrappers
  import opened Lists
  import Core
  import ThreeComponent

  const ComponentMissing := NotFound("Component not found")

  /** What `fromJSON` on a new `Selection` yields: the `uuid` and the revived components. */
  function Revive(json: Core.Selection): (s: Core.Selection)
    ensures s.uuid == json.uuid && s.components == ThreeComponent.ReviveAll(json.components)
  {
    Core.Selection(json.uuid, ThreeComponent.ReviveAll(json.components))
  }

  /** `fromJSON` then `toJSON` reproduces the input exactly when each of its components carries all four fields. */
  lemma ReviveRoundTrip(json: Core.Selection)
    ensures Revive(json) == json <==> forall k :: 0 <= k < |json.components| ==> ThreeComponent.Complete(json.components[k])
  {
    ThreeComponent.ReviveAllRoundTrip(json.components);
  }

  /**
   * The list holds the component values as `toJSON` returns them: a component object placed
   * in the list is represented by its state at that moment.
   */
  class Selection {
    var uuid: string
    var components: seq<Core.Component>

    function ToJson(): (j: Core.Selection)
      reads this
      ensures j.uuid == uuid && j.components == components
    {
      Core.Selection(uuid, components)
    }

    constructor(uuid: string)
      ensures this.uuid == uuid && components == []
    {
      this.uuid := uuid;
      components := [];
    }

    /** `push`: the component goes last, nothing else changes. */
    method AddComponent(component: ThreeComponent.Component)
      modifies this
      ensures uuid == old(uuid) && components == old(components) + [component.ToJson()]
    {
      components := components + [component.ToJson()];
    }

    /** Replaces the first component with the same `ifcGuid`; throws and changes nothing when there is none. */
    method UpdateComponent(component: ThreeComponent.Component) returns (r: Outcome)
      modifies this
      ensures uuid == old(uuid)
      ensures var u := ReplaceKeyed(old(components), ThreeComponent.IfcGuidOf, Some(component.ifcGuid), component.ToJson(), ComponentMissing);
        if u.Ok? then r == Pass && components == u.value else r == Fail(u.error) && components == old(components)
    {
      var index := KeyIndex(components, ThreeComponent.IfcGuidOf, Some(component.ifcGuid));
      if index == -1 {
        return Fail(ComponentMissing);
      }
      components := components[index := component.ToJson()];
      r := Pass;
    }

    /** Removes the first component with this `ifcGuid`; throws and changes nothing when there is none. */
    method RemoveComponent(ifcGuid: string) returns (r: Outcome)
      modifies this
      ensures uuid == old(uuid)
      ensures var u := RemoveKeyed(old(components), ThreeComponent.IfcGuidOf, Some(ifcGuid), ComponentMissing);
        if u.Ok? then r == Pass && components == u.value else r == Fail(u.error) && components == old(components)
    {
      var index := KeyIndex(components, ThreeComponent.IfcGuidOf, Some(ifcGuid));
      if index == -1 {
        return Fail(ComponentMissing);
      }
      components := RemoveAt(components, index);
      r := Pass;
    }

    method FromJson(json: Core.Selection)
      modifies this
      ensures ToJson() == Revive(json)
    {
      uuid := json.uuid;
      components := ThreeComponent.ReviveAll(json.components);
    }
  }
}
