/** `Visibility`: the default visibility, the view-setup hints and the exception components. */
module ThreeVisibility {
  import opened Wrappers
  import opened Lists
  import Core
  import ThreeComponent
  import ThreeViewSetupHints

  const ComponentMissing := NotFound("Component not found")

  /** A new `Visibility`: everything visible by default, no exceptions, all hints on. */
  function Initial(uuid: string): (v: Core.Visibility)
    ensures v.uuid == uuid && v.components == [] && v.defaultVisibility
    ensures v.viewSetupHints == ThreeViewSetupHints.Initial
  {
    Core.Visibility(uuid, [], true, ThreeViewSetupHints.Initial)
  }

  /** What `fromJSON` on a new `Visibility` yields: the components revived, the other three fields copied. */
  function Revive(json: Core.Visibility): (v: Core.Visibility)
    ensures v.uuid == json.uuid && v.components == ThreeComponent.ReviveAll(json.components)
    ensures v.defaultVisibility == json.defaultVisibility && v.viewSetupHints == json.viewSetupHints
  {
    json.(components := ThreeComponent.ReviveAll(json.components))
  }

  /** `toJSON` after `fromJSON` reproduces all four fields exactly when each exception component is complete. */
  lemma ReviveRoundTrip(json: Core.Visibility)
    ensures Revive(json) == json <==> forall k :: 0 <= k < |json.components| ==> ThreeComponent.Complete(json.components[k])
  {
    ThreeComponent.ReviveAllRoundTrip(json.components);
  }

  class Visibility {
    var uuid: string
    var components: seq<Core.Component>
    var defaultVisibility: bool
    var viewSetupHints: ThreeViewSetupHints.ViewSetupHints

    function ToJson(): (j: Core.Visibility)
      reads this, viewSetupHints
      ensures j.uuid == uuid && j.components == components && j.defaultVisibility == defaultVisibility
      ensures j.viewSetupHints == viewSetupHints.ToJson()
    {
      Core.Visibility(uuid, components, defaultVisibility, viewSetupHints.ToJson())
    }

    constructor(uuid: string)
      ensures ToJson() == Initial(uuid) && fresh(viewSetupHints)
    {
      this.uuid := uuid;
      components := [];
      defaultVisibility := true;
      viewSetupHints := new ThreeViewSetupHints.ViewSetupHints();
    }

    /** `push`: the component goes last, nothing else changes. */
    method AddComponent(component: ThreeComponent.Component)
      modifies this
      ensures ToJson() == old(ToJson()).(components := old(components) + [component.ToJson()])
    {
      components := components + [component.ToJson()];
    }

    /** Replaces the first exception with the same `ifcGuid`; throws and changes nothing when there is none. */
    method UpdateComponent(component: ThreeComponent.Component) returns (r: Outcome)
      modifies this
      ensures var u := ReplaceKeyed(old(components), ThreeComponent.IfcGuidOf, Some(component.ifcGuid), component.ToJson(), ComponentMissing);
        if u.Ok? then r == Pass && ToJson() == old(ToJson()).(components := u.value) else r == Fail(u.error) && ToJson() == old(ToJson())
    {
      var index := KeyIndex(components, ThreeComponent.IfcGuidOf, Some(component.ifcGuid));
      if index == -1 {
        return Fail(ComponentMissing);
      }
      components := components[index := component.ToJson()];
      r := Pass;
    }

    /** Removes the first exception with this `ifcGuid`; throws and changes nothing when there is none. */
    method RemoveComponent(ifcGuid: string) returns (r: Outcome)
      modifies this
      ensures var u := RemoveKeyed(old(components), ThreeComponent.IfcGuidOf, Some(ifcGuid), ComponentMissing);
        if u.Ok? then r == Pass && ToJson() == old(ToJson()).(components := u.value) else r == Fail(u.error) && ToJson() == old(ToJson())
    {
      var index := KeyIndex(components, ThreeComponent.IfcGuidOf, Some(ifcGuid));
      if index == -1 {
        return Fail(ComponentMissing);
      }
      components := RemoveAt(components, index);
      r := Pass;
    }

    /** The hints object is replaced by a new one filled from the JSON. */
    method FromJson(json: Core.Visibility)
      modifies this
      ensures ToJson() == Revive(json) && fresh(viewSetupHints)
    {
      uuid := json.uuid;
      components := ThreeComponent.ReviveAll(json.components);
      defaultVisibility := json.defaultVisibility;
      viewSetupHints := new ThreeViewSetupHints.ViewSetupHints();
      viewSetupHints.FromJson(json.viewSetupHints);
    }
  }
}
