/** `Coloring`: an ARGB colour and the components painted with it. */
module ThreeColoring {
  import opened Wrappers
  import opened Lists
  import Core
  import ThreeComponent
  import Schema

  const ComponentMissing := NotFound("Component not found")

  /** The pattern `^([A-Fa-f0-9]{8}|[A-Fa-f0-9]{6})$`: six or eight hex digits in either case. */
  predicate IsArgb(color: string) {
    (|color| == 6 || |color| == 8) && forall k :: 0 <= k < |color| ==> Schema.IsHexDigit(color[k])
  }

  /** Three or four channel bytes written in hex form an accepted colour: RGB, or alpha first then RGB. */
  lemma ChannelsAreArgb(channels: seq<int>)
    requires |channels| == 3 || |channels| == 4
    requires forall k :: 0 <= k < |channels| ==> Schema.IsByte(channels[k])
    ensures IsArgb(Schema.HexBytes(channels))
  {
  }

  /** The colour a new `Coloring` holds. */
  const NoColor := ""

  /** The check `setColor` makes: the colour itself when it matches the pattern, otherwise the "Invalid color format" exception. */
  function Validated(color: string): (r: Result<string>)
    ensures r.Ok? <==> IsArgb(color)
    ensures r.Ok? ==> r.value == color
    ensures r.Err? ==> r.error == InvalidColor
  {
    if IsArgb(color) then Ok(color) else Err(InvalidColor)
  }

  /** A stored colour that is empty or valid stays so under `setColor`. */
  lemma SetColorKeepsValid(current: string, color: string)
    requires current == NoColor || IsArgb(current)
    ensures var r := Validated(color);
      var next := if r.Ok? then r.value else current;
      next == NoColor || IsArgb(next)
  {
  }

  /** What `fromJSON` on a new `Coloring` yields: the colour is copied without the pattern check, the components revived. */
  function Revive(json: Core.Coloring): (c: Core.Coloring)
    ensures c.uuid == json.uuid && c.color == json.color && c.components == ThreeComponent.ReviveAll(json.components)
  {
    json.(components := ThreeComponent.ReviveAll(json.components))
  }

  /** `fromJSON` then `toJSON` reproduces the input, invalid colours included, exactly when each component is complete. */
  lemma ReviveRoundTrip(json: Core.Coloring)
    ensures Revive(json) == json <==> forall k :: 0 <= k < |json.components| ==> ThreeComponent.Complete(json.components[k])
  {
    ThreeComponent.ReviveAllRoundTrip(json.components);
  }

  class Coloring {
    var uuid: string
    var color: string
    var components: seq<Core.Component>

    function ToJson(): (j: Core.Coloring)
      reads this
      ensures j.uuid == uuid && j.color == color && j.components == components
    {
      Core.Coloring(uuid, color, components)
    }

    constructor(uuid: string)
      ensures ToJson() == Core.Coloring(uuid, NoColor, [])
    {
      this.uuid := uuid;
      color := NoColor;
      components := [];
    }

    method SetColor(color: string) returns (r: Outcome)
      modifies this
      ensures var s := Validated(color);
        if s.Ok? then r == Pass && ToJson() == old(ToJson()).(color := s.value) else r == Fail(s.error) && ToJson() == old(ToJson())
    {
      if !IsArgb(color) {
        return Fail(InvalidColor);
      }
      this.color := color;
      r := Pass;
    }

    /** `push`: the component goes last, nothing else changes. */
    method AddComponent(component: ThreeComponent.Component)
      modifies this
      ensures ToJson() == old(ToJson()).(components := old(components) + [component.ToJson()])
    {
      components := components + [component.ToJson()];
    }

    /** Replaces the first component with the same `ifcGuid`; throws and changes nothing when there is none. */
    method UpdateComponent(component: ThreeComponent.Component) returns (r: Outcome)
      modifies this
      ensures var u := ReplaceKeyed(old(components), ThreeComponent.IfcGuidOf, Some(component.ifcGuid), component.ToJson(), ComponentMissing);
        if u.Ok? then r == Pass && ToJson() == old(ToJson()).(components := u.value) else r == Fail(u.error) && ToJson() == old(ToJson())
    {
      var index := KeyIndex(components, ThreeComponent.IfcGuidOf, Some(component.ifcGuid));
      if index == -1 {
        return Fail(ComponentMissing);
      }
      components := components[index := component.ToJson()];
      r := Pass;
    }

    /** Removes the first component with this `ifcGuid`; throws and changes nothing when there is none. */
    method RemoveComponent(ifcGuid: string) returns (r: Outcome)
      modifies this
      ensures var u := RemoveKeyed(old(components), ThreeComponent.IfcGuidOf, Some(ifcGuid), ComponentMissing);
        if u.Ok? then r == Pass && ToJson() == old(ToJson()).(components := u.value) else r == Fail(u.error) && ToJson() == old(ToJson())
    {
      var index := KeyIndex(components, ThreeComponent.IfcGuidOf, Some(ifcGuid));
      if index == -1 {
        return Fail(ComponentMissing);
      }
      components := RemoveAt(components, index);
      r := Pass;
    }

    method FromJson(json: Core.Coloring)
      modifies this
      ensures ToJson() == Revive(json)
    {
      uuid := json.uuid;
      color := json.color;
      components := ThreeComponent.ReviveAll(json.components);
    }
  }
}
