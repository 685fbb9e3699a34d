/**
 * `Components`: the visualisation state of a viewpoint — a list of selections, one
 * visibility and a list of colourings. Selections and colourings are found by `uuid`.
 */
module ThreeComponents {
  import opened Wrappers
  import opened Lists
  import Core
  import ThreeComponent
  import ThreeSelection
  import ThreeVisibility
  import ThreeColoring

  const SelectionMissing := NotFound("Selection not found")
  const ColoringMissing := NotFound("Coloring not found")

  function SelectionUuid(s: Core.Selection): string {
    s.uuid
  }

  function ColoringUuid(c: Core.Coloring): string {
    c.uuid
  }

  /** Every component in the list carries all four fields. */
  predicate AllComplete(cs: seq<Core.Component>) {
    forall k :: 0 <= k < |cs| ==> ThreeComponent.Complete(cs[k])
  }

  /** `selection.map(s => { new Selection().fromJSON(s) ... })`. */
  function ReviveSelections(ss: seq<Core.Selection>): (r: seq<Core.Selection>)
    ensures |r| == |ss| && forall k :: 0 <= k < |ss| ==> r[k] == ThreeSelection.Revive(ss[k])
  {
    if ss == [] then [] else [ThreeSelection.Revive(ss[0])] + ReviveSelections(ss[1..])
  }

  /** `coloring.map(c => { new Coloring().fromJSON(c) ... })`. */
  function ReviveColorings(cs: seq<Core.Coloring>): (r: seq<Core.Coloring>)
    ensures |r| == |cs| && forall k :: 0 <= k < |cs| ==> r[k] == ThreeColoring.Revive(cs[k])
  {
    if cs == [] then [] else [ThreeColoring.Revive(cs[0])] + ReviveColorings(cs[1..])
  }

  /** What `fromJSON` on a new `Components` yields. */
  function Revive(json: Core.Components): (c: Core.Components)
    ensures c.uuid == json.uuid && c.selection == ReviveSelections(json.selection)
    ensures c.visibility == ThreeVisibility.Revive(json.visibility) && c.coloring == ReviveColorings(json.coloring)
  {
    Core.Components(json.uuid, ReviveSelections(json.selection), ThreeVisibility.Revive(json.visibility), ReviveColorings(json.coloring))
  }

  /** Every component anywhere in the state carries all four fields. */
  predicate Complete(json: Core.Components) {
    && (forall k :: 0 <= k < |json.selection| ==> AllComplete(json.selection[k].components))
    && AllComplete(json.visibility.components)
    && (forall k :: 0 <= k < |json.coloring| ==> AllComplete(json.coloring[k].components))
  }

  /** `fromJSON` then `toJSON` reproduces the input exactly when every nested component is complete. */
  lemma ReviveRoundTrip(json: Core.Components)
    ensures Revive(json) == json <==> Complete(json)
  {
    forall k | 0 <= k < |json.selection|
      ensures ThreeSelection.Revive(json.selection[k]) == json.selection[k] <==> AllComplete(json.selection[k].components)
    {
      ThreeSelection.ReviveRoundTrip(json.selection[k]);
    }
    forall k | 0 <= k < |json.coloring|
      ensures ThreeColoring.Revive(json.coloring[k]) == json.coloring[k] <==> AllComplete(json.coloring[k].components)
    {
      ThreeColoring.ReviveRoundTrip(json.coloring[k]);
    }
    ThreeVisibility.ReviveRoundTrip(json.visibility);
    if Complete(json) {
      assert ReviveSelections(json.selection) == json.selection;
      assert ReviveColorings(json.coloring) == json.coloring;
    }
    if Revive(json) == json {
      forall k | 0 <= k < |json.selection|
        ensures AllComplete(json.selection[k].components)
      {
        assert ReviveSelections(json.selection)[k] == json.selection[k];
      }
      forall k | 0 <= k < |json.coloring|
        ensures AllComplete(json.coloring[k].components)
      {
        assert ReviveColorings(json.coloring)[k] == json.coloring[k];
      }
    }
  }

  /**
   * The members are held as the values their `toJSON` returns: an object added here is
   * represented by its state at that moment.
   */
  class Components {
    var uuid: string
    var selection: seq<Core.Selection>
    var visibility: Core.Visibility
    var coloring: seq<Core.Coloring>

    function ToJson(): (j: Core.Components)
      reads this
      ensures j.uuid == uuid && j.selection == selection && j.visibility == visibility && j.coloring == coloring
    {
      Core.Components(uuid, selection, visibility, coloring)
    }

    /** `uuid` and `visibilityUuid` are the values `generateUUID()` gives this object and its new `Visibility`. */
    constructor(uuid: string, visibilityUuid: string)
      ensures ToJson() == Core.Components(uuid, [], ThreeVisibility.Initial(visibilityUuid), [])
    {
      this.uuid := uuid;
      selection := [];
      visibility := ThreeVisibility.Initial(visibilityUuid);
      coloring := [];
    }

    method FromJson(json: Core.Components)
      modifies this
      ensures ToJson() == Revive(json)
    {
      uuid := json.uuid;
      selection := ReviveSelections(json.selection);
      visibility := ThreeVisibility.Revive(json.visibility);
      coloring := ReviveColorings(json.coloring);
    }

    /** `push`: the colouring goes last, nothing else changes. */
    method AddColoring(c: ThreeColoring.Coloring)
      modifies this
      ensures ToJson() == old(ToJson()).(coloring := old(coloring) + [c.ToJson()])
    {
      coloring := coloring + [c.ToJson()];
    }

    /** Replaces the first colouring with the same `uuid`; throws and changes nothing when there is none. */
    method UpdateColoring(c: ThreeColoring.Coloring) returns (r: Outcome)
      modifies this
      ensures var u := ReplaceKeyed(old(coloring), ColoringUuid, c.uuid, c.ToJson(), ColoringMissing);
        if u.Ok? then r == Pass && ToJson() == old(ToJson()).(coloring := u.value) else r == Fail(u.error) && ToJson() == old(ToJson())
    {
      var index := KeyIndex(coloring, ColoringUuid, c.uuid);
      if index == -1 {
        return Fail(ColoringMissing);
      }
      coloring := coloring[index := c.ToJson()];
      r := Pass;
    }

    /** Removes the first colouring with the same `uuid` as the argument; throws and changes nothing when there is none. */
    method RemoveColoring(c: ThreeColoring.Coloring) returns (r: Outcome)
      modifies this
      ensures var u := RemoveKeyed(old(coloring), ColoringUuid, c.uuid, ColoringMissing);
        if u.Ok? then r == Pass && ToJson() == old(ToJson()).(coloring := u.value) else r == Fail(u.error) && ToJson() == old(ToJson())
    {
      var index := KeyIndex(coloring, ColoringUuid, c.uuid);
      if index == -1 {
        return Fail(ColoringMissing);
      }
      coloring := RemoveAt(coloring, index);
      r := Pass;
    }

    /** `push`: the selection goes last, nothing else changes. */
    method AddSelection(s: ThreeSelection.Selection)
      modifies this
      ensures ToJson() == old(ToJson()).(selection := old(selection) + [s.ToJson()])
    {
      selection := selection + [s.ToJson()];
    }

    /** Replaces the first selection with the same `uuid`; throws and changes nothing when there is none. */
    method UpdateSelection(s: ThreeSelection.Selection) returns (r: Outcome)
      modifies this
      ensures var u := ReplaceKeyed(old(selection), SelectionUuid, s.uuid, s.ToJson(), SelectionMissing);
        if u.Ok? then r == Pass && ToJson() == old(ToJson()).(selection := u.value) else r == Fail(u.error) && ToJson() == old(ToJson())
    {
      var index := KeyIndex(selection, SelectionUuid, s.uuid);
      if index == -1 {
        return Fail(SelectionMissing);
      }
      selection := selection[index := s.ToJson()];
      r := Pass;
    }

    /** Removes the first selection with this `uuid`; throws and changes nothing when there is none. */
    method RemoveSelection(uuid: string) returns (r: Outcome)
      modifies this
      ensures var u := RemoveKeyed(old(selection), SelectionUuid, uuid, SelectionMissing);
        if u.Ok? then r == Pass && ToJson() == old(ToJson()).(selection := u.value) else r == Fail(u.error) && ToJson() == old(ToJson())
    {
      var index := KeyIndex(selection, SelectionUuid, uuid);
      if index == -1 {
        return Fail(SelectionMissing);
      }
      selection := RemoveAt(selection, index);
      r := Pass;
    }

    method AddVisibility(v: ThreeVisibility.Visibility)
      modifies this
      ensures ToJson() == old(ToJson()).(visibility := v.ToJson())
    {
      visibility := v.ToJson();
    }

    method UpdateVisibility(v: ThreeVisibility.Visibility)
      modifies this
      ensures ToJson() == old(ToJson()).(visibility := v.ToJson())
    {
      visibility := v.ToJson();
    }

    /** The visibility goes back to a new default one; `visibilityUuid` is the value `generateUUID()` gives it. */
    method RemoveVisibility(visibilityUuid: string)
      modifies this
      ensures ToJson() == old(ToJson()).(visibility := ThreeVisibility.Initial(visibilityUuid))
    {
      visibility := ThreeVisibility.Initial(visibilityUuid);
    }
  }
}
