/**
 * The components `createTopic` attaches to a new topic: one selection and one colouring
 * holding a component for every selected object with a known state, and a visibility whose
 * exceptions are the objects visible by default but hidden now.
 */
module SliceComponents {
  import opened Wrappers
  import opened Lists
  import Core
  import ThreeComponent
  import ThreeSelection
  import ThreeColoring
  import ThreeVisibility
  import ThreeViewSetupHints
  import ThreeComponents
  import Schema

  /** What the viewer knows about one object; a destructured key that is missing is `None`. */
  datatype ComponentState = ComponentState(ifcGuid: Option<string>, originatingSystem: Option<string>, authoringToolId: Option<string>)

  /** The colour every new colouring gets: opaque green. */
  const Highlight := "FF00FF00"

  /** The highlight colour passes `setColor`'s check. */
  lemma HighlightIsArgb()
    ensures ThreeColoring.IsArgb(Highlight)
  {
    assert forall k :: 0 <= k < |Highlight| ==> Schema.IsHexDigit(Highlight[k]);
  }

  /** `new Component()` drawing `uuid`, then `set` with the object's state. */
  function NewComponent(uuid: string, state: ComponentState): Core.Component {
    ThreeComponent.Patch(ThreeComponent.Initial(uuid), state.ifcGuid, state.originatingSystem, state.authoringToolId)
  }

  /** The ids that have a state; the others are skipped (`if (state == null) return`). */
  function Known(ids: seq<string>, states: map<string, ComponentState>): seq<string> {
    Filter(ids, x => x in states)
  }

  /**
   * `defaultVisibilityState.filter(obj => visibilityState.find(o => o === obj) == null)`:
   * the objects visible by default that are not visible now, in their order.
   */
  function Exceptions(defaults: seq<string>, visible: seq<string>): seq<string> {
    Filter(defaults, x => x !in visible)
  }

  /** An object is an exception exactly when it is visible by default and not visible now. */
  lemma ExceptionsMembers(defaults: seq<string>, visible: seq<string>, x: string)
    ensures x in Exceptions(defaults, visible) <==> x in defaults && x !in visible
  {
    FilterMembers(defaults, x => x !in visible, x);
  }

  /** Nothing hidden, no exceptions; nothing visible, every default is an exception. */
  lemma ExceptionsExtremes(defaults: seq<string>, visible: seq<string>)
    ensures (forall k :: 0 <= k < |defaults| ==> defaults[k] in visible) ==> Exceptions(defaults, visible) == []
    ensures visible == [] ==> Exceptions(defaults, visible) == defaults
  {
    if forall k :: 0 <= k < |defaults| ==> defaults[k] in visible {
      FilterNone(defaults, x => x !in visible);
    }
    if visible == [] {
      FilterAll(defaults, x => x !in visible);
    }
  }

  /**
   * The components made for the first `i` ids, in order, the `j`-th drawing uuid number
   * `n + j`; ids without a state are skipped.
   */
  function Made(ids: seq<string>, i: nat, states: map<string, ComponentState>, generate: nat -> string, n: nat): seq<Core.Component>
    requires i <= |ids|
  {
    if i == 0 then []
    else
      var before := Made(ids, i - 1, states, generate, n);
      before + (if ids[i - 1] in states then [NewComponent(generate(n + |before|), states[ids[i - 1]])] else [])
  }

  /** A new component carries the object's state where it has one, `''` elsewhere, and the uuid it drew. */
  lemma NewComponentFields(uuid: string, state: ComponentState)
    ensures var c := NewComponent(uuid, state);
      && ThreeComponent.Complete(c) && c.uuid == uuid
      && c.ifcGuid == Some(state.ifcGuid.GetOr("")) && c.originatingSystem == Some(state.originatingSystem.GetOr(""))
      && c.authoringToolId == Some(state.authoringToolId.GetOr(""))
  {
  }

  /**
   * One component per id with a state, in order: the `j`-th known id gets the `j`-th
   * component, which draws uuid `n + j` and carries that id's state.
   */
  lemma {:induction false} MadeKnown(ids: seq<string>, i: nat, states: map<string, ComponentState>, generate: nat -> string, n: nat)
    requires i <= |ids|
    ensures var known, made := Known(ids[..i], states), Made(ids, i, states, generate, n);
      && |made| == |known|
      && forall j :: 0 <= j < |known| ==> known[j] in states && made[j] == NewComponent(generate(n + j), states[known[j]])
  {
    if i > 0 {
      MadeKnown(ids, i - 1, states, generate, n);
      assert ids[..i][..i - 1] == ids[..i - 1];
    }
  }

  /** The components made for the selection. */
  function Chosen(selected: seq<string>, componentState: Option<map<string, ComponentState>>, generate: nat -> string): seq<Core.Component> {
    if componentState.Some? then Made(selected, |selected|, componentState.value, generate, 4) else []
  }

  /** The components made for the exceptions, after the visibility drew uuid `n`. */
  function Hidden(exceptions: seq<string>, componentState: Option<map<string, ComponentState>>, generate: nat -> string, n: nat): seq<Core.Component> {
    if componentState.Some? then Made(exceptions, |exceptions|, componentState.value, generate, n + 1) else []
  }

  /**
   * What `createTopic` attaches, or the `TypeError` it throws when there are exceptions but no
   * component states. Uuids are drawn in the order the objects are made: the container (0),
   * its own visibility (1), the selection (2), the colouring (3), the selected components, the
   * new visibility, then the exception components.
   */
  function Built(selected: seq<string>, visible: seq<string>, defaults: seq<string>,
                 componentState: Option<map<string, ComponentState>>, generate: nat -> string): Result<Core.Components>
  {
    var chosen := Chosen(selected, componentState, generate);
    var n := 4 + |chosen|;
    var exceptions := Exceptions(defaults, visible);
    if componentState.None? && exceptions != [] then Err(NullRead(exceptions[0]))
    else
      Ok(Core.Components(generate(0), [Core.Selection(generate(2), chosen)],
                         Core.Visibility(generate(n), Hidden(exceptions, componentState, generate, n), true, ThreeViewSetupHints.Initial),
                         [Core.Coloring(generate(3), Highlight, chosen)]))
  }

  /** The build throws exactly when there are exceptions and no component states. */
  lemma BuiltFails(selected: seq<string>, visible: seq<string>, defaults: seq<string>,
                   componentState: Option<map<string, ComponentState>>, generate: nat -> string)
    ensures Built(selected, visible, defaults, componentState, generate).Err?
            <==> componentState.None? && Exceptions(defaults, visible) != []
  {
  }

  /** When the build does not throw, the container it yields. */
  lemma BuiltOk(selected: seq<string>, visible: seq<string>, defaults: seq<string>,
                componentState: Option<map<string, ComponentState>>, generate: nat -> string)
    requires componentState.Some? || Exceptions(defaults, visible) == []
    ensures var chosen := Chosen(selected, componentState, generate);
      var n := 4 + |chosen|;
      Built(selected, visible, defaults, componentState, generate)
      == Ok(Core.Components(generate(0), [Core.Selection(generate(2), chosen)],
                            Core.Visibility(generate(n), Hidden(Exceptions(defaults, visible), componentState, generate, n), true, ThreeViewSetupHints.Initial),
                            [Core.Coloring(generate(3), Highlight, chosen)]))
  {
  }

  /**
   * A successful build has one selection and one colouring holding the same components, one
   * per selected object with a state; its colour is valid ARGB; and the visibility holds one
   * component per exception with a state.
   */
  lemma BuiltShape(selected: seq<string>, visible: seq<string>, defaults: seq<string>,
                   states: map<string, ComponentState>, generate: nat -> string)
    ensures var b := Built(selected, visible, defaults, Some(states), generate);
      && b.Ok?
      && |b.value.selection| == 1 && |b.value.coloring| == 1
      && b.value.selection[0].components == b.value.coloring[0].components
      && ThreeColoring.IsArgb(b.value.coloring[0].color)
      && |b.value.selection[0].components| == |Known(selected, states)|
      && |b.value.visibility.components| == |Known(Exceptions(defaults, visible), states)|
      && b.value.visibility.defaultVisibility
  {
    HighlightIsArgb();
    BuiltOk(selected, visible, defaults, Some(states), generate);
    var exceptions := Exceptions(defaults, visible);
    var n := 4 + |Chosen(selected, Some(states), generate)|;
    MadeKnown(selected, |selected|, states, generate, 4);
    MadeKnown(exceptions, |exceptions|, states, generate, n + 1);
    assert selected[..|selected|] == selected;
    assert exceptions[..|exceptions|] == exceptions;
  }

  /** `new Component()` drawing `uuid`, then `set` with the object's state. */
  method MakeComponent(uuid: string, state: ComponentState) returns (c: ThreeComponent.Component)
    ensures fresh(c) && c.ToJson() == NewComponent(uuid, state)
  {
    c := new ThreeComponent.Component(uuid);
    c.Set(state.ifcGuid, state.originatingSystem, state.authoringToolId);
  }

  /** One pass of the selection loop for an object with a state: a new component goes into both lists. */
  method PushBoth(uuid: string, state: ComponentState, selection: ThreeSelection.Selection, coloring: ThreeColoring.Coloring)
    modifies selection, coloring
    ensures selection.uuid == old(selection.uuid) && selection.components == old(selection.components) + [NewComponent(uuid, state)]
    ensures coloring.uuid == old(coloring.uuid) && coloring.color == old(coloring.color)
    ensures coloring.components == old(coloring.components) + [NewComponent(uuid, state)]
  {
    var component := MakeComponent(uuid, state);
    coloring.AddComponent(component);
    selection.AddComponent(component);
  }

  /**
   * The `selectionState.forEach` loop over a new selection and a new colouring: each selected
   * object with a state gets a new component in both lists.
   */
  method SelectKnown(selected: seq<string>, states: map<string, ComponentState>, generate: nat -> string, n0: nat,
                     selection: ThreeSelection.Selection, coloring: ThreeColoring.Coloring)
    requires selection.components == [] && coloring.components == []
    modifies selection, coloring
    ensures selection.uuid == old(selection.uuid) && selection.components == Made(selected, |selected|, states, generate, n0)
    ensures coloring.uuid == old(coloring.uuid) && coloring.color == old(coloring.color)
    ensures coloring.components == Made(selected, |selected|, states, generate, n0)
  {
    var chosen := [];
    var i := 0;
    while i < |selected|
      invariant 0 <= i <= |selected|
      invariant chosen == Made(selected, i, states, generate, n0)
      invariant selection.uuid == old(selection.uuid) && selection.components == chosen
      invariant coloring.uuid == old(coloring.uuid) && coloring.color == old(coloring.color) && coloring.components == chosen
    {
      if selected[i] in states {
        PushBoth(generate(n0 + |chosen|), states[selected[i]], selection, coloring);
        chosen := chosen + [NewComponent(generate(n0 + |chosen|), states[selected[i]])];
      }
      i := i + 1;
    }
  }

  /** The `exceptions.forEach` loop over a new visibility: each exception with a state gets a new component. */
  method HideKnown(exceptions: seq<string>, states: map<string, ComponentState>, generate: nat -> string, n0: nat,
                   visibility: ThreeVisibility.Visibility)
    requires visibility.components == []
    modifies visibility
    ensures visibility.ToJson() == old(visibility.ToJson()).(components := Made(exceptions, |exceptions|, states, generate, n0))
  {
    var hidden := [];
    var i := 0;
    while i < |exceptions|
      invariant 0 <= i <= |exceptions|
      invariant hidden == Made(exceptions, i, states, generate, n0)
      invariant visibility.ToJson() == old(visibility.ToJson()).(components := hidden)
    {
      if exceptions[i] in states {
        var component := MakeComponent(generate(n0 + |hidden|), states[exceptions[i]]);
        visibility.AddComponent(component);
        hidden := hidden + [NewComponent(generate(n0 + |hidden|), states[exceptions[i]])];
      }
      i := i + 1;
    }
  }

  /** The selection and the colouring, each drawing its uuid, the colour set, then the selection loop. */
  method SelectionAndColoring(selected: seq<string>, componentState: Option<map<string, ComponentState>>, generate: nat -> string)
    returns (selection: ThreeSelection.Selection, coloring: ThreeColoring.Coloring)
    ensures fresh(selection) && fresh(coloring)
    ensures selection.ToJson() == Core.Selection(generate(2), Chosen(selected, componentState, generate))
    ensures coloring.ToJson() == Core.Coloring(generate(3), Highlight, Chosen(selected, componentState, generate))
  {
    selection := new ThreeSelection.Selection(generate(2));
    coloring := new ThreeColoring.Coloring(generate(3));
    HighlightIsArgb();
    var painted := coloring.SetColor(Highlight);
    if componentState.Some? {
      SelectKnown(selected, componentState.value, generate, 4, selection, coloring);
    }
  }

  /** The new visibility, drawing uuid `n`, then the exceptions loop. */
  method NewVisibility(exceptions: seq<string>, componentState: Option<map<string, ComponentState>>, generate: nat -> string, n: nat)
    returns (visibility: ThreeVisibility.Visibility)
    ensures fresh(visibility)
    ensures visibility.ToJson() == Core.Visibility(generate(n), Hidden(exceptions, componentState, generate, n), true, ThreeViewSetupHints.Initial)
  {
    visibility := new ThreeVisibility.Visibility(generate(n));
    if componentState.Some? {
      HideKnown(exceptions, componentState.value, generate, n + 1, visibility);
    }
  }

  /**
   * `createTopic`'s component part, step by step as the reducer does it. The containers hold
   * values, so each child is added once it is complete; the source adds it first and fills it
   * through the shared reference, which gives the same JSON.
   */
  method Build(selected: seq<string>, visible: seq<string>, defaults: seq<string>,
               componentState: Option<map<string, ComponentState>>, generate: nat -> string) returns (r: Result<Core.Components>)
    ensures r == Built(selected, visible, defaults, componentState, generate)
  {
    var components := new ThreeComponents.Components(generate(0), generate(1));
    var selection, coloring := SelectionAndColoring(selected, componentState, generate);
    var n := 4 + |Chosen(selected, componentState, generate)|;
    var exceptions := Exceptions(defaults, visible);
    if componentState.None? && exceptions != [] {
      return Err(NullRead(exceptions[0]));
    }
    var visibility := NewVisibility(exceptions, componentState, generate, n);
    var chosen := Chosen(selected, componentState, generate);
    components.AddSelection(selection);
    components.AddColoring(coloring);
    assert components.selection == [Core.Selection(generate(2), chosen)];
    assert components.coloring == [Core.Coloring(generate(3), Highlight, chosen)];
    components.AddVisibility(visibility);
    assert components.visibility == Core.Visibility(generate(n), Hidden(exceptions, componentState, generate, n), true, ThreeViewSetupHints.Initial);
    BuiltOk(selected, visible, defaults, componentState, generate);
    r := Ok(components.ToJson());
  }
}
