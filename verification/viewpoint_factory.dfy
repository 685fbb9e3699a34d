/**
 * `ViewpointFactory_XML.create`: the visualization information (`.bcfv`) document of a topic.
 * One `Components` element per component state, each with its selections, one visibility and
 * its colourings; then the perspective camera and an empty `Bitmaps`. A component without an
 * IFC Guid is skipped wherever it is listed.
 */
module ViewpointFactory {
  import opened Wrappers
  import opened Xml
  import opened Core
  import opened Worker
  import opened BcfXml

  /** JavaScript truthiness of an optional string: present and not empty. */
  predicate Truthy(s: Option<string>) {
    s.Some? && s.value != ""
  }

  /** A child element with text `s`, written only when `s` is truthy. */
  function OptionalText(name: string, s: Option<string>): (es: seq<Element>)
    ensures |es| <= 1
    ensures es != [] <==> Truthy(s)
    ensures es != [] ==> es[0] == StringElement(name, s.value)
  {
    if Truthy(s) then [StringElement(name, s.value)] else []
  }

  /** A `Component` with its IFC Guid, then `OriginatingSystem` and `AuthoringToolId` when they are set. */
  function ComponentElement(c: Component): (e: Element)
    requires Truthy(c.ifcGuid)
    ensures e.name == "Component" && e.text.None?
    ensures AttributeValue(e.attributes, "IfcGuid") == Some(c.ifcGuid.value)
    ensures NamedAs(e.children, (if Truthy(c.originatingSystem) then ["OriginatingSystem"] else [])
                                + (if Truthy(c.authoringToolId) then ["AuthoringToolId"] else []))
    ensures e.children == OptionalText("OriginatingSystem", c.originatingSystem)
                          + OptionalText("AuthoringToolId", c.authoringToolId)
  {
    FirstAttribute([Attribute("IfcGuid", c.ifcGuid.value)], 0);
    var children := OptionalText("OriginatingSystem", c.originatingSystem) + OptionalText("AuthoringToolId", c.authoringToolId);
    Element("Component", [Attribute("IfcGuid", c.ifcGuid.value)], children, None)
  }

  /** The `Component` elements of a list: one per component with an IFC Guid, in order. */
  function ComponentElements(cs: seq<Component>): (es: seq<Element>)
    ensures |es| <= |cs|
  {
    if cs == [] then []
    else
      var c := cs[|cs| - 1];
      ComponentElements(cs[..|cs| - 1]) + (if Truthy(c.ifcGuid) then [ComponentElement(c)] else [])
  }

  /** The non-empty IFC Guids of a component list, in order: the reference for what gets written. */
  function KeptGuids(cs: seq<Component>): (gs: seq<string>)
    ensures forall g | g in gs :: g != ""
    ensures forall c | c in cs && Truthy(c.ifcGuid) :: c.ifcGuid.value in gs
  {
    if cs == [] then []
    else
      var c := cs[|cs| - 1];
      var gs := KeptGuids(cs[..|cs| - 1]);
      assert forall d | d in cs :: d in cs[..|cs| - 1] || d == c;
      gs + (if Truthy(c.ifcGuid) then [c.ifcGuid.value] else [])
  }

  /** The `IfcGuid` attribute of each element, read back. */
  function IfcGuidsOf(es: seq<Element>): (gs: seq<Option<string>>)
    ensures |gs| == |es| && forall k :: 0 <= k < |es| ==> gs[k] == AttributeValue(es[k].attributes, "IfcGuid")
  {
    seq(|es|, k requires 0 <= k < |es| => AttributeValue(es[k].attributes, "IfcGuid"))
  }

  /**
   * Reading the written `Component` elements back gives exactly the non-empty IFC Guids of the
   * list, in order: nothing without a Guid is written, nothing with one is dropped.
   */
  lemma {:induction false} ComponentElementsReadBack(cs: seq<Component>)
    ensures IfcGuidsOf(ComponentElements(cs)) == Somes(KeptGuids(cs))
    ensures |ComponentElements(cs)| == |KeptGuids(cs)|
  {
    if cs != [] {
      var c := cs[|cs| - 1];
      ComponentElementsReadBack(cs[..|cs| - 1]);
      var es := ComponentElements(cs[..|cs| - 1]);
      var tail := if Truthy(c.ifcGuid) then [ComponentElement(c)] else [];
      assert IfcGuidsOf(es + tail) == IfcGuidsOf(es) + IfcGuidsOf(tail);
      assert Somes(KeptGuids(cs)) == Somes(KeptGuids(cs[..|cs| - 1]))
                                     + Somes(if Truthy(c.ifcGuid) then [c.ifcGuid.value] else []);
    }
  }

  /** Each string wrapped as present. */
  function Somes(gs: seq<string>): (os: seq<Option<string>>)
    ensures |os| == |gs| && forall k :: 0 <= k < |gs| ==> os[k] == Some(gs[k])
  {
    seq(|gs|, k requires 0 <= k < |gs| => Some(gs[k]))
  }

  /** The `forEach` over a component list, returning early for a component without an IFC Guid. */
  method WriteComponentList(cs: seq<Component>) returns (es: seq<Element>)
    ensures es == ComponentElements(cs)
  {
    es := [];
    var i := 0;
    while i < |cs|
      invariant 0 <= i <= |cs|
      invariant es == ComponentElements(cs[..i])
    {
      assert cs[..i + 1][..i] == cs[..i];
      var c := cs[i];
      if Truthy(c.ifcGuid) {
        var xmlComponent := ComponentElement(c);
        es := es + [xmlComponent];
      }
      i := i + 1;
    }
    assert cs[..|cs|] == cs;
  }

  function SelectionElement(s: Selection): Element {
    Element("Selection", [], ComponentElements(s.components), None)
  }

  /** `Visibility`: the default as an attribute; the three hints; the exceptions. */
  function VisibilityElement(v: Visibility): (e: Element)
    ensures e.name == "Visibility"
    ensures NamedAs(e.children, ["ViewSetupHints", "Exceptions"])
    ensures e.children[1].children == ComponentElements(v.components)
  {
    Element("Visibility", [Attribute("DefaultVisibility", BoolText(v.defaultVisibility))], [
      HintsElement(v.viewSetupHints),
      Element("Exceptions", [], ComponentElements(v.components), None)], None)
  }

  /** `ViewSetupHints` with the three flags as attributes. */
  function HintsElement(h: ViewSetupHints): Element {
    Element("ViewSetupHints", [Attribute("SpacesVisible", BoolText(h.spacesVisible)),
                               Attribute("SpaceBoundariesVisible", BoolText(h.spaceBoundariesVisible)),
                               Attribute("OpeningsVisible", BoolText(h.openingsVisible))], [], None)
  }

  /** The visibility's attribute and its hints read back as the record's flags, as `true`/`false` text. */
  lemma VisibilityReadBack(v: Visibility)
    ensures var e := VisibilityElement(v);
            && AttributeValue(e.attributes, "DefaultVisibility") == Some(BoolText(v.defaultVisibility))
            && AttributeValue(e.children[0].attributes, "SpacesVisible") == Some(BoolText(v.viewSetupHints.spacesVisible))
            && AttributeValue(e.children[0].attributes, "SpaceBoundariesVisible") == Some(BoolText(v.viewSetupHints.spaceBoundariesVisible))
            && AttributeValue(e.children[0].attributes, "OpeningsVisible") == Some(BoolText(v.viewSetupHints.openingsVisible))
  {
    var hints := HintsElement(v.viewSetupHints).attributes;
    FirstAttribute(hints, 0);
    FirstAttribute(hints, 1);
    FirstAttribute(hints, 2);
    FirstAttribute([Attribute("DefaultVisibility", BoolText(v.defaultVisibility))], 0);
  }

  /** `Coloring/Color` with the colour as the `Color` attribute, over the coloured components. */
  function ColoringElement(c: Coloring): (e: Element)
    ensures e.name == "Coloring" && NamedAs(e.children, ["Color"])
    ensures AttributeValue(e.children[0].attributes, "Color") == Some(c.color)
    ensures NamedAs(e.children[0].children, ["Components"])
    ensures e.children[0].children[0].children == ComponentElements(c.components)
  {
    FirstAttribute([Attribute("Color", c.color)], 0);
    Element("Coloring", [], [
      Element("Color", [Attribute("Color", c.color)], [
        Element("Components", [], ComponentElements(c.components), None)], None)], None)
  }

  /** The `Selection` elements of a list of selections, in order. */
  function SelectionElements(ss: seq<Selection>): (es: seq<Element>)
    ensures |es| == |ss|
  {
    if ss == [] then [] else SelectionElements(ss[..|ss| - 1]) + [SelectionElement(ss[|ss| - 1])]
  }

  /** The `Coloring` elements of a list of colourings, in order. */
  function ColoringElements(cs: seq<Coloring>): (es: seq<Element>)
    ensures |es| == |cs|
  {
    if cs == [] then [] else ColoringElements(cs[..|cs| - 1]) + [ColoringElement(cs[|cs| - 1])]
  }

  /** The selection elements follow the selections one for one. */
  lemma {:induction false} SelectionElementsAt(ss: seq<Selection>, k: nat)
    requires k < |ss|
    ensures SelectionElements(ss)[k] == SelectionElement(ss[k])
  {
    if k < |ss| - 1 {
      SelectionElementsAt(ss[..|ss| - 1], k);
    }
  }

  /** The colouring elements follow the colourings one for one. */
  lemma {:induction false} ColoringElementsAt(cs: seq<Coloring>, k: nat)
    requires k < |cs|
    ensures ColoringElements(cs)[k] == ColoringElement(cs[k])
  {
    if k < |cs| - 1 {
      ColoringElementsAt(cs[..|cs| - 1], k);
    }
  }

  /** One `Components` element: all selections, then the visibility, then all colourings. */
  function ComponentsElement(c: Components): Element {
    Element("Components", [], SelectionElements(c.selection) + [VisibilityElement(c.visibility)] + ColoringElements(c.coloring), None)
  }

  /** The `Components` elements of a topic, in order. */
  function ComponentsElements(cs: seq<Components>): (es: seq<Element>)
    ensures |es| == |cs|
  {
    if cs == [] then [] else ComponentsElements(cs[..|cs| - 1]) + [ComponentsElement(cs[|cs| - 1])]
  }

  /** The `Components` elements follow the component states one for one. */
  lemma {:induction false} ComponentsElementsAt(cs: seq<Components>, k: nat)
    requires k < |cs|
    ensures ComponentsElements(cs)[k] == ComponentsElement(cs[k])
  {
    if k < |cs| - 1 {
      ComponentsElementsAt(cs[..|cs| - 1], k);
    }
  }

  /** `n` copies of a name. */
  function Repeat(name: string, n: nat): (ns: seq<string>)
    ensures |ns| == n && forall k :: 0 <= k < n ==> ns[k] == name
  {
    seq(n, k => name)
  }

  /** The `VisualizationInfo` root: namespace, Guid and the visinfo.xsd location, then its children. */
  function VisualizationRoot(guid: string, children: seq<Element>): (e: Element)
    ensures e.name == "VisualizationInfo" && e.children == children
    ensures |e.attributes| == 3
    ensures AttributeValue(e.attributes, "xmlns:xsi") == Some(XsiNamespace)
    ensures AttributeValue(e.attributes, "Guid") == Some(guid)
    ensures AttributeValue(e.attributes, "xsi:noNamespaceSchemaLocation") == Some(VisinfoSchema)
  {
    var attributes := [Attribute("xmlns:xsi", XsiNamespace), Attribute("Guid", guid),
                       Attribute("xsi:noNamespaceSchemaLocation", VisinfoSchema)];
    FirstAttribute(attributes, 0);
    FirstAttribute(attributes, 1);
    FirstAttribute(attributes, 2);
    Element("VisualizationInfo", attributes, children, None)
  }

  /** The topic's camera: its three vectors, field of view and aspect ratio. */
  function Camera(e: TopicFolder): Element {
    PerspectiveCamera(e.cameraViewPoint, e.cameraDirection, e.cameraUpVector, Decimal(e.fieldOfView), Decimal(e.aspectRatio))
  }

  /** The `.bcfv` document of `e`, with `guid` (or `''`) as its Guid. */
  function VisualizationInfo(e: TopicFolder, guid: Option<string>): (d: Document)
    ensures d.root.name == "VisualizationInfo"
    ensures AttributeValue(d.root.attributes, "Guid") == Some(guid.GetOr(""))
    ensures AttributeValue(d.root.attributes, "xsi:noNamespaceSchemaLocation") == Some(VisinfoSchema)
  {
    Standalone(VisualizationRoot(guid.GetOr(""), ComponentsElements(e.components) + [Camera(e), Empty("Bitmaps")]))
  }

  /**
   * The root's children by name: one `Components` per component state (none for an empty list),
   * then `PerspectiveCamera`, then `Bitmaps` last.
   */
  lemma RootChildNames(e: TopicFolder, guid: Option<string>)
    ensures NamedAs(VisualizationInfo(e, guid).root.children,
                    Repeat("Components", |e.components|) + ["PerspectiveCamera", "Bitmaps"])
  {
    RootChildren(e, guid);
  }

  /** The root's children: the component states in order, the topic's camera, and an empty `Bitmaps`. */
  lemma RootChildren(e: TopicFolder, guid: Option<string>)
    ensures var root := VisualizationInfo(e, guid).root;
            && |root.children| == |e.components| + 2
            && (forall k :: 0 <= k < |e.components| ==> root.children[k] == ComponentsElement(e.components[k]))
            && root.children[|e.components|] == Camera(e)
            && root.children[|e.components| + 1] == Empty("Bitmaps")
  {
    var root := VisualizationInfo(e, guid).root;
    assert root.children == ComponentsElements(e.components) + [Camera(e), Empty("Bitmaps")];
    forall k | 0 <= k < |e.components|
      ensures root.children[k] == ComponentsElement(e.components[k])
    {
      ComponentsElementsAt(e.components, k);
    }
  }

  /** Inside a `Components` element: every selection, then exactly one visibility, then every colouring. */
  lemma ComponentsChildren(c: Components)
    ensures var e := ComponentsElement(c);
            && NamedAs(e.children, Repeat("Selection", |c.selection|) + ["Visibility"] + Repeat("Coloring", |c.coloring|))
            && e.children[|c.selection|] == VisibilityElement(c.visibility)
  {
    var ss := SelectionElements(c.selection);
    var cs := ColoringElements(c.coloring);
    forall k | 0 <= k < |ss|
      ensures ss[k].name == "Selection"
    {
      SelectionElementsAt(c.selection, k);
    }
    forall k | 0 <= k < |cs|
      ensures cs[k].name == "Coloring"
    {
      ColoringElementsAt(c.coloring, k);
    }
    NamedAsConcat(ss, Repeat("Selection", |c.selection|), [VisibilityElement(c.visibility)], ["Visibility"]);
    NamedAsConcat(ss + [VisibilityElement(c.visibility)], Repeat("Selection", |c.selection|) + ["Visibility"],
                  cs, Repeat("Coloring", |c.coloring|));
  }

  /** The selections of one component state, each through the component loop. */
  method WriteSelections(ss: seq<Selection>) returns (es: seq<Element>)
    ensures es == SelectionElements(ss)
  {
    es := [];
    var i := 0;
    while i < |ss|
      invariant 0 <= i <= |ss|
      invariant es == SelectionElements(ss[..i])
    {
      assert ss[..i + 1][..i] == ss[..i];
      var components := WriteComponentList(ss[i].components);
      es := es + [Element("Selection", [], components, None)];
      i := i + 1;
    }
    assert ss[..|ss|] == ss;
  }

  /** The colourings of one component state, each through the component loop. */
  method WriteColorings(cs: seq<Coloring>) returns (es: seq<Element>)
    ensures es == ColoringElements(cs)
  {
    es := [];
    var i := 0;
    while i < |cs|
      invariant 0 <= i <= |cs|
      invariant es == ColoringElements(cs[..i])
    {
      assert cs[..i + 1][..i] == cs[..i];
      var components := WriteComponentList(cs[i].components);
      var color := Element("Color", [Attribute("Color", cs[i].color)], [Element("Components", [], components, None)], None);
      es := es + [Element("Coloring", [], [color], None)];
      i := i + 1;
    }
    assert cs[..|cs|] == cs;
  }

  /** One `Components` element, written in the order selections, visibility, colourings. */
  method WriteComponents(c: Components) returns (e: Element)
    ensures e == ComponentsElement(c)
  {
    var selections := WriteSelections(c.selection);
    var exceptions := WriteComponentList(c.visibility.components);
    var visibility := Element("Visibility", [Attribute("DefaultVisibility", BoolText(c.visibility.defaultVisibility))], [
      HintsElement(c.visibility.viewSetupHints),
      Element("Exceptions", [], exceptions, None)], None);
    var colorings := WriteColorings(c.coloring);
    e := Element("Components", [], selections + [visibility] + colorings, None);
  }

  /** The outer `forEach`: one `Components` element per component state, in order. */
  method WriteAllComponents(cs: seq<Components>) returns (es: seq<Element>)
    ensures es == ComponentsElements(cs)
  {
    es := [];
    var i := 0;
    while i < |cs|
      invariant 0 <= i <= |cs|
      invariant es == ComponentsElements(cs[..i])
    {
      assert cs[..i + 1][..i] == cs[..i];
      var xmlComponents := WriteComponents(cs[i]);
      es := es + [xmlComponents];
      i := i + 1;
    }
    assert cs[..|cs|] == cs;
  }

  /** `create(e, guid)`: the root, one `Components` per component state, the camera, then `Bitmaps`. */
  method Create(e: TopicFolder, guid: Option<string>) returns (d: Document)
    ensures d == VisualizationInfo(e, guid)
  {
    var children := WriteAllComponents(e.components);
    var camera := Camera(e);
    var root := VisualizationRoot(guid.GetOr(""), children + [camera, Empty("Bitmaps")]);
    d := Standalone(root);
  }
}
