/**
 * `Viewpoint_XML.create`: the oldest `.bcfv` builder. Its component block is fixed (no
 * selection, everything visible, one green component); only the Guid and the camera come from
 * the parameters.
 */
module CoreViewpoint {
  import opened Wrappers
  import opened Xml
  import opened Core
  import opened Worker
  import opened BcfXml

  const FixedColor := "FF00FF00"
  const FixedIfcGuid := "1Ryb8XgUj3gebyYvJGdU2O"
  const FixedOriginatingSystem := "Autodesk Revit 2023 (ENU)"
  const FixedAuthoringToolId := "350815"

  /** `${x}` for a number that may be missing: a missing one reads `undefined`. */
  function NumberText(x: Option<real>): (t: Text)
    ensures x.Some? ==> t == Decimal(x.value)
    ensures x.None? ==> t == Chars("undefined")
  {
    if x.Some? then Decimal(x.value) else Chars("undefined")
  }

  /** The fixed `Components` block. */
  function FixedComponents(): Element {
    Element("Components", [], [
      Empty("Selection"),
      Element("Visibility", [Attribute("DefaultVisibility", "true")], [
        Element("ViewSetupHints", [Attribute("SpacesVisible", "false"), Attribute("SpaceBoundariesVisible", "false"),
                                   Attribute("OpeningsVisible", "false")], [], None),
        Empty("Exceptions")], None),
      Element("Coloring", [], [
        Element("Color", [Attribute("Color", FixedColor)], [
          Element("Components", [], [
            Element("Component", [Attribute("IfcGuid", FixedIfcGuid)], [
              StringElement("OriginatingSystem", FixedOriginatingSystem),
              StringElement("AuthoringToolId", FixedAuthoringToolId)], None)], None)], None)], None)], None)
  }

  /** The camera of a worker topic; a missing field of view or aspect ratio is written as `undefined`. */
  function TopicCamera(e: WorkerTopic): Element {
    PerspectiveCamera(e.cameraViewPoint, e.cameraDirection, e.cameraUpVector, NumberText(e.fieldOfView), NumberText(e.aspectRatio))
  }

  /** The `.bcfv` document for a worker topic and its viewpoint Guid. */
  function VisualizationInfo(e: WorkerTopic, viewpointGuid: string): (d: Document)
    ensures d.version == "1.0" && d.encoding == "UTF-8" && d.standalone
    ensures d.root.name == "VisualizationInfo"
    ensures AttributeValue(d.root.attributes, "Guid") == Some(viewpointGuid)
    ensures NamedAs(d.root.children, ["Components", "PerspectiveCamera", "Bitmaps"])
    ensures d.root.children[0] == FixedComponents() && d.root.children[2] == Empty("Bitmaps")
  {
    var attributes := [Attribute("xmlns:xsi", XsiNamespace), Attribute("Guid", viewpointGuid),
                       Attribute("xsi:noNamespaceSchemaLocation", VisinfoSchema)];
    FirstAttribute(attributes, 1);
    Standalone(Element("VisualizationInfo", attributes, [FixedComponents(), TopicCamera(e), Empty("Bitmaps")], None))
  }

  /** The fixed block lists an empty selection, then the visibility, then one colouring. */
  lemma FixedComponentsShape()
    ensures var c := FixedComponents();
            && NamedAs(c.children, ["Selection", "Visibility", "Coloring"])
            && c.children[0].children == []
  {
  }

  /** The fixed visibility: everything visible, all three hints off, no exception. */
  lemma FixedVisibility()
    ensures var v := FixedComponents().children[1];
            && AttributeValue(v.attributes, "DefaultVisibility") == Some("true")
            && AttributeValue(v.children[0].attributes, "SpacesVisible") == Some("false")
            && AttributeValue(v.children[0].attributes, "SpaceBoundariesVisible") == Some("false")
            && AttributeValue(v.children[0].attributes, "OpeningsVisible") == Some("false")
            && v.children[1].children == []
  {
    var v := FixedComponents().children[1];
    FirstAttribute(v.attributes, 0);
    FirstAttribute(v.children[0].attributes, 0);
    FirstAttribute(v.children[0].attributes, 1);
    FirstAttribute(v.children[0].attributes, 2);
  }

  /** The fixed colouring: colour `FF00FF00` on the single component `1Ryb8XgUj3gebyYvJGdU2O`. */
  lemma FixedColoring()
    ensures var color := FixedComponents().children[2].children[0];
            && AttributeValue(color.attributes, "Color") == Some(FixedColor)
            && |color.children[0].children| == 1
            && AttributeValue(color.children[0].children[0].attributes, "IfcGuid") == Some(FixedIfcGuid)
  {
    var color := FixedComponents().children[2].children[0];
    FirstAttribute(color.attributes, 0);
    FirstAttribute(color.children[0].children[0].attributes, 0);
  }

  /**
   * The camera is copied from the parameters: each vector reads back as given, and the field
   * of view and aspect ratio are the given numbers, or `undefined` when missing.
   */
  lemma CameraFromParameters(e: WorkerTopic, viewpointGuid: string)
    ensures var camera := VisualizationInfo(e, viewpointGuid).root.children[1];
            && camera.name == "PerspectiveCamera"
            && ReadVector(camera.children[0]) == Some(e.cameraViewPoint)
            && ReadVector(camera.children[1]) == Some(e.cameraDirection)
            && ReadVector(camera.children[2]) == Some(e.cameraUpVector)
            && camera.children[3].text == Some(NumberText(e.fieldOfView))
            && camera.children[4].text == Some(NumberText(e.aspectRatio))
  {
    PerspectiveCameraReadBack(e.cameraViewPoint, e.cameraDirection, e.cameraUpVector, NumberText(e.fieldOfView), NumberText(e.aspectRatio));
  }

  /** `create`: the statements append the components block, the camera, then `Bitmaps`, in that order. */
  method Create(e: WorkerTopic, viewpointGuid: string) returns (d: Document)
    ensures d == VisualizationInfo(e, viewpointGuid)
  {
    var children: seq<Element> := [];
    var components := FixedComponents();
    children := children + [components];
    var perspectiveCamera := TopicCamera(e);
    children := children + [perspectiveCamera];
    children := children + [Empty("Bitmaps")];
    var root := Element("VisualizationInfo", [Attribute("xmlns:xsi", XsiNamespace), Attribute("Guid", viewpointGuid),
                                              Attribute("xsi:noNamespaceSchemaLocation", VisinfoSchema)], children, None);
    d := Standalone(root);
  }
}
