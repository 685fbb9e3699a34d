/**
 * Pieces shared by the BCF-XML 3.0 document builders: the schema locations, the markup header,
 * the topic's scalar fields, the viewpoint index entry and the perspective camera.
 */
module BcfXml {
  import opened Wrappers
  import opened Xml
  import opened Core
  import opened Worker

  const XsiNamespace := "http://www.w3.org/2001/XMLSchema-instance"
  const SchemaBase := "https://raw.githubusercontent.com/buildingSMART/BCF-XML/release_3_0/Schemas/"
  const VersionSchema := SchemaBase + "version.xsd"
  const MarkupSchema := SchemaBase + "markup.xsd"
  const VisinfoSchema := SchemaBase + "visinfo.xsd"

  /** The `Markup` root: the XML-Schema-instance namespace and the markup.xsd location, then its children. */
  function MarkupRoot(children: seq<Element>): (e: Element)
    ensures e.name == "Markup" && e.children == children && e.text.None?
    ensures AttributeValue(e.attributes, "xsi:noNamespaceSchemaLocation") == Some(MarkupSchema)
    ensures AttributeValue(e.attributes, "xmlns:xsi") == Some(XsiNamespace)
  {
    var attributes := [Attribute("xmlns:xsi", XsiNamespace), Attribute("xsi:noNamespaceSchemaLocation", MarkupSchema)];
    FirstAttribute(attributes, 0);
    FirstAttribute(attributes, 1);
    Element("Markup", attributes, children, None)
  }

  /** `Header/Files/File` with the `IfcProject` and `IsExternal` attributes and the `Filename` and `Date` texts. */
  function HeaderElement(ifcProject: string, isExternal: string, fileName: string, date: string): Element {
    Element("Header", [], [
      Element("Files", [], [
        Element("File", [Attribute("IfcProject", ifcProject), Attribute("IsExternal", isExternal)],
                [StringElement("Filename", fileName), StringElement("Date", date)], None)
      ], None)
    ], None)
  }

  /** The `File` element inside a `Header` element. */
  function FileOf(header: Element): Option<Element> {
    if |header.children| == 1 && |header.children[0].children| == 1 then Some(header.children[0].children[0]) else None
  }

  /** The header a markup builder writes for the request header `h`: missing fields default to `''`, `IsExternal` to `'true'`. */
  function RequestHeaderElement(h: Header): (e: Element)
    ensures FileOf(e).Some?
    ensures AttributeValue(FileOf(e).value.attributes, "IfcProject") == Some(h.ifcProject.GetOr(""))
    ensures AttributeValue(FileOf(e).value.attributes, "IsExternal") ==
              Some(if h.isExternal.Some? then BoolText(h.isExternal.value) else "true")
    ensures FileOf(e).value.children == [StringElement("Filename", h.fileName.GetOr("")), StringElement("Date", h.date.GetOr(""))]
  {
    HeaderElement(h.ifcProject.GetOr(""), if h.isExternal.Some? then BoolText(h.isExternal.value) else "true",
                  h.fileName.GetOr(""), h.date.GetOr(""))
  }

  /** The order of a `Topic` element's children, as both markup builders over a topic record write them. */
  const TopicChildOrder := ["ReferenceLinks", "Title", "Index", "Labels", "CreationDate", "CreationAuthor",
                            "ModifiedDate", "ModifiedAuthor", "AssignedTo", "Description", "DueDate",
                            "DocumentReferences", "RelatedTopics", "Comments", "Viewpoints"]

  /** The children of `Topic` from `ReferenceLinks` to `RelatedTopics`, written from the record. */
  function TopicFieldElements(e: TopicFolder): (es: seq<Element>)
    ensures |es| == 13
  {
    [Empty("ReferenceLinks"),
     StringElement("Title", e.title),
     WithText("Index", Integer(e.index)),
     Empty("Labels"),
     StringElement("CreationDate", e.creationDate),
     StringElement("CreationAuthor", e.creationAuthor),
     StringElement("ModifiedDate", e.modifiedDate),
     StringElement("ModifiedAuthor", e.modifiedDate),
     StringElement("AssignedTo", e.assignedTo.GetOr("")),
     StringElement("Description", e.description.GetOr("")),
     StringElement("DueDate", e.dueDate.GetOr("")),
     Empty("DocumentReferences"),
     Empty("RelatedTopics")]
  }

  /** The scalar fields come in BCF order, `ReferenceLinks` to `RelatedTopics`. */
  lemma TopicFieldNames(e: TopicFolder)
    ensures NamedAs(TopicFieldElements(e), TopicChildOrder[..13])
  {
  }

  /**
   * The scalar fields' texts: the record's title, index and creation fields; `ModifiedAuthor`
   * carries the modification date (the source passes `e.modifiedDate` there too); a missing
   * assignee, description or due date gives an empty text; the four link lists are empty.
   */
  lemma TopicFieldTexts(e: TopicFolder)
    ensures var es := TopicFieldElements(e);
            && es[1].text == Some(Chars(e.title)) && es[2].text == Some(Integer(e.index))
            && es[4].text == Some(Chars(e.creationDate)) && es[5].text == Some(Chars(e.creationAuthor))
            && es[6].text == Some(Chars(e.modifiedDate)) && es[7].text == Some(Chars(e.modifiedDate))
            && es[8].text == Some(Chars(e.assignedTo.GetOr("")))
            && es[9].text == Some(Chars(e.description.GetOr("")))
            && es[10].text == Some(Chars(e.dueDate.GetOr("")))
            && es[0].children == [] && es[3].children == [] && es[11].children == [] && es[12].children == []
  {
  }

  /**
   * As written, `ModifiedAuthor` carries the modification date, so it names the record's
   * modifying author only when that author happens to equal the date text.
   */
  lemma ModifiedAuthorHoldsDate(e: TopicFolder)
    ensures TopicFieldElements(e)[7].name == "ModifiedAuthor"
    ensures TopicFieldElements(e)[7].text == Some(Chars(e.modifiedAuthor)) <==> e.modifiedAuthor == e.modifiedDate
  {
  }

  /** The scalar fields with `ModifiedAuthor` taken from the record's `modifiedAuthor`. */
  function IntendedTopicFieldElements(e: TopicFolder): seq<Element> {
    TopicFieldElements(e)[7 := StringElement("ModifiedAuthor", e.modifiedAuthor)]
  }

  /**
   * With the author written where the author belongs, the scalar fields keep their BCF order,
   * `ModifiedDate` and `ModifiedAuthor` read back the record's date and author, and every other
   * field is the one the source writes.
   */
  lemma IntendedModifiedAuthor(e: TopicFolder)
    ensures var es := IntendedTopicFieldElements(e);
            && NamedAs(es, TopicChildOrder[..13])
            && es[6].text == Some(Chars(e.modifiedDate)) && es[7].text == Some(Chars(e.modifiedAuthor))
            && forall k :: 0 <= k < 13 && k != 7 ==> es[k] == TopicFieldElements(e)[k]
  {
    TopicFieldNames(e);
  }

  /** A `Topic` element: its Guid, type and status attributes; the scalar fields, then `Comments`, then `Viewpoints`. */
  function TopicElement(guid: string, topicType: string, topicStatus: string,
                        fields: seq<Element>, comments: seq<Element>, viewpoints: Element): (e: Element)
    ensures e.name == "Topic" && e.text.None?
    ensures AttributeValue(e.attributes, "Guid") == Some(guid)
    ensures AttributeValue(e.attributes, "TopicType") == Some(topicType)
    ensures AttributeValue(e.attributes, "TopicStatus") == Some(topicStatus)
    ensures e.children == fields + [Element("Comments", [], comments, None), viewpoints]
  {
    var attributes := [Attribute("Guid", guid), Attribute("TopicType", topicType), Attribute("TopicStatus", topicStatus)];
    FirstAttribute(attributes, 0);
    FirstAttribute(attributes, 1);
    FirstAttribute(attributes, 2);
    Element("Topic", attributes, fields + [Element("Comments", [], comments, None), viewpoints], None)
  }

  /** A `Topic` element built from the thirteen scalar fields lists its children in BCF order. */
  lemma TopicElementChildren(guid: string, topicType: string, topicStatus: string,
                             fields: seq<Element>, comments: seq<Element>, viewpoints: Element)
    requires NamedAs(fields, TopicChildOrder[..13]) && viewpoints.name == "Viewpoints"
    ensures var t := TopicElement(guid, topicType, topicStatus, fields, comments, viewpoints);
            && NamedAs(t.children, TopicChildOrder)
            && t.children[..13] == fields
            && t.children[13].children == comments
            && t.children[14] == viewpoints
  {
    var t := TopicElement(guid, topicType, topicStatus, fields, comments, viewpoints);
    assert t.children[..13] == fields;
    NamedAsConcat(fields, TopicChildOrder[..13], [Element("Comments", [], comments, None), viewpoints], ["Comments", "Viewpoints"]);
    assert TopicChildOrder[..13] + ["Comments", "Viewpoints"] == TopicChildOrder;
  }

  /** `Viewpoints/ViewPoint` naming one viewpoint: its Guid, the .bcfv and snapshot file names and the sort index. */
  function ViewpointsElement(guid: string, viewpointFile: string, snapshotFile: string, index: Text): (e: Element)
    ensures e.name == "Viewpoints"
  {
    Element("Viewpoints", [], [
      Element("ViewPoint", [Attribute("Guid", guid)],
              [StringElement("Viewpoint", viewpointFile), StringElement("Snapshot", snapshotFile), WithText("Index", index)], None)
    ], None)
  }

  /** An element with `X`, `Y`, `Z` children holding the entries 0, 1, 2 of a vector. */
  function VectorElement(name: string, v: Vec3): Element {
    Element(name, [], [WithText("X", Decimal(v.x)), WithText("Y", Decimal(v.y)), WithText("Z", Decimal(v.z))], None)
  }

  /** Reads a vector back from an element written by `VectorElement`. */
  function ReadVector(e: Element): Option<Vec3> {
    if NamedAs(e.children, ["X", "Y", "Z"])
       && (forall i :: 0 <= i < 3 ==> e.children[i].text.Some? && e.children[i].text.value.Decimal?)
    then Some(Vec3(e.children[0].text.value.x, e.children[1].text.value.x, e.children[2].text.value.x))
    else None
  }

  /** `PerspectiveCamera`: view point, direction and up vector, then field of view and aspect ratio. */
  function PerspectiveCamera(viewPoint: Vec3, direction: Vec3, up: Vec3, fieldOfView: Text, aspectRatio: Text): (e: Element)
    ensures e.name == "PerspectiveCamera"
  {
    Element("PerspectiveCamera", [], [
      VectorElement("CameraViewPoint", viewPoint),
      VectorElement("CameraDirection", direction),
      VectorElement("CameraUpVector", up),
      WithText("FieldOfView", fieldOfView),
      WithText("AspectRatio", aspectRatio)], None)
  }

  /**
   * The camera reads back: its children come in the order view point, direction, up vector,
   * field of view, aspect ratio, and each vector's X, Y, Z are its entries 0, 1, 2.
   */
  lemma PerspectiveCameraReadBack(viewPoint: Vec3, direction: Vec3, up: Vec3, fieldOfView: Text, aspectRatio: Text)
    ensures var e := PerspectiveCamera(viewPoint, direction, up, fieldOfView, aspectRatio);
            && NamedAs(e.children, ["CameraViewPoint", "CameraDirection", "CameraUpVector", "FieldOfView", "AspectRatio"])
            && ReadVector(e.children[0]) == Some(viewPoint)
            && ReadVector(e.children[1]) == Some(direction)
            && ReadVector(e.children[2]) == Some(up)
            && e.children[3].text == Some(fieldOfView) && e.children[4].text == Some(aspectRatio)
  {
  }
}
