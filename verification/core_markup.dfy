/**
 * `Markup_XML.create`: the oldest markup builder, used by the worker's assembler. Apart from the
 * two Guids, it only takes the title and the description from the topic; the header, the dates,
 * the author, type, status and index are fixed.
 */
module CoreMarkup {
  import opened Wrappers
  import opened Xml
  import opened Worker
  import opened BcfXml

  const FixedIfcProject := "16ptFjkWnCdh4kqFvB0NRX"
  const FixedFileName := "0001"
  const FixedFileDate := "2023-07-03T21:00:35+02:00"
  const FixedCreationDate := "2023-07-03T21:02:50+02:00"
  const FixedModifiedDate := "2023-07-03T21:03:55+02:00"
  const FixedAuthor := "awisen@kth.se"

  /** The order of the `Topic` children this builder writes: it has no `DueDate`. */
  const CoreChildOrder := ["ReferenceLinks", "Title", "Index", "Labels", "CreationDate", "CreationAuthor",
                           "ModifiedDate", "ModifiedAuthor", "AssignedTo", "Description",
                           "DocumentReferences", "RelatedTopics", "Comments", "Viewpoints"]

  /** The fixed `Header`: project `16ptFjkWnCdh4kqFvB0NRX`, external, file `0001` of 3 July 2023. */
  function CoreHeader(): (e: Element)
    ensures FileOf(e).Some?
    ensures AttributeValue(FileOf(e).value.attributes, "IfcProject") == Some(FixedIfcProject)
    ensures AttributeValue(FileOf(e).value.attributes, "IsExternal") == Some("true")
    ensures FileOf(e).value.children == [StringElement("Filename", FixedFileName), StringElement("Date", FixedFileDate)]
  {
    var attributes := [Attribute("IfcProject", FixedIfcProject), Attribute("IsExternal", "true")];
    FirstAttribute(attributes, 0);
    FirstAttribute(attributes, 1);
    Element("Header", [], [
      Element("Files", [], [
        Element("File", attributes, [StringElement("Filename", FixedFileName), StringElement("Date", FixedFileDate)], None)
      ], None)
    ], None)
  }

  /** A placeholder element: no attributes, no children, no text. */
  predicate Bare(e: Element) {
    e.attributes == [] && e.children == [] && e.text.None?
  }

  /** The `Topic` children for a title and a description, in this builder's order. */
  function CoreTopicChildren(title: string, description: string, viewpointGuid: string): (es: seq<Element>)
    ensures |es| == 14 && NamedAs(es, CoreChildOrder)
  {
    [Empty("ReferenceLinks"),
     StringElement("Title", title),
     StringElement("Index", "1"),
     Empty("Labels"),
     StringElement("CreationDate", FixedCreationDate),
     StringElement("CreationAuthor", FixedAuthor),
     StringElement("ModifiedDate", FixedModifiedDate),
     StringElement("ModifiedAuthor", FixedAuthor),
     Empty("AssignedTo"),
     StringElement("Description", description),
     Empty("DocumentReferences"),
     Empty("RelatedTopics"),
     Empty("Comments"),
     ViewpointsElement(viewpointGuid, viewpointGuid + ".bcfv", viewpointGuid + ".png", Chars("0"))]
  }

  /**
   * The texts of the `Topic` children: the title and description as given, `Index` always
   * `1`, and the fixed creation and modification dates and author.
   */
  lemma CoreTopicTexts(title: string, description: string, viewpointGuid: string)
    ensures var es := CoreTopicChildren(title, description, viewpointGuid);
            && es[1].text == Some(Chars(title)) && es[9].text == Some(Chars(description))
            && es[2].text == Some(Chars("1"))
            && es[4].text == Some(Chars(FixedCreationDate)) && es[5].text == Some(Chars(FixedAuthor))
            && es[6].text == Some(Chars(FixedModifiedDate)) && es[7].text == Some(Chars(FixedAuthor))
  {
  }

  /** `ReferenceLinks`, `Labels`, `AssignedTo`, `DocumentReferences`, `RelatedTopics` and `Comments` are empty placeholders. */
  lemma CoreTopicPlaceholders(title: string, description: string, viewpointGuid: string)
    ensures var es := CoreTopicChildren(title, description, viewpointGuid);
            Bare(es[0]) && Bare(es[3]) && Bare(es[8]) && Bare(es[10]) && Bare(es[11]) && Bare(es[12])
  {
  }

  /** `Viewpoints` lists one `ViewPoint`, whose `Index` is always `0`. */
  lemma CoreTopicViewPointIndex(title: string, description: string, viewpointGuid: string)
    ensures var vps := CoreTopicChildren(title, description, viewpointGuid)[13];
            && |vps.children| == 1 && vps.children[0].name == "ViewPoint"
            && NamedAs(vps.children[0].children, ["Viewpoint", "Snapshot", "Index"])
            && vps.children[0].children[2].text == Some(Chars("0"))
  {
  }

  /** The markup document for a worker topic and the two Guids drawn for it. */
  function Create(t: WorkerTopic, topicGuid: string, viewpointGuid: string): (d: Document)
    ensures d.root.name == "Markup" && NamedAs(d.root.children, ["Header", "Topic"])
    ensures d.root.children[0] == CoreHeader()
    ensures AttributeValue(d.root.children[1].attributes, "Guid") == Some(topicGuid)
    ensures AttributeValue(d.root.children[1].attributes, "TopicType") == Some("Error")
    ensures AttributeValue(d.root.children[1].attributes, "TopicStatus") == Some("Open")
    ensures d.root.children[1].children == CoreTopicChildren(t.title, t.description, viewpointGuid)
  {
    var attributes := [Attribute("Guid", topicGuid), Attribute("TopicType", "Error"), Attribute("TopicStatus", "Open")];
    FirstAttribute(attributes, 0);
    FirstAttribute(attributes, 1);
    FirstAttribute(attributes, 2);
    Standalone(MarkupRoot([CoreHeader(), Element("Topic", attributes, CoreTopicChildren(t.title, t.description, viewpointGuid), None)]))
  }

  /**
   * The topic's title and description are all this builder reads from it: for the same Guids,
   * two topics give the same document exactly when their titles and descriptions agree.
   */
  lemma DependsOnTitleAndDescription(t1: WorkerTopic, t2: WorkerTopic, topicGuid: string, viewpointGuid: string)
    ensures Create(t1, topicGuid, viewpointGuid) == Create(t2, topicGuid, viewpointGuid)
            <==> t1.title == t2.title && t1.description == t2.description
  {
    var d1 := Create(t1, topicGuid, viewpointGuid);
    var d2 := Create(t2, topicGuid, viewpointGuid);
    if d1 == d2 {
      assert d1.root.children[1].children[1].text == Some(Chars(t1.title));
      assert d2.root.children[1].children[1].text == Some(Chars(t2.title));
      assert d1.root.children[1].children[9].text == Some(Chars(t1.description));
      assert d2.root.children[1].children[9].text == Some(Chars(t2.description));
    }
  }

  /** The `ViewPoint` this builder lists names the files `<viewpointGuid>.bcfv` and `<viewpointGuid>.png`. */
  lemma ListsViewpointFiles(t: WorkerTopic, topicGuid: string, viewpointGuid: string)
    ensures var vp := Create(t, topicGuid, viewpointGuid).root.children[1].children[13].children[0];
            && AttributeValue(vp.attributes, "Guid") == Some(viewpointGuid)
            && vp.children[0] == StringElement("Viewpoint", viewpointGuid + ".bcfv")
            && vp.children[1] == StringElement("Snapshot", viewpointGuid + ".png")
  {
    FirstAttribute([Attribute("Guid", viewpointGuid)], 0);
  }
}
