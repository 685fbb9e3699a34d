/**
 * `MarkupFactory_XML.create`: the `markup.bcf` document written by the assembler that draws fresh
 * topic and viewpoint Guids. The topic keeps no comments, and its single `ViewPoint` names the
 * files `<viewpointGuid>.bcfv` and `<viewpointGuid>.png`.
 */
module MarkupXml {
  import opened Wrappers
  import opened Xml
  import opened Worker
  import opened BcfXml
  import MarkupFactory

  /** The `Viewpoints` entry for a viewpoint Guid at position `index`. */
  function ViewpointsFor(viewpointGuid: string, index: int): Element {
    ViewpointsElement(viewpointGuid, viewpointGuid + ".bcfv", viewpointGuid + ".png", Integer(index))
  }

  /**
   * The markup document for the parameters `e` (the topic spread with its position as `index`)
   * and the two generated Guids; reading `e.header.ifcProject` fails when `e` carries no header.
   */
  function Create(e: TopicFolder, topicGuid: string, viewpointGuid: string): (r: Result<Document>)
    ensures r.Ok? <==> e.header.Some?
    ensures e.header.None? ==> r == Err(UndefinedRead("ifcProject"))
    ensures r.Ok? ==> r.value.root.name == "Markup" && |r.value.root.children| == 2
    ensures r.Ok? ==> r.value.root.children[0] == RequestHeaderElement(e.header.value)
  {
    if e.header.None? then Err(UndefinedRead("ifcProject"))
    else
      Ok(Standalone(MarkupRoot([
        RequestHeaderElement(e.header.value),
        TopicElement(topicGuid, e.topicType, e.topicStatus, TopicFieldElements(e), [], ViewpointsFor(viewpointGuid, e.index))])))
  }

  /** The `Topic` element carries Guid `topicGuid` and the record's type and status. */
  lemma TopicAttributes(e: TopicFolder, topicGuid: string, viewpointGuid: string)
    requires e.header.Some?
    ensures var t := Create(e, topicGuid, viewpointGuid).value.root.children[1];
            && t.name == "Topic"
            && AttributeValue(t.attributes, "Guid") == Some(topicGuid)
            && AttributeValue(t.attributes, "TopicType") == Some(e.topicType)
            && AttributeValue(t.attributes, "TopicStatus") == Some(e.topicStatus)
  {
  }

  /**
   * The `Topic` children come in BCF order: the record's fields, an empty `Comments`, and one
   * `ViewPoint` whose Guid, file names and index come from `viewpointGuid` and the topic's position.
   */
  lemma TopicChildren(e: TopicFolder, topicGuid: string, viewpointGuid: string)
    requires e.header.Some?
    ensures var t := Create(e, topicGuid, viewpointGuid).value.root.children[1];
            && NamedAs(t.children, TopicChildOrder)
            && t.children[..13] == TopicFieldElements(e)
            && t.children[13].children == []
            && t.children[14] == ViewpointsFor(viewpointGuid, e.index)
  {
    TopicFieldNames(e);
    TopicElementChildren(topicGuid, e.topicType, e.topicStatus, TopicFieldElements(e), [], ViewpointsFor(viewpointGuid, e.index));
  }

  /**
   * Both markup builders over a topic record agree on the header and on every scalar field;
   * given the topic's own uuid they also agree on the topic's Guid, type and status.
   */
  lemma AgreesWithMarkupFactory(e: TopicFolder, viewpointGuid: string)
    requires MarkupFactory.Markup(e).Ok?
    ensures Create(e, e.uuid, viewpointGuid).Ok?
    ensures var a := Create(e, e.uuid, viewpointGuid).value.root;
            var b := MarkupFactory.Markup(e).value.root;
            && a.attributes == b.attributes
            && a.children[0] == b.children[0]
            && a.children[1].attributes == b.children[1].attributes
            && a.children[1].children[..13] == b.children[1].children[..13]
  {
    var a := Create(e, e.uuid, viewpointGuid).value.root;
    var b := MarkupFactory.Markup(e).value.root;
    assert b.children[1] == MarkupFactory.TopicOf(e, e.viewpoints[0]);
    assert a.children[1].children[..13] == TopicFieldElements(e);
    assert b.children[1].children[..13] == TopicFieldElements(e);
  }
}
