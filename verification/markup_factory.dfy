/**
 * `MarkupFactory.create`: the `markup.bcf` document of one topic folder, written from the
 * topic record once the assembler has set its position and the request header.
 */
module MarkupFactory {
  import opened Wrappers
  import opened Xml
  import opened Core
  import opened Worker
  import opened BcfXml

  /** The Guid every comment's `Viewpoint` reference carries: the first viewpoint's, or `''` without one. */
  function CommentViewpointGuid(viewpoints: seq<Viewpoint>): string {
    if |viewpoints| > 0 then viewpoints[0].uuid else ""
  }

  /** One `Comment`: its Guid, the date, author and text (empty when missing), and the viewpoint reference. */
  function CommentElement(c: Comment, viewpointGuid: string): (e: Element)
    ensures e.name == "Comment" && AttributeValue(e.attributes, "Guid") == Some(c.uuid)
    ensures NamedAs(e.children, ["Date", "Author", "Comment", "Viewpoint"])
    ensures e.children[0].text == Some(Chars(c.date)) && e.children[1].text == Some(Chars(c.author))
    ensures e.children[2].text == Some(Chars(c.comment.GetOr("")))
    ensures AttributeValue(e.children[3].attributes, "Guid") == Some(viewpointGuid)
  {
    Element("Comment", [Attribute("Guid", c.uuid)], [
      StringElement("Date", c.date),
      StringElement("Author", c.author),
      StringElement("Comment", c.comment.GetOr("")),
      Element("Viewpoint", [Attribute("Guid", viewpointGuid)], [], None)], None)
  }

  /** The `Comment` elements of a comment list: one per comment, in the list's order. */
  function CommentElements(cs: seq<Comment>, viewpointGuid: string): (es: seq<Element>)
    ensures |es| == |cs|
    ensures forall i :: 0 <= i < |cs| ==> es[i] == CommentElement(cs[i], viewpointGuid)
  {
    if cs == [] then [] else CommentElements(cs[..|cs| - 1], viewpointGuid) + [CommentElement(cs[|cs| - 1], viewpointGuid)]
  }

  /** The `Topic` element written for `e`, whose first viewpoint is `vp`. */
  function TopicOf(e: TopicFolder, vp: Viewpoint): Element {
    var comments := if e.comments.Some? then CommentElements(e.comments.value, vp.uuid) else [];
    TopicElement(e.uuid, e.topicType, e.topicStatus, TopicFieldElements(e), comments,
                 ViewpointsElement(vp.uuid, vp.viewpoint, vp.snapshot, Integer(vp.index)))
  }

  /**
   * The markup document of `e`. Reading `e.header.ifcProject` fails when the parameters carry no
   * header, and reading `viewpoint.uuid` fails when the topic has no viewpoint; otherwise the
   * document holds the header, then the topic (see `MarkupTopic`).
   */
  function Markup(e: TopicFolder): (r: Result<Document>)
    ensures r.Ok? <==> e.header.Some? && |e.viewpoints| > 0
    ensures e.header.None? ==> r == Err(UndefinedRead("ifcProject"))
    ensures e.header.Some? && |e.viewpoints| == 0 ==> r == Err(UndefinedRead("uuid"))
    ensures r.Ok? ==> r.value.root.name == "Markup" && |r.value.root.children| == 2
    ensures r.Ok? ==> r.value.root.children[0] == RequestHeaderElement(e.header.value)
  {
    if e.header.None? then Err(UndefinedRead("ifcProject"))
    else if |e.viewpoints| == 0 then Err(UndefinedRead("uuid"))
    else Ok(Standalone(MarkupRoot([RequestHeaderElement(e.header.value), TopicOf(e, e.viewpoints[0])])))
  }

  /** The `Topic` element of a written markup carries the topic's Guid, type and status. */
  lemma MarkupTopicAttributes(e: TopicFolder)
    requires Markup(e).Ok?
    ensures var t := Markup(e).value.root.children[1];
            && t.name == "Topic"
            && AttributeValue(t.attributes, "Guid") == Some(e.uuid)
            && AttributeValue(t.attributes, "TopicType") == Some(e.topicType)
            && AttributeValue(t.attributes, "TopicStatus") == Some(e.topicStatus)
  {
  }

  /**
   * The `Topic` children of a written markup: the fields in BCF order; one `Comment` per comment
   * in order (none when the list is missing), each pointing at the first viewpoint; and that
   * viewpoint, with its own index, as the only `ViewPoint`.
   */
  lemma MarkupTopic(e: TopicFolder)
    requires Markup(e).Ok?
    ensures var t := Markup(e).value.root.children[1];
            var vp := e.viewpoints[0];
            var cs := if e.comments.Some? then e.comments.value else [];
            && NamedAs(t.children, TopicChildOrder)
            && t.children[..13] == TopicFieldElements(e)
            && |t.children[13].children| == |cs|
            && (forall i :: 0 <= i < |cs| ==> t.children[13].children[i] == CommentElement(cs[i], vp.uuid))
            && t.children[14] == ViewpointsElement(vp.uuid, vp.viewpoint, vp.snapshot, Integer(vp.index))
  {
    var vp := e.viewpoints[0];
    var comments := if e.comments.Some? then CommentElements(e.comments.value, vp.uuid) else [];
    TopicFieldNames(e);
    TopicElementChildren(e.uuid, e.topicType, e.topicStatus, TopicFieldElements(e), comments,
                         ViewpointsElement(vp.uuid, vp.viewpoint, vp.snapshot, Integer(vp.index)));
  }

  /** Every comment of a written markup refers to the viewpoint that the `Viewpoints` element lists. */
  lemma CommentsReferenceListedViewpoint(e: TopicFolder, i: nat)
    requires Markup(e).Ok?
    requires i < |Markup(e).value.root.children[1].children[13].children|
    ensures var t := Markup(e).value.root.children[1];
            AttributeValue(t.children[13].children[i].children[3].attributes, "Guid")
            == AttributeValue(t.children[14].children[0].attributes, "Guid")
  {
    MarkupTopic(e);
    var vp := e.viewpoints[0];
    FirstAttribute([Attribute("Guid", vp.uuid)], 0);
  }

  /** The `forEach` over the comments: one element appended per comment, in order. */
  method WriteComments(cs: seq<Comment>, viewpointGuid: string) returns (es: seq<Element>)
    ensures es == CommentElements(cs, viewpointGuid)
  {
    es := [];
    var i := 0;
    while i < |cs|
      invariant 0 <= i <= |cs|
      invariant es == CommentElements(cs[..i], viewpointGuid)
    {
      assert cs[..i + 1][..i] == cs[..i];
      es := es + [CommentElement(cs[i], viewpointGuid)];
      i := i + 1;
    }
    assert cs[..|cs|] == cs;
  }

  /** `create`: the header, the topic fields, the comments (when the list exists), then the first viewpoint. */
  method Create(e: TopicFolder) returns (r: Result<Document>)
    ensures r == Markup(e)
  {
    if e.header.None? {
      return Err(UndefinedRead("ifcProject"));
    }
    var header := RequestHeaderElement(e.header.value);
    var fields := TopicFieldElements(e);
    var guid := CommentViewpointGuid(e.viewpoints);
    var comments: seq<Element> := [];
    if e.comments.Some? {
      comments := WriteComments(e.comments.value, guid);
    }
    if |e.viewpoints| == 0 {
      return Err(UndefinedRead("uuid"));
    }
    var vp := e.viewpoints[0];
    var topic := TopicElement(e.uuid, e.topicType, e.topicStatus, fields, comments,
                              ViewpointsElement(vp.uuid, vp.viewpoint, vp.snapshot, Integer(vp.index)));
    assert topic == TopicOf(e, vp);
    r := Ok(Standalone(MarkupRoot([header, topic])));
  }
}
