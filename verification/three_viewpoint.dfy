/**
 * `Viewpoint` (file names derived from the uuid, the snapshot image and a sort index) and
 * `TopicComment_Three` (a comment whose JSON names its own uuid as viewpoint).
 */
module ThreeViewpoint {
  import opened Wrappers
  import Core
  import Schema

  /** The file names follow the uuid: `<uuid>.bcfv` and `<uuid>.png`. */
  predicate NamesDerived(v: Core.Viewpoint) {
    v.viewpoint == v.uuid + ".bcfv" && v.snapshot == v.uuid + ".png"
  }

  /** A new viewpoint: derived file names, the image or `''`, index 0. */
  function Initial(uuid: string, snapshotImage: Option<string>): (v: Core.Viewpoint)
    ensures NamesDerived(v) && v.uuid == uuid && v.index == 0 && v.snapshotImage == snapshotImage.GetOr("")
  {
    Core.Viewpoint(uuid, uuid + ".bcfv", uuid + ".png", snapshotImage.GetOr(""), 0)
  }

  /** The two derived names differ, so the two files of one viewpoint never collide. */
  lemma DerivedNamesDiffer(v: Core.Viewpoint)
    requires NamesDerived(v)
    ensures v.viewpoint != v.snapshot
  {
    assert v.viewpoint[|v.uuid| + 1] == 'b';
    assert v.snapshot[|v.uuid| + 1] == 'p';
  }

  class Viewpoint {
    var uuid: string
    var viewpoint: string
    var snapshot: string
    var index: int
    var snapshotImage: string

    function ToJson(): (j: Core.Viewpoint)
      reads this
      ensures j.uuid == uuid && j.viewpoint == viewpoint && j.snapshot == snapshot
      ensures j.snapshotImage == snapshotImage && j.index == index
    {
      Core.Viewpoint(uuid, viewpoint, snapshot, snapshotImage, index)
    }

    /** `uuid` is the value `generateUUID()` gives the new viewpoint. */
    constructor(uuid: string, snapshotImage: Option<string>)
      ensures ToJson() == Initial(uuid, snapshotImage)
    {
      this.uuid := uuid;
      viewpoint := uuid + ".bcfv";
      snapshot := uuid + ".png";
      this.snapshotImage := snapshotImage.GetOr("");
      index := 0;
    }

    method SetSnapshotImage(snapshotImage: string)
      modifies this
      ensures ToJson() == old(ToJson()).(snapshotImage := snapshotImage)
      ensures NamesDerived(old(ToJson())) ==> NamesDerived(ToJson())
    {
      this.snapshotImage := snapshotImage;
    }

    /** `Object.assign(this, json)`: all five fields are required and copied; the names are not re-derived. */
    method FromJson(json: Core.Viewpoint)
      modifies this
      ensures ToJson() == json
    {
      uuid := json.uuid;
      viewpoint := json.viewpoint;
      snapshot := json.snapshot;
      snapshotImage := json.snapshotImage;
      index := json.index;
    }
  }

  /** A new comment: empty author, text and viewpoint `''` unless given, empty modification fields. */
  function InitialComment(uuid: string, date: string, comment: Option<string>, viewpoint: Option<string>): Core.Comment {
    Core.Comment(uuid, date, "", Some(comment.GetOr("")), Some(viewpoint.GetOr("")), Some(""), Some(""))
  }

  /** `Object.assign(this, json)`: the required fields and every optional field the JSON carries are copied. */
  function AssignComment(current: Core.Comment, json: Core.Comment): (c: Core.Comment)
    ensures c.uuid == json.uuid && c.date == json.date && c.author == json.author
    ensures c.comment == (if json.comment.Some? then json.comment else current.comment)
    ensures c.viewpoint == (if json.viewpoint.Some? then json.viewpoint else current.viewpoint)
    ensures c.modifiedDate == (if json.modifiedDate.Some? then json.modifiedDate else current.modifiedDate)
    ensures c.modifiedAuthor == (if json.modifiedAuthor.Some? then json.modifiedAuthor else current.modifiedAuthor)
  {
    Core.Comment(json.uuid, json.date, json.author,
                 if json.comment.Some? then json.comment else current.comment,
                 if json.viewpoint.Some? then json.viewpoint else current.viewpoint,
                 if json.modifiedDate.Some? then json.modifiedDate else current.modifiedDate,
                 if json.modifiedAuthor.Some? then json.modifiedAuthor else current.modifiedAuthor)
  }

  /** `TopicComment_Three.toJSON`: the stored fields, except that `viewpoint` is the comment's own uuid. */
  function CommentJson(c: Core.Comment): (j: Core.Comment)
    ensures j.viewpoint == Some(c.uuid) && j.(viewpoint := c.viewpoint) == c
  {
    c.(viewpoint := Some(c.uuid))
  }

  /**
   * Whatever viewpoint a comment stores, its JSON passes `TopicCommentSchema_Core` once the
   * uuid is a UUID: the schema wants a UUID in `viewpoint`, and the uuid is what is written there.
   */
  lemma CommentJsonPassesSchema(c: Core.Comment)
    requires Schema.IsUuid(c.uuid)
    ensures Schema.ParseComment(Schema.CommentJson(CommentJson(c))) == Ok(CommentJson(c))
  {
    Schema.CommentRoundTrip(CommentJson(c));
  }

  /** `fromJSON` of a comment's own JSON gives the comment back exactly when it already named its uuid as viewpoint. */
  lemma CommentRoundTrip(current: Core.Comment, c: Core.Comment)
    requires c.comment.Some? && c.modifiedDate.Some? && c.modifiedAuthor.Some?
    ensures AssignComment(current, CommentJson(c)) == c <==> c.viewpoint == Some(c.uuid)
  {
  }

  /** A new comment's own viewpoint `''` is not a UUID: written as stored, the schema would reject it. */
  lemma StoredViewpointFailsSchema(uuid: string, date: string, comment: Option<string>)
    ensures Schema.ParseComment(Schema.CommentJson(InitialComment(uuid, date, comment, None))).Err?
  {
    var c := InitialComment(uuid, date, comment, None);
    Schema.CommentJsonFields(c);
    assert !Schema.IsUuid("");
  }

  class TopicComment {
    var uuid: string
    var date: string
    var author: string
    var comment: Option<string>
    var viewpoint: Option<string>
    var modifiedDate: Option<string>
    var modifiedAuthor: Option<string>

    /** The stored fields. */
    function State(): Core.Comment
      reads this
    {
      Core.Comment(uuid, date, author, comment, viewpoint, modifiedDate, modifiedAuthor)
    }

    function ToJson(): (j: Core.Comment)
      reads this
      ensures j == CommentJson(State())
    {
      Core.Comment(uuid, date, author, comment, Some(uuid), modifiedDate, modifiedAuthor)
    }

    /** `uuid` and `date` are the values `generateUUID()` and `new Date().toISOString()` give. */
    constructor(uuid: string, date: string, comment: Option<string>, viewpoint: Option<string>)
      ensures State() == InitialComment(uuid, date, comment, viewpoint)
    {
      this.uuid := uuid;
      this.date := date;
      author := "";
      this.comment := Some(comment.GetOr(""));
      this.viewpoint := Some(viewpoint.GetOr(""));
      modifiedDate := Some("");
      modifiedAuthor := Some("");
    }

    method FromJson(json: Core.Comment)
      modifies this
      ensures State() == AssignComment(old(State()), json)
    {
      uuid := json.uuid;
      date := json.date;
      author := json.author;
      if json.comment.Some? {
        comment := json.comment;
      }
      if json.viewpoint.Some? {
        viewpoint := json.viewpoint;
      }
      if json.modifiedDate.Some? {
        modifiedDate := json.modifiedDate;
      }
      if json.modifiedAuthor.Some? {
        modifiedAuthor := json.modifiedAuthor;
      }
    }
  }
}
