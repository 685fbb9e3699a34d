/**
 * `TopicSchema_Core` and `TopicCommentSchema_Core`: which JSON values the topic and comment
 * schemas accept, and the records a successful parse yields. Every entity carries a `uuid` in
 * the 8-4-4-4-12 hexadecimal form of section 3 of RFC 4122. An object may carry keys the
 * schema does not name; they are dropped by the parse.
 */
module Schema {
  import opened Wrappers
  import opened Core

  /** A JSON value. A key that is absent stands for `undefined`. */
  datatype Json = JNull | JBool(b: bool) | JNumber(n: real) | JString(s: string) | JArray(items: seq<Json>) | JObject(fields: map<string, Json>)

  predicate IsHexDigit(c: char) {
    '0' <= c <= '9' || 'a' <= c <= 'f' || 'A' <= c <= 'F'
  }

  /** The positions of the four hyphens of a UUID text. */
  predicate IsHyphenPosition(k: int) {
    k == 8 || k == 13 || k == 18 || k == 23
  }

  /** `z.string().uuid()`: 36 characters, hyphens after the 8th, 12th, 16th and 20th hex digit, hex digits elsewhere. */
  predicate IsUuid(s: string) {
    |s| == 36 && forall k :: 0 <= k < 36 ==> if IsHyphenPosition(k) then s[k] == '-' else IsHexDigit(s[k])
  }

  /** A UUID text holds neither `/` nor `,`, so it names a single folder and survives a split on commas. */
  lemma UuidHasNoSeparator(s: string)
    requires IsUuid(s)
    ensures '/' !in s && ',' !in s
  {
    forall k | 0 <= k < |s|
      ensures s[k] != '/' && s[k] != ','
    {
      if IsHyphenPosition(k) {
        assert s[k] == '-';
      } else {
        assert IsHexDigit(s[k]);
      }
    }
  }

  /** The lower-case hex digit of a nibble. */
  function Hex(n: int): (c: char)
    requires 0 <= n < 16
    ensures IsHexDigit(c)
  {
    "0123456789abcdef"[n]
  }

  predicate IsByte(b: int) {
    0 <= b < 256
  }

  /** Bytes in hex, two digits each, high nibble first. */
  function HexBytes(bs: seq<int>): (h: string)
    requires forall k :: 0 <= k < |bs| ==> IsByte(bs[k])
    ensures |h| == 2 * |bs| && forall k :: 0 <= k < |h| ==> IsHexDigit(h[k])
  {
    if bs == [] then []
    else
      assert IsByte(bs[0]);
      [Hex(bs[0] / 16), Hex(bs[0] % 16)] + HexBytes(bs[1..])
  }

  /** The textual form of a 16-byte UUID: groups of 4, 2, 2, 2 and 6 bytes joined by hyphens. */
  function UuidText(bs: seq<int>): string
    requires |bs| == 16 && forall k :: 0 <= k < 16 ==> IsByte(bs[k])
  {
    HexBytes(bs[..4]) + "-" + HexBytes(bs[4..6]) + "-" + HexBytes(bs[6..8]) + "-" + HexBytes(bs[8..10]) + "-" + HexBytes(bs[10..])
  }

  predicate AllHex(s: string) {
    forall k :: 0 <= k < |s| ==> IsHexDigit(s[k])
  }

  /** Groups of 8, 4, 4, 4 and 12 hex digits joined by hyphens pass the UUID check. */
  lemma HyphenJoinedIsUuid(a: string, b: string, c: string, d: string, e: string)
    requires |a| == 8 && |b| == 4 && |c| == 4 && |d| == 4 && |e| == 12
    requires AllHex(a) && AllHex(b) && AllHex(c) && AllHex(d) && AllHex(e)
    ensures IsUuid(a + "-" + b + "-" + c + "-" + d + "-" + e)
  {
    var s := a + "-" + b + "-" + c + "-" + d + "-" + e;
    forall k | 0 <= k < 36
      ensures if IsHyphenPosition(k) then s[k] == '-' else IsHexDigit(s[k])
    {
      if k < 8 { assert s[k] == a[k]; }
      else if 8 < k < 13 { assert s[k] == b[k - 9]; }
      else if 13 < k < 18 { assert s[k] == c[k - 14]; }
      else if 18 < k < 23 { assert s[k] == d[k - 19]; }
      else if 23 < k { assert s[k] == e[k - 24]; }
    }
  }

  /** Every 16 bytes written in the textual form pass the UUID check. */
  lemma UuidTextIsUuid(bs: seq<int>)
    requires |bs| == 16 && forall k :: 0 <= k < 16 ==> IsByte(bs[k])
    ensures IsUuid(UuidText(bs))
  {
    HyphenJoinedIsUuid(HexBytes(bs[..4]), HexBytes(bs[4..6]), HexBytes(bs[6..8]), HexBytes(bs[8..10]), HexBytes(bs[10..]));
  }

  /** A key that must be present with a string value. */
  predicate RequiredString(f: map<string, Json>, key: string) {
    key in f && f[key].JString?
  }

  /** `.optional()`: the key is absent or holds a string. */
  predicate OptionalString(f: map<string, Json>, key: string) {
    key !in f || f[key].JString?
  }

  /** `.nullable()`: the key is present and holds a string or `null`. */
  predicate NullableString(f: map<string, Json>, key: string) {
    key in f && (f[key].JString? || f[key].JNull?)
  }

  predicate RequiredUuid(f: map<string, Json>, key: string) {
    RequiredString(f, key) && IsUuid(f[key].s)
  }

  /** `TopicCommentSchema_Core`: uuid, date and author required; text, viewpoint (a UUID) and the modification fields optional. */
  predicate CommentSchema(j: Json) {
    && j.JObject?
    && RequiredUuid(j.fields, "uuid")
    && RequiredString(j.fields, "date")
    && RequiredString(j.fields, "author")
    && OptionalString(j.fields, "comment")
    && ("viewpoint" !in j.fields || RequiredUuid(j.fields, "viewpoint"))
    && OptionalString(j.fields, "modifiedDate")
    && OptionalString(j.fields, "modifiedAuthor")
  }

  /**
   * `TopicSchema_Core`: uuid, title, index (a number), the creation and modification fields,
   * type and status required; description optional; due date and assignee present but
   * nullable; comments an optional array of comments.
   */
  predicate TopicSchema(j: Json) {
    && j.JObject?
    && RequiredUuid(j.fields, "uuid")
    && RequiredString(j.fields, "title")
    && OptionalString(j.fields, "description")
    && "index" in j.fields && j.fields["index"].JNumber?
    && RequiredString(j.fields, "creationDate")
    && RequiredString(j.fields, "creationAuthor")
    && RequiredString(j.fields, "modifiedDate")
    && RequiredString(j.fields, "modifiedAuthor")
    && RequiredString(j.fields, "topicType")
    && RequiredString(j.fields, "topicStatus")
    && NullableString(j.fields, "dueDate")
    && NullableString(j.fields, "assignedTo")
    && ("comments" !in j.fields ||
        (j.fields["comments"].JArray? && forall k :: 0 <= k < |j.fields["comments"].items| ==> CommentSchema(j.fields["comments"].items[k])))
  }

  /** `Topic_Core`: what a parsed topic holds. */
  datatype Topic = Topic(uuid: string, title: string, description: Option<string>, index: real,
                         creationDate: string, creationAuthor: string, modifiedDate: string, modifiedAuthor: string,
                         topicType: string, topicStatus: string, dueDate: Option<string>, assignedTo: Option<string>,
                         comments: Option<seq<Comment>>)

  /**
   * The doc comment asks for at least one of text and viewpoint on every comment; the schema
   * does not check it.
   */
  predicate HasTextOrViewpoint(c: Comment) {
    c.comment.Some? || c.viewpoint.Some?
  }

  /** The records the schemas describe: their UUID fields are UUIDs. */
  predicate ValidComment(c: Comment) {
    IsUuid(c.uuid) && (c.viewpoint.Some? ==> IsUuid(c.viewpoint.value))
  }

  predicate ValidTopic(t: Topic) {
    IsUuid(t.uuid) && (t.comments.Some? ==> forall k :: 0 <= k < |t.comments.value| ==> ValidComment(t.comments.value[k]))
  }

  /** The string under an optional key. */
  function OptionalValue(f: map<string, Json>, key: string): Option<string>
    requires OptionalString(f, key)
  {
    if key in f then Some(f[key].s) else None
  }

  /** The string or `null` under a nullable key. */
  function NullableValue(f: map<string, Json>, key: string): Option<string>
    requires NullableString(f, key)
  {
    if f[key].JString? then Some(f[key].s) else None
  }

  /** Adds `key` when the value is present. */
  function WithOptional(f: map<string, Json>, key: string, o: Option<string>): map<string, Json> {
    if o.Some? then f[key := JString(o.value)] else f
  }

  function Nullable(o: Option<string>): Json {
    if o.Some? then JString(o.value) else JNull
  }

  /** A comment as JSON: absent optional fields are left out. */
  function CommentJson(c: Comment): Json {
    var required := map["uuid" := JString(c.uuid), "date" := JString(c.date), "author" := JString(c.author)];
    JObject(WithOptional(WithOptional(WithOptional(WithOptional(required,
      "comment", c.comment), "viewpoint", c.viewpoint), "modifiedDate", c.modifiedDate), "modifiedAuthor", c.modifiedAuthor))
  }

  /** `TopicCommentSchema_Core.parse`: the comment, or a schema violation. */
  function ParseComment(j: Json): (r: Result<Comment>)
    ensures r.Ok? <==> CommentSchema(j)
    ensures r.Ok? ==> ValidComment(r.value)
  {
    if !CommentSchema(j) then Err(SchemaViolation)
    else
      var f := j.fields;
      Ok(Comment(f["uuid"].s, f["date"].s, f["author"].s, OptionalValue(f, "comment"), OptionalValue(f, "viewpoint"),
                 OptionalValue(f, "modifiedDate"), OptionalValue(f, "modifiedAuthor")))
  }

  /** Adding an optional key leaves every other key as it was. */
  lemma WithOptionalKeeps(f: map<string, Json>, key: string, o: Option<string>, other: string)
    requires other != key
    ensures (other in WithOptional(f, key, o) <==> other in f) && (other in f ==> WithOptional(f, key, o)[other] == f[other])
  {
  }

  /** An optional key added to a map without it reads back as the value given. */
  lemma WithOptionalReads(f: map<string, Json>, key: string, o: Option<string>)
    requires key !in f
    ensures OptionalString(WithOptional(f, key, o), key) && OptionalValue(WithOptional(f, key, o), key) == o
  {
  }

  /** What each key of a comment's JSON holds. */
  lemma CommentJsonFields(c: Comment)
    ensures var f := CommentJson(c).fields;
      && f["uuid"] == JString(c.uuid) && f["date"] == JString(c.date) && f["author"] == JString(c.author)
      && OptionalString(f, "comment") && OptionalValue(f, "comment") == c.comment
      && OptionalString(f, "viewpoint") && OptionalValue(f, "viewpoint") == c.viewpoint
      && OptionalString(f, "modifiedDate") && OptionalValue(f, "modifiedDate") == c.modifiedDate
      && OptionalString(f, "modifiedAuthor") && OptionalValue(f, "modifiedAuthor") == c.modifiedAuthor
  {
    var f0 := map["uuid" := JString(c.uuid), "date" := JString(c.date), "author" := JString(c.author)];
    var f1 := WithOptional(f0, "comment", c.comment);
    var f2 := WithOptional(f1, "viewpoint", c.viewpoint);
    var f3 := WithOptional(f2, "modifiedDate", c.modifiedDate);
    var f4 := WithOptional(f3, "modifiedAuthor", c.modifiedAuthor);
    assert CommentJson(c).fields == f4;
    WithOptionalReads(f0, "comment", c.comment);
    WithOptionalKeeps(f1, "viewpoint", c.viewpoint, "comment");
    WithOptionalKeeps(f2, "modifiedDate", c.modifiedDate, "comment");
    WithOptionalKeeps(f3, "modifiedAuthor", c.modifiedAuthor, "comment");
    WithOptionalReads(f1, "viewpoint", c.viewpoint);
    WithOptionalKeeps(f2, "modifiedDate", c.modifiedDate, "viewpoint");
    WithOptionalKeeps(f3, "modifiedAuthor", c.modifiedAuthor, "viewpoint");
    WithOptionalReads(f2, "modifiedDate", c.modifiedDate);
    WithOptionalKeeps(f3, "modifiedAuthor", c.modifiedAuthor, "modifiedDate");
    WithOptionalReads(f3, "modifiedAuthor", c.modifiedAuthor);
    forall key | key in f0
      ensures key in f4 && f4[key] == f0[key]
    {
      WithOptionalKeeps(f0, "comment", c.comment, key);
      WithOptionalKeeps(f1, "viewpoint", c.viewpoint, key);
      WithOptionalKeeps(f2, "modifiedDate", c.modifiedDate, key);
      WithOptionalKeeps(f3, "modifiedAuthor", c.modifiedAuthor, key);
    }
  }

  /** Every valid comment written as JSON passes the schema and parses back to itself. */
  lemma CommentRoundTrip(c: Comment)
    requires ValidComment(c)
    ensures ParseComment(CommentJson(c)) == Ok(c)
  {
    CommentJsonFields(c);
  }

  /** The schema accepts a comment with neither text nor viewpoint. */
  lemma SchemaAllowsBareComment()
    ensures exists j :: CommentSchema(j) && ParseComment(j).Ok? && !HasTextOrViewpoint(ParseComment(j).value)
  {
    var zero := seq(16, k => 0);
    UuidTextIsUuid(zero);
    var c := Comment(UuidText(zero), "", "", None, None, None, None);
    CommentRoundTrip(c);
    assert CommentSchema(CommentJson(c));
  }

  /** The comments of a topic, parsed in order. */
  function ParseComments(items: seq<Json>): (cs: seq<Comment>)
    requires forall k :: 0 <= k < |items| ==> CommentSchema(items[k])
    ensures |cs| == |items| && forall k :: 0 <= k < |items| ==> Ok(cs[k]) == ParseComment(items[k])
  {
    if items == [] then [] else [ParseComment(items[0]).value] + ParseComments(items[1..])
  }

  function CommentsJson(cs: seq<Comment>): (items: seq<Json>)
    ensures |items| == |cs| && forall k :: 0 <= k < |cs| ==> items[k] == CommentJson(cs[k])
  {
    seq(|cs|, k requires 0 <= k < |cs| => CommentJson(cs[k]))
  }

  /** The keys every topic's JSON carries. */
  function TopicRequired(t: Topic): map<string, Json> {
    map[
      "uuid" := JString(t.uuid), "title" := JString(t.title), "index" := JNumber(t.index),
      "creationDate" := JString(t.creationDate), "creationAuthor" := JString(t.creationAuthor),
      "modifiedDate" := JString(t.modifiedDate), "modifiedAuthor" := JString(t.modifiedAuthor),
      "topicType" := JString(t.topicType), "topicStatus" := JString(t.topicStatus),
      "dueDate" := Nullable(t.dueDate), "assignedTo" := Nullable(t.assignedTo)]
  }

  /** A topic as JSON: the description and comments are left out when absent; due date and assignee may be `null`. */
  function TopicJson(t: Topic): Json {
    var described := WithOptional(TopicRequired(t), "description", t.description);
    JObject(if t.comments.Some? then described["comments" := JArray(CommentsJson(t.comments.value))] else described)
  }

  /** `TopicSchema_Core.parse`: the topic, or a schema violation. */
  function ParseTopic(j: Json): (r: Result<Topic>)
    ensures r.Ok? <==> TopicSchema(j)
  {
    if !TopicSchema(j) then Err(SchemaViolation)
    else
      var f := j.fields;
      Ok(Topic(f["uuid"].s, f["title"].s, OptionalValue(f, "description"), f["index"].n,
               f["creationDate"].s, f["creationAuthor"].s, f["modifiedDate"].s, f["modifiedAuthor"].s,
               f["topicType"].s, f["topicStatus"].s, NullableValue(f, "dueDate"), NullableValue(f, "assignedTo"),
               if "comments" in f then Some(ParseComments(f["comments"].items)) else None))
  }

  /** A parsed topic's UUID fields are UUIDs, its comments' included. */
  lemma ParsedTopicValid(j: Json)
    requires TopicSchema(j)
    ensures ValidTopic(ParseTopic(j).value)
  {
    var t := ParseTopic(j).value;
    if t.comments.Some? {
      var items := j.fields["comments"].items;
      forall k | 0 <= k < |t.comments.value|
        ensures ValidComment(t.comments.value[k])
      {
        assert Ok(t.comments.value[k]) == ParseComment(items[k]);
      }
    }
  }

  /** What the identifying keys of a topic's JSON hold. */
  lemma TopicIdentityFields(t: Topic)
    ensures var f := TopicRequired(t);
      && f["uuid"] == JString(t.uuid) && f["title"] == JString(t.title) && f["index"] == JNumber(t.index)
      && f["topicType"] == JString(t.topicType) && f["topicStatus"] == JString(t.topicStatus)
      && "description" !in f && "comments" !in f
  {
  }

  /** What the authoring keys of a topic's JSON hold. */
  lemma TopicAuthoringFields(t: Topic)
    ensures var f := TopicRequired(t);
      && f["creationDate"] == JString(t.creationDate) && f["creationAuthor"] == JString(t.creationAuthor)
      && f["modifiedDate"] == JString(t.modifiedDate) && f["modifiedAuthor"] == JString(t.modifiedAuthor)
      && f["dueDate"] == Nullable(t.dueDate) && f["assignedTo"] == Nullable(t.assignedTo)
  {
  }

  /** The optional keys of a topic's JSON. */
  lemma TopicOptionalFields(t: Topic)
    ensures var f := TopicJson(t).fields;
      && OptionalString(f, "description") && OptionalValue(f, "description") == t.description
      && ("comments" in f <==> t.comments.Some?)
      && (t.comments.Some? ==> f["comments"] == JArray(CommentsJson(t.comments.value)))
      && forall key :: key in TopicRequired(t) ==> key in f && f[key] == TopicRequired(t)[key]
  {
    TopicIdentityFields(t);
  }

  /** Every valid topic written as JSON passes the schema and parses back to itself. */
  lemma TopicRoundTrip(t: Topic)
    requires ValidTopic(t)
    ensures ParseTopic(TopicJson(t)) == Ok(t)
  {
    var f := TopicJson(t).fields;
    TopicIdentityFields(t);
    TopicAuthoringFields(t);
    TopicOptionalFields(t);
    if t.comments.Some? {
      var cs := t.comments.value;
      var items := CommentsJson(cs);
      forall k | 0 <= k < |items|
        ensures CommentSchema(items[k]) && ParseComment(items[k]) == Ok(cs[k])
      {
        CommentRoundTrip(cs[k]);
      }
      assert ParseComments(items) == cs;
    }
    assert TopicSchema(TopicJson(t));
  }
}
