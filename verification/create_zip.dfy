/**
 * `createZipAsync` in its current form: the BCF archive of a build request. The archive starts
 * with `bcf.version`; then, topic by topic in the request's order, the topic is checked against
 * the worker schema and gets a folder named by its uuid holding its first viewpoint's snapshot
 * and `.bcfv` file and its `markup.bcf`. Any failure aborts the whole build, so no archive is
 * produced. The schema check is the parameter `parse`; the document builders and the snapshot
 * decoder come as a `Builders` record, and `Current` names the ones the source imports.
 */
module CreateZip {
  import opened Wrappers
  import opened Xml
  import opened Core
  import opened Worker
  import opened Archive
  import DataUrl
  import BcfVersion
  import BcfXml
  import MarkupFactory
  import ViewpointFactory
  import opened Assembly

  /** The builders' parameters for the topic at position `i`: the topic with `index := i` and the request's header. */
  function Params(t: TopicFolder, i: nat, header: Header): (p: TopicFolder)
    ensures p.index == i && p.header == Some(header)
  {
    t.(index := i, header := Some(header))
  }

  /** What one iteration calls to produce its files. */
  datatype Builders = Builders(
    version: Document,
    snapshot: string -> Result<DataUrl.Blob>,
    visinfo: (TopicFolder, Option<string>) -> Document,
    markup: TopicFolder -> Result<Document>)

  /**
   * The builders `createZipAsync` uses: the constant version document, `dataURLtoBlob` over
   * the base64 decoder `atob`, `ViewpointFactory.create` and `MarkupFactory.create`.
   */
  function Current(atob: string -> Option<string>): Builders {
    Builders(BcfVersion.Create(), s => DataUrl.ToBlob(s, atob), ViewpointFactory.VisualizationInfo, MarkupFactory.Markup)
  }

  /** The markup builder only succeeds on a topic that has a viewpoint. */
  ghost predicate MarkupNeedsViewpoint(b: Builders) {
    forall p :: b.markup(p).Ok? ==> |p.viewpoints| > 0
  }

  /** `MarkupFactory.create` reads the first viewpoint's uuid, so it needs a viewpoint. */
  lemma CurrentMarkupNeedsViewpoint(atob: string -> Option<string>)
    ensures MarkupNeedsViewpoint(Current(atob))
  {
    forall p | Current(atob).markup(p).Ok?
      ensures |p.viewpoints| > 0
    {
      assert Current(atob).markup(p) == MarkupFactory.Markup(p);
    }
  }

  /** The snapshot and `.bcfv` files of the first viewpoint, under the names the viewpoint record carries. */
  function ViewpointWrites(p: TopicFolder, b: Builders): Result<seq<Write>> {
    if |p.viewpoints| == 0 then Ok([])
    else
      var vp := p.viewpoints[0];
      var blob := b.snapshot(vp.snapshotImage);
      if blob.Err? then Err(blob.error)
      else Ok([WriteFile(p.uuid + "/" + vp.snapshot, BinaryFile(blob.value)),
               WriteFile(p.uuid + "/" + vp.viewpoint, XmlFile(b.visinfo(p, Some(vp.uuid))))])
  }

  /** The calls one loop iteration makes for topic `t` at position `i`, or the failure that aborts the build there. */
  function TopicWrites(t: TopicFolder, i: nat, header: Header, parse: TopicFolder -> bool, b: Builders): Result<seq<Write>> {
    if !parse(t) then Err(SchemaViolation)
    else
      var p := Params(t, i, header);
      var files := ViewpointWrites(p, b);
      if files.Err? then Err(files.error)
      else
        var markup := b.markup(p);
        if markup.Err? then Err(markup.error)
        else Ok([MakeFolder(t.uuid)] + files.value + [WriteFile(t.uuid + "/markup.bcf", XmlFile(markup.value))])
  }

  function Step(header: Header, parse: TopicFolder -> bool, b: Builders): (TopicFolder, nat) -> Result<seq<Write>> {
    (t: TopicFolder, i: nat) => TopicWrites(t, i, header, parse, b)
  }

  /** The version file the archive starts with. */
  function Head(b: Builders): Write {
    WriteFile("bcf.version", XmlFile(b.version))
  }

  /** The calls for a request, or the first failure. */
  function Writes(req: Request, parse: TopicFolder -> bool, b: Builders): Result<seq<Write>> {
    Run(Head(b), req.topics, Step(req.header, parse, b))
  }

  /** The archive of a request: the entries the calls leave, or the first failure. */
  function Build(req: Request, parse: TopicFolder -> bool, b: Builders): Result<seq<Entry>> {
    var ws := Writes(req, parse, b);
    if ws.Err? then Err(ws.error) else Ok(Replay(ws.value))
  }

  /** A topic its iteration gets through: it passes the schema, its snapshot (if any) decodes, and its markup builds. */
  predicate TopicOk(t: TopicFolder, i: nat, header: Header, parse: TopicFolder -> bool, b: Builders) {
    && parse(t)
    && (|t.viewpoints| > 0 ==> b.snapshot(t.viewpoints[0].snapshotImage).Ok?)
    && b.markup(Params(t, i, header)).Ok?
  }

  /**
   * An iteration succeeds exactly for a topic `TopicOk` accepts, and then (with a markup builder
   * that needs a viewpoint) makes four calls, all inside the folder named by the topic's uuid.
   */
  lemma TopicWritesOk(t: TopicFolder, i: nat, header: Header, parse: TopicFolder -> bool, b: Builders)
    ensures TopicWrites(t, i, header, parse, b).Ok? <==> TopicOk(t, i, header, parse, b)
    ensures MarkupNeedsViewpoint(b) && TopicOk(t, i, header, parse, b) ==>
              var ws := TopicWrites(t, i, header, parse, b).value;
              |ws| == 4 && InBlock(ws, t.uuid)
  {
    if MarkupNeedsViewpoint(b) && TopicOk(t, i, header, parse, b) {
      var ws := TopicWrites(t, i, header, parse, b).value;
      assert |Params(t, i, header).viewpoints| > 0;
      assert Target(ws[0]) == t.uuid + "/";
    }
  }

  /**
   * With the source's builders a topic gets through exactly when it passes the schema, has a
   * viewpoint and that viewpoint's snapshot decodes; a topic without viewpoints fails in the
   * markup builder, which reads `uuid` of an undefined viewpoint.
   */
  lemma CurrentTopicOk(t: TopicFolder, i: nat, header: Header, parse: TopicFolder -> bool, atob: string -> Option<string>)
    ensures TopicOk(t, i, header, parse, Current(atob)) <==>
            parse(t) && |t.viewpoints| > 0 && DataUrl.ToBlob(t.viewpoints[0].snapshotImage, atob).Ok?
    ensures parse(t) && |t.viewpoints| == 0 ==> TopicWrites(t, i, header, parse, Current(atob)) == Err(UndefinedRead("uuid"))
  {
    var p := Params(t, i, header);
    assert Current(atob).markup(p) == MarkupFactory.Markup(p);
  }

  /** The build succeeds exactly when every topic gets through, and its calls start with the version file. */
  lemma WritesOk(req: Request, parse: TopicFolder -> bool, b: Builders)
    ensures Writes(req, parse, b).Ok? <==> forall k :: 0 <= k < |req.topics| ==> TopicOk(req.topics[k], k, req.header, parse, b)
    ensures Writes(req, parse, b).Ok? ==> |Writes(req, parse, b).value| > 0 && Writes(req, parse, b).value[0] == Head(b)
  {
    RunOk(Head(b), req.topics, Step(req.header, parse, b));
    forall k | 0 <= k < |req.topics|
      ensures Step(req.header, parse, b)(req.topics[k], k).Ok? <==> TopicOk(req.topics[k], k, req.header, parse, b)
    {
      TopicWritesOk(req.topics[k], k, req.header, parse, b);
    }
  }

  /** The first topic that does not get through decides the error the build reports. */
  lemma FirstFailure(req: Request, parse: TopicFolder -> bool, b: Builders, k: nat)
    requires k < |req.topics| && !TopicOk(req.topics[k], k, req.header, parse, b)
    requires forall j :: 0 <= j < k ==> TopicOk(req.topics[j], j, req.header, parse, b)
    ensures Build(req, parse, b) == Err(TopicWrites(req.topics[k], k, req.header, parse, b).error)
  {
    var step := Step(req.header, parse, b);
    forall j | 0 <= j <= k
      ensures step(req.topics[j], j).Ok? <==> TopicOk(req.topics[j], j, req.header, parse, b)
    {
      TopicWritesOk(req.topics[j], j, req.header, parse, b);
    }
    FirstFailureDecides(Head(b), req.topics, step, k);
  }

  /** Iterations make four calls each, inside the folder named by the topic's uuid. */
  lemma WritesInFolders(req: Request, parse: TopicFolder -> bool, b: Builders)
    requires MarkupNeedsViewpoint(b)
    ensures Quartets(req.topics, Step(req.header, parse, b))
    ensures forall k :: 0 <= k < |req.topics| && Step(req.header, parse, b)(req.topics[k], k).Ok? ==>
              InBlock(Step(req.header, parse, b)(req.topics[k], k).value, Uuid(req.topics[k], k))
  {
    forall k | 0 <= k < |req.topics|
      ensures var r := Step(req.header, parse, b)(req.topics[k], k);
              r.Ok? ==> |r.value| == 4 && InBlock(r.value, Uuid(req.topics[k], k))
    {
      TopicWritesOk(req.topics[k], k, req.header, parse, b);
    }
  }

  /** The folder of a topic: its uuid. */
  function Uuid(t: TopicFolder, i: nat): string {
    t.uuid
  }

  /**
   * The calls of topic `k` in a successful build, from position `1 + 4 * k`: its folder, named
   * by its uuid; its first viewpoint's decoded snapshot under the snapshot name the viewpoint
   * carries; that viewpoint's `.bcfv` document, with the viewpoint's uuid as Guid, under the
   * viewpoint name it carries; then `markup.bcf`, built with the topic's position as index and
   * the request's header.
   */
  lemma TopicFiles(req: Request, parse: TopicFolder -> bool, b: Builders, k: nat)
    requires MarkupNeedsViewpoint(b)
    requires Writes(req, parse, b).Ok? && k < |req.topics|
    ensures |req.topics[k].viewpoints| > 0
    ensures var t := req.topics[k];
            var vp := t.viewpoints[0];
            var p := Params(t, k, req.header);
            var ws := Writes(req, parse, b).value;
            && |ws| == 1 + 4 * |req.topics|
            && b.snapshot(vp.snapshotImage).Ok? && b.markup(p).Ok?
            && ws[1 + 4 * k..5 + 4 * k] ==
               [MakeFolder(t.uuid),
                WriteFile(t.uuid + "/" + vp.snapshot, BinaryFile(b.snapshot(vp.snapshotImage).value)),
                WriteFile(t.uuid + "/" + vp.viewpoint, XmlFile(b.visinfo(p, Some(vp.uuid)))),
                WriteFile(t.uuid + "/markup.bcf", XmlFile(b.markup(p).value))]
  {
    WritesInFolders(req, parse, b);
    RunBlock(Head(b), req.topics, Step(req.header, parse, b), k);
    TopicWritesOk(req.topics[k], k, req.header, parse, b);
  }

  /** A built archive starts with the version file. */
  lemma VersionEntryFirst(req: Request, parse: TopicFolder -> bool, b: Builders)
    requires MarkupNeedsViewpoint(b) && Build(req, parse, b).Ok?
    ensures |Build(req, parse, b).value| > 0
    ensures Build(req, parse, b).value[0] == Entry("bcf.version", XmlFile(b.version))
  {
    var step := Step(req.header, parse, b);
    WritesOk(req, parse, b);
    WritesInFolders(req, parse, b);
    RunBlocked(Head(b), req.topics, step, Uuid);
    HeadStaysFirst(Writes(req, parse, b).value, FolderNames(req.topics, Uuid));
  }

  /**
   * In a built archive, `<uuid>/markup.bcf` holds topic `i`'s markup, unless a later topic has
   * the same uuid (its files then replace the earlier ones) or a uuid holds `/` (RFC 4122 uuids do not).
   */
  lemma MarkupEntry(req: Request, parse: TopicFolder -> bool, b: Builders, i: nat)
    requires MarkupNeedsViewpoint(b) && Build(req, parse, b).Ok? && i < |req.topics|
    requires forall j :: i <= j < |req.topics| ==> '/' !in req.topics[j].uuid
    requires forall j :: i < j < |req.topics| ==> req.topics[j].uuid != req.topics[i].uuid
    ensures var t := req.topics[i];
            b.markup(Params(t, i, req.header)).Ok? &&
            Lookup(Build(req, parse, b).value, t.uuid + "/markup.bcf") == Some(XmlFile(b.markup(Params(t, i, req.header)).value))
  {
    var t := req.topics[i];
    var path := t.uuid + "/markup.bcf";
    var ws := Writes(req, parse, b).value;
    WritesInFolders(req, parse, b);
    RunBlocked(Head(b), req.topics, Step(req.header, parse, b), Uuid);
    TopicFiles(req, parse, b, i);
    assert path[..|t.uuid|] == t.uuid;
    LaterFoldersUntouched(ws, FolderNames(req.topics, Uuid), i, path);
    assert ws[..5 + 4 * i][4 + 4 * i] == ws[4 + 4 * i];
    assert ws[..1 + 4 * (i + 1)] == ws[..5 + 4 * i];
    ReplayStored(ws, path);
  }

  /**
   * The markup of a topic with a viewpoint indexes it by its position in the request, carries
   * the request's header, and its only `ViewPoint` names the files written beside it: the Guid
   * of the `.bcfv` document, the `.bcfv` file name and the snapshot file name.
   */
  lemma MarkupMatchesFiles(t: TopicFolder, i: nat, header: Header)
    requires |t.viewpoints| > 0
    ensures var p := Params(t, i, header);
            var vp := t.viewpoints[0];
            var markup := MarkupFactory.Markup(p).value.root;
            var viewPoint := markup.children[1].children[14].children[0];
            && MarkupFactory.Markup(p).Ok?
            && markup.children[0] == BcfXml.RequestHeaderElement(header)
            && markup.children[1].children[2].text == Some(Integer(i))
            && AttributeValue(viewPoint.attributes, "Guid") ==
               AttributeValue(ViewpointFactory.VisualizationInfo(p, Some(vp.uuid)).root.attributes, "Guid")
            && viewPoint.children[0].text == Some(Chars(vp.viewpoint))
            && viewPoint.children[1].text == Some(Chars(vp.snapshot))
  {
    var p := Params(t, i, header);
    var vp := t.viewpoints[0];
    MarkupFactory.MarkupTopic(p);
    BcfXml.TopicFieldTexts(p);
    FirstAttribute([Attribute("Guid", vp.uuid)], 0);
  }

  /** The entries after a successful iteration for topic `t`, call by call, as the loop body leaves them. */
  ghost function AfterTopic(es: seq<Entry>, t: TopicFolder, i: nat, header: Header, parse: TopicFolder -> bool, b: Builders): seq<Entry>
    requires TopicWrites(t, i, header, parse, b).Ok?
  {
    var p := Params(t, i, header);
    var folder := AddFolder(es, t.uuid);
    var withFiles :=
      if |t.viewpoints| == 0 then folder
      else
        var vp := t.viewpoints[0];
        Put(Put(folder, t.uuid + "/" + vp.snapshot, BinaryFile(b.snapshot(vp.snapshotImage).value)),
            t.uuid + "/" + vp.viewpoint, XmlFile(b.visinfo(p, Some(vp.uuid))));
    Put(withFiles, t.uuid + "/markup.bcf", XmlFile(b.markup(p).value))
  }

  /** Replaying an iteration's calls after `ws` leaves what the loop body leaves. */
  lemma ReplayTopic(ws: seq<Write>, t: TopicFolder, i: nat, header: Header, parse: TopicFolder -> bool, b: Builders)
    requires TopicWrites(t, i, header, parse, b).Ok?
    ensures Replay(ws + TopicWrites(t, i, header, parse, b).value) == AfterTopic(Replay(ws), t, i, header, parse, b)
  {
    var block := TopicWrites(t, i, header, parse, b).value;
    var p := Params(t, i, header);
    var folder := MakeFolder(t.uuid);
    var markup := WriteFile(t.uuid + "/markup.bcf", XmlFile(b.markup(p).value));
    ReplaySnoc(ws, folder);
    if |t.viewpoints| == 0 {
      assert ws + block == (ws + [folder]) + [markup];
      ReplaySnoc(ws + [folder], markup);
    } else {
      var files := ViewpointWrites(p, b).value;
      assert ws + block == (((ws + [folder]) + [files[0]]) + [files[1]]) + [markup];
      ReplaySnoc(ws + [folder], files[0]);
      ReplaySnoc((ws + [folder]) + [files[0]], files[1]);
      ReplaySnoc(((ws + [folder]) + [files[0]]) + [files[1]], markup);
    }
  }

  /** One iteration of `createZipAsync`'s loop: the calls for topic `t` at position `i`, or the error that ends the build. */
  method AddTopic(zip: Zip, t: TopicFolder, i: nat, header: Header, parse: TopicFolder -> bool, b: Builders)
    returns (failure: Option<Fault>)
    modifies zip
    ensures var block := TopicWrites(t, i, header, parse, b);
            && (failure.None? <==> block.Ok?)
            && (block.Err? ==> failure == Some(block.error))
            && (block.Ok? ==> zip.entries == AfterTopic(old(zip.entries), t, i, header, parse, b))
  {
    if !parse(t) {
      return Some(SchemaViolation);
    }
    var params := Params(t, i, header);
    var prefix := zip.Folder(t.uuid);
    if |t.viewpoints| > 0 {
      var viewpoint := t.viewpoints[0];
      var blob := b.snapshot(viewpoint.snapshotImage);
      if blob.Err? {
        return Some(blob.error);
      }
      zip.File(prefix + viewpoint.snapshot, BinaryFile(blob.value));
      zip.File(prefix + viewpoint.viewpoint, XmlFile(b.visinfo(params, Some(viewpoint.uuid))));
    }
    var markup := b.markup(params);
    if markup.Err? {
      return Some(markup.error);
    }
    assert prefix + "markup.bcf" == t.uuid + "/markup.bcf";
    zip.File(prefix + "markup.bcf", XmlFile(markup.value));
    failure := None;
  }

  /** `createZipAsync`: the version file, then the topics in order; the first failure aborts the build. */
  method CreateZipAsync(req: Request, parse: TopicFolder -> bool, b: Builders) returns (r: Result<seq<Entry>>)
    ensures r == Build(req, parse, b)
  {
    var step := Step(req.header, parse, b);
    var zip := new Zip();
    zip.File("bcf.version", XmlFile(b.version));
    ghost var ws := [Head(b)];
    ReplaySnoc([], Head(b));
    var i := 0;
    while i < |req.topics|
      invariant 0 <= i <= |req.topics|
      invariant Run(Head(b), req.topics[..i], step) == Ok(ws)
      invariant zip.entries == Replay(ws)
    {
      var failure := AddTopic(zip, req.topics[i], i, req.header, parse, b);
      RunSnoc(Head(b), req.topics, step, i);
      if failure.Some? {
        ErrorPersists(Head(b), req.topics, step, i + 1);
        return Err(failure.value);
      }
      ReplayTopic(ws, req.topics[i], i, req.header, parse, b);
      ws := ws + TopicWrites(req.topics[i], i, req.header, parse, b).value;
      i := i + 1;
    }
    assert req.topics[..i] == req.topics;
    r := Ok(zip.entries);
  }
}
