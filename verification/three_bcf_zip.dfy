/**
 * `createZipAsync` of `three-bcf/zip.ts`: the variant that draws two fresh Guids per topic.
 * Topic `i` goes into the folder named by its topic Guid, with the screenshot as
 * `<viewpointGuid>.png`, the `.bcfv` document as `<viewpointGuid>.bcfv` and `markup.bcf`.
 * `THREE.MathUtils.generateUUID` is the supply `guid`: the `n`-th call returns `guid(n)`, so
 * topic `i` gets `guid(2 * i)` and `guid(2 * i + 1)`.
 */
module ThreeBcfZip {
  import opened Wrappers
  import opened Xml
  import opened Core
  import opened Worker
  import opened Archive
  import opened Assembly
  import DataUrl
  import BcfVersion
  import ViewpointFactory
  import MarkupXml

  /** What one iteration calls: the version document, the screenshot decoder, and the two document builders. */
  datatype Builders = Builders(
    version: Document,
    snapshot: Option<string> -> Result<DataUrl.Blob>,
    visinfo: (TopicFolder, string) -> Document,
    markup: (TopicFolder, string, string) -> Result<Document>)

  /** `dataURLtoBlob(topic.screenshot)`: a topic without a screenshot fails reading `split` of `undefined`. */
  function Screenshot(screenshot: Option<string>, atob: string -> Option<string>): (r: Result<DataUrl.Blob>)
    ensures screenshot.None? ==> r == Err(UndefinedRead("split"))
    ensures screenshot.Some? ==> r == DataUrl.ToBlob(screenshot.value, atob)
  {
    if screenshot.None? then Err(UndefinedRead("split")) else DataUrl.ToBlob(screenshot.value, atob)
  }

  /**
   * The builders the source imports. `ViewpointFactory_XML.create(params)` is called without a
   * Guid, so the viewpoint Guid it is handed is dropped.
   */
  function Current(atob: string -> Option<string>): Builders {
    Builders(BcfVersion.Create(), s => Screenshot(s, atob), (p, vg) => ViewpointFactory.VisualizationInfo(p, None), MarkupXml.Create)
  }

  /** The builders with the viewpoint Guid passed on to the `.bcfv` document. */
  function Corrected(atob: string -> Option<string>): Builders {
    Builders(BcfVersion.Create(), s => Screenshot(s, atob), (p, vg) => ViewpointFactory.VisualizationInfo(p, Some(vg)), MarkupXml.Create)
  }

  /** The Guids topic `i` draws: `generateUUID` is called twice per topic, topic Guid first. */
  function TopicGuid(guid: nat -> string, i: nat): string {
    guid(2 * i)
  }

  function ViewpointGuid(guid: nat -> string, i: nat): string {
    guid(2 * i + 1)
  }

  /** The calls one iteration makes for topic `t` at position `i`, or the failure that ends the build. */
  function TopicWrites(t: TopicFolder, i: nat, parse: TopicFolder -> bool, guid: nat -> string, b: Builders): Result<seq<Write>> {
    if !parse(t) then Err(SchemaViolation)
    else
      var tg := TopicGuid(guid, i);
      var vg := ViewpointGuid(guid, i);
      var p := t.(index := i);
      var blob := b.snapshot(t.screenshot);
      if blob.Err? then Err(blob.error)
      else
        var markup := b.markup(p, tg, vg);
        if markup.Err? then Err(markup.error)
        else Ok([MakeFolder(tg),
                 WriteFile(tg + "/" + vg + ".png", BinaryFile(blob.value)),
                 WriteFile(tg + "/" + vg + ".bcfv", XmlFile(b.visinfo(p, vg))),
                 WriteFile(tg + "/markup.bcf", XmlFile(markup.value))])
  }

  function Step(parse: TopicFolder -> bool, guid: nat -> string, b: Builders): (TopicFolder, nat) -> Result<seq<Write>> {
    (t: TopicFolder, i: nat) => TopicWrites(t, i, parse, guid, b)
  }

  function Head(b: Builders): Write {
    WriteFile("bcf.version", XmlFile(b.version))
  }

  /** The calls for the topics, or the first failure. */
  function Writes(topics: seq<TopicFolder>, parse: TopicFolder -> bool, guid: nat -> string, b: Builders): Result<seq<Write>> {
    Run(Head(b), topics, Step(parse, guid, b))
  }

  /** The archive of the topics: the entries the calls leave, or the first failure. */
  function Build(topics: seq<TopicFolder>, parse: TopicFolder -> bool, guid: nat -> string, b: Builders): Result<seq<Entry>> {
    var ws := Writes(topics, parse, guid, b);
    if ws.Err? then Err(ws.error) else Ok(Replay(ws.value))
  }

  /** A topic its iteration gets through: it passes the schema, its screenshot decodes and its markup builds. */
  predicate TopicOk(t: TopicFolder, i: nat, parse: TopicFolder -> bool, guid: nat -> string, b: Builders) {
    parse(t) && b.snapshot(t.screenshot).Ok? && b.markup(t.(index := i), TopicGuid(guid, i), ViewpointGuid(guid, i)).Ok?
  }

  /** An iteration succeeds exactly for a topic `TopicOk` accepts, and then makes four calls inside the topic Guid's folder. */
  lemma TopicWritesOk(t: TopicFolder, i: nat, parse: TopicFolder -> bool, guid: nat -> string, b: Builders)
    ensures TopicWrites(t, i, parse, guid, b).Ok? <==> TopicOk(t, i, parse, guid, b)
    ensures TopicOk(t, i, parse, guid, b) ==>
              var ws := TopicWrites(t, i, parse, guid, b).value;
              |ws| == 4 && InBlock(ws, TopicGuid(guid, i))
  {
    if TopicOk(t, i, parse, guid, b) {
      var ws := TopicWrites(t, i, parse, guid, b).value;
      var tg := TopicGuid(guid, i);
      assert Target(ws[0]) == tg + "/";
      assert Target(ws[3]) == tg + "/markup.bcf";
    }
  }

  /**
   * With the source's builders a topic gets through exactly when it passes the schema, carries
   * a screenshot that decodes, and carries a header: the parameters spread the topic itself, so
   * `markup.bcf` reads the topic's own `header.ifcProject`.
   */
  lemma CurrentTopicOk(t: TopicFolder, i: nat, parse: TopicFolder -> bool, guid: nat -> string, atob: string -> Option<string>)
    ensures TopicOk(t, i, parse, guid, Current(atob)) <==>
            parse(t) && t.screenshot.Some? && DataUrl.ToBlob(t.screenshot.value, atob).Ok? && t.header.Some?
    ensures parse(t) && t.screenshot.None? ==> TopicWrites(t, i, parse, guid, Current(atob)) == Err(UndefinedRead("split"))
    ensures parse(t) && t.screenshot.Some? && DataUrl.ToBlob(t.screenshot.value, atob).Ok? && t.header.None? ==>
              TopicWrites(t, i, parse, guid, Current(atob)) == Err(UndefinedRead("ifcProject"))
  {
    var b := Current(atob);
    assert b.snapshot(t.screenshot) == Screenshot(t.screenshot, atob);
    assert b.markup(t.(index := i), TopicGuid(guid, i), ViewpointGuid(guid, i)) ==
           MarkupXml.Create(t.(index := i), TopicGuid(guid, i), ViewpointGuid(guid, i));
  }

  /** The build succeeds exactly when every topic gets through. */
  lemma WritesOk(topics: seq<TopicFolder>, parse: TopicFolder -> bool, guid: nat -> string, b: Builders)
    ensures Writes(topics, parse, guid, b).Ok? <==> forall k :: 0 <= k < |topics| ==> TopicOk(topics[k], k, parse, guid, b)
  {
    RunOk(Head(b), topics, Step(parse, guid, b));
    forall k | 0 <= k < |topics|
      ensures Step(parse, guid, b)(topics[k], k).Ok? <==> TopicOk(topics[k], k, parse, guid, b)
    {
      TopicWritesOk(topics[k], k, parse, guid, b);
    }
  }

  /** The first topic that does not get through decides the error the build reports. */
  lemma FirstFailure(topics: seq<TopicFolder>, parse: TopicFolder -> bool, guid: nat -> string, b: Builders, k: nat)
    requires k < |topics| && !TopicOk(topics[k], k, parse, guid, b)
    requires forall j :: 0 <= j < k ==> TopicOk(topics[j], j, parse, guid, b)
    ensures Build(topics, parse, guid, b) == Err(TopicWrites(topics[k], k, parse, guid, b).error)
  {
    var step := Step(parse, guid, b);
    forall j | 0 <= j <= k
      ensures step(topics[j], j).Ok? <==> TopicOk(topics[j], j, parse, guid, b)
    {
      TopicWritesOk(topics[j], j, parse, guid, b);
    }
    FirstFailureDecides(Head(b), topics, step, k);
  }

  /** The folder of topic `i`: its topic Guid. */
  function FolderOf(guid: nat -> string): (TopicFolder, nat) -> string {
    (t: TopicFolder, i: nat) => TopicGuid(guid, i)
  }

  lemma WritesInFolders(topics: seq<TopicFolder>, parse: TopicFolder -> bool, guid: nat -> string, b: Builders)
    ensures Quartets(topics, Step(parse, guid, b))
    ensures forall k :: 0 <= k < |topics| && Step(parse, guid, b)(topics[k], k).Ok? ==>
              InBlock(Step(parse, guid, b)(topics[k], k).value, FolderOf(guid)(topics[k], k))
  {
    forall k | 0 <= k < |topics|
      ensures var r := Step(parse, guid, b)(topics[k], k);
              r.Ok? ==> |r.value| == 4 && InBlock(r.value, FolderOf(guid)(topics[k], k))
    {
      TopicWritesOk(topics[k], k, parse, guid, b);
    }
  }

  /**
   * The calls of topic `k` in a successful build, from position `1 + 4 * k`: the folder named by
   * its topic Guid; the decoded screenshot, the `.bcfv` document and the markup, the first two
   * named by its viewpoint Guid; the markup indexes the topic by its position.
   */
  lemma TopicFiles(topics: seq<TopicFolder>, parse: TopicFolder -> bool, guid: nat -> string, b: Builders, k: nat)
    requires Writes(topics, parse, guid, b).Ok? && k < |topics|
    ensures var t := topics[k];
            var tg := TopicGuid(guid, k);
            var vg := ViewpointGuid(guid, k);
            var p := t.(index := k);
            var ws := Writes(topics, parse, guid, b).value;
            && |ws| == 1 + 4 * |topics|
            && b.snapshot(t.screenshot).Ok? && b.markup(p, tg, vg).Ok?
            && ws[1 + 4 * k..5 + 4 * k] ==
               [MakeFolder(tg),
                WriteFile(tg + "/" + vg + ".png", BinaryFile(b.snapshot(t.screenshot).value)),
                WriteFile(tg + "/" + vg + ".bcfv", XmlFile(b.visinfo(p, vg))),
                WriteFile(tg + "/markup.bcf", XmlFile(b.markup(p, tg, vg).value))]
  {
    WritesInFolders(topics, parse, guid, b);
    RunBlock(Head(b), topics, Step(parse, guid, b), k);
    TopicWritesOk(topics[k], k, parse, guid, b);
  }

  /** A built archive starts with the version file. */
  lemma VersionEntryFirst(topics: seq<TopicFolder>, parse: TopicFolder -> bool, guid: nat -> string, b: Builders)
    requires Build(topics, parse, guid, b).Ok?
    ensures |Build(topics, parse, guid, b).value| > 0
    ensures Build(topics, parse, guid, b).value[0] == Entry("bcf.version", XmlFile(b.version))
  {
    var step := Step(parse, guid, b);
    RunOk(Head(b), topics, step);
    WritesInFolders(topics, parse, guid, b);
    RunBlocked(Head(b), topics, step, FolderOf(guid));
    HeadStaysFirst(Writes(topics, parse, guid, b).value, FolderNames(topics, FolderOf(guid)));
  }

  /**
   * In a built archive, `<topicGuid>/markup.bcf` holds topic `i`'s markup when the Guids drawn
   * for the topics from `i` on hold no `/` and no later topic Guid repeats topic `i`'s.
   */
  lemma MarkupEntry(topics: seq<TopicFolder>, parse: TopicFolder -> bool, guid: nat -> string, b: Builders, i: nat)
    requires Build(topics, parse, guid, b).Ok? && i < |topics|
    requires forall j :: i <= j < |topics| ==> '/' !in TopicGuid(guid, j)
    requires forall j :: i < j < |topics| ==> TopicGuid(guid, j) != TopicGuid(guid, i)
    ensures var tg := TopicGuid(guid, i);
            var vg := ViewpointGuid(guid, i);
            b.markup(topics[i].(index := i), tg, vg).Ok? &&
            Lookup(Build(topics, parse, guid, b).value, tg + "/markup.bcf") ==
            Some(XmlFile(b.markup(topics[i].(index := i), tg, vg).value))
  {
    var tg := TopicGuid(guid, i);
    var path := tg + "/markup.bcf";
    var ws := Writes(topics, parse, guid, b).value;
    var folders := FolderNames(topics, FolderOf(guid));
    WritesInFolders(topics, parse, guid, b);
    RunBlocked(Head(b), topics, Step(parse, guid, b), FolderOf(guid));
    TopicFiles(topics, parse, guid, b, i);
    assert path[..|tg|] == tg;
    LaterFoldersUntouched(ws, folders, i, path);
    assert ws[..5 + 4 * i][4 + 4 * i] == ws[4 + 4 * i];
    assert ws[..1 + 4 * (i + 1)] == ws[..5 + 4 * i];
    ReplayStored(ws, path);
  }

  /**
   * The markup of topic `i` (when it has a header) refers to the files written beside it: its
   * `ViewPoint` carries the viewpoint Guid and names `<viewpointGuid>.bcfv` and
   * `<viewpointGuid>.png`, and its `Topic` carries the topic Guid, which names the folder.
   */
  lemma MarkupNamesFiles(t: TopicFolder, i: nat, guid: nat -> string)
    requires t.header.Some?
    ensures var tg := TopicGuid(guid, i);
            var vg := ViewpointGuid(guid, i);
            var r := MarkupXml.Create(t.(index := i), tg, vg);
            && r.Ok?
            && var topic := r.value.root.children[1];
               var viewPoint := topic.children[14].children[0];
               && AttributeValue(topic.attributes, "Guid") == Some(tg)
               && AttributeValue(viewPoint.attributes, "Guid") == Some(vg)
               && viewPoint.children[0].text == Some(Chars(vg + ".bcfv"))
               && viewPoint.children[1].text == Some(Chars(vg + ".png"))
               && viewPoint.children[2].text == Some(Integer(i))
  {
    var tg := TopicGuid(guid, i);
    var vg := ViewpointGuid(guid, i);
    MarkupXml.TopicAttributes(t.(index := i), tg, vg);
    MarkupXml.TopicChildren(t.(index := i), tg, vg);
    FirstAttribute([Attribute("Guid", vg)], 0);
  }

  /**
   * As written, the `.bcfv` document of every topic carries the empty Guid, so it never matches
   * the non-empty viewpoint Guid its markup's `ViewPoint` refers to.
   */
  lemma BcfvGuidEmpty(t: TopicFolder, i: nat, guid: nat -> string, atob: string -> Option<string>)
    ensures var d := Current(atob).visinfo(t.(index := i), ViewpointGuid(guid, i));
            AttributeValue(d.root.attributes, "Guid") == Some("")
    ensures ViewpointGuid(guid, i) != "" ==>
              AttributeValue(Current(atob).visinfo(t.(index := i), ViewpointGuid(guid, i)).root.attributes, "Guid") !=
              Some(ViewpointGuid(guid, i))
  {
    var p := t.(index := i);
    assert Current(atob).visinfo(p, ViewpointGuid(guid, i)) == ViewpointFactory.VisualizationInfo(p, None);
  }

  /** With the viewpoint Guid passed on, the `.bcfv` document carries the Guid its markup refers to. */
  lemma CorrectedBcfvGuid(t: TopicFolder, i: nat, guid: nat -> string, atob: string -> Option<string>)
    requires t.header.Some?
    ensures var tg := TopicGuid(guid, i);
            var vg := ViewpointGuid(guid, i);
            var p := t.(index := i);
            var r := Corrected(atob).markup(p, tg, vg);
            && r.Ok?
            && var viewPoint := r.value.root.children[1].children[14].children[0];
               AttributeValue(Corrected(atob).visinfo(p, vg).root.attributes, "Guid") == AttributeValue(viewPoint.attributes, "Guid")
  {
    var tg := TopicGuid(guid, i);
    var vg := ViewpointGuid(guid, i);
    var p := t.(index := i);
    assert Corrected(atob).visinfo(p, vg) == ViewpointFactory.VisualizationInfo(p, Some(vg));
    assert Corrected(atob).markup(p, tg, vg) == MarkupXml.Create(p, tg, vg);
    MarkupNamesFiles(t, i, guid);
  }

  /** The entries after a successful iteration, call by call, as the loop body leaves them. */
  ghost function AfterTopic(es: seq<Entry>, t: TopicFolder, i: nat, parse: TopicFolder -> bool, guid: nat -> string, b: Builders): seq<Entry>
    requires TopicWrites(t, i, parse, guid, b).Ok?
  {
    var tg := TopicGuid(guid, i);
    var vg := ViewpointGuid(guid, i);
    var p := t.(index := i);
    var folder := AddFolder(es, tg);
    var png := Put(folder, tg + "/" + vg + ".png", BinaryFile(b.snapshot(t.screenshot).value));
    var bcfv := Put(png, tg + "/" + vg + ".bcfv", XmlFile(b.visinfo(p, vg)));
    Put(bcfv, tg + "/markup.bcf", XmlFile(b.markup(p, tg, vg).value))
  }

  /** Replaying an iteration's calls after `ws` leaves what the loop body leaves. */
  lemma ReplayTopic(ws: seq<Write>, t: TopicFolder, i: nat, parse: TopicFolder -> bool, guid: nat -> string, b: Builders)
    requires TopicWrites(t, i, parse, guid, b).Ok?
    ensures Replay(ws + TopicWrites(t, i, parse, guid, b).value) == AfterTopic(Replay(ws), t, i, parse, guid, b)
  {
    var block := TopicWrites(t, i, parse, guid, b).value;
    assert ws + block == (((ws + [block[0]]) + [block[1]]) + [block[2]]) + [block[3]];
    ReplaySnoc(ws, block[0]);
    ReplaySnoc(ws + [block[0]], block[1]);
    ReplaySnoc((ws + [block[0]]) + [block[1]], block[2]);
    ReplaySnoc(((ws + [block[0]]) + [block[1]]) + [block[2]], block[3]);
  }

  /** One iteration of the loop: the calls for topic `t` at position `i`, or the error that ends the build. */
  method AddTopic(zip: Zip, t: TopicFolder, i: nat, parse: TopicFolder -> bool, guid: nat -> string, b: Builders)
    returns (failure: Option<Fault>)
    modifies zip
    ensures var block := TopicWrites(t, i, parse, guid, b);
            && (failure.None? <==> block.Ok?)
            && (block.Err? ==> failure == Some(block.error))
            && (block.Ok? ==> zip.entries == AfterTopic(old(zip.entries), t, i, parse, guid, b))
  {
    if !parse(t) {
      return Some(SchemaViolation);
    }
    var topicGuid := guid(2 * i);
    var viewpointGuid := guid(2 * i + 1);
    var params := t.(index := i);
    var prefix := zip.Folder(topicGuid);
    var blob := b.snapshot(t.screenshot);
    if blob.Err? {
      return Some(blob.error);
    }
    zip.File(prefix + viewpointGuid + ".png", BinaryFile(blob.value));
    zip.File(prefix + viewpointGuid + ".bcfv", XmlFile(b.visinfo(params, viewpointGuid)));
    var markup := b.markup(params, topicGuid, viewpointGuid);
    if markup.Err? {
      return Some(markup.error);
    }
    assert prefix + "markup.bcf" == topicGuid + "/markup.bcf";
    zip.File(prefix + "markup.bcf", XmlFile(markup.value));
    failure := None;
  }

  /** `createZipAsync`: the version file, then the topics in order; the first failure aborts the build. */
  method CreateZipAsync(topics: seq<TopicFolder>, parse: TopicFolder -> bool, guid: nat -> string, b: Builders)
    returns (r: Result<seq<Entry>>)
    ensures r == Build(topics, parse, guid, b)
  {
    var step := Step(parse, guid, b);
    var zip := new Zip();
    zip.File("bcf.version", XmlFile(b.version));
    ghost var ws := [Head(b)];
    ReplaySnoc([], Head(b));
    var i := 0;
    while i < |topics|
      invariant 0 <= i <= |topics|
      invariant Run(Head(b), topics[..i], step) == Ok(ws)
      invariant zip.entries == Replay(ws)
    {
      var failure := AddTopic(zip, topics[i], i, parse, guid, b);
      RunSnoc(Head(b), topics, step, i);
      if failure.Some? {
        ErrorPersists(Head(b), topics, step, i + 1);
        return Err(failure.value);
      }
      ReplayTopic(ws, topics[i], i, parse, guid, b);
      ws := ws + TopicWrites(topics[i], i, parse, guid, b).value;
      i := i + 1;
    }
    assert topics[..i] == topics;
    r := Ok(zip.entries);
  }
}
