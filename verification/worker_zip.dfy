/**
 * `createZipAsync` of `worker/zip.ts`: the oldest assembler, over worker topics (text, a
 * screenshot and a camera). Topic `i` goes into the folder named by a fresh topic Guid, with
 * the screenshot as `<viewpointGuid>.png`, the `.bcfv` document as `<viewpointGuid>.bcfv` and
 * `markup.bcf`. The version document comes from `core/xml/bcf/root/bcf.version`, which is not
 * part of this model, so it is the `version` field of the builders. `generateUUID` is the
 * supply `guid`: topic `i` gets `guid(2 * i)` and `guid(2 * i + 1)`.
 */
module WorkerZip {
  import opened Wrappers
  import opened Xml
  import opened Worker
  import opened Archive
  import opened Assembly
  import DataUrl
  import CoreMarkup
  import CoreViewpoint

  /** What one iteration calls: the version document, the screenshot decoder, and the two document builders. */
  datatype Builders = Builders(
    version: Document,
    snapshot: string -> Result<DataUrl.Blob>,
    visinfo: (WorkerTopic, string) -> Document,
    markup: (WorkerTopic, string, string) -> Document)

  /** The builders the source imports: `dataURLtoBlob`, `Viewpoint_XML.create` and `Markup_XML.create`. */
  function Current(version: Document, atob: string -> Option<string>): Builders {
    Builders(version, s => DataUrl.ToBlob(s, atob), CoreViewpoint.VisualizationInfo, CoreMarkup.Create)
  }

  function TopicGuid(guid: nat -> string, i: nat): string {
    guid(2 * i)
  }

  function ViewpointGuid(guid: nat -> string, i: nat): string {
    guid(2 * i + 1)
  }

  /** The calls one iteration makes for topic `t` at position `i`, or the failure that ends the build. */
  function TopicWrites(t: WorkerTopic, i: nat, parse: WorkerTopic -> bool, guid: nat -> string, b: Builders): Result<seq<Write>> {
    if !parse(t) then Err(SchemaViolation)
    else
      var tg := TopicGuid(guid, i);
      var vg := ViewpointGuid(guid, i);
      var blob := b.snapshot(t.screenshot);
      if blob.Err? then Err(blob.error)
      else Ok([MakeFolder(tg),
               WriteFile(tg + "/" + vg + ".png", BinaryFile(blob.value)),
               WriteFile(tg + "/" + vg + ".bcfv", XmlFile(b.visinfo(t, vg))),
               WriteFile(tg + "/markup.bcf", XmlFile(b.markup(t, tg, vg)))])
  }

  function Step(parse: WorkerTopic -> bool, guid: nat -> string, b: Builders): (WorkerTopic, nat) -> Result<seq<Write>> {
    (t: WorkerTopic, i: nat) => TopicWrites(t, i, parse, guid, b)
  }

  function Head(b: Builders): Write {
    WriteFile("bcf.version", XmlFile(b.version))
  }

  /** The calls for the topics, or the first failure. */
  function Writes(topics: seq<WorkerTopic>, parse: WorkerTopic -> bool, guid: nat -> string, b: Builders): Result<seq<Write>> {
    Run(Head(b), topics, Step(parse, guid, b))
  }

  /** The archive of the topics: the entries the calls leave, or the first failure. */
  function Build(topics: seq<WorkerTopic>, parse: WorkerTopic -> bool, guid: nat -> string, b: Builders): Result<seq<Entry>> {
    var ws := Writes(topics, parse, guid, b);
    if ws.Err? then Err(ws.error) else Ok(Replay(ws.value))
  }

  /** A topic its iteration gets through: it passes the schema and its screenshot decodes. */
  predicate TopicOk(t: WorkerTopic, parse: WorkerTopic -> bool, b: Builders) {
    parse(t) && b.snapshot(t.screenshot).Ok?
  }

  /**
   * An iteration succeeds exactly for a topic `TopicOk` accepts, and then makes four calls inside
   * the topic Guid's folder; otherwise the schema failure comes before the decoding failure.
   */
  lemma TopicWritesOk(t: WorkerTopic, i: nat, parse: WorkerTopic -> bool, guid: nat -> string, b: Builders)
    ensures TopicWrites(t, i, parse, guid, b).Ok? <==> TopicOk(t, parse, b)
    ensures !parse(t) ==> TopicWrites(t, i, parse, guid, b) == Err(SchemaViolation)
    ensures parse(t) && b.snapshot(t.screenshot).Err? ==> TopicWrites(t, i, parse, guid, b) == Err(b.snapshot(t.screenshot).error)
    ensures TopicOk(t, parse, b) ==>
              var ws := TopicWrites(t, i, parse, guid, b).value;
              |ws| == 4 && InBlock(ws, TopicGuid(guid, i))
  {
    if TopicOk(t, parse, b) {
      var ws := TopicWrites(t, i, parse, guid, b).value;
      var tg := TopicGuid(guid, i);
      assert Target(ws[0]) == tg + "/";
      assert Target(ws[3]) == tg + "/markup.bcf";
    }
  }

  /** The build succeeds exactly when every topic gets through. */
  lemma WritesOk(topics: seq<WorkerTopic>, parse: WorkerTopic -> bool, guid: nat -> string, b: Builders)
    ensures Writes(topics, parse, guid, b).Ok? <==> forall k :: 0 <= k < |topics| ==> TopicOk(topics[k], parse, b)
  {
    RunOk(Head(b), topics, Step(parse, guid, b));
    forall k | 0 <= k < |topics|
      ensures Step(parse, guid, b)(topics[k], k).Ok? <==> TopicOk(topics[k], parse, b)
    {
      TopicWritesOk(topics[k], k, parse, guid, b);
    }
  }

  /** The first topic that does not get through decides the error the build reports. */
  lemma FirstFailure(topics: seq<WorkerTopic>, parse: WorkerTopic -> bool, guid: nat -> string, b: Builders, k: nat)
    requires k < |topics| && !TopicOk(topics[k], parse, b)
    requires forall j :: 0 <= j < k ==> TopicOk(topics[j], parse, b)
    ensures Build(topics, parse, guid, b) == Err(TopicWrites(topics[k], k, parse, guid, b).error)
  {
    var step := Step(parse, guid, b);
    forall j | 0 <= j <= k
      ensures step(topics[j], j).Ok? <==> TopicOk(topics[j], parse, b)
    {
      TopicWritesOk(topics[j], j, parse, guid, b);
    }
    FirstFailureDecides(Head(b), topics, step, k);
  }

  /** The folder of topic `i`: its topic Guid. */
  function FolderOf(guid: nat -> string): (WorkerTopic, nat) -> string {
    (t: WorkerTopic, i: nat) => TopicGuid(guid, i)
  }

  lemma WritesInFolders(topics: seq<WorkerTopic>, parse: WorkerTopic -> bool, guid: nat -> string, b: Builders)
    ensures Quartets(topics, Step(parse, guid, b))
    ensures forall k :: 0 <= k < |topics| && Step(parse, guid, b)(topics[k], k).Ok? ==>
              InBlock(Step(parse, guid, b)(topics[k], k).value, FolderOf(guid)(topics[k], k))
  {
    forall k | 0 <= k < |topics|
      ensures var r := Step(parse, guid, b)(topics[k], k);
              r.Ok? ==> |r.value| == 4 && InBlock(r.value, FolderOf(guid)(topics[k], k))
    {
      TopicWritesOk(topics[k], k, parse, guid, b);
    }
  }

  /**
   * The calls of topic `k` in a successful build, from position `1 + 4 * k`: the folder named by
   * its topic Guid; the decoded screenshot and the `.bcfv` document, named by its viewpoint
   * Guid; then the markup.
   */
  lemma TopicFiles(topics: seq<WorkerTopic>, parse: WorkerTopic -> bool, guid: nat -> string, b: Builders, k: nat)
    requires Writes(topics, parse, guid, b).Ok? && k < |topics|
    ensures var t := topics[k];
            var tg := TopicGuid(guid, k);
            var vg := ViewpointGuid(guid, k);
            var ws := Writes(topics, parse, guid, b).value;
            && |ws| == 1 + 4 * |topics|
            && b.snapshot(t.screenshot).Ok?
            && ws[1 + 4 * k..5 + 4 * k] ==
               [MakeFolder(tg),
                WriteFile(tg + "/" + vg + ".png", BinaryFile(b.snapshot(t.screenshot).value)),
                WriteFile(tg + "/" + vg + ".bcfv", XmlFile(b.visinfo(t, vg))),
                WriteFile(tg + "/markup.bcf", XmlFile(b.markup(t, tg, vg)))]
  {
    WritesInFolders(topics, parse, guid, b);
    RunBlock(Head(b), topics, Step(parse, guid, b), k);
    TopicWritesOk(topics[k], k, parse, guid, b);
  }

  /** A built archive starts with the version file. */
  lemma VersionEntryFirst(topics: seq<WorkerTopic>, parse: WorkerTopic -> bool, guid: nat -> string, b: Builders)
    requires Build(topics, parse, guid, b).Ok?
    ensures |Build(topics, parse, guid, b).value| > 0
    ensures Build(topics, parse, guid, b).value[0] == Entry("bcf.version", XmlFile(b.version))
  {
    var step := Step(parse, guid, b);
    RunOk(Head(b), topics, step);
    WritesInFolders(topics, parse, guid, b);
    RunBlocked(Head(b), topics, step, FolderOf(guid));
    HeadStaysFirst(Writes(topics, parse, guid, b).value, FolderNames(topics, FolderOf(guid)));
  }

  /**
   * In a built archive, `<topicGuid>/markup.bcf` holds topic `i`'s markup when the Guids drawn
   * for the topics from `i` on hold no `/` and no later topic Guid repeats topic `i`'s.
   */
  lemma MarkupEntry(topics: seq<WorkerTopic>, parse: WorkerTopic -> bool, guid: nat -> string, b: Builders, i: nat)
    requires Build(topics, parse, guid, b).Ok? && i < |topics|
    requires forall j :: i <= j < |topics| ==> '/' !in TopicGuid(guid, j)
    requires forall j :: i < j < |topics| ==> TopicGuid(guid, j) != TopicGuid(guid, i)
    ensures var tg := TopicGuid(guid, i);
            Lookup(Build(topics, parse, guid, b).value, tg + "/markup.bcf") ==
            Some(XmlFile(b.markup(topics[i], tg, ViewpointGuid(guid, i))))
  {
    var tg := TopicGuid(guid, i);
    var path := tg + "/markup.bcf";
    var ws := Writes(topics, parse, guid, b).value;
    var folders := FolderNames(topics, FolderOf(guid));
    WritesInFolders(topics, parse, guid, b);
    RunBlocked(Head(b), topics, Step(parse, guid, b), FolderOf(guid));
    TopicFiles(topics, parse, guid, b, i);
    assert path[..|tg|] == tg;
    LaterFoldersUntouched(ws, folders, i, path);
    assert ws[..5 + 4 * i][4 + 4 * i] == ws[4 + 4 * i];
    assert ws[..1 + 4 * (i + 1)] == ws[..5 + 4 * i];
    ReplayStored(ws, path);
  }

  /**
   * With the source's builders the files of a topic agree: the `.bcfv` document carries the
   * viewpoint Guid that the markup's `ViewPoint` carries, and that `ViewPoint` names the two
   * files written beside it.
   */
  lemma GuidsAgree(t: WorkerTopic, i: nat, guid: nat -> string, version: Document, atob: string -> Option<string>)
    ensures var b := Current(version, atob);
            var tg := TopicGuid(guid, i);
            var vg := ViewpointGuid(guid, i);
            var viewPoint := b.markup(t, tg, vg).root.children[1].children[13].children[0];
            && AttributeValue(b.visinfo(t, vg).root.attributes, "Guid") == Some(vg)
            && AttributeValue(viewPoint.attributes, "Guid") == Some(vg)
            && viewPoint.children[0].text == Some(Chars(vg + ".bcfv"))
            && viewPoint.children[1].text == Some(Chars(vg + ".png"))
  {
    var b := Current(version, atob);
    var tg := TopicGuid(guid, i);
    var vg := ViewpointGuid(guid, i);
    assert b.visinfo(t, vg) == CoreViewpoint.VisualizationInfo(t, vg);
    assert b.markup(t, tg, vg) == CoreMarkup.Create(t, tg, vg);
    CoreMarkup.ListsViewpointFiles(t, tg, vg);
  }

  /** The entries after a successful iteration, call by call, as the loop body leaves them. */
  ghost function AfterTopic(es: seq<Entry>, t: WorkerTopic, i: nat, parse: WorkerTopic -> bool, guid: nat -> string, b: Builders): seq<Entry>
    requires TopicWrites(t, i, parse, guid, b).Ok?
  {
    var tg := TopicGuid(guid, i);
    var vg := ViewpointGuid(guid, i);
    var folder := AddFolder(es, tg);
    var png := Put(folder, tg + "/" + vg + ".png", BinaryFile(b.snapshot(t.screenshot).value));
    var bcfv := Put(png, tg + "/" + vg + ".bcfv", XmlFile(b.visinfo(t, vg)));
    Put(bcfv, tg + "/markup.bcf", XmlFile(b.markup(t, tg, vg)))
  }

  /** Replaying an iteration's calls after `ws` leaves what the loop body leaves. */
  lemma ReplayTopic(ws: seq<Write>, t: WorkerTopic, i: nat, parse: WorkerTopic -> bool, guid: nat -> string, b: Builders)
    requires TopicWrites(t, i, parse, guid, b).Ok?
    ensures Replay(ws + TopicWrites(t, i, parse, guid, b).value) == AfterTopic(Replay(ws), t, i, parse, guid, b)
  {
    var block := TopicWrites(t, i, parse, guid, b).value;
    assert ws + block == (((ws + [block[0]]) + [block[1]]) + [block[2]]) + [block[3]];
    ReplaySnoc(ws, block[0]);
    ReplaySnoc(ws + [block[0]], block[1]);
    ReplaySnoc((ws + [block[0]]) + [block[1]], block[2]);
    ReplaySnoc(((ws + [block[0]]) + [block[1]]) + [block[2]], block[3]);
  }

  /** One iteration of the loop: the calls for topic `t` at position `i`, or the error that ends the build. */
  method AddTopic(zip: Zip, t: WorkerTopic, i: nat, parse: WorkerTopic -> bool, guid: nat -> string, b: Builders)
    returns (failure: Option<Fault>)
    modifies zip
    ensures var block := TopicWrites(t, i, parse, guid, b);
            && (failure.None? <==> block.Ok?)
            && (block.Err? ==> failure == Some(block.error))
            && (block.Ok? ==> zip.entries == AfterTopic(old(zip.entries), t, i, parse, guid, b))
  {
    if !parse(t) {
      return Some(SchemaViolation);
    }
    var topicGuid := guid(2 * i);
    var viewpointGuid := guid(2 * i + 1);
    var prefix := zip.Folder(topicGuid);
    var blob := b.snapshot(t.screenshot);
    if blob.Err? {
      return Some(blob.error);
    }
    zip.File(prefix + viewpointGuid + ".png", BinaryFile(blob.value));
    zip.File(prefix + viewpointGuid + ".bcfv", XmlFile(b.visinfo(t, viewpointGuid)));
    var markup := b.markup(t, topicGuid, viewpointGuid);
    assert prefix + "markup.bcf" == topicGuid + "/markup.bcf";
    zip.File(prefix + "markup.bcf", XmlFile(markup));
    failure := None;
  }

  /** `createZipAsync`: the version file, then the topics in order; the first failure aborts the build. */
  method CreateZipAsync(topics: seq<WorkerTopic>, parse: WorkerTopic -> bool, guid: nat -> string, b: Builders)
    returns (r: Result<seq<Entry>>)
    ensures r == Build(topics, parse, guid, b)
  {
    var step := Step(parse, guid, b);
    var zip := new Zip();
    zip.File("bcf.version", XmlFile(b.version));
    ghost var ws := [Head(b)];
    ReplaySnoc([], Head(b));
    var i := 0;
    while i < |topics|
      invariant 0 <= i <= |topics|
      invariant Run(Head(b), topics[..i], step) == Ok(ws)
      invariant zip.entries == Replay(ws)
    {
      var failure := AddTopic(zip, topics[i], i, parse, guid, b);
      RunSnoc(Head(b), topics, step, i);
      if failure.Some? {
        ErrorPersists(Head(b), topics, step, i + 1);
        return Err(failure.value);
      }
      ReplayTopic(ws, topics[i], i, parse, guid, b);
      ws := ws + TopicWrites(topics[i], i, parse, guid, b).value;
      i := i + 1;
    }
    assert topics[..i] == topics;
    r := Ok(zip.entries);
  }
}
