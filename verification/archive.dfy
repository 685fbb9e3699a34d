/**
 * The part of JSZip the assemblers use. An archive is the ordered list of its entries: `file`
 * stores content under a path, replacing in place an entry already stored under that path
 * (JSZip keeps its files in an object keyed by path, so a key keeps its first position);
 * `folder` adds the directory entry `name/` unless it exists and hands back the prefix that
 * the folder's files are written under.
 */
module Archive {
  import opened Wrappers
  import opened Xml
  import Lists
  import DataUrl

  /** What an entry holds: a directory marker, an XML document or a binary blob. */
  datatype Content = Directory | XmlFile(document: Document) | BinaryFile(blob: DataUrl.Blob)

  datatype Entry = Entry(path: string, content: Content)

  /** The entries' paths, in order. */
  function Paths(es: seq<Entry>): seq<string> {
    if es == [] then [] else [es[0].path] + Paths(es[1..])
  }

  /** Appending an entry appends its path. */
  lemma {:induction false} PathsAppend(es: seq<Entry>, e: Entry)
    ensures Paths(es + [e]) == Paths(es) + [e.path]
  {
    if es != [] {
      PathsAppend(es[1..], e);
      assert (es + [e])[1..] == es[1..] + [e];
    }
  }

  /** No path is stored twice. */
  predicate Distinct(ps: seq<string>) {
    forall a, b :: 0 <= a < b < |ps| ==> ps[a] != ps[b]
  }

  /** What `zip.file(path)` reads back: the content of the entry stored under `path`, if any. */
  function Lookup(es: seq<Entry>, path: string): Option<Content> {
    if es == [] then None
    else if es[0].path == path then Some(es[0].content)
    else Lookup(es[1..], path)
  }

  /**
   * `zip.file(path, content)`: a path already present keeps its position and gets the new
   * content; a new path is appended.
   */
  function Put(es: seq<Entry>, path: string, content: Content): seq<Entry> {
    if es == [] then [Entry(path, content)]
    else if es[0].path == path then [Entry(path, content)] + es[1..]
    else [es[0]] + Put(es[1..], path, content)
  }

  /** `zip.folder(name)`: the directory entry `name/` is added unless something is stored under that path. */
  function AddFolder(es: seq<Entry>, name: string): seq<Entry> {
    if Lookup(es, name + "/").Some? then es else es + [Entry(name + "/", Directory)]
  }

  /** A path reads back something exactly when an entry is stored under it. */
  lemma {:induction false} LookupPaths(es: seq<Entry>, path: string)
    ensures Lookup(es, path).Some? <==> path in Paths(es)
  {
    if es != [] {
      LookupPaths(es[1..], path);
    }
  }

  /** `Put` keeps the order of the stored paths, appending a path only when it is new. */
  lemma {:induction false} PutPaths(es: seq<Entry>, path: string, content: Content)
    ensures Paths(Put(es, path, content)) == if path in Paths(es) then Paths(es) else Paths(es) + [path]
  {
    if es != [] {
      PutPaths(es[1..], path, content);
      var r := Put(es, path, content);
      if es[0].path != path {
        assert r[1..] == Put(es[1..], path, content);
        assert (Paths(es[1..]) + [path]) == Paths(es[1..]) + [path];
        assert [es[0].path] + (Paths(es[1..]) + [path]) == Paths(es) + [path];
      } else {
        assert r[1..] == es[1..];
      }
    }
  }

  /** After `Put`, the path reads back the new content and every other path reads back as before. */
  lemma {:induction false} PutLookup(es: seq<Entry>, path: string, content: Content, q: string)
    ensures Lookup(Put(es, path, content), q) == if q == path then Some(content) else Lookup(es, q)
  {
    if es != [] && es[0].path != path {
      PutLookup(es[1..], path, content, q);
      assert Put(es, path, content)[1..] == Put(es[1..], path, content);
    } else if es != [] {
      assert Put(es, path, content)[1..] == es[1..];
    }
  }

  /** An entry appended after the others is read back only under a path nothing before it holds. */
  lemma {:induction false} LookupAppend(es: seq<Entry>, e: Entry, q: string)
    ensures Lookup(es + [e], q) == if Lookup(es, q).Some? then Lookup(es, q) else if e.path == q then Some(e.content) else None
  {
    if es != [] {
      LookupAppend(es[1..], e, q);
      assert (es + [e])[1..] == es[1..] + [e];
    }
  }

  /** A folder reads back as a directory when it was absent, and nothing else changes. */
  lemma AddFolderLookup(es: seq<Entry>, name: string, q: string)
    ensures Lookup(AddFolder(es, name), q) ==
            if q == name + "/" && Lookup(es, q).None? then Some(Directory) else Lookup(es, q)
  {
    if Lookup(es, name + "/").None? {
      LookupAppend(es, Entry(name + "/", Directory), q);
    }
  }

  /** The object the assemblers create with `new JSZip()` and write into. */
  class Zip {
    var entries: seq<Entry>

    constructor()
      ensures entries == []
    {
      entries := [];
    }

    /** `file(path, content)`. */
    method File(path: string, content: Content)
      modifies this
      ensures entries == Put(old(entries), path, content)
    {
      entries := Put(entries, path, content);
    }

    /** `folder(name)`: the returned prefix stands for the sub-folder object that `file` is called on. */
    method Folder(name: string) returns (prefix: string)
      modifies this
      ensures prefix == name + "/"
      ensures entries == AddFolder(old(entries), name)
    {
      entries := AddFolder(entries, name);
      prefix := name + "/";
    }
  }

  /** One call on the archive, as an assembler issues it. */
  datatype Write = MakeFolder(name: string) | WriteFile(path: string, content: Content)

  /** The path a call writes. */
  function Target(w: Write): string {
    match w
    case MakeFolder(name) => name + "/"
    case WriteFile(path, _) => path
  }

  /** The effect of one call on the entry list. */
  function Apply(es: seq<Entry>, w: Write): seq<Entry> {
    match w
    case MakeFolder(name) => AddFolder(es, name)
    case WriteFile(path, content) => Put(es, path, content)
  }

  /** The entry list after the calls `ws`, issued in order on a new archive. */
  function Replay(ws: seq<Write>): seq<Entry> {
    if ws == [] then [] else Apply(Replay(ws[..|ws| - 1]), ws[|ws| - 1])
  }

  /** Replaying one more call applies it to the entries so far. */
  lemma ReplaySnoc(ws: seq<Write>, w: Write)
    ensures Replay(ws + [w]) == Apply(Replay(ws), w)
  {
    assert (ws + [w])[..|ws|] == ws;
  }

  /**
   * The reference reading of a call sequence: under each path, the content of the last file
   * call on it, or a directory when only folder calls named it.
   */
  function Stored(ws: seq<Write>, path: string): Option<Content> {
    if ws == [] then None
    else
      var w := ws[|ws| - 1];
      var before := Stored(ws[..|ws| - 1], path);
      if Target(w) != path then before
      else if w.WriteFile? then Some(w.content)
      else if before.None? then Some(Directory)
      else before
  }

  /** The archive reads back exactly what the reference reading says, under every path. */
  lemma {:induction false} ReplayStored(ws: seq<Write>, path: string)
    ensures Lookup(Replay(ws), path) == Stored(ws, path)
  {
    if ws != [] {
      var w := ws[|ws| - 1];
      ReplayStored(ws[..|ws| - 1], path);
      match w
      case MakeFolder(name) => AddFolderLookup(Replay(ws[..|ws| - 1]), name, path);
      case WriteFile(p, c) => PutLookup(Replay(ws[..|ws| - 1]), p, c, path);
    }
  }

  /** However the calls repeat paths, the archive never holds two entries under one path. */
  lemma {:induction false} ReplayDistinct(ws: seq<Write>)
    ensures Distinct(Paths(Replay(ws)))
  {
    if ws != [] {
      var es := Replay(ws[..|ws| - 1]);
      ReplayDistinct(ws[..|ws| - 1]);
      match ws[|ws| - 1]
      case MakeFolder(name) =>
        LookupPaths(es, name + "/");
        PathsAppend(es, Entry(name + "/", Directory));
      case WriteFile(p, c) => PutPaths(es, p, c);
    }
  }

  /** Calls that never write `path` leave what is stored under it alone. */
  lemma {:induction false} StoredUntouched(a: seq<Write>, b: seq<Write>, path: string)
    requires forall k :: 0 <= k < |b| ==> Target(b[k]) != path
    ensures Stored(a + b, path) == Stored(a, path)
  {
    if b != [] {
      assert (a + b)[..|a + b| - 1] == a + b[..|b| - 1];
      assert (a + b)[|a + b| - 1] == b[|b| - 1];
      StoredUntouched(a, b[..|b| - 1], path);
    } else {
      assert a + b == a;
    }
  }

  /** The first file written stays the first entry as long as no later call writes its path. */
  lemma {:induction false} ReplayKeepsFirst(ws: seq<Write>)
    requires |ws| > 0 && ws[0].WriteFile?
    requires forall k :: 1 <= k < |ws| ==> Target(ws[k]) != ws[0].path
    ensures |Replay(ws)| > 0 && Replay(ws)[0] == Entry(ws[0].path, ws[0].content)
  {
    if |ws| == 1 {
      assert ws[..0] == [];
    } else {
      var prefix := ws[..|ws| - 1];
      ReplayKeepsFirst(prefix);
      var es := Replay(prefix);
      match ws[|ws| - 1]
      case MakeFolder(name) =>
      case WriteFile(p, c) =>
        assert Put(es, p, c)[0] == es[0];
    }
  }

  /** `path` lies directly under the folder `folder`: it starts with `folder/`. */
  predicate InFolder(folder: string, path: string) {
    |folder| < |path| && path[..|folder|] == folder && path[|folder|] == '/'
  }

  /** Paths in two different folders whose names hold no `/` are different paths. */
  lemma FoldersApart(a: string, b: string, p: string, q: string)
    requires '/' !in a && '/' !in b && a != b && InFolder(a, p) && InFolder(b, q)
    ensures p != q
  {
  }

  /** Every call of `block` writes inside the folder `folder`. */
  predicate InBlock(block: seq<Write>, folder: string) {
    forall r :: 0 <= r < |block| ==> InFolder(folder, Target(block[r]))
  }

  /**
   * The calls of an assembler that writes one file first and then four calls per topic,
   * each inside that topic's folder.
   */
  predicate Blocked(ws: seq<Write>, folders: seq<string>) {
    |ws| == 1 + 4 * |folders| && forall j :: 0 <= j < |folders| ==> InBlock(ws[1 + 4 * j..5 + 4 * j], folders[j])
  }

  /**
   * When no later topic shares topic `i`'s folder and no folder name holds `/`, whatever is
   * stored inside topic `i`'s folder is what topic `i`'s own calls left there.
   */
  lemma LaterFoldersUntouched(ws: seq<Write>, folders: seq<string>, i: nat, path: string)
    requires Blocked(ws, folders) && i < |folders|
    requires forall j :: i <= j < |folders| ==> '/' !in folders[j]
    requires forall j :: i < j < |folders| ==> folders[j] != folders[i]
    requires InFolder(folders[i], path)
    ensures Stored(ws, path) == Stored(ws[..1 + 4 * (i + 1)], path)
  {
    var m := 1 + 4 * (i + 1);
    var rest := ws[m..];
    forall k | 0 <= k < |rest|
      ensures Target(rest[k]) != path
    {
      LaterTargetApart(ws, folders, i, path, m + k);
    }
    StoredUntouched(ws[..m], rest, path);
    assert ws[..m] + rest == ws;
  }

  /** One call of a later topic, for `LaterFoldersUntouched`. */
  lemma LaterTargetApart(ws: seq<Write>, folders: seq<string>, i: nat, path: string, k: nat)
    requires Blocked(ws, folders) && i < |folders|
    requires forall j :: i <= j < |folders| ==> '/' !in folders[j]
    requires forall j :: i < j < |folders| ==> folders[j] != folders[i]
    requires InFolder(folders[i], path)
    requires 1 + 4 * (i + 1) <= k < |ws|
    ensures Target(ws[k]) != path
  {
    var j := (k - 1) / 4;
    assert i < j < |folders|;
    assert ws[k] == ws[1 + 4 * j..5 + 4 * j][k - 1 - 4 * j];
    assert InBlock(ws[1 + 4 * j..5 + 4 * j], folders[j]);
    FoldersApart(folders[j], folders[i], Target(ws[k]), path);
  }

  /** The file written before the first topic stays the archive's first entry. */
  lemma HeadStaysFirst(ws: seq<Write>, folders: seq<string>)
    requires Blocked(ws, folders) && ws[0].WriteFile? && '/' !in ws[0].path
    ensures |Replay(ws)| > 0 && Replay(ws)[0] == Entry(ws[0].path, ws[0].content)
  {
    forall k | 1 <= k < |ws|
      ensures Target(ws[k]) != ws[0].path
    {
      var j := (k - 1) / 4;
      assert ws[k] == ws[1 + 4 * j..5 + 4 * j][k - 1 - 4 * j];
      assert Target(ws[k])[|folders[j]|] == '/';
    }
    ReplayKeepsFirst(ws);
  }
}
