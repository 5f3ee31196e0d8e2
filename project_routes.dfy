/**
 * The project routes: the generated-file listing with sizes and line
 * counts, the single-file lookup, the download archive and its name, and
 * deletion.
 */
module ProjectRoutes {
  import opened Wrappers
  import opened Strings
  import opened Json
  import opened Database
  import opened StoredJson
  import Qa

  // ---------------------------------------------------------------------
  // Sizes and line counts

  /** How many bytes UTF-8 spends on one character. */
  function Utf8Bytes(c: char): (n: nat)
    ensures 1 <= n <= 4
    ensures n == 1 <==> c as int < 0x80
  {
    if c as int < 0x80 then 1
    else if c as int < 0x800 then 2
    else if c as int < 0x1_0000 then 3
    else 4
  }

  /** `Buffer.byteLength(s, 'utf-8')`. */
  function Utf8Length(s: string): nat {
    if s == [] then 0 else Utf8Bytes(s[0]) + Utf8Length(s[1..])
  }

  lemma {:induction false} Utf8LengthAppend(a: string, b: string)
    ensures Utf8Length(a + b) == Utf8Length(a) + Utf8Length(b)
  {
    if a == [] {
      assert a + b == b;
    } else {
      assert (a + b)[1..] == a[1..] + b;
      Utf8LengthAppend(a[1..], b);
    }
  }

  /** Every character takes one to four bytes, and an ASCII text as many bytes as characters. */
  lemma {:induction false} Utf8LengthBounds(s: string)
    ensures |s| <= Utf8Length(s) <= 4 * |s|
    ensures (forall i :: 0 <= i < |s| ==> s[i] as int < 0x80) ==> Utf8Length(s) == |s|
  {
    if s != [] {
      Utf8LengthBounds(s[1..]);
    }
  }

  /** How many times `c` occurs in `s`. */
  function Occurrences(s: string, c: char): nat {
    if s == [] then 0 else (if s[0] == c then 1 else 0) + Occurrences(s[1..], c)
  }

  lemma {:induction false} OccurrencesAppend(a: string, b: string, c: char)
    ensures Occurrences(a + b, c) == Occurrences(a, c) + Occurrences(b, c)
  {
    if a == [] {
      assert a + b == b;
    } else {
      assert (a + b)[1..] == a[1..] + b;
      OccurrencesAppend(a[1..], b, c);
    }
  }

  /** `content.split('\n').length`: one more piece than there are newlines. */
  function LineCount(s: string): nat {
    Occurrences(s, '\n') + 1
  }

  /** Joining two texts with a newline adds their line counts. */
  lemma LinesJoin(a: string, b: string)
    ensures LineCount(a + "\n" + b) == LineCount(a) + LineCount(b)
  {
    OccurrencesAppend(a, "\n", '\n');
    OccurrencesAppend(a + "\n", b, '\n');
  }

  // ---------------------------------------------------------------------
  // GET /:id/files

  datatype FileInfo = FileInfo(path: string, size: nat, lines: nat)

  /** `infos` lists the entries in order, each with its path, byte size and line count. */
  predicate Describes(es: seq<(string, Json)>, infos: seq<FileInfo>) {
    && |infos| == |es|
    && forall i :: 0 <= i < |es| ==>
         es[i].1.JStr? && infos[i] == FileInfo(es[i].0, Utf8Length(es[i].1.s), LineCount(es[i].1.s))
  }

  /** The TypeError `Buffer.byteLength` throws for a value that is not text, describing the value it received. */
  function NotText(v: Json): (e: string)
    requires !v.JStr?
    ensures |e| > |NotTextPrefix| && e[..|NotTextPrefix|] == NotTextPrefix
  {
    NotTextPrefix + Received(v)
  }

  const NotTextPrefix :=
    "The \"string\" argument must be of type string or an instance of Buffer or ArrayBuffer. Received "

  /** A non-text entry after described text entries is the first non-text entry. */
  lemma FirstNonText(es: seq<(string, Json)>, i: nat, infos: seq<FileInfo>)
    requires i < |es| && !es[i].1.JStr? && Describes(es[..i], infos)
    ensures Qa.TextCount(es) == i
  {
    assert forall j :: 0 <= j < i ==> es[..i][j] == es[j];
  }

  /** The `fileListing` loop: one entry per file, or the TypeError of the first content that is not text. */
  method FileListing(es: seq<(string, Json)>) returns (r: Result<seq<FileInfo>>)
    ensures r.Ok? <==> forall i :: 0 <= i < |es| ==> es[i].1.JStr?
    ensures r.Ok? ==> Describes(es, r.value)
    ensures r.Err? ==> Qa.TextCount(es) < |es| && r.error == NotText(es[Qa.TextCount(es)].1)
  {
    var listing: seq<FileInfo> := [];
    for i := 0 to |es|
      invariant Describes(es[..i], listing)
    {
      var (path, content) := es[i];
      if !content.JStr? {
        FirstNonText(es, i, listing);
        return Err(NotText(content));
      }
      listing := listing + [FileInfo(path, Utf8Length(content.s), LineCount(content.s))];
    }
    assert es[..|es|] == es;
    r := Ok(listing);
  }

  datatype FilesReply = NoProject | Listing(files: seq<FileInfo>) | Crash(message: string)

  /**
   * `/:id/files`: 404 for an unknown project, an empty listing when no files
   * were stored, and otherwise the listing of the stored value's entries.
   */
  method FilesRoute(store: Store, id: string, parse: Parser) returns (r: FilesReply)
    requires store.Valid()
    ensures r == NoProject <==> id !in store.projects
    ensures id in store.projects ==>
      var v := SafeJsonParse(store.projects[id][GeneratedFiles], parse);
      && (!Truthy(v) ==> r == Listing([]))
      && (Truthy(v) ==>
            && (r.Listing? <==> forall i :: 0 <= i < |ObjectEntries(v)| ==> ObjectEntries(v)[i].1.JStr?)
            && (r.Listing? ==> Describes(ObjectEntries(v), r.files))
            && (r.Crash? ==>
                  var es := ObjectEntries(v);
                  Qa.TextCount(es) < |es| && r.message == NotText(es[Qa.TextCount(es)].1)))
  {
    if id !in store.projects {
      return NoProject;
    }
    var files := SafeJsonParse(store.projects[id][GeneratedFiles], parse);
    if !Truthy(files) {
      return Listing([]);
    }
    var listing := FileListing(ObjectEntries(files));
    r := if listing.Ok? then Listing(listing.value) else Crash(listing.error);
  }

  /** What the run stored lists as its files, in order, with their sizes and line counts. */
  lemma StoredFilesListed(fs: Files, parse: Parser, infos: seq<FileInfo>)
    requires PropertyOrder(Keys(fs))
    requires parse(Stringify(FilesJson(fs))) == Some(FilesJson(fs))
    ensures var v := SafeJsonParse(StoredCell(FilesJson(fs)), parse);
      && Truthy(v)
      && (forall i :: 0 <= i < |ObjectEntries(v)| ==> ObjectEntries(v)[i].1.JStr?)
      && (Describes(ObjectEntries(v), infos) ==>
            |infos| == |fs| && forall i :: 0 <= i < |fs| ==> infos[i] == FileInfo(fs[i].0, Utf8Length(fs[i].1), LineCount(fs[i].1)))
  {
    StoredThenRead(FilesJson(fs), parse);
    FilesEntries(fs);
    FilesDescribed(fs, ObjectEntries(FilesJson(fs)), infos);
  }

  /** Entries that are the files as text are described by their paths, sizes and line counts. */
  lemma FilesDescribed(fs: Files, es: seq<(string, Json)>, infos: seq<FileInfo>)
    requires |es| == |fs| && forall i :: 0 <= i < |fs| ==> es[i] == (fs[i].0, JStr(fs[i].1))
    ensures forall i :: 0 <= i < |es| ==> es[i].1.JStr?
    ensures Describes(es, infos) ==>
      |infos| == |fs| && forall i :: 0 <= i < |fs| ==> infos[i] == FileInfo(fs[i].0, Utf8Length(fs[i].1), LineCount(fs[i].1))
  {
  }

  // ---------------------------------------------------------------------
  // GET /:id/file/*

  datatype FileReply = NoSuchProject | FileMissing(message: string) | Content(body: Json)

  /**
   * The single-file lookup: 404 for an unknown project, and 404 naming the
   * path when no files were stored or the path's content is missing or falsy.
   */
  function FileRoute(store: Store, id: string, path: string, parse: Parser): (r: FileReply)
    reads store
    requires store.Valid()
    ensures r.NoSuchProject? <==> id !in store.projects
    ensures r.FileMissing? ==> r.message == "File not found: " + path
    ensures id in store.projects ==>
      var v := SafeJsonParse(store.projects[id][GeneratedFiles], parse);
      && (r.Content? <==> Truthy(v) && Present(Property(v, path)))
      && (r.Content? ==> Property(v, path) == Some(r.body))
  {
    if id !in store.projects then NoSuchProject
    else
      var files := SafeJsonParse(store.projects[id][GeneratedFiles], parse);
      if !Truthy(files) || !Present(Property(files, path)) then FileMissing("File not found: " + path)
      else Content(Property(files, path).value)
  }

  /** A stored file is served with its content; a path the run did not write is not found. */
  lemma StoredFileServed(store: Store, id: string, fs: Files, path: string, parse: Parser)
    requires store.Valid() && id in store.projects
    requires store.projects[id][GeneratedFiles] == StoredCell(FilesJson(fs))
    requires parse(Stringify(FilesJson(fs))) == Some(FilesJson(fs))
    ensures FileRoute(store, id, path, parse).Content? ==>
      exists i :: 0 <= i < |fs| && fs[i].0 == path && FileRoute(store, id, path, parse).body == JStr(fs[i].1) && fs[i].1 != ""
    ensures (forall i :: 0 <= i < |fs| ==> fs[i].0 != path) ==> FileRoute(store, id, path, parse).FileMissing?
  {
    StoredThenRead(FilesJson(fs), parse);
    FilesProperty(fs, path);
  }

  // ---------------------------------------------------------------------
  // GET /:id/download

  /** `(name || 'project').toLowerCase().replace(/[^a-z0-9]/g, '-').substring(0, 50)`. */
  function DownloadName(name: string): string {
    Slugify(if name == "" then "project" else name, LowerAlnum, 50)
  }

  /**
   * The download name is never empty, has at most 50 characters, each a
   * lower-case letter, a digit or '-', and is its own download name.
   */
  lemma DownloadNameShape(name: string)
    ensures var r := DownloadName(name);
      && 1 <= |r| <= 50
      && (forall i :: 0 <= i < |r| ==> IsLowerAlnum(r[i]) || r[i] == '-')
      && DownloadName(r) == r
  {
    var base := if name == "" then "project" else name;
    SlugifyShape(base, LowerAlnum, 50);
    assert Utf16Length(base) >= 1;
    SlugifyIdempotent(base, LowerAlnum, 50);
  }

  datatype DownloadReply = Unknown | NoFiles | Archive(fileName: string, entries: seq<(string, Json)>)
                         | Failed(message: string)

  /**
   * `/:id/download`: 404 for an unknown project, 400 when no files were
   * stored, and otherwise a zip named after the project holding every entry.
   */
  function DownloadRoute(store: Store, id: string, parse: Parser): (r: DownloadReply)
    reads store
    requires store.Valid()
    ensures r.Unknown? <==> id !in store.projects
    ensures id in store.projects ==>
      var v := SafeJsonParse(store.projects[id][GeneratedFiles], parse);
      var name := store.projects[id][Name];
      && (r.NoFiles? <==> !Truthy(v))
      && (Truthy(v) && name.TextCell? ==> r == Archive(DownloadName(name.text) + ".zip", ObjectEntries(v)))
      && (Truthy(v) && name.NullCell? ==> r == Archive(DownloadName("") + ".zip", ObjectEntries(v)))
  {
    if id !in store.projects then Unknown
    else
      var row := store.projects[id];
      var files := SafeJsonParse(row[GeneratedFiles], parse);
      if !Truthy(files) then NoFiles
      else match row[Name]
        case TextCell(s) => Archive(DownloadName(s) + ".zip", ObjectEntries(files))
        case NullCell => Archive(DownloadName("") + ".zip", ObjectEntries(files))
        case IntCell(n) =>
          if n == 0 then Archive(DownloadName("") + ".zip", ObjectEntries(files))
          else Failed("(project.name || \"project\").toLowerCase is not a function")
  }

  // ---------------------------------------------------------------------
  // DELETE /:id

  /** DELETE: 404 for an unknown project; otherwise its logs and then the project go. */
  method DeleteRoute(store: Store, id: string) returns (deleted: bool)
    requires store.Valid()
    modifies store`projects, store`logs
    ensures store.Valid()
    ensures deleted <==> id in old(store.projects)
    ensures !deleted ==> store.projects == old(store.projects) && store.logs == old(store.logs)
    ensures deleted ==> store.projects == old(store.projects) - {id}
    ensures deleted ==> store.logs == Select(old(store.logs), OtherThan(id))
  {
    if id !in store.projects {
      return false;
    }
    store.DeleteProject(id);
    deleted := true;
  }

  /** Deleting one project leaves no log of it and every other project's logs as they were. */
  lemma {:induction false} OthersKeepTheirLogs(logs: seq<LogEntry>, id: string, other: string)
    requires other != id
    ensures Select(Select(logs, OtherThan(id)), OfProject(other)) == Select(logs, OfProject(other))
    ensures Select(Select(logs, OtherThan(id)), OfProject(id)) == []
  {
    if logs != [] {
      OthersKeepTheirLogs(logs[1..], id, other);
      if logs[0].projectId != id {
        assert [logs[0]] + Select(logs[1..], OtherThan(id)) == Select(logs, OtherThan(id));
        assert ([logs[0]] + Select(logs[1..], OtherThan(id)))[1..] == Select(logs[1..], OtherThan(id));
      }
    }
  }
}
