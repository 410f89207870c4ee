/**
 Paths on the SFTP server and keys in the object store: how ingest reads ids out of a path
 (validation.py), how keys are built from ids, and how the two ends of the overlay bucket cut a key.
 */
module Paths {
  import opened Prelude
  import Uuid

  // ---------------------------------------------------------------------------
  // Splitting
  // ---------------------------------------------------------------------------

  /** `s.split("/")`. */
  function Split(s: string): (parts: seq<string>)
    ensures |parts| > 0
  {
    if s == [] then [""]
    else if s[0] == '/' then [""] + Split(s[1..])
    else
      var rest := Split(s[1..]);
      [[s[0]] + rest[0]] + rest[1..]
  }

  /** `s.partition("/")` without the separator: what precedes and what follows the first slash. */
  function Partition(s: string): (string, string) {
    if s == [] then ("", "")
    else if s[0] == '/' then ("", s[1..])
    else
      var (before, after) := Partition(s[1..]);
      ([s[0]] + before, after)
  }

  /** `posixpath.basename(s)`: what follows the last slash. */
  function Basename(s: string): string {
    if '/' !in s then s else Basename(s[1..])
  }

  /** `posixpath.join(directory, name)`. */
  function Join(directory: string, name: string): string {
    if name != [] && name[0] == '/' then name
    else if directory == [] || directory[|directory| - 1] == '/' then directory + name
    else directory + "/" + name
  }

  // ---------------------------------------------------------------------------
  // PurePosixPath: parts and stem
  // ---------------------------------------------------------------------------

  /** Components that survive normalisation: empty ones and single dots are dropped. */
  function Components(parts: seq<string>): seq<string> {
    if parts == [] then []
    else if parts[0] == "" || parts[0] == "." then Components(parts[1..])
    else [parts[0]] + Components(parts[1..])
  }

  /** `PurePosixPath(s).parts`; a leading slash is a part of its own. */
  function Parts(s: string): seq<string> {
    (if s != [] && s[0] == '/' then ["/"] else []) + Components(Split(s))
  }

  /** The index of the last dot, or |name| when there is none. */
  function LastDot(name: string): (i: nat)
    ensures i <= |name|
    ensures i < |name| ==> name[i] == '.'
    ensures forall j :: i < j < |name| ==> name[j] != '.'
    ensures i == |name| ==> '.' !in name
  {
    if '.' !in name then |name|
    else if name[|name| - 1] == '.' then |name| - 1
    else LastDot(name[..|name| - 1])
  }

  /** `PurePosixPath.stem` of a final component. */
  function Stem(name: string): string {
    var i := LastDot(name);
    if 0 < i < |name| - 1 then name[..i] else name
  }

  // ---------------------------------------------------------------------------
  // Keys
  // ---------------------------------------------------------------------------

  function RemotePath(batch: string, document: string): string {
    "incoming" + "/" + (batch + "/" + (document + ".tif"))
  }

  function BlobKey(batch: string, document: string): string {
    "documents" + "/" + (batch + "/" + (document + ".tif"))
  }

  function OverlayKey(batch: string, document: string): string {
    "overlays" + "/" + (batch + "/" + (document + ".png"))
  }

  /** `WorkerBlob.put` cuts a key at its first slash into bucket and object name. */
  function PutTarget(key: string): (string, string) {
    Partition(key)
  }

  /** `get_overlay` reads the overlays bucket under `raw.split("/", 1)[-1]`, or raw when it has no slash. */
  function OverlayLookup(raw: string): string {
    if '/' in raw then Partition(raw).1 else raw
  }

  // ---------------------------------------------------------------------------
  // Validation
  // ---------------------------------------------------------------------------

  /** `parse_remote_path`: the ids' texts, or None for a FileValidationError. */
  function ParseRemotePath(path: string): (r: Option<(string, string)>)
    ensures r.Some? ==> Uuid.Parse(r.value.0).Some? && Uuid.Parse(r.value.1).Some?
  {
    var parts := Parts(path);
    if |parts| < 3 then None
    else
      var batch := parts[|parts| - 2];
      var document := Stem(parts[|parts| - 1]);
      if Uuid.Parse(batch).Some? && Uuid.Parse(document).Some? then Some((batch, document)) else None
  }

  datatype Label =
    | Letter | Form | Email | Handwritten | Advertisement | ScientificReport | ScientificPublication
    | Specification | FileFolder | NewsArticle | Budget | Invoice | Presentation | Questionnaire
    | Resume | Memo

  /** What the predictor may return: non-empty, most confident first, each confidence a probability. */
  predicate IsRanking(top5: seq<(Label, real)>) {
    && |top5| > 0
    && (forall i :: 0 <= i < |top5| ==> 0.0 <= top5[i].1 <= 1.0)
    && (forall i :: 0 < i < |top5| ==> top5[i].1 <= top5[i - 1].1)
  }

  type Ranking = s: seq<(Label, real)> | IsRanking(s) witness [(Letter, 1.0)]

  /** What opening the bytes as an image does. */
  datatype ImageKind = Tiff | OtherFormat | Unidentified | OtherError

  /** The bytes of a file, together with what the image library and the predictor make of them. */
  datatype Content = Content(size: nat, kind: ImageKind, ranking: Ranking, payload: nat)

  datatype IngestedDocument = IngestedDocument(
    path: string, batch: string, document: string, key: string, content: Content)

  /** Accepted, quarantined (FileValidationError), or ended by an error that is not a validation error. */
  datatype Verdict = Accepted(doc: IngestedDocument) | Rejected | Raised

  /** `validate_tiff`. */
  function Validate(path: string, content: Content, maxBytes: nat): (v: Verdict)
    ensures v.Accepted? ==> v.doc.path == path && v.doc.content == content
  {
    if content.size == 0 then Rejected
    else if content.size > maxBytes then Rejected
    else
      match content.kind
      case Unidentified => Rejected
      case OtherFormat => Rejected
      case OtherError => Raised
      case Tiff =>
        match ParseRemotePath(path)
        case None => Rejected
        case Some(ids) => Accepted(IngestedDocument(path, ids.0, ids.1, BlobKey(ids.0, ids.1), content))
  }

  // ---------------------------------------------------------------------------
  // Which files are accepted
  // ---------------------------------------------------------------------------

  /** The path has three parts or more, and its parent's name and its own stem are UUID texts. */
  predicate NamesIds(path: string) {
    && |Parts(path)| >= 3
    && Uuid.Parse(NamedBatch(path)).Some? && Uuid.Parse(NamedDocument(path)).Some?
  }

  /** The name of the parent. */
  function NamedBatch(path: string): string
    requires |Parts(path)| >= 2
  {
    Parts(path)[|Parts(path)| - 2]
  }

  /** The stem. */
  function NamedDocument(path: string): string
    requires |Parts(path)| >= 1
  {
    Stem(Parts(path)[|Parts(path)| - 1])
  }

  /** A TIFF of an allowed size under a path that names its ids. */
  predicate Acceptable(path: string, content: Content, maxBytes: nat) {
    content.kind.Tiff? && 0 < content.size <= maxBytes && NamesIds(path)
  }

  /** Opening the image ends in an error that is not a validation error. */
  predicate Unreadable(content: Content, maxBytes: nat) {
    content.kind.OtherError? && 0 < content.size <= maxBytes
  }

  /** Exactly which files are accepted, under which ids and key, and which raise; all others are rejected. */
  lemma VerdictExactly(path: string, content: Content, maxBytes: nat)
    ensures Validate(path, content, maxBytes).Accepted? <==> Acceptable(path, content, maxBytes)
    ensures Validate(path, content, maxBytes).Raised? <==> Unreadable(content, maxBytes)
    ensures Validate(path, content, maxBytes).Accepted? ==>
              var doc := Validate(path, content, maxBytes).doc;
              && doc.batch == NamedBatch(path) && doc.document == NamedDocument(path)
              && doc.key == "documents/" + doc.batch + "/" + doc.document + ".tif"
  {
    hide Uuid.Parse;
    hide Parts;
    hide Stem;
    if Validate(path, content, maxBytes).Accepted? {
      var doc := Validate(path, content, maxBytes).doc;
      assert "documents" + "/" == "documents/";
      assert "documents/" + (doc.batch + "/" + (doc.document + ".tif"))
          == "documents/" + doc.batch + "/" + doc.document + ".tif";
    }
  }

  // ---------------------------------------------------------------------------
  // What parts, names and stems are
  // ---------------------------------------------------------------------------

  /** A text is a last component behind a slash, or has no slash. */
  lemma {:induction false} BasenameIs(directory: string, name: string)
    requires '/' !in name
    ensures Basename(directory + "/" + name) == name == Basename(name)
  {
    var s := directory + "/" + name;
    assert s[|directory|] == '/';
    if directory == [] {
      assert s[1..] == name;
    } else {
      BasenameIs(directory[1..], name);
      assert s[1..] == directory[1..] + "/" + name;
    }
  }

  /** Joining puts a slash between directory and name where there is none, and the name comes back as basename. */
  lemma JoinIs(directory: string, name: string)
    requires '/' !in name
    ensures Join("", name) == name
    ensures Join(directory + "/", name) == directory + "/" + name
    ensures directory != "" && directory[|directory| - 1] != '/' ==> Join(directory, name) == directory + "/" + name
    ensures Basename(Join(directory, name)) == name
  {
    assert "" + name == name;
    BasenameIs("", name);
    if directory != "" && directory[|directory| - 1] == '/' {
      assert directory == directory[..|directory| - 1] + "/";
      BasenameIs(directory[..|directory| - 1], name);
    } else {
      BasenameIs(directory, name);
    }
  }

  /** The stem is what precedes the last dot, unless that dot is the first or the last character. */
  lemma StemIs(stem: string, extension: string)
    requires '.' !in extension
    ensures Stem(stem + "." + extension)
            == if stem == "" || extension == "" then stem + "." + extension else stem
    ensures Stem(extension) == extension
  {
    var name := stem + "." + extension;
    assert name[|stem|] == '.';
    assert forall j :: |stem| < j < |name| ==> name[j] == extension[j - |stem| - 1];
    assert LastDot(name) == |stem|;
    assert name[..|stem|] == stem;
  }

  /** A component that stands for nothing. */
  predicate Skipped(component: string) {
    component == "" || component == "."
  }

  lemma {:induction false} ComponentsConcat(a: seq<string>, b: seq<string>)
    ensures Components(a + b) == Components(a) + Components(b)
  {
    if a == [] {
      assert a + b == b;
    } else {
      ComponentsConcat(a[1..], b);
      assert (a + b)[1..] == a[1..] + b;
    }
  }

  lemma {:induction false} SplitLast(directory: string, name: string)
    requires '/' !in name
    ensures Split(directory + "/" + name) == Split(directory) + [name]
  {
    var s := directory + "/" + name;
    if directory == [] {
      assert s == "" + ("/" + name);
      SplitFirst("", name);
      SplitWhole(name);
    } else {
      SplitLast(directory[1..], name);
      assert s[1..] == directory[1..] + "/" + name;
    }
  }

  /** The parts of a path, component by component from the end; empty components and single dots are no parts. */
  lemma PartsAre(directory: string, name: string)
    requires '/' !in name
    ensures Parts(name) == if Skipped(name) then [] else [name]
    ensures Parts("/" + name) == ["/"] + if Skipped(name) then [] else [name]
    ensures directory != "" ==>
              Parts(directory + "/" + name) == Parts(directory) + if Skipped(name) then [] else [name]
  {
    SplitWhole(name);
    assert "" + "/" + name == "/" + name;
    SplitLast("", name);
    SplitLast(directory, name);
    assert [name][1..] == [] && [""][1..] == [];
    assert Components([name]) == if Skipped(name) then [] else [name];
    ComponentsConcat([""], [name]);
    ComponentsConcat(Split(directory), [name]);
    assert name != [] ==> name[0] in name;
    assert directory != "" ==> (directory + "/" + name)[0] == directory[0];
  }

  // ---------------------------------------------------------------------------
  // Proofs: cutting undoes joining
  // ---------------------------------------------------------------------------

  lemma {:induction false} SplitFirst(a: string, rest: string)
    requires '/' !in a
    ensures Split(a + ("/" + rest)) == [a] + Split(rest)
  {
    if a == [] {
      assert a + ("/" + rest) == "/" + rest;
      assert ("/" + rest)[1..] == rest;
    } else {
      SplitFirst(a[1..], rest);
      assert (a + ("/" + rest))[1..] == a[1..] + ("/" + rest);
      assert [a[0]] + a[1..] == a;
    }
  }

  lemma {:induction false} SplitWhole(a: string)
    requires '/' !in a
    ensures Split(a) == [a]
  {
    if a != [] {
      SplitWhole(a[1..]);
      assert [a[0]] + a[1..] == a;
    }
  }

  lemma {:induction false} PartitionFirst(a: string, rest: string)
    requires '/' !in a
    ensures Partition(a + ("/" + rest)) == (a, rest)
  {
    if a == [] {
      assert a + ("/" + rest) == "/" + rest;
      assert ("/" + rest)[1..] == rest;
    } else {
      PartitionFirst(a[1..], rest);
      assert (a + ("/" + rest))[1..] == a[1..] + ("/" + rest);
      assert [a[0]] + a[1..] == a;
    }
  }

  lemma {:induction false} PartitionWithoutSlash(a: string)
    requires '/' !in a
    ensures Partition(a) == (a, "")
  {
    if a != [] {
      PartitionWithoutSlash(a[1..]);
      assert [a[0]] + a[1..] == a;
    }
  }

  lemma StemOfTif(document: string)
    requires |document| > 0
    ensures Stem(document + ".tif") == document
  {
    var name := document + ".tif";
    var i := LastDot(name);
    assert name[|document|] == '.';
    assert name[|document| + 1] == 't' && name[|document| + 2] == 'i' && name[|document| + 3] == 'f';
    assert i == |document|;
    assert name[..|document|] == document;
  }

  lemma PartsOfThree(dir: string, batch: string, name: string)
    requires '/' !in dir && '/' !in batch && '/' !in name
    requires dir !in {"", "."} && batch !in {"", "."} && name !in {"", "."}
    ensures Parts(dir + "/" + (batch + "/" + name)) == [dir, batch, name]
  {
    var path := dir + ("/" + (batch + ("/" + name)));
    assert path == dir + "/" + (batch + "/" + name);
    assert path[0] == dir[0] && dir[0] in dir;
    SplitFirst(dir, batch + ("/" + name));
    assert batch + ("/" + name) == batch + "/" + name;
    SplitFirst(batch, name);
    SplitWhole(name);
    assert Split(path) == [dir, batch, name];
    assert [name][1..] == [];
    assert Components([name]) == [name];
    assert [batch, name][1..] == [name];
    assert Components([batch, name]) == [batch, name];
    assert [dir, batch, name][1..] == [batch, name];
  }

  lemma ParseInDirectory(dir: string, batch: string, document: string)
    requires '/' !in dir && dir !in {"", "."}
    requires Uuid.Parse(batch).Some? && Uuid.Parse(document).Some?
    ensures ParseRemotePath(dir + "/" + (batch + "/" + (document + ".tif"))) == Some((batch, document))
  {
    Uuid.TextIsPathSafe(batch);
    Uuid.TextIsPathSafe(document);
    PartsOfThree(dir, batch, document + ".tif");
    StemOfTif(document);
  }

  /** Every pair of UUID texts is read back from the path that the vendor is asked to use. */
  lemma ParseOfRemotePath(batch: string, document: string)
    requires Uuid.Parse(batch).Some? && Uuid.Parse(document).Some?
    ensures ParseRemotePath(RemotePath(batch, document)) == Some((batch, document))
  {
    ParseInDirectory("incoming", batch, document);
  }

  /** Whatever path a document came from, its blob key parses to the document's own ids. */
  lemma {:induction false} ParseOfBlobKey(path: string, content: Content, maxBytes: nat)
    requires Validate(path, content, maxBytes).Accepted?
    ensures var doc := Validate(path, content, maxBytes).doc;
            ParseRemotePath(doc.key) == Some((doc.batch, doc.document)) == ParseRemotePath(path)
  {
    var doc := Validate(path, content, maxBytes).doc;
    ParseInDirectory("documents", doc.batch, doc.document);
  }

  /** Blob keys of different id texts differ. */
  lemma BlobKeyInjective(b: string, d: string, b': string, d': string)
    requires Uuid.Parse(b).Some? && Uuid.Parse(d).Some? && Uuid.Parse(b').Some? && Uuid.Parse(d').Some?
    requires BlobKey(b, d) == BlobKey(b', d')
    ensures b == b' && d == d'
  {
    ParseInDirectory("documents", b, d);
    ParseInDirectory("documents", b', d');
  }

  /** The object that the worker writes is `{batch}/{document}.png` in the overlays bucket. */
  lemma OverlayPutTarget(batch: string, document: string)
    ensures PutTarget(OverlayKey(batch, document)) == ("overlays", batch + "/" + (document + ".png"))
  {
    var rest := batch + "/" + (document + ".png");
    assert OverlayKey(batch, document) == "overlays" + ("/" + rest);
    PartitionFirst("overlays", rest);
  }

  /** Reading side and writing side agree on a key exactly when it has a slash or is empty. */
  lemma OverlayLookupAgrees(key: string)
    ensures OverlayLookup(key) == PutTarget(key).1 <==> '/' in key || key == ""
  {
    if '/' !in key {
      PartitionWithoutSlash(key);
    }
  }

  /** Overlay objects of different id texts differ. */
  lemma OverlayInjective(b: string, d: string, b': string, d': string)
    requires Uuid.Parse(b).Some? && Uuid.Parse(b').Some?
    requires PutTarget(OverlayKey(b, d)) == PutTarget(OverlayKey(b', d'))
    ensures b == b' && d == d'
  {
    hide Uuid.Parse;
    hide PutTarget;
    hide OverlayKey;
    OverlayPutTarget(b, d);
    OverlayPutTarget(b', d');
    Uuid.TextIsPathSafe(b);
    Uuid.TextIsPathSafe(b');
    assert b + "/" + (d + ".png") == b + ("/" + (d + ".png"));
    assert b' + "/" + (d' + ".png") == b' + ("/" + (d' + ".png"));
    PartitionFirst(b, d + ".png");
    PartitionFirst(b', d' + ".png");
    assert d == (d + ".png")[..|d + ".png"| - 4];
    assert d' == (d' + ".png")[..|d' + ".png"| - 4];
  }

  /** Two different paths may carry the same ids, so their documents share one blob key. */
  lemma {:induction false} PathsMayShareAKey(batch: string, document: string)
    requires Uuid.Parse(batch).Some? && Uuid.Parse(document).Some?
    ensures var other := "incoming" + "/" + (batch + "/" + document);
            other != RemotePath(batch, document)
            && ParseRemotePath(other) == ParseRemotePath(RemotePath(batch, document))
  {
    ParseOfRemotePath(batch, document);
    Uuid.TextIsPathSafe(batch);
    Uuid.TextIsPathSafe(document);
    PartsOfThree("incoming", batch, document);
    assert |"incoming" + "/" + (batch + "/" + document)| < |RemotePath(batch, document)|;
  }
}
