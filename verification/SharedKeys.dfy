/**
 Whose bytes a stored blob holds when several files carry the same ids, and hence one blob key: those
 of the last upload under the key. So a processed file may lose its own bytes to a later one.
 */
module SharedKeys {
  import opened Prelude
  import opened Paths
  import opened Database
  import opened Protocol
  import opened PipelineSafety
  import opened FileConservation
  import S = Services
  import Uuid

  // ---------------------------------------------------------------------------
  // The last upload
  // ---------------------------------------------------------------------------

  /** The step is an upload under the key that takes effect. */
  predicate Uploads(w: World, e: Event, key: string) {
    e.Call? && w.ingest.ToUpload? && TakesEffect(e.ending) && w.ingest.doc.key == key
  }

  /** The bytes that the last effective upload of a run carried under a key. */
  function LastUpload(config: Config, es: seq<Event>, key: string): Option<Content> {
    if es == [] then None
    else
      var w, e := Run(Start(config), es[..|es| - 1]), es[|es| - 1];
      if Uploads(w, e, key) then Some(w.ingest.doc.content) else LastUpload(config, es[..|es| - 1], key)
  }

  /** A key is in the bucket exactly when something was uploaded under it, and holds the last such bytes. */
  lemma {:induction false} StoredIsLastUpload(config: Config, es: seq<Event>, key: string)
    ensures key in Run(Start(config), es).documents <==> LastUpload(config, es, key).Some?
    ensures key in Run(Start(config), es).documents ==>
              LastUpload(config, es, key) == Some(Run(Start(config), es).documents[key])
  {
    hide Step;
    if es != [] {
      StoredIsLastUpload(config, es[..|es| - 1], key);
      StepUploads(Run(Start(config), es[..|es| - 1]), es[|es| - 1]);
    }
  }

  /** A processed file's blob holds its own bytes if and only if the last upload under its key carried them. */
  lemma {:induction false} OwnBytesExactlyWhen(config: Config, es: seq<Event>, name: string)
    requires Processed(name) in Run(Start(config), es).files
    ensures var w := Run(Start(config), es);
            var f := w.files[Processed(name)];
            var v := Validate(f.path, f.content, config.maxBytes);
            v.Accepted? && v.doc.key in w.documents
            && (w.documents[v.doc.key] == f.content <==> LastUpload(config, es, v.doc.key) == Some(f.content))
  {
    NoDocumentLost(config, es, name);
    hide Run;
    var f := Run(Start(config), es).files[Processed(name)];
    hide Validate;
    StoredIsLastUpload(config, es, Validate(f.path, f.content, config.maxBytes).doc.key);
  }

  /** In particular when no other file on the server was accepted under the key. */
  lemma {:induction false} OwnBytesWithoutTwin(config: Config, es: seq<Event>, name: string)
    requires Processed(name) in Run(Start(config), es).files
    requires var w := Run(Start(config), es);
             var f := w.files[Processed(name)];
             forall place :: place in w.files && place != Processed(name) ==>
               !SourceOf(w, place, BlobKeyOf(config, f), w.files[place].content)
    ensures var f := Run(Start(config), es).files[Processed(name)];
            LastUpload(config, es, BlobKeyOf(config, f)) == Some(f.content)
  {
    OwnBytesExactlyWhen(config, es, name);
    BlobsAlwaysHonest(config, es);
    var w := Run(Start(config), es);
    var f := w.files[Processed(name)];
    var key := BlobKeyOf(config, f);
    hide Run;
    hide Validate;
    hide LastUpload;
    var place :| SourceOf(w, place, key, w.documents[key]);
    assert place == Processed(name);
  }

  /** The key under which a file is stored, if it is accepted. */
  function BlobKeyOf(config: Config, f: File): string {
    var v := Validate(f.path, f.content, config.maxBytes);
    if v.Accepted? then v.doc.key else ""
  }

  // ---------------------------------------------------------------------------
  // A file that loses its bytes
  // ---------------------------------------------------------------------------

  lemma RunOn(config: Config, es: seq<Event>, e: Event)
    ensures Run(Start(config), es + [e]) == Step(Run(Start(config), es), e)
    ensures Run(Start(config), []) == Start(config)
  {
    hide Step;
    assert (es + [e])[..|es + [e]| - 1] == es;
  }

  const OK := Call(Success)

  /** One file goes all the way without faults. */
  function OneFile(path: string, content: Content): seq<Event> {
    [] + [Drop(path, content)] + [Fetch(path)] + [OK] + [OK] + [OK] + [OK]
  }

  lemma FirstRow(doc: IngestedDocument)
    requires Uuid.Parse(doc.batch).Some? && Uuid.Parse(doc.document).Some?
    ensures S.Attempt(EMPTY_DB, RowTransaction(doc)).Ok?
    ensures S.Commit(EMPTY_DB, RowTransaction(doc)).predictions == []
  {
    hide Uuid.Parse;
  }

  /** The calls of a file's turn, each ending well. */
  lemma CallsSucceed(w: World, doc: IngestedDocument)
    ensures w.ingest == ToUpload(doc) ==>
              Step(w, OK) == w.(documents := w.documents[doc.key := doc.content], ingest := ToRow(doc))
    ensures w.ingest == ToRow(doc) && S.Attempt(w.db, RowTransaction(doc)).Ok? ==>
              Step(w, OK) == w.(db := S.Commit(w.db, RowTransaction(doc)), ingest := ToEnqueue(doc))
    ensures w.ingest == ToEnqueue(doc) ==>
              Step(w, OK) == w.(jobs := w.jobs + [JobRecord(JobFor(doc), Queued)], ingest := ToMove(doc))
    ensures var from, to := Incoming(doc.path), Processed(Basename(doc.path));
            w.ingest == ToMove(doc) && CanRename(w.files, from, to) ==>
              Step(w, OK) == w.(files := Rename(w.files, from, to), ingest := Idle)
  {
    hide S.Attempt;
    hide S.Commit;
    hide RowTransaction;
    hide Basename;
    hide CanRename;
    hide Rename;
  }

  lemma FetchAccepted(config: Config, path: string, content: Content, w: World)
    requires Validate(path, content, config.maxBytes).Accepted?
    requires w.config == config && w.ingest.Idle? && Incoming(path) in w.files
    requires w.files[Incoming(path)].content == content
    ensures Step(w, Fetch(path)) == w.(ingest := ToUpload(Validate(path, content, config.maxBytes).doc))
  {
    hide Validate;
  }

  /** The four calls of a turn, one after the other. */
  lemma TurnSucceeds(w: World, doc: IngestedDocument)
    requires w.ingest == ToUpload(doc) && S.Attempt(w.db, RowTransaction(doc)).Ok?
    requires CanRename(w.files, Incoming(doc.path), Processed(Basename(doc.path)))
    ensures var w' := Step(Step(Step(Step(w, OK), OK), OK), OK);
            w'.ingest.Idle? && w'.config == w.config
            && w'.files == Rename(w.files, Incoming(doc.path), Processed(Basename(doc.path)))
            && w'.documents == w.documents[doc.key := doc.content]
            && w'.db == S.Commit(w.db, RowTransaction(doc)) && w'.jobs == w.jobs + [JobRecord(JobFor(doc), Queued)]
  {
    hide *;
    CallsSucceed(w, doc);
    var w1 := Step(w, OK);
    CallsSucceed(w1, doc);
    var w2 := Step(w1, OK);
    CallsSucceed(w2, doc);
    CallsSucceed(Step(w2, OK), doc);
  }

  lemma RunOfOneFile(config: Config, path: string, content: Content)
    ensures Run(Start(config), OneFile(path, content))
            == Step(Step(Step(Step(Step(Step(Start(config), Drop(path, content)), Fetch(path)), OK), OK), OK), OK)
  {
    hide Step;
    var e1 := [] + [Drop(path, content)];
    var e2 := e1 + [Fetch(path)];
    RunOn(config, [], Drop(path, content));
    RunOn(config, e1, Fetch(path));
    RunOn(config, e2, OK);
    RunOn(config, e2 + [OK], OK);
    RunOn(config, e2 + [OK] + [OK], OK);
    RunOn(config, e2 + [OK] + [OK] + [OK], OK);
    hide Run;
  }

  lemma OneFileIsProcessed(config: Config, path: string, content: Content)
    requires Validate(path, content, config.maxBytes).Accepted?
    ensures var doc := Validate(path, content, config.maxBytes).doc;
            var w := Run(Start(config), OneFile(path, content));
            w.ingest.Idle? && w.config == config
            && w.files == map[Processed(Basename(path)) := File(0, path, content)]
            && w.documents == map[doc.key := content]
            && w.jobs == [JobRecord(JobFor(doc), Queued)] && w.db.predictions == []
  {
    var doc := Validate(path, content, config.maxBytes).doc;
    FirstRow(doc);
    RunOfOneFile(config, path, content);
    hide Validate;
    hide Basename;
    hide Uuid.Parse;
    hide S.Attempt;
    hide S.Commit;
    hide RowTransaction;
    hide Run;
    var file := File(0, path, content);
    var w1 := Start(config).(files := map[Incoming(path) := file], dropped := 1);
    assert Step(Start(config), Drop(path, content)) == w1;
    hide Step;
    FetchAccepted(config, path, content, w1);
    TurnSucceeds(w1.(ingest := ToUpload(doc)), doc);
    assert map[Incoming(path) := file] - {Incoming(path)} == map[];
  }

  /** After that, a second file with the same ids is dropped, fetched and uploaded. */
  function TwoFiles(path: string, content: Content, path': string, content': Content): seq<Event> {
    OneFile(path, content) + [Drop(path', content')] + [Fetch(path')] + [OK]
  }

  /** Then the first file lies in the processed folder, and its blob holds the bytes of the second. */
  lemma BytesReplaced(config: Config, path: string, content: Content, path': string, content': Content)
    requires Validate(path, content, config.maxBytes).Accepted?
    requires Validate(path', content', config.maxBytes).Accepted?
    requires Validate(path', content', config.maxBytes).doc.key == Validate(path, content, config.maxBytes).doc.key
    ensures var w := Run(Start(config), TwoFiles(path, content, path', content'));
            var key := Validate(path, content, config.maxBytes).doc.key;
            Processed(Basename(path)) in w.files && w.files[Processed(Basename(path))].path == path
            && w.files[Processed(Basename(path))].content == content
            && key in w.documents && w.documents[key] == content'
  {
    OneFileIsProcessed(config, path, content);
    hide Validate;
    hide Basename;
    var doc' := Validate(path', content', config.maxBytes).doc;
    var e0 := OneFile(path, content);
    hide OneFile;
    RunOn(config, e0, Drop(path', content'));
    var e1 := e0 + [Drop(path', content')];
    RunOn(config, e1, Fetch(path'));
    var e2 := e1 + [Fetch(path')];
    RunOn(config, e2, OK);
    hide Run;
    var w0 := Run(Start(config), e0);
    var file := File(w0.dropped, path', content');
    var w1 := w0.(files := w0.files[Incoming(path') := file], dropped := w0.dropped + 1);
    assert Step(w0, Drop(path', content')) == w1;
    hide Step;
    FetchAccepted(config, path', content', w1);
    CallsSucceed(w1.(ingest := ToUpload(doc')), doc');
  }

  /**
   Such files exist: for any ids and any two different TIFF contents of allowed size, the run that
   delivers the one as `{document}.tif` and then the other as `{document}` ends with the bytes of the
   second under the key of the first, which is in the processed folder.
   */
  lemma ProcessedFileMayLoseItsBytes(config: Config, batch: string, document: string, c: Content, c': Content)
    requires Uuid.Parse(batch).Some? && Uuid.Parse(document).Some?
    requires c.kind.Tiff? && 0 < c.size <= config.maxBytes && c'.kind.Tiff? && 0 < c'.size <= config.maxBytes
    requires c != c'
    ensures var path := RemotePath(batch, document);
            var w := Run(Start(config), TwoFiles(path, c, "incoming" + "/" + (batch + "/" + document), c'));
            && Processed(Basename(path)) in w.files && w.files[Processed(Basename(path))].content == c
            && BlobKey(batch, document) in w.documents && w.documents[BlobKey(batch, document)] == c'
  {
    var path, other := RemotePath(batch, document), "incoming" + "/" + (batch + "/" + document);
    ParseOfRemotePath(batch, document);
    PathsMayShareAKey(batch, document);
    hide ParseRemotePath;
    hide Uuid.Parse;
    assert Validate(path, c, config.maxBytes)
           == Accepted(IngestedDocument(path, batch, document, BlobKey(batch, document), c));
    assert Validate(other, c', config.maxBytes)
           == Accepted(IngestedDocument(other, batch, document, BlobKey(batch, document), c'));
    BytesReplaced(config, path, c, other, c');
  }
}
