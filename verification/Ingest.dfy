/**
 The ingest process as its code runs it (sftp_ingest/processor.py): three-attempt retries, one file
 after the other, and a poll that swallows every error of a single file.
 */
module Ingest {
  import opened Prelude
  import opened Paths
  import opened Database
  import opened Protocol
  import opened PipelineSafety
  import opened Processes
  import F = FileConservation
  import S = Services
  import Uuid

  /** No call from n up to m is made to fail. */
  predicate FaultFree(script: nat -> Slot, n: nat, m: nat) {
    forall k: nat :: n <= k < m ==> script(k).ending.Success?
  }

  lemma FaultFreeSucceeds(script: nat -> Slot, n: nat, m: nat, at: nat)
    requires n <= at < m
    ensures FaultFree(script, n, m) ==> script(at).ending.Success? && OneSucceeds(script, at, at + 3)
  {
  }

  lemma FaultFreePart(script: nat -> Slot, n: nat, m: nat, from: nat)
    requires n <= from
    ensures FaultFree(script, n, m) ==> FaultFree(script, from, m)
  {
  }

  /** One of the calls from n up to m succeeds. */
  predicate OneSucceeds(script: nat -> Slot, n: nat, m: nat) {
    exists k: nat :: n <= k < m && script(k).ending.Success?
  }

  /** The calls from n up to m fail. */
  predicate AllFail(script: nat -> Slot, n: nat, m: nat) {
    forall k: nat :: n <= k < m ==> script(k).ending.Failure?
  }

  /** The rows of documents, as far as ingest looks at them. */
  predicate Refused(documents: map<Id, Document>, doc: IngestedDocument) {
    && Uuid.Parse(doc.batch).Some? && Uuid.Parse(doc.document).Some?
    && Uuid.Parse(doc.document).value in documents
    && documents[Uuid.Parse(doc.document).value].batch != Uuid.Parse(doc.batch).value
  }

  /** Nothing but new files in the drop folder, as far as this process can tell. */
  predicate Aside(w: World, w': World) {
    w'.config == w.config && w'.db.documents == w.db.documents && FilesUndisturbed(w.files, w'.files)
  }

  /** Rows of documents keep their batch. */
  predicate DocumentsKept(documents: map<Id, Document>, documents': map<Id, Document>) {
    forall d :: d in documents ==> d in documents' && documents'[d].batch == documents[d].batch
  }

  lemma AsideTransitive(a: World, b: World, c: World)
    ensures Aside(a, a)
    ensures Aside(a, b) && Aside(b, c) ==> Aside(a, c)
    ensures FilesUndisturbed(a.files, b.files) && FilesUndisturbed(b.files, c.files)
            ==> FilesUndisturbed(a.files, c.files)
  {
  }

  /** Make a remote call: others run, then the call ends as the script says. */
  method Await(p: Plant) returns (ending: Ending)
    requires p.Valid()
    modifies p
    ensures p.Valid() && Aside(old(p.world), p.world) && p.world.ingest == old(p.world.ingest)
    ensures ending == p.script(old(p.position)).ending && p.position == old(p.position) + 1
  {
    hide Step;
    hide Run;
    hide Grows;
    hide FilesUndisturbed;
    var slot := p.Await(Ingestion);
    ending := slot.ending;
  }

  // ---------------------------------------------------------------------------
  // Retried calls
  // ---------------------------------------------------------------------------

  lemma UploadStep(w: World, doc: IngestedDocument, ending: Ending)
    requires w.ingest == ToUpload(doc)
    ensures Aside(w, Step(w, Call(ending)))
    ensures Step(w, Call(ending)).ingest == if ending.Success? then ToRow(doc) else ToUpload(doc)
  {
  }

  lemma EnqueueStep(w: World, doc: IngestedDocument, ending: Ending)
    requires w.ingest == ToEnqueue(doc)
    ensures Aside(w, Step(w, Call(ending)))
    ensures Step(w, Call(ending)).ingest == if ending.Success? then ToMove(doc) else ToEnqueue(doc)
  {
  }

  lemma GiveUpStep(w: World)
    ensures Step(w, GiveUp) == w.(ingest := Idle)
    ensures Aside(w, Step(w, GiveUp))
  {
  }

  /** The last error is raised again: the turn of the file is over. */
  method Quit(p: Plant)
    requires p.Valid()
    modifies p
    ensures p.Valid() && Aside(old(p.world), p.world) && p.world.ingest.Idle? && p.position == old(p.position)
  {
    hide Step;
    hide Plant.Valid;
    hide Aside;
    GiveUpStep(p.world);
    p.Do(GiveUp);
  }

  /** One attempt of the upload. */
  method UploadOnce(p: Plant, doc: IngestedDocument) returns (ok: bool)
    requires p.Valid() && p.world.ingest == ToUpload(doc)
    modifies p
    ensures p.Valid() && Aside(old(p.world), p.world) && p.position == old(p.position) + 1
    ensures ok <==> p.script(old(p.position)).ending.Success?
    ensures p.world.ingest == if ok then ToRow(doc) else ToUpload(doc)
  {
    hide Step;
    hide Plant.Valid;
    hide Aside;
    ghost var before := p.world;
    var ending := Await(p);
    ghost var called := p.world;
    UploadStep(called, doc, ending);
    p.Do(Call(ending));
    AsideTransitive(before, called, p.world);
    return ending.Success?;
  }

  method UploadWithRetry(p: Plant, doc: IngestedDocument) returns (ok: bool)
    requires p.Valid() && p.world.ingest == ToUpload(doc)
    modifies p
    ensures p.Valid() && Aside(old(p.world), p.world)
    ensures ok <==> OneSucceeds(p.script, old(p.position), old(p.position) + 3)
    ensures old(p.position) < p.position <= old(p.position) + 3
    ensures ok ==> p.script(p.position - 1).ending.Success? && AllFail(p.script, old(p.position), p.position - 1)
    ensures !ok ==> p.position == old(p.position) + 3
    ensures p.world.ingest == if ok then ToRow(doc) else Idle
  {
    hide Step;
    hide Plant.Valid;
    hide Aside;
    AsideTransitive(p.world, p.world, p.world);
    var attempt := 0;
    while attempt < 3
      invariant 0 <= attempt <= 3 && p.position == old(p.position) + attempt
      invariant p.Valid() && Aside(old(p.world), p.world) && p.world.ingest == ToUpload(doc)
      invariant AllFail(p.script, old(p.position), p.position)
    {
      ghost var before := p.world;
      ok := UploadOnce(p, doc);
      AsideTransitive(old(p.world), before, p.world);
      if ok {
        return;
      }
      attempt := attempt + 1;
    }
    ghost var last := p.world;
    Quit(p);
    AsideTransitive(old(p.world), last, p.world);
    return false;
  }

  /** One attempt at putting the job into the queue. */
  method EnqueueOnce(p: Plant, doc: IngestedDocument) returns (ok: bool)
    requires p.Valid() && p.world.ingest == ToEnqueue(doc)
    modifies p
    ensures p.Valid() && Aside(old(p.world), p.world) && p.position == old(p.position) + 1
    ensures ok <==> p.script(old(p.position)).ending.Success?
    ensures p.world.ingest == if ok then ToMove(doc) else ToEnqueue(doc)
  {
    hide Step;
    hide Plant.Valid;
    hide Aside;
    ghost var before := p.world;
    var ending := Await(p);
    ghost var called := p.world;
    EnqueueStep(called, doc, ending);
    p.Do(Call(ending));
    AsideTransitive(before, called, p.world);
    return ending.Success?;
  }

  method EnqueueWithRetry(p: Plant, doc: IngestedDocument) returns (ok: bool)
    requires p.Valid() && p.world.ingest == ToEnqueue(doc)
    modifies p
    ensures p.Valid() && Aside(old(p.world), p.world)
    ensures ok <==> OneSucceeds(p.script, old(p.position), old(p.position) + 3)
    ensures old(p.position) < p.position <= old(p.position) + 3
    ensures ok ==> p.script(p.position - 1).ending.Success? && AllFail(p.script, old(p.position), p.position - 1)
    ensures !ok ==> p.position == old(p.position) + 3
    ensures p.world.ingest == if ok then ToMove(doc) else Idle
  {
    hide Step;
    hide Plant.Valid;
    hide Aside;
    AsideTransitive(p.world, p.world, p.world);
    var attempt := 0;
    while attempt < 3
      invariant 0 <= attempt <= 3 && p.position == old(p.position) + attempt
      invariant p.Valid() && Aside(old(p.world), p.world) && p.world.ingest == ToEnqueue(doc)
      invariant AllFail(p.script, old(p.position), p.position)
    {
      ghost var before := p.world;
      ok := EnqueueOnce(p, doc);
      AsideTransitive(old(p.world), before, p.world);
      if ok {
        return;
      }
      attempt := attempt + 1;
    }
    ghost var last := p.world;
    Quit(p);
    AsideTransitive(old(p.world), last, p.world);
    return false;
  }

  /** The table of documents after the row of a document is ensured. */
  function WithRow(documents: map<Id, Document>, doc: IngestedDocument): map<Id, Document>
    requires Uuid.Parse(doc.batch).Some? && Uuid.Parse(doc.document).Some?
  {
    documents[Uuid.Parse(doc.document).value := Document(Uuid.Parse(doc.batch).value, doc.key)]
  }

  lemma RowNotRefused(documents: map<Id, Document>, doc: IngestedDocument)
    requires Uuid.Parse(doc.batch).Some? && Uuid.Parse(doc.document).Some?
    ensures !Refused(WithRow(documents, doc), doc)
    ensures WithRow(WithRow(documents, doc), doc) == WithRow(documents, doc)
    ensures !Refused(documents, doc) ==> DocumentsKept(documents, WithRow(documents, doc))
    ensures DocumentsKept(documents, documents)
    ensures Uuid.Parse(doc.document).value in WithRow(documents, doc)
  {
    hide Uuid.Parse;
  }

  /** Files stand still and the row of one document may have been written, unless it is refused. */
  predicate AsideButRow(w: World, w': World, doc: IngestedDocument)
    requires Uuid.Parse(doc.batch).Some? && Uuid.Parse(doc.document).Some?
  {
    && w'.config == w.config && FilesUndisturbed(w.files, w'.files)
    && (w'.db.documents == w.db.documents
        || (!Refused(w.db.documents, doc) && w'.db.documents == WithRow(w.db.documents, doc)))
  }

  lemma AsideThenRow(a: World, b: World, c: World, doc: IngestedDocument)
    requires Uuid.Parse(doc.batch).Some? && Uuid.Parse(doc.document).Some?
    ensures Aside(a, b) ==> AsideButRow(a, b, doc)
    ensures AsideButRow(a, b, doc) && AsideButRow(b, c, doc) ==> AsideButRow(a, c, doc)
    ensures AsideButRow(a, b, doc) ==> (Refused(a.db.documents, doc) <==> Refused(b.db.documents, doc))
    ensures AsideButRow(a, b, doc) && !Refused(a.db.documents, doc)
            ==> WithRow(b.db.documents, doc) == WithRow(a.db.documents, doc)
  {
    hide Uuid.Parse;
    RowNotRefused(a.db.documents, doc);
    AsideTransitive(a, b, c);
    hide FilesUndisturbed;
  }

  lemma EnsureRowStep(w: World, doc: IngestedDocument, ending: Ending)
    requires w.ingest == ToRow(doc) && Uuid.Parse(doc.batch).Some? && Uuid.Parse(doc.document).Some?
    ensures AsideButRow(w, Step(w, Call(ending)), doc)
    ensures var w' := Step(w, Call(ending));
            if ending.Success? && !Refused(w.db.documents, doc)
            then w'.ingest == ToEnqueue(doc) && w'.db.documents == WithRow(w.db.documents, doc)
            else w'.ingest == ToRow(doc)
  {
    hide Uuid.Parse;
  }

  /** One attempt: a session, `ensure_for_ingest` and a commit. */
  method EnsureRowOnce(p: Plant, doc: IngestedDocument) returns (ok: bool)
    requires p.Valid() && p.world.ingest == ToRow(doc)
    requires Uuid.Parse(doc.batch).Some? && Uuid.Parse(doc.document).Some?
    modifies p
    ensures p.Valid() && AsideButRow(old(p.world), p.world, doc)
    ensures ok <==> !Refused(old(p.world.db.documents), doc) && p.script(old(p.position)).ending.Success?
    ensures p.position == old(p.position) + 1
    ensures p.world.ingest == if ok then ToEnqueue(doc) else ToRow(doc)
    ensures ok ==> p.world.db.documents == WithRow(old(p.world.db.documents), doc)
  {
    hide Uuid.Parse;
    hide Step;
    hide Plant.Valid;
    hide Aside;
    hide AsideButRow;
    hide Refused;
    hide WithRow;
    ghost var before := p.world;
    var ending := Await(p);
    ghost var called := p.world;
    EnsureRowStep(called, doc, ending);
    p.Do(Call(ending));
    AsideThenRow(before, called, p.world, doc);
    return p.world.ingest.ToEnqueue?;
  }

  /** A batch mismatch is an error that no retry cures. */
  method EnsureDocumentRow(p: Plant, doc: IngestedDocument) returns (ok: bool)
    requires p.Valid() && p.world.ingest == ToRow(doc)
    requires Uuid.Parse(doc.batch).Some? && Uuid.Parse(doc.document).Some?
    modifies p
    ensures p.Valid() && AsideButRow(old(p.world), p.world, doc)
    ensures ok <==> !Refused(old(p.world.db.documents), doc)
                    && OneSucceeds(p.script, old(p.position), old(p.position) + 3)
    ensures old(p.position) < p.position <= old(p.position) + 3
    ensures ok ==> p.script(p.position - 1).ending.Success? && AllFail(p.script, old(p.position), p.position - 1)
    ensures !ok ==> p.position == old(p.position) + 3
    ensures p.world.ingest == if ok then ToEnqueue(doc) else Idle
    ensures ok ==> p.world.db.documents == WithRow(old(p.world.db.documents), doc)
  {
    hide Step;
    hide Plant.Valid;
    hide Aside;
    hide AsideButRow;
    hide Refused;
    hide WithRow;
    hide Uuid.Parse;
    ghost var refused := Refused(p.world.db.documents, doc);
    AsideTransitive(p.world, p.world, p.world);
    AsideThenRow(p.world, p.world, p.world, doc);
    var attempt := 0;
    while attempt < 3
      invariant 0 <= attempt <= 3 && p.position == old(p.position) + attempt
      invariant p.Valid() && AsideButRow(old(p.world), p.world, doc) && p.world.ingest == ToRow(doc)
      invariant !refused ==> AllFail(p.script, old(p.position), p.position)
    {
      ghost var before := p.world;
      ok := EnsureRowOnce(p, doc);
      AsideThenRow(old(p.world), before, p.world, doc);
      if ok {
        return;
      }
      attempt := attempt + 1;
    }
    ghost var last := p.world;
    Quit(p);
    AsideThenRow(last, p.world, p.world, doc);
    AsideThenRow(old(p.world), last, p.world, doc);
    return false;
  }

  // ---------------------------------------------------------------------------
  // Moving a file
  // ---------------------------------------------------------------------------

  /** A file went from one place to another, and otherwise only the vendor was active. */
  predicate Moved(files: map<Location, File>, files': map<Location, File>, from: Location, to: Location)
    requires from in files
  {
    && from !in files' && to in files' && files'[to] == files[from]
    && (forall place :: place in files && place != from ==> place in files' && files'[place] == files[place])
    && (forall place :: place in files' && place !in files && place != to ==> place.Incoming?)
  }

  predicate MovedAside(w: World, w': World, from: Location, to: Location)
    requires from in w.files
  {
    w'.config == w.config && w'.db.documents == w.db.documents && to !in w.files && Moved(w.files, w'.files, from, to)
  }

  lemma PlacesAside(w: World, w': World, from: Location, to: Location)
    requires Aside(w, w') && from in w.files && !to.Incoming?
    ensures from in w'.files && w'.files[from] == w.files[from]
    ensures to in w'.files <==> to in w.files
  {
  }

  lemma AsideThenMoved(a: World, b: World, c: World, from: Location, to: Location)
    requires Aside(a, b) && from in a.files && from in b.files && !to.Incoming?
    ensures MovedAside(b, c, from, to) ==> MovedAside(a, c, from, to)
  {
  }

  lemma MovedThenIdle(a: World, b: World, from: Location, to: Location)
    requires from in a.files
    ensures MovedAside(a, b, from, to) ==> MovedAside(a, b.(ingest := Idle), from, to)
  {
  }

  lemma MoveStep(w: World, from: Location, to: Location, ending: Ending)
    requires from.Incoming? && !to.Incoming? && from in w.files
    requires (w.ingest.ToMove? && from == Incoming(w.ingest.doc.path) && to == Processed(Basename(w.ingest.doc.path)))
             || (w.ingest.ToQuarantine? && from == Incoming(w.ingest.path) && to == Quarantine(Basename(w.ingest.path)))
    ensures var w' := Step(w, Call(ending));
            if to !in w.files && TakesEffect(ending) then w'.ingest.Idle? && MovedAside(w, w', from, to)
            else w' == w && Aside(w, w')
  {
    hide Basename;
  }

  /** One call of `move_to_processed` or `move_to_quarantine`; it is not retried. */
  method MoveFile(p: Plant, ghost from: Location, ghost to: Location) returns (ok: bool)
    requires p.Valid() && from in p.world.files
    requires (p.world.ingest.ToMove? && from == Incoming(p.world.ingest.doc.path)
              && to == Processed(Basename(p.world.ingest.doc.path)))
             || (p.world.ingest.ToQuarantine? && from == Incoming(p.world.ingest.path)
                 && to == Quarantine(Basename(p.world.ingest.path)))
    modifies p
    ensures p.Valid() && p.world.ingest.Idle? && p.position == old(p.position) + 1
    ensures Aside(old(p.world), p.world) || MovedAside(old(p.world), p.world, from, to)
    ensures ok <==> p.script(old(p.position)).ending.Success? && to !in old(p.world.files)
    ensures ok ==> MovedAside(old(p.world), p.world, from, to)
  {
    hide Step;
    hide Plant.Valid;
    hide Aside;
    hide MovedAside;
    hide Basename;
    ghost var before := p.world;
    var ending := Await(p);
    ghost var called := p.world;
    PlacesAside(before, called, from, to);
    MoveStep(called, from, to, ending);
    p.Do(Call(ending));
    ghost var moved := p.world;
    AsideThenMoved(before, called, moved, from, to);
    AsideTransitive(before, called, moved);
    ok := ending.Success? && p.world.ingest.Idle?;
    GiveUpStep(moved);
    p.Do(GiveUp);
    AsideTransitive(before, moved, p.world);
    MovedThenIdle(before, moved, from, to);
  }

  // ---------------------------------------------------------------------------
  // One file
  // ---------------------------------------------------------------------------

  /** What the turn of a path may have done to the server and to the documents. */
  predicate Turned(w: World, w': World, path: string) {
    && w'.config == w.config
    && DocumentsKept(w.db.documents, w'.db.documents)
    && (forall place :: place in w.files && place != Incoming(path) ==>
          place in w'.files && w'.files[place] == w.files[place])
    && (forall place :: place in w'.files && place !in w.files ==>
          place.Incoming? || place == Processed(Basename(path)) || place == Quarantine(Basename(path)))
  }

  /** A file lies at a place. */
  predicate LiesAt(w: World, place: Location, f: File) {
    place in w.files && w.files[place] == f
  }

  /**
   Where a file ends up when nothing goes wrong: refused for its batch or raising an image error, it
   stays; not valid, it is in quarantine; else it is processed and its document has a row.
   */
  predicate Settled(w: World, path: string, f: File) {
    match Validate(path, f.content, w.config.maxBytes)
    case Raised => LiesAt(w, Incoming(path), f)
    case Rejected => LiesAt(w, Quarantine(Basename(path)), f)
    case Accepted(doc) =>
      if Refused(w.db.documents, doc) then LiesAt(w, Incoming(path), f)
      else LiesAt(w, Processed(Basename(path)), f)
           && Uuid.Parse(doc.document).Some? && Uuid.Parse(doc.document).value in w.db.documents
  }

  /** A file that no amount of polling moves. */
  predicate Stuck(w: World, path: string, f: File) {
    match Validate(path, f.content, w.config.maxBytes)
    case Raised => true
    case Rejected => false
    case Accepted(doc) => Refused(w.db.documents, doc)
  }

  /** The document is filed under another batch than the one in the path. */
  predicate FiledElsewhere(documents: map<Id, Document>, path: string) {
    |Parts(path)| >= 3 &&
    match (Uuid.Parse(NamedBatch(path)), Uuid.Parse(NamedDocument(path)))
    case (Some(b), Some(d)) => d in documents && documents[d].batch != b
    case _ => false
  }

  /** Where a settled file is, and which files are stuck, by kind, size, path and the row of the document. */
  lemma SettledExactly(w: World, path: string, f: File)
    ensures var max := w.config.maxBytes;
            && (Stuck(w, path, f)
                <==> Unreadable(f.content, max)
                     || (Acceptable(path, f.content, max) && FiledElsewhere(w.db.documents, path)))
            && (Stuck(w, path, f) ==> (Settled(w, path, f) <==> LiesAt(w, Incoming(path), f)))
            && (!Acceptable(path, f.content, max) && !Unreadable(f.content, max)
                ==> (Settled(w, path, f) <==> LiesAt(w, Quarantine(Basename(path)), f)))
            && (Acceptable(path, f.content, max) && !FiledElsewhere(w.db.documents, path) && Settled(w, path, f)
                ==> LiesAt(w, Processed(Basename(path)), f))
  {
    hide Uuid.Parse;
    hide Parts;
    hide NamedBatch;
    hide NamedDocument;
    hide Basename;
    VerdictExactly(path, f.content, w.config.maxBytes);
    hide Validate;
  }

  predicate TargetsFree(w: World, path: string) {
    Processed(Basename(path)) !in w.files && Quarantine(Basename(path)) !in w.files
  }

  lemma FetchStep(w: World, path: string)
    requires w.ingest.Idle?
    ensures Step(w, Fetch(path))
            == if Incoming(path) in w.files
               then w.(ingest := AfterFetch(path, w.files[Incoming(path)].content, w.config.maxBytes)) else w
  {
  }

  lemma AcceptedTexts(path: string, content: Content, maxBytes: nat)
    requires Validate(path, content, maxBytes).Accepted?
    ensures var doc := Validate(path, content, maxBytes).doc;
            Uuid.Parse(doc.batch).Some? && Uuid.Parse(doc.document).Some? && doc.path == path
  {
  }

  lemma AsideIsTurned(w: World, w': World, path: string)
    requires w'.config == w.config && FilesUndisturbed(w.files, w'.files)
    requires DocumentsKept(w.db.documents, w'.db.documents)
    ensures Turned(w, w', path)
    ensures Incoming(path) in w.files ==>
              Incoming(path) in w'.files && w'.files[Incoming(path)] == w.files[Incoming(path)]
  {
  }

  lemma MovedIsTurned(w: World, mid: World, w': World, path: string, to: Location)
    requires mid.config == w.config && FilesUndisturbed(w.files, mid.files)
    requires DocumentsKept(w.db.documents, mid.db.documents)
    requires Incoming(path) in mid.files && MovedAside(mid, w', Incoming(path), to)
    requires to == Processed(Basename(path)) || to == Quarantine(Basename(path))
    ensures Turned(w, w', path)
    ensures Incoming(path) in w.files ==> to in w'.files && w'.files[to] == w.files[Incoming(path)]
  {
  }

  lemma TurnedTransitive(a: World, b: World, c: World, path: string)
    requires Turned(a, b, path) && Turned(b, c, path)
    ensures Turned(a, c, path)
  {
  }

  /** What the turn of a valid document must come to when no call fails and the name is free. */
  predicate DocumentSettled(w: World, w': World, doc: IngestedDocument)
    requires Incoming(doc.path) in w.files
  {
    if Refused(w.db.documents, doc) then
      Refused(w'.db.documents, doc) && Incoming(doc.path) in w'.files
      && w'.files[Incoming(doc.path)] == w.files[Incoming(doc.path)]
    else
      !Refused(w'.db.documents, doc)
      && Uuid.Parse(doc.document).Some? && Uuid.Parse(doc.document).value in w'.db.documents
      && Processed(Basename(doc.path)) in w'.files
      && w'.files[Processed(Basename(doc.path))] == w.files[Incoming(doc.path)]
  }

  /** The four calls for a valid file, each only after the one before has succeeded. */
  method IngestDocument(p: Plant, doc: IngestedDocument) returns (ok: bool)
    requires p.Valid() && p.world.ingest == ToUpload(doc)
    requires Uuid.Parse(doc.batch).Some? && Uuid.Parse(doc.document).Some?
    requires Incoming(doc.path) in p.world.files
    modifies p
    ensures p.Valid() && p.world.ingest.Idle? && p.position > old(p.position)
    ensures Turned(old(p.world), p.world, doc.path)
    ensures ok ==> DocumentSettled(old(p.world), p.world, doc) && !Refused(old(p.world.db.documents), doc)
    ensures FaultFree(p.script, old(p.position), p.position) && Processed(Basename(doc.path)) !in old(p.world.files)
            ==> DocumentSettled(old(p.world), p.world, doc) && (ok <==> !Refused(old(p.world.db.documents), doc))
  {
    hide Plant.Valid;
    hide Basename;
    ghost var w0 := p.world;
    var uploaded := UploadWithRetry(p, doc);
    ghost var w1 := p.world;
    RowNotRefused(w0.db.documents, doc);
    AsideIsTurned(w0, w1, doc.path);
    ghost var n1 := p.position;
    if !uploaded {
      FaultFreeSucceeds(p.script, old(p.position), p.position, old(p.position));
      return false;
    }
    var filed := EnsureDocumentRow(p, doc);
    ghost var w2 := p.world;
    AsideTransitive(w0, w1, w2);
    AsideIsTurned(w0, w2, doc.path);
    ghost var n2 := p.position;
    if !filed {
      FaultFreeSucceeds(p.script, old(p.position), p.position, n1);
      return false;
    }
    var queued := EnqueueWithRetry(p, doc);
    ghost var w3 := p.world;
    AsideTransitive(w0, w2, w3);
    AsideIsTurned(w0, w3, doc.path);
    ghost var n3 := p.position;
    if !queued {
      FaultFreeSucceeds(p.script, old(p.position), p.position, n2);
      return false;
    }
    PlacesUndisturbed(w0, w3, Processed(Basename(doc.path)));
    hide AllFail;
    hide OneSucceeds;
    hide FaultFree;
    hide Refused;
    hide WithRow;
    hide DocumentsKept;
    hide FilesUndisturbed;
    hide Turned;
    hide MovedAside;
    var moved := MoveFile(p, Incoming(doc.path), Processed(Basename(doc.path)));
    AsideTransitive(w0, w3, p.world);
    if MovedAside(w3, p.world, Incoming(doc.path), Processed(Basename(doc.path))) {
      MovedIsTurned(w0, w3, p.world, doc.path, Processed(Basename(doc.path)));
      MovedKeepsDocuments(w3, p.world, Incoming(doc.path), Processed(Basename(doc.path)));
    } else {
      AsideIsTurned(w0, p.world, doc.path);
    }
    FaultFreeSucceeds(p.script, old(p.position), p.position, n3);
    return moved;
  }

  lemma MovedKeepsDocuments(w: World, w': World, from: Location, to: Location)
    requires from in w.files && MovedAside(w, w', from, to)
    ensures w'.db.documents == w.db.documents
  {
  }

  lemma PlacesUndisturbed(w: World, w': World, to: Location)
    requires FilesUndisturbed(w.files, w'.files) && !to.Incoming?
    ensures to in w'.files ==> to in w.files
  {
  }

  /** `process_remote_file`; the result says whether it returned without an error. */
  method ProcessRemoteFile(p: Plant, path: string) returns (ok: bool)
    requires p.Valid() && p.world.ingest.Idle?
    modifies p
    ensures p.Valid() && p.world.ingest.Idle? && p.position > old(p.position)
    ensures Turned(old(p.world), p.world, path)
    ensures ok && Incoming(path) in old(p.world.files)
            ==> Settled(p.world, path, old(p.world).files[Incoming(path)])
                && !Stuck(p.world, path, old(p.world).files[Incoming(path)])
    ensures FaultFree(p.script, old(p.position), p.position)
            && Incoming(path) in old(p.world.files) && TargetsFree(old(p.world), path)
            ==> Settled(p.world, path, old(p.world).files[Incoming(path)])
                && (ok <==> !Stuck(p.world, path, old(p.world).files[Incoming(path)]))
  {
    hide Step;
    hide Plant.Valid;
    hide Validate;
    hide Basename;
    hide Uuid.Parse;
    ghost var w0 := p.world;
    var ending := Await(p);
    ghost var w1 := p.world;
    KeptReflexive(w0.db.documents);
    AsideIsTurned(w0, w1, path);
    ghost var n1 := p.position;
    if !ending.Success? || Incoming(path) !in p.world.files {
      FaultFreeSucceeds(p.script, old(p.position), p.position, old(p.position));
      return false;
    }
    FetchStep(w1, path);
    p.Do(Fetch(path));
    ghost var w2 := p.world;
    AsideIsTurned(w0, w2, path);
    PlacesUndisturbed(w0, w1, Processed(Basename(path)));
    PlacesUndisturbed(w0, w1, Quarantine(Basename(path)));
    hide FilesUndisturbed;
    hide Refused;
    hide DocumentsKept;
    hide MovedAside;
    match p.world.ingest
    case ToQuarantine(_) =>
      ok := MoveFile(p, Incoming(path), Quarantine(Basename(path)));
      FaultFreeSucceeds(p.script, old(p.position), p.position, n1);
      FinishQuarantine(w0, w2, p.world, path);
      hide Turned;
      hide Aside;
    case ToUpload(doc) =>
      hide Aside;
      hide DocumentSettled;
      AcceptedTexts(path, w1.files[Incoming(path)].content, w1.config.maxBytes);
      ok := IngestDocument(p, doc);
      FaultFreePart(p.script, old(p.position), p.position, n1);
      hide FaultFree;
      TurnedTransitive(w0, w2, p.world, path);
      hide Turned;
      FinishDocument(w0, w1, w2, p.world, path, doc);
    case _ =>
      ok := false;
  }

  lemma KeptReflexive(documents: map<Id, Document>)
    ensures DocumentsKept(documents, documents)
  {
  }

  lemma FinishQuarantine(w0: World, w2: World, w3: World, path: string)
    requires Aside(w0, w2) && Incoming(path) in w2.files
    requires Aside(w2, w3) || MovedAside(w2, w3, Incoming(path), Quarantine(Basename(path)))
    ensures Turned(w0, w3, path)
    ensures MovedAside(w2, w3, Incoming(path), Quarantine(Basename(path))) && Incoming(path) in w0.files
            ==> w3.config == w0.config
                && Quarantine(Basename(path)) in w3.files
                && w3.files[Quarantine(Basename(path))] == w0.files[Incoming(path)]
  {
    hide Basename;
    AsideTransitive(w0, w2, w3);
    KeptReflexive(w0.db.documents);
    if Aside(w2, w3) {
      hide MovedAside;
      AsideIsTurned(w0, w3, path);
    } else {
      MovedIsTurned(w0, w2, w3, path, Quarantine(Basename(path)));
    }
  }

  lemma FinishDocument(w0: World, w1: World, w2: World, w3: World, path: string, doc: IngestedDocument)
    requires Aside(w0, w1) && w2 == w1.(ingest := w2.ingest) && w3.config == w0.config && doc.path == path
    requires Incoming(path) in w1.files
    requires Validate(path, w1.files[Incoming(path)].content, w1.config.maxBytes) == Accepted(doc)
    ensures Incoming(path) in w0.files && DocumentSettled(w2, w3, doc)
            ==> Settled(w3, path, w0.files[Incoming(path)])
                && (Stuck(w3, path, w0.files[Incoming(path)]) <==> Refused(w2.db.documents, doc))
  {
    hide Validate;
    hide Basename;
    hide Uuid.Parse;
    hide Refused;
  }

  // ---------------------------------------------------------------------------
  // One poll
  // ---------------------------------------------------------------------------

  /** The listed files are there, under names of their own that no processed or quarantined file has. */
  predicate Drainable(w: World, listing: seq<string>) {
    && (forall k :: 0 <= k < |listing| ==> Incoming(listing[k]) in w.files && TargetsFree(w, listing[k]))
    && (forall j, k :: 0 <= j < k < |listing| ==> Basename(listing[j]) != Basename(listing[k]))
  }

  lemma SettledStays(w: World, w': World, path: string, f: File, other: string)
    requires Settled(w, path, f) && Turned(w, w', other) && Basename(other) != Basename(path)
    ensures Settled(w', path, f)
  {
    hide Validate;
    hide Basename;
    hide Uuid.Parse;
  }

  lemma WaitingStays(w: World, w': World, path: string, other: string)
    requires Turned(w, w', other) && Basename(other) != Basename(path)
    requires Incoming(path) in w.files && TargetsFree(w, path)
    ensures Incoming(path) in w'.files && w'.files[Incoming(path)] == w.files[Incoming(path)] && TargetsFree(w', path)
  {
    hide Basename;
  }

  /** Files in the target folders stay there. */
  predicate TargetsKept(files: map<Location, File>, files': map<Location, File>) {
    forall place :: place in files && !place.Incoming? ==> place in files' && files'[place] == files[place]
  }

  /**
   How far a poll has come whose turns began at the given positions: each file that has had a turn
   without a fault is settled, and the files still to come wait untouched.
   */
  predicate PolledTo(script: nat -> Slot, w0: World, w: World, listing: seq<string>, starts: seq<nat>)
    requires Drainable(w0, listing) && 1 <= |starts| <= |listing| + 1
  {
    && (forall j :: 0 <= j < |starts| - 1 && FaultFree(script, starts[j], starts[j + 1])
          ==> Settled(w, listing[j], w0.files[Incoming(listing[j])]))
    && (forall j :: |starts| - 1 <= j < |listing| ==>
          Incoming(listing[j]) in w.files && w.files[Incoming(listing[j])] == w0.files[Incoming(listing[j])]
          && TargetsFree(w, listing[j]))
  }

  lemma PolledOn(
    script: nat -> Slot, w0: World, w: World, w': World, listing: seq<string>, starts: seq<nat>, end: nat)
    requires Drainable(w0, listing) && 1 <= |starts| <= |listing| && PolledTo(script, w0, w, listing, starts)
    requires var path := listing[|starts| - 1];
             Turned(w, w', path)
             && (FaultFree(script, starts[|starts| - 1], end) ==> Settled(w', path, w0.files[Incoming(path)]))
    ensures PolledTo(script, w0, w', listing, starts + [end])
  {
    hide Settled;
    hide Turned;
    hide Basename;
    hide TargetsFree;
    hide FaultFree;
    var k, starts' := |starts| - 1, starts + [end];
    forall j | 0 <= j < k && FaultFree(script, starts'[j], starts'[j + 1])
      ensures Settled(w', listing[j], w0.files[Incoming(listing[j])])
    {
      assert starts'[j] == starts[j] && starts'[j + 1] == starts[j + 1];
      SettledStays(w, w', listing[j], w0.files[Incoming(listing[j])], listing[k]);
    }
    forall j | k < j < |listing|
      ensures Incoming(listing[j]) in w'.files && w'.files[Incoming(listing[j])] == w0.files[Incoming(listing[j])]
              && TargetsFree(w', listing[j])
    {
      WaitingStays(w, w', listing[j], listing[k]);
    }
  }

  /**
   `poll_once` over a listing: an error of one file does not keep the others from their turn. Each
   listed file whose own turn is free of faults ends where Settled says, whatever the order of the
   listing, whatever happens to the other files and whatever other processes do meanwhile. The result
   tells where in the script the turns begin and end.
   */
  method PollOnce(p: Plant, listing: seq<string>) returns (ghost starts: seq<nat>)
    requires p.Valid() && p.world.ingest.Idle?
    modifies p
    ensures p.Valid() && p.world.ingest.Idle?
    ensures TargetsKept(old(p.world.files), p.world.files) && p.world.config == old(p.world.config)
    ensures |starts| == |listing| + 1 && starts[0] == old(p.position) && starts[|listing|] == p.position
    ensures Drainable(old(p.world), listing) ==> PolledTo(p.script, old(p.world), p.world, listing, starts)
  {
    hide Plant.Valid;
    hide Basename;
    hide Settled;
    hide TargetsFree;
    hide FaultFree;
    ghost var w0 := p.world;
    starts := [p.position];
    for k := 0 to |listing|
      invariant p.Valid() && p.world.ingest.Idle?
      invariant |starts| == k + 1 && starts[0] == old(p.position) && starts[k] == p.position
      invariant TargetsKept(w0.files, p.world.files) && p.world.config == w0.config
      invariant Drainable(w0, listing) ==> PolledTo(p.script, w0, p.world, listing, starts)
    {
      ghost var w := p.world;
      var _ := ProcessRemoteFile(p, listing[k]);
      if Drainable(w0, listing) {
        PolledOn(p.script, w0, w, p.world, listing, starts, p.position);
      }
      starts := starts + [p.position];
    }
  }

  /** Every turn of a poll was free of faults. */
  predicate AllFaultFree(script: nat -> Slot, starts: seq<nat>) {
    forall j :: 0 <= j < |starts| - 1 ==> FaultFree(script, starts[j], starts[j + 1])
  }

  /**
   Draining: after a fault-free poll of everything that was there, each file in the drop folder is
   stuck or was dropped after the listing.
   */
  lemma Drained(
    script: nat -> Slot, w0: World, w: World, listing: seq<string>, starts: seq<nat>, path: string)
    requires Conserved(w0.files, w0.dropped) && Conserved(w.files, w.dropped)
    requires Drainable(w0, listing) && |starts| == |listing| + 1 && PolledTo(script, w0, w, listing, starts)
    requires AllFaultFree(script, starts) && TargetsKept(w0.files, w.files)
    requires forall q :: Incoming(q) in w0.files ==> q in listing
    requires Incoming(path) in w.files && w.files[Incoming(path)].serial < w0.dropped
    ensures Stuck(w, path, w.files[Incoming(path)])
  {
    hide Validate;
    hide Basename;
    hide Uuid.Parse;
    hide FaultFree;
    var f := w.files[Incoming(path)];
    assert Lies(w0.files, f.serial);
    var place :| place in w0.files && w0.files[place].serial == f.serial;
    if place.Incoming? {
      var j :| 0 <= j < |listing| && listing[j] == place.path;
      assert FaultFree(script, starts[j], starts[j + 1]);
      assert Settled(w, place.path, w0.files[place]);
    } else {
      assert false;
    }
  }

  /** Every file that was there at the beginning and still waits in the drop folder is stuck. */
  ghost predicate OldFilesStuck(w0: World, w: World) {
    forall path :: Incoming(path) in w.files && w.files[Incoming(path)].serial < w0.dropped
      ==> Stuck(w, path, w.files[Incoming(path)])
  }

  /** A poll of everything that is there, with the draining that it promises when no turn meets a fault. */
  method DrainOnce(p: Plant, listing: seq<string>) returns (ghost starts: seq<nat>)
    requires p.Valid() && p.world.ingest.Idle?
    modifies p
    ensures p.Valid() && p.world.ingest.Idle?
    ensures |starts| == |listing| + 1 && starts[0] == old(p.position) && starts[|listing|] == p.position
    ensures Drainable(old(p.world), listing) && (forall q :: Incoming(q) in old(p.world.files) ==> q in listing)
            && AllFaultFree(p.script, starts)
            ==> OldFilesStuck(old(p.world), p.world)
  {
    hide Run;
    ghost var w0 := p.world;
    F.FilesConserved(p.config, p.trace);
    starts := PollOnce(p, listing);
    F.FilesConserved(p.config, p.trace);
    hide *;
    if Drainable(w0, listing) && (forall q :: Incoming(q) in w0.files ==> q in listing)
       && AllFaultFree(p.script, starts) {
      AllDrained(p.script, w0, p.world, listing, starts);
    }
  }

  lemma AllDrained(script: nat -> Slot, w0: World, w: World, listing: seq<string>, starts: seq<nat>)
    requires Conserved(w0.files, w0.dropped) && Conserved(w.files, w.dropped)
    requires Drainable(w0, listing) && |starts| == |listing| + 1 && PolledTo(script, w0, w, listing, starts)
    requires AllFaultFree(script, starts) && TargetsKept(w0.files, w.files)
    requires forall q :: Incoming(q) in w0.files ==> q in listing
    ensures OldFilesStuck(w0, w)
  {
    hide Conserved;
    hide Drainable;
    hide PolledTo;
    hide AllFaultFree;
    hide TargetsKept;
    hide Stuck;
    forall path | Incoming(path) in w.files && w.files[Incoming(path)].serial < w0.dropped
      ensures Stuck(w, path, w.files[Incoming(path)])
    {
      Drained(script, w0, w, listing, starts, path);
    }
  }
}
