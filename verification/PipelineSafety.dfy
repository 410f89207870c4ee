/**
 What holds in every state that the pipeline can reach, under every schedule of faults, retries,
 crashes, re-deliveries and requests.
 */
module PipelineSafety {
  import opened Prelude
  import opened Paths
  import opened Database
  import opened Protocol
  import S = Services
  import T = Tables
  import Uuid

  // ---------------------------------------------------------------------------
  // The invariant
  // ---------------------------------------------------------------------------

  /** The document has a committed row, filed under the batch that the text names. */
  predicate RowFiled(db: Db, batch: string, document: string) {
    && Uuid.Parse(batch).Some? && Uuid.Parse(document).Some?
    && Uuid.Parse(document).value in db.documents
    && db.documents[Uuid.Parse(document).value].batch == Uuid.Parse(batch).value
    && Uuid.Parse(batch).value in db.batches
  }

  /** A prediction row exists for the ids that the texts name. */
  predicate Predicted(db: Db, batch: string, document: string) {
    && Uuid.Parse(batch).Some? && Uuid.Parse(document).Some?
    && FindKey(db.predictions, Uuid.Parse(batch).value, Uuid.Parse(document).value) < |db.predictions|
  }

  /** What the worker relies on without checking it. */
  predicate JobGrounded(w: World, job: Job) {
    job.key == BlobKey(job.batch, job.document) && job.key in w.documents && RowFiled(w.db, job.batch, job.document)
  }

  predicate StatusGrounded(w: World, record: JobRecord) {
    match record.status
    case Running(Recording(_)) => OverlayObject(record.job) in w.overlays
    case Finished => Predicted(w.db, record.job.batch, record.job.document)
    case _ => true
  }

  predicate JobsInvariant(w: World) {
    forall i :: 0 <= i < |w.jobs| ==> JobGrounded(w, w.jobs[i].job) && StatusGrounded(w, w.jobs[i])
  }

  /** Every prediction carries the batch of its document's row. */
  predicate RowsFiled(db: Db) {
    forall i :: 0 <= i < |db.predictions| ==>
      && db.predictions[i].document in db.documents
      && db.documents[db.predictions[i].document].batch == db.predictions[i].batch
  }

  /** Every prediction's overlay is where the API looks for it. */
  predicate OverlaysStored(rows: seq<Prediction>, overlays: set<string>) {
    forall i :: 0 <= i < |rows| ==> OverlayLookup(rows[i].overlay) in overlays
  }

  predicate HasJob(w: World, doc: IngestedDocument) {
    exists i :: 0 <= i < |w.jobs| && w.jobs[i].job == JobFor(doc)
  }

  /** Everything that must have happened before a file may leave the drop folder. */
  predicate Secured(w: World, doc: IngestedDocument) {
    doc.key in w.documents && RowFiled(w.db, doc.batch, doc.document) && HasJob(w, doc)
  }

  predicate Waiting(w: World, path: string) {
    Incoming(path) in w.files && w.files[Incoming(path)].path == path
  }

  predicate Chosen(w: World, doc: IngestedDocument) {
    Waiting(w, doc.path)
    && Validate(doc.path, w.files[Incoming(doc.path)].content, w.config.maxBytes) == Accepted(doc)
  }

  predicate IngestInvariant(w: World) {
    match w.ingest
    case Idle => true
    case ToUpload(doc) => Chosen(w, doc)
    case ToRow(doc) => Chosen(w, doc) && doc.key in w.documents
    case ToEnqueue(doc) => Chosen(w, doc) && doc.key in w.documents && RowFiled(w.db, doc.batch, doc.document)
    case ToMove(doc) => Chosen(w, doc) && Secured(w, doc)
    case ToQuarantine(path) =>
      Waiting(w, path) && Validate(path, w.files[Incoming(path)].content, w.config.maxBytes) == Rejected
  }

  /** What is known of a file from the place where it lies. */
  predicate Placed(w: World, place: Location)
    requires place in w.files
  {
    var f := w.files[place];
    match place
    case Incoming(path) => f.path == path
    case Processed(name) =>
      var v := Validate(f.path, f.content, w.config.maxBytes);
      name == Basename(f.path) && v.Accepted? && Secured(w, v.doc)
    case Quarantine(name) =>
      name == Basename(f.path) && Validate(f.path, f.content, w.config.maxBytes) == Rejected
  }

  predicate FilesInvariant(w: World) {
    forall place :: place in w.files ==> Placed(w, place)
  }

  /** File number n lies somewhere. */
  predicate Lies(files: map<Location, File>, n: nat) {
    exists place :: place in files && files[place].serial == n
  }

  /** Every file ever dropped lies in exactly one place. */
  predicate Conserved(files: map<Location, File>, dropped: nat) {
    && (forall place :: place in files ==> files[place].serial < dropped)
    && (forall p, q :: p in files && q in files && files[p].serial == files[q].serial ==> p == q)
    && (forall n: nat :: n < dropped ==> Lies(files, n))
  }

  predicate Invariant(w: World) {
    && JobsInvariant(w)
    && RowsFiled(w.db)
    && OverlaysStored(w.db.predictions, w.overlays.Keys)
    && IngestInvariant(w)
    && FilesInvariant(w)
  }

  // ---------------------------------------------------------------------------
  // What never goes away
  // ---------------------------------------------------------------------------

  predicate TablesGrow(db: Db, db': Db) {
    && db.batches.Keys <= db'.batches.Keys
    && (forall d :: d in db.documents ==> d in db'.documents && db'.documents[d].batch == db.documents[d].batch)
    && |db.predictions| <= |db'.predictions|
    && (forall i :: 0 <= i < |db.predictions| ==>
          db'.predictions[i].batch == db.predictions[i].batch
          && db'.predictions[i].document == db.predictions[i].document)
  }

  predicate JobsGrow(jobs: seq<JobRecord>, jobs': seq<JobRecord>) {
    |jobs| <= |jobs'| && forall i :: 0 <= i < |jobs| ==> jobs'[i].job == jobs[i].job
  }

  /** Objects, rows and jobs stay; so does everything about them that the invariant mentions. */
  predicate Grows(w: World, w': World) {
    && w'.config == w.config
    && w.documents.Keys <= w'.documents.Keys
    && w.overlays.Keys <= w'.overlays.Keys
    && TablesGrow(w.db, w'.db)
    && JobsGrow(w.jobs, w'.jobs)
  }

  lemma WriteGrows(db: Db, result: S.WorkerResult, now: nat)
    ensures TablesGrow(db, S.Commit(db, S.WorkerWrite(result, now)))
  {
    hide Uuid.Parse;
    if S.Attempt(db, S.WorkerWrite(result, now)).Ok? {
      S.RecordEffect(db, S.PredictionFor(result), now);
    }
    hide S.RecordPrediction;
    hide S.PredictionFor;
  }

  lemma CommitGrows(db: Db, t: S.Transaction)
    ensures TablesGrow(db, S.Commit(db, t))
  {
    hide Uuid.Parse;
    hide S.Handle;
    match t
    case IngestRow(_, _, _) =>
    case WorkerWrite(result, now) =>
      WriteGrows(db, result, now);
    case Http(r) =>
      T.HttpKeepsRows(db, r);
      hide S.Attempt;
      hide S.Commit;
  }

  /** The part of Grows that does not concern the tables. */
  predicate ObjectsGrow(w: World, w': World) {
    && w'.config == w.config
    && w.documents.Keys <= w'.documents.Keys
    && w.overlays.Keys <= w'.overlays.Keys
    && JobsGrow(w.jobs, w'.jobs)
  }

  lemma IngestStepGrows(w: World, ending: Ending)
    ensures ObjectsGrow(w, IngestStep(w, ending))
  {
    hide S.Attempt;
    hide S.Commit;
    hide Rename;
    hide CanRename;
    hide Basename;
  }

  lemma WorkStepGrows(w: World, i: nat, ending: Ending, id: Id, latency: real, now: nat)
    requires i < |w.jobs| && w.jobs[i].status.Running?
    ensures ObjectsGrow(w, WorkStep(w, i, ending, id, latency, now))
  {
    hide S.Attempt;
    hide S.Commit;
    hide ResultOf;
    hide OverlayObject;
  }

  lemma OtherStepGrows(w: World, e: Event)
    requires !e.Call? && !e.Work?
    ensures ObjectsGrow(w, Step(w, e))
  {
    hide S.Commit;
    hide AfterFetch;
  }

  lemma StepGrows(w: World, e: Event)
    ensures Grows(w, Step(w, e))
  {
    CommittedIs(w, e);
    if Committed(w, e).Some? {
      CommitGrows(w.db, Committed(w, e).value);
    }
    assert TablesGrow(w.db, Step(w, e).db);
    if e.Call? {
      IngestStepGrows(w, e.ending);
    } else if e.Work? {
      if e.job < |w.jobs| && w.jobs[e.job].status.Running? {
        WorkStepGrows(w, e.job, e.ending, e.id, e.latency, e.now);
      }
    } else {
      OtherStepGrows(w, e);
    }
    hide TablesGrow;
    hide S.Commit;
    hide Committed;
    hide IngestStep;
    hide WorkStep;
    hide AfterFetch;
    hide JobsGrow;
  }

  lemma RowFiledStays(db: Db, db': Db, batch: string, document: string)
    requires TablesGrow(db, db') && RowFiled(db, batch, document)
    ensures RowFiled(db', batch, document)
  {
  }

  lemma PredictedStays(db: Db, db': Db, batch: string, document: string)
    requires TablesGrow(db, db') && Predicted(db, batch, document)
    ensures Predicted(db', batch, document)
  {
    var b, d := Uuid.Parse(batch).value, Uuid.Parse(document).value;
    var i := FindKey(db.predictions, b, d);
    assert db'.predictions[i].batch == b && db'.predictions[i].document == d;
  }

  lemma GroundedStays(w: World, w': World, record: JobRecord)
    requires Grows(w, w') && JobGrounded(w, record.job)
    ensures JobGrounded(w', record.job)
    ensures StatusGrounded(w, record) ==> StatusGrounded(w', record)
  {
    RowFiledStays(w.db, w'.db, record.job.batch, record.job.document);
    if Predicted(w.db, record.job.batch, record.job.document) {
      PredictedStays(w.db, w'.db, record.job.batch, record.job.document);
    }
  }

  lemma SecuredStays(w: World, w': World, doc: IngestedDocument)
    requires Grows(w, w') && Secured(w, doc)
    ensures Secured(w', doc)
  {
    RowFiledStays(w.db, w'.db, doc.batch, doc.document);
    var i :| 0 <= i < |w.jobs| && w.jobs[i].job == JobFor(doc);
    assert w'.jobs[i].job == JobFor(doc);
  }

  lemma JobsStay(w: World, w': World)
    requires Grows(w, w') && JobsInvariant(w)
    ensures forall i :: 0 <= i < |w.jobs| ==>
              JobGrounded(w', w.jobs[i].job) && StatusGrounded(w', w.jobs[i])
  {
    hide Grows;
    hide JobGrounded;
    hide StatusGrounded;
    forall i | 0 <= i < |w.jobs|
      ensures JobGrounded(w', w.jobs[i].job) && StatusGrounded(w', w.jobs[i])
    {
      GroundedStays(w, w', w.jobs[i]);
    }
  }

  // ---------------------------------------------------------------------------
  // Tables: predictions stay filed, overlays stay stored
  // ---------------------------------------------------------------------------

  lemma WriteFiled(db: Db, result: S.WorkerResult, now: nat, overlays: set<string>)
    requires RowsFiled(db) && OverlaysStored(db.predictions, overlays)
    requires RowFiled(db, result.batch, result.document)
    requires OverlayLookup(OverlayKey(result.batch, result.document)) in overlays
    ensures var db' := S.Commit(db, S.WorkerWrite(result, now));
            RowsFiled(db') && OverlaysStored(db'.predictions, overlays)
  {
    hide Uuid.Parse;
    hide OverlayLookup;
    hide OverlayKey;
    if S.Attempt(db, S.WorkerWrite(result, now)).Ok? {
      S.RecordEffect(db, S.PredictionFor(result), now);
    }
    hide S.RecordPrediction;
  }

  lemma IngestFiled(db: Db, doc: IngestedDocument)
    requires RowsFiled(db)
    ensures var db' := S.Commit(db, RowTransaction(doc));
            RowsFiled(db') && db'.predictions == db.predictions
    ensures S.Attempt(db, RowTransaction(doc)).Ok?
            ==> RowFiled(S.Commit(db, RowTransaction(doc)), doc.batch, doc.document)
  {
    hide Uuid.Parse;
  }

  lemma ServeFiled(db: Db, request: S.Request, overlays: set<string>)
    requires RowsFiled(db) && OverlaysStored(db.predictions, overlays)
    ensures var db' := S.Commit(db, S.Http(request));
            RowsFiled(db') && OverlaysStored(db'.predictions, overlays)
  {
    T.HttpKeepsRows(db, request);
    hide S.Commit;
    hide OverlayLookup;
    var db' := S.Commit(db, S.Http(request));
    forall i | 0 <= i < |db'.predictions|
      ensures db'.predictions[i].document == db.predictions[i].document
      ensures db'.predictions[i].batch == db.predictions[i].batch
      ensures db'.predictions[i].overlay == db.predictions[i].overlay
    {
    }
  }

  lemma WrittenIsPredicted(db: Db, result: S.WorkerResult, now: nat)
    requires S.Attempt(db, S.WorkerWrite(result, now)).Ok?
    ensures Predicted(S.Commit(db, S.WorkerWrite(result, now)), result.batch, result.document)
  {
    hide Uuid.Parse;
    var p := S.PredictionFor(result);
    S.RecordEffect(db, p, now);
    hide S.RecordPrediction;
    var b, d := Uuid.Parse(result.batch).value, Uuid.Parse(result.document).value;
    var rows := Upsert(db.predictions, p, b, d, now);
    var i := FindKey(db.predictions, b, d);
    assert rows[i].batch == b && rows[i].document == d;
  }

  // ---------------------------------------------------------------------------
  // Files
  // ---------------------------------------------------------------------------

  lemma FilesStay(w: World, w': World)
    requires Grows(w, w') && FilesInvariant(w) && w'.files == w.files
    ensures FilesInvariant(w')
  {
    hide Grows;
    hide Secured;
    forall place | place in w'.files
      ensures Placed(w', place)
    {
      PlacedStays(w, w', place);
    }
  }

  lemma PlacedStays(w: World, w': World, place: Location)
    requires Grows(w, w') && place in w.files && Placed(w, place)
    requires place in w'.files && w'.files[place] == w.files[place]
    ensures Placed(w', place)
  {
    var f := w.files[place];
    var v := Validate(f.path, f.content, w.config.maxBytes);
    if v.Accepted? && Secured(w, v.doc) {
      SecuredStays(w, w', v.doc);
    }
    hide Secured;
    hide Validate;
  }

  lemma ChosenStays(w: World, w': World, doc: IngestedDocument)
    requires w'.config == w.config && Chosen(w, doc)
    requires Incoming(doc.path) in w'.files && w'.files[Incoming(doc.path)] == w.files[Incoming(doc.path)]
    ensures Chosen(w', doc)
  {
  }

  /** Steps that leave the ingest process and its file alone keep what is known about them. */
  lemma IngestStays(w: World, w': World)
    requires Grows(w, w') && IngestInvariant(w) && w'.ingest == w.ingest
    requires forall place :: place in w.files ==> place in w'.files && w'.files[place] == w.files[place]
    ensures IngestInvariant(w')
  {
    match w.ingest
    case Idle =>
    case ToUpload(doc) => ChosenStays(w, w', doc);
    case ToRow(doc) => ChosenStays(w, w', doc);
    case ToEnqueue(doc) =>
      ChosenStays(w, w', doc);
      RowFiledStays(w.db, w'.db, doc.batch, doc.document);
    case ToMove(doc) =>
      ChosenStays(w, w', doc);
      SecuredStays(w, w', doc);
      hide Secured;
    case ToQuarantine(path) =>
  }

  // ---------------------------------------------------------------------------
  // One step of each process
  // ---------------------------------------------------------------------------

  lemma DropKeeps(w: World, path: string, content: Content)
    requires Invariant(w)
    ensures Invariant(Step(w, Drop(path, content)))
  {
    var w' := Step(w, Drop(path, content));
    StepGrows(w, Drop(path, content));
    JobsStay(w, w');
    IngestStays(w, w');
    forall place | place in w'.files
      ensures Placed(w', place)
    {
      if place in w.files {
        PlacedStays(w, w', place);
      }
    }
    hide Grows;
    hide Placed;
    hide JobGrounded;
    hide StatusGrounded;
    hide IngestInvariant;
    hide RowsFiled;
    hide OverlaysStored;
  }

  /** A step that only touches jobs: the file side is as before, each job is grounded as stated. */
  lemma JobStepKeeps(w: World, w': World)
    requires Invariant(w) && Grows(w, w')
    requires w'.files == w.files && w'.ingest == w.ingest
    requires RowsFiled(w'.db) && OverlaysStored(w'.db.predictions, w'.overlays.Keys)
    requires JobsInvariant(w')
    ensures Invariant(w')
  {
    FilesStay(w, w');
    IngestStays(w, w');
  }

  lemma OverlaysStayStored(rows: seq<Prediction>, overlays: set<string>, overlays': set<string>)
    requires OverlaysStored(rows, overlays) && overlays <= overlays'
    ensures OverlaysStored(rows, overlays')
  {
    hide OverlayLookup;
  }

  /** Setting one job's status to something that promises nothing new. */
  lemma StatusKeeps(w: World, w': World, i: nat, status: Status)
    requires Invariant(w) && i < |w.jobs|
    requires Grows(w, w')
    requires w' == w.(overlays := w'.overlays, db := w'.db, jobs := w.jobs[i := JobRecord(w.jobs[i].job, status)])
    requires RowsFiled(w'.db) && OverlaysStored(w'.db.predictions, w'.overlays.Keys)
    requires StatusGrounded(w', JobRecord(w.jobs[i].job, status))
    ensures Invariant(w')
  {
    hide RowsFiled;
    hide OverlaysStored;
    hide Grows;
    hide IngestInvariant;
    hide FilesInvariant;
    hide JobGrounded;
    hide StatusGrounded;
    JobsStay(w, w');
    JobStepKeeps(w, w');
  }

  lemma DuplicateKeeps(w: World, i: nat)
    requires Invariant(w) && i < |w.jobs|
    ensures Invariant(Step(w, Duplicate(i)))
  {
    hide Uuid.Parse;
    var w' := Step(w, Duplicate(i));
    StepGrows(w, Duplicate(i));
    JobsStay(w, w');
    assert w'.jobs[|w.jobs|] == JobRecord(w.jobs[i].job, Queued);
    assert JobsInvariant(w');
    hide JobGrounded;
    JobStepKeeps(w, w');
  }

  lemma ServeKeeps(w: World, request: S.Request)
    requires Invariant(w)
    ensures Invariant(Step(w, Serve(request)))
  {
    var w' := Step(w, Serve(request));
    StepGrows(w, Serve(request));
    JobsStay(w, w');
    ServeFiled(w.db, request, w.overlays.Keys);
    hide S.Commit;
    hide RowsFiled;
    hide OverlaysStored;
    hide JobGrounded;
    hide StatusGrounded;
    hide Grows;
    hide IngestInvariant;
    hide FilesInvariant;
    JobStepKeeps(w, w');
  }

  lemma PutOverlayKeeps(w: World, i: nat, content: Content, ending: Ending)
    requires Invariant(w) && i < |w.jobs| && Grows(w, PutOverlay(w, i, content, ending))
    ensures Invariant(PutOverlay(w, i, content, ending))
  {
    var w' := PutOverlay(w, i, content, ending);
    OverlaysStayStored(w.db.predictions, w.overlays.Keys, w'.overlays.Keys);
    if ending.Success? {
      StatusKeeps(w, w', i, Running(Recording(content)));
    } else {
      JobsStay(w, w');
      hide Grows;
      hide JobGrounded;
      hide StatusGrounded;
      hide OverlaysStored;
      JobStepKeeps(w, w');
    }
  }

  /** The API looks for an overlay where the worker put it. */
  lemma LookupIsObject(batch: string, document: string, key: string)
    ensures OverlayLookup(OverlayKey(batch, document)) == OverlayObject(Job(batch, document, key))
  {
    OverlayPutTarget(batch, document);
    assert OverlayKey(batch, document)[8] == '/';
    OverlayLookupAgrees(OverlayKey(batch, document));
  }

  lemma RecordKeeps(w: World, i: nat, content: Content, id: Id, latency: real, now: nat, ending: Ending)
    requires Invariant(w) && i < |w.jobs| && w.jobs[i].status == Running(Recording(content))
    requires var t := S.WorkerWrite(ResultOf(w, w.jobs[i].job, content, id, latency), now);
             Grows(w, Record(w, i, t, ending))
    ensures var t := S.WorkerWrite(ResultOf(w, w.jobs[i].job, content, id, latency), now);
            Invariant(Record(w, i, t, ending))
  {
    hide Uuid.Parse;
    var result := ResultOf(w, w.jobs[i].job, content, id, latency);
    var t := S.WorkerWrite(result, now);
    var w' := Record(w, i, t, ending);
    assert JobGrounded(w, w.jobs[i].job) && StatusGrounded(w, w.jobs[i]);
    LookupIsObject(result.batch, result.document, w.jobs[i].job.key);
    WriteFiled(w.db, result, now, w.overlays.Keys);
    if S.Attempt(w.db, t).Ok? {
      WrittenIsPredicted(w.db, result, now);
    }
    hide S.Attempt;
    hide S.Commit;
    hide OverlayKey;
    hide OverlayLookup;
    hide OverlayObject;
    hide RowsFiled;
    hide OverlaysStored;
    hide Grows;
    if S.Attempt(w.db, t).Ok? && ending.Success? {
      StatusKeeps(w, w', i, Finished);
    } else {
      JobsStay(w, w');
      JobStepKeeps(w, w');
    }
  }

  lemma WorkKeeps(w: World, i: nat, ending: Ending, id: Id, latency: real, now: nat)
    requires Invariant(w)
    ensures Invariant(Step(w, Work(i, ending, id, latency, now)))
  {
    StepGrows(w, Work(i, ending, id, latency, now));
    if i < |w.jobs| && w.jobs[i].status.Running? {
      var progress := w.jobs[i].status.progress;
      hide Grows;
      hide Invariant;
      if progress.Fetching? {
        GetBlobKeeps(w, i, ending);
      } else if progress.Drawing? {
        hide Record;
        PutOverlayKeeps(w, i, progress.content, ending);
      } else {
        hide PutOverlay;
        hide ResultOf;
        RecordKeeps(w, i, progress.content, id, latency, now, ending);
      }
    }
  }

  lemma GetBlobKeeps(w: World, i: nat, ending: Ending)
    requires Invariant(w) && i < |w.jobs| && Grows(w, GetBlob(w, i, ending))
    ensures Invariant(GetBlob(w, i, ending))
  {
    var key := w.jobs[i].job.key;
    if ending.Success? && key in w.documents {
      StatusKeeps(w, GetBlob(w, i, ending), i, Running(Drawing(w.documents[key])));
    }
  }

  lemma QueueStepKeeps(w: World, e: Event)
    requires Invariant(w) && (e.Take? || e.Retry? || e.Fail? || e.Requeue?)
    ensures Invariant(Step(w, e))
  {
    StepGrows(w, e);
    var w' := Step(w, e);
    if w' != w {
      StatusKeeps(w, w', e.job, w'.jobs[e.job].status);
    }
    hide Invariant;
    hide Grows;
  }

  // ---------------------------------------------------------------------------
  // The ingest process
  // ---------------------------------------------------------------------------

  /** A step of the ingest process that moves no file. */
  lemma IngestStepKeeps(w: World, w': World)
    requires Invariant(w) && Grows(w, w') && w'.files == w.files
    requires w'.overlays == w.overlays
    requires RowsFiled(w'.db) && w'.db.predictions == w.db.predictions
    requires w'.jobs == w.jobs
    requires IngestInvariant(w')
    ensures Invariant(w')
  {
    hide Grows;
    hide IngestInvariant;
    hide RowsFiled;
    hide OverlaysStored;
    hide JobGrounded;
    hide StatusGrounded;
    JobsStay(w, w');
    FilesStay(w, w');
  }

  lemma UploadKeeps(w: World, doc: IngestedDocument, ending: Ending)
    requires Invariant(w) && w.ingest == ToUpload(doc) && Grows(w, Upload(w, doc, ending))
    ensures Invariant(Upload(w, doc, ending))
  {
    var w' := Upload(w, doc, ending);
    ChosenStays(w, w', doc);
    hide Chosen;
    hide Grows;
    IngestStepKeeps(w, w');
  }

  lemma EnsureRowKeeps(w: World, doc: IngestedDocument, ending: Ending)
    requires Invariant(w) && w.ingest == ToRow(doc) && Grows(w, EnsureRow(w, doc, ending))
    ensures Invariant(EnsureRow(w, doc, ending))
  {
    hide Uuid.Parse;
    var w' := EnsureRow(w, doc, ending);
    IngestFiled(w.db, doc);
    hide S.Attempt;
    hide S.Commit;
    hide RowsFiled;
    ChosenStays(w, w', doc);
    hide Chosen;
    hide RowFiled;
    IngestStepKeeps(w, w');
  }

  lemma EnqueueKeeps(w: World, doc: IngestedDocument, ending: Ending)
    requires Invariant(w) && w.ingest == ToEnqueue(doc) && Grows(w, Enqueue(w, doc, ending))
    ensures Invariant(Enqueue(w, doc, ending))
  {
    hide Uuid.Parse;
    hide ParseRemotePath;
    hide BlobKey;
    var w' := Enqueue(w, doc, ending);
    ChosenStays(w, w', doc);
    JobsStay(w, w');
    FilesStay(w, w');
    assert JobGrounded(w', JobFor(doc));
    if TakesEffect(ending) {
      assert w'.jobs[|w.jobs|].job == JobFor(doc);
    }
    hide Chosen;
    hide RowFiled;
    hide Grows;
    hide FilesInvariant;
  }

  /** A completed move: the file is known to be what its new place promises. */
  lemma MoveKeeps(w: World, path: string, to: Location)
    requires Invariant(w) && Waiting(w, path) && to !in w.files && !to.Incoming?
    requires var w' := w.(files := Rename(w.files, Incoming(path), to), ingest := Idle);
             Placed(w', to)
    ensures Invariant(w.(files := Rename(w.files, Incoming(path), to), ingest := Idle))
  {
    hide Uuid.Parse;
    var w' := w.(files := Rename(w.files, Incoming(path), to), ingest := Idle);
    assert Grows(w, w');
    JobsStay(w, w');
    forall place | place in w'.files
      ensures Placed(w', place)
    {
      if place != to {
        PlacedStays(w, w', place);
      }
    }
    hide Placed;
    hide JobGrounded;
    hide StatusGrounded;
    hide RowsFiled;
    hide OverlaysStored;
  }

  lemma MoveProcessedKeeps(w: World, doc: IngestedDocument, ending: Ending)
    requires Invariant(w) && w.ingest == ToMove(doc)
    ensures Invariant(IngestStep(w, ending))
  {
    var to := Processed(Basename(doc.path));
    if CanRename(w.files, Incoming(doc.path), to) && TakesEffect(ending) {
      var w' := w.(files := Rename(w.files, Incoming(doc.path), to), ingest := Idle);
      hide Basename;
      assert Grows(w, w');
      SecuredStays(w, w', doc);
      hide Secured;
      hide Grows;
      assert Placed(w', to);
      hide Placed;
      hide Validate;
      MoveKeeps(w, doc.path, to);
    }
  }

  lemma MoveQuarantineKeeps(w: World, path: string, ending: Ending)
    requires Invariant(w) && w.ingest == ToQuarantine(path)
    ensures Invariant(IngestStep(w, ending))
  {
    var to := Quarantine(Basename(path));
    if CanRename(w.files, Incoming(path), to) && TakesEffect(ending) {
      MoveKeeps(w, path, to);
    }
  }

  lemma CallKeeps(w: World, ending: Ending)
    requires Invariant(w)
    ensures Invariant(Step(w, Call(ending)))
  {
    StepGrows(w, Call(ending));
    hide Grows;
    hide Invariant;
    hide Upload;
    hide EnsureRow;
    hide Enqueue;
    hide MoveTo;
    match w.ingest
    case Idle =>
    case ToUpload(doc) => UploadKeeps(w, doc, ending);
    case ToRow(doc) => EnsureRowKeeps(w, doc, ending);
    case ToEnqueue(doc) => EnqueueKeeps(w, doc, ending);
    case ToMove(doc) => MoveProcessedKeeps(w, doc, ending);
    case ToQuarantine(path) => MoveQuarantineKeeps(w, path, ending);
  }

  lemma FetchKeeps(w: World, path: string)
    requires Invariant(w)
    ensures Invariant(Step(w, Fetch(path)))
  {
    var w' := Step(w, Fetch(path));
    if w' != w {
      StepGrows(w, Fetch(path));
      assert Placed(w, Incoming(path));
      assert IngestInvariant(w');
      IngestStepKeeps(w, w');
    }
  }

  lemma GiveUpKeeps(w: World)
    requires Invariant(w)
    ensures Invariant(Step(w, GiveUp))
  {
    StepGrows(w, GiveUp);
    IngestStepKeeps(w, Step(w, GiveUp));
  }

  // ---------------------------------------------------------------------------
  // Runs
  // ---------------------------------------------------------------------------

  lemma {:induction false} StepKeeps(w: World, e: Event)
    requires Invariant(w)
    ensures Invariant(Step(w, e))
  {
    hide Invariant;
    match e
    case Drop(path, content) => DropKeeps(w, path, content);
    case Fetch(path) => FetchKeeps(w, path);
    case Call(ending) => CallKeeps(w, ending);
    case GiveUp => GiveUpKeeps(w);
    case Work(i, ending, id, latency, now) => WorkKeeps(w, i, ending, id, latency, now);
    case Duplicate(i) => if i < |w.jobs| { DuplicateKeeps(w, i); }
    case Serve(request) => ServeKeeps(w, request);
    case _ => QueueStepKeeps(w, e);
  }

  /** Every reachable state satisfies the invariant. */
  lemma {:induction false} Always(config: Config, es: seq<Event>)
    ensures Invariant(Run(Start(config), es))
  {
    hide Step;
    if es != [] {
      Always(config, es[..|es| - 1]);
      hide Invariant;
      StepKeeps(Run(Start(config), es[..|es| - 1]), es[|es| - 1]);
    }
  }

  // ---------------------------------------------------------------------------
  // What it means
  // ---------------------------------------------------------------------------

  /** The job is still on its way, or its prediction is in the table. */
  predicate Accounted(w: World, doc: IngestedDocument) {
    exists i :: 0 <= i < |w.jobs| && w.jobs[i].job == JobFor(doc) &&
      (w.jobs[i].status.Queued? || w.jobs[i].status.Running? || w.jobs[i].status.Failed?
       || Predicted(w.db, doc.batch, doc.document))
  }

  /**
   No document is lost: in every reachable state each processed file was accepted, its blob is
   stored, its row is committed under its own batch, and its job is accounted for.
   */
  lemma {:induction false} NoDocumentLost(config: Config, es: seq<Event>, name: string)
    requires Processed(name) in Run(Start(config), es).files
    ensures var w := Run(Start(config), es);
            var f := w.files[Processed(name)];
            var v := Validate(f.path, f.content, config.maxBytes);
            && v.Accepted?
            && v.doc.key in w.documents
            && RowFiled(w.db, v.doc.batch, v.doc.document)
            && Accounted(w, v.doc)
  {
    var w := Run(Start(config), es);
    Always(config, es);
    ConfigStays(config, es);
    hide Run;
    assert Placed(w, Processed(name));
    var doc := Validate(w.files[Processed(name)].path, w.files[Processed(name)].content, config.maxBytes).doc;
    var i :| 0 <= i < |w.jobs| && w.jobs[i].job == JobFor(doc);
    assert StatusGrounded(w, w.jobs[i]);
  }

  /**
   In every reachable state a processed file is a TIFF of an allowed size whose path names its ids, a
   quarantined one is not, and each lies under its own basename.
   */
  lemma {:induction false} FilesAreSorted(config: Config, es: seq<Event>, place: Location)
    requires place in Run(Start(config), es).files && !place.Incoming?
    ensures var f := Run(Start(config), es).files[place];
            && place.name == Basename(f.path)
            && (place.Processed? <==> Acceptable(f.path, f.content, config.maxBytes))
            && !Unreadable(f.content, config.maxBytes)
  {
    var w := Run(Start(config), es);
    Always(config, es);
    ConfigStays(config, es);
    hide Run;
    assert Placed(w, place);
    VerdictExactly(w.files[place].path, w.files[place].content, config.maxBytes);
    hide Validate;
    hide Acceptable;
    hide Unreadable;
  }

  lemma {:induction false} ConfigStays(config: Config, es: seq<Event>)
    ensures Run(Start(config), es).config == config
  {
    hide Step;
    if es != [] {
      ConfigStays(config, es[..|es| - 1]);
      StepGrows(Run(Start(config), es[..|es| - 1]), es[|es| - 1]);
    }
  }

  /** In every reachable state each job, finished ones included, finds its blob and its row. */
  lemma {:induction false} JobsAreGrounded(config: Config, es: seq<Event>, i: nat)
    requires i < |Run(Start(config), es).jobs|
    ensures var w := Run(Start(config), es);
            var job := w.jobs[i].job;
            job.key == BlobKey(job.batch, job.document) && job.key in w.documents
            && RowFiled(w.db, job.batch, job.document)
  {
    Always(config, es);
    hide Run;
    assert JobGrounded(Run(Start(config), es), Run(Start(config), es).jobs[i].job);
  }

  /**
   So a worker call that does not end as planned was made to fail from outside: without an injected
   fault, and with a fresh id for the row, every step of a running job gets on.
   */
  lemma {:induction false} FailureIsInjected(
    config: Config, es: seq<Event>, i: nat, ending: Ending, id: Id, latency: real, now: nat)
    requires var w := Run(Start(config), es);
             i < |w.jobs| && w.jobs[i].status.Running? && FindId(w.db.predictions, id) == |w.db.predictions|
    ensures var w := Run(Start(config), es);
            var after := Step(w, Work(i, ending, id, latency, now)).jobs[i].status;
            match w.jobs[i].status.progress
            case Fetching => after.Running? && (after.progress.Drawing? <==> ending.Success?)
            case Drawing(_) => after.Running? && (after.progress.Recording? <==> ending.Success?)
            case Recording(_) => after.Finished? <==> ending.Success?
  {
    hide Uuid.Parse;
    var w := Run(Start(config), es);
    Always(config, es);
    hide Run;
    assert JobGrounded(w, w.jobs[i].job);
    if w.jobs[i].status.progress.Recording? {
      WriteAccepted(w.db, ResultOf(w, w.jobs[i].job, w.jobs[i].status.progress.content, id, latency), now);
      hide S.Attempt;
      hide S.Commit;
    }
    hide OverlayObject;
    hide Invariant;
  }

  lemma WriteAccepted(db: Db, result: S.WorkerResult, now: nat)
    requires RowFiled(db, result.batch, result.document)
    requires FindId(db.predictions, result.id) == |db.predictions|
    ensures S.Attempt(db, S.WorkerWrite(result, now)).Ok?
  {
    assert 0.0 <= result.ranking[0].1 <= 1.0;
  }

  /** At most one prediction per document, under the batch of the document's row. */
  lemma {:induction false} OnePredictionPerDocument(config: Config, es: seq<Event>, i: nat, j: nat)
    requires i < |Run(Start(config), es).db.predictions| && j < |Run(Start(config), es).db.predictions|
    ensures var db := Run(Start(config), es).db;
            && db.predictions[i].document in db.documents
            && db.documents[db.predictions[i].document].batch == db.predictions[i].batch
            && (db.predictions[i].document == db.predictions[j].document ==> i == j)
  {
    var w := Run(Start(config), es);
    Always(config, es);
    TablesOfRun(Start(config), es);
    T.TablesAlways(Transactions(Start(config), es));
    hide Run;
    hide S.Run;
    hide T.Counted;
    hide T.HeadConfidence;
    assert w.db.predictions[j].document in w.db.documents;
  }

  /** Every prediction's stored address leads the API to an overlay object. */
  lemma {:induction false} OverlayReadable(config: Config, es: seq<Event>, i: nat)
    requires i < |Run(Start(config), es).db.predictions|
    ensures var w := Run(Start(config), es);
            OverlayLookup(w.db.predictions[i].overlay) in w.overlays
  {
    Always(config, es);
    hide Run;
    hide OverlayLookup;
  }

  /** Each batch counts its documents, whatever faults and retries the run had. */
  lemma {:induction false} BatchesCounted(config: Config, es: seq<Event>, b: Id)
    requires b in Run(Start(config), es).db.batches
    ensures var db := Run(Start(config), es).db;
            db.batches[b].documentCount == |T.DocumentsOf(db.documents, b)| >= 1
  {
    TablesOfRun(Start(config), es);
    T.TablesAlways(Transactions(Start(config), es));
    hide Run;
    hide S.Run;
    hide T.RowsInvariant;
  }
}
