/**
 The pipeline from the SFTP drop folder to the prediction table, as one step machine. One ingest
 process walks files through upload, rows, queue and move; workers walk jobs through fetch, overlay
 and record; requests run in between. Every remote call may succeed, fail without effect or fail
 after its effect, and every process may give up or die between any two calls.
 */
module Protocol {
  import opened Prelude
  import opened Paths
  import opened Database
  import S = Services
  import Uuid

  // ---------------------------------------------------------------------------
  // State
  // ---------------------------------------------------------------------------

  /** A place on the SFTP server: a path under incoming, or a name in one of the target folders. */
  datatype Location = Incoming(path: string) | Processed(name: string) | Quarantine(name: string)

  /** A file is told apart by a serial number, in the order in which the vendor dropped it. */
  datatype File = File(serial: nat, path: string, content: Content)

  /** Where the ingest process stands: the remote call it makes next, and for which file. */
  datatype Ingest =
    | Idle
    | ToUpload(doc: IngestedDocument)
    | ToRow(doc: IngestedDocument)
    | ToEnqueue(doc: IngestedDocument)
    | ToMove(doc: IngestedDocument)
    | ToQuarantine(path: string)

  datatype Job = Job(batch: string, document: string, key: string)

  /** Where a worker stands within one attempt at a job. */
  datatype Progress = Fetching | Drawing(content: Content) | Recording(content: Content)

  datatype Status = Queued | Running(progress: Progress) | Finished | Failed

  datatype JobRecord = JobRecord(job: Job, status: Status)

  datatype Config = Config(maxBytes: nat, modelVersion: string)

  datatype World = World(
    config: Config,
    files: map<Location, File>,
    dropped: nat,
    documents: map<string, Content>,
    overlays: map<string, Content>,
    db: Db,
    jobs: seq<JobRecord>,
    ingest: Ingest)

  function Start(config: Config): World {
    World(config, map[], 0, map[], map[], EMPTY_DB, [], Idle)
  }

  // ---------------------------------------------------------------------------
  // Steps
  // ---------------------------------------------------------------------------

  /** How a remote call ends. The worker retries after some errors (OSError) and not after others. */
  datatype Ending = Success | Failure(effect: bool, retryable: bool)

  predicate TakesEffect(ending: Ending) {
    ending.Success? || ending.effect
  }

  datatype Event =
    | Drop(path: string, content: Content)
    | Fetch(path: string)
    | Call(ending: Ending)
    | GiveUp
    | Take(job: nat)
    | Work(job: nat, ending: Ending, id: Id, latency: real, now: nat)
    | Retry(job: nat)
    | Fail(job: nat)
    | Requeue(job: nat)
    | Duplicate(job: nat)
    | Serve(request: S.Request)

  /** A rename fails when the target exists. */
  function Rename(files: map<Location, File>, from: Location, to: Location): map<Location, File> {
    if from in files && to !in files then (files - {from})[to := files[from]] else files
  }

  predicate CanRename(files: map<Location, File>, from: Location, to: Location) {
    from in files && to !in files
  }

  /** The call after the file has been fetched; an error that is not a validation error ends the file. */
  function AfterFetch(path: string, content: Content, maxBytes: nat): Ingest {
    match Validate(path, content, maxBytes)
    case Accepted(doc) => ToUpload(doc)
    case Rejected => ToQuarantine(path)
    case Raised => Idle
  }

  /** `_move_sync` followed by the end of the file's turn; a refused rename leaves the call standing. */
  function MoveTo(w: World, from: Location, to: Location, ending: Ending): World {
    if CanRename(w.files, from, to) && TakesEffect(ending) then
      w.(files := Rename(w.files, from, to), ingest := Idle)
    else w
  }

  function RowTransaction(doc: IngestedDocument): S.Transaction {
    S.IngestRow(doc.batch, doc.document, doc.key)
  }

  /** One attempt of `upload_with_retry`. */
  function Upload(w: World, doc: IngestedDocument, ending: Ending): World {
    w.(documents := if TakesEffect(ending) then w.documents[doc.key := doc.content] else w.documents,
       ingest := if ending.Success? then ToRow(doc) else w.ingest)
  }

  /** One attempt of `ensure_document_row`; a refusal by the repository is an error like any other. */
  function EnsureRow(w: World, doc: IngestedDocument, ending: Ending): World {
    var t := RowTransaction(doc);
    if S.Attempt(w.db, t).Err? then w
    else w.(db := if TakesEffect(ending) then S.Commit(w.db, t) else w.db,
            ingest := if ending.Success? then ToEnqueue(doc) else w.ingest)
  }

  function JobFor(doc: IngestedDocument): Job {
    Job(doc.batch, doc.document, doc.key)
  }

  /** One attempt of `enqueue_with_retry`. */
  function Enqueue(w: World, doc: IngestedDocument, ending: Ending): World {
    w.(jobs := if TakesEffect(ending) then w.jobs + [JobRecord(JobFor(doc), Queued)] else w.jobs,
       ingest := if ending.Success? then ToMove(doc) else w.ingest)
  }

  function IngestStep(w: World, ending: Ending): World {
    match w.ingest
    case Idle => w
    case ToUpload(doc) => Upload(w, doc, ending)
    case ToRow(doc) => EnsureRow(w, doc, ending)
    case ToEnqueue(doc) => Enqueue(w, doc, ending)
    case ToMove(doc) => MoveTo(w, Incoming(doc.path), Processed(Basename(doc.path)), ending)
    case ToQuarantine(path) => MoveTo(w, Incoming(path), Quarantine(Basename(path)), ending)
  }

  function WithStatus(w: World, i: nat, status: Status): World
    requires i < |w.jobs|
  {
    w.(jobs := w.jobs[i := w.jobs[i].(status := status)])
  }

  function OverlayObject(job: Job): string {
    PutTarget(OverlayKey(job.batch, job.document)).1
  }

  function ResultOf(w: World, job: Job, content: Content, id: Id, latency: real): S.WorkerResult {
    S.WorkerResult(job.batch, job.document, content.ranking, id, w.config.modelVersion, latency)
  }

  /** `blob.get`: fails when the object is missing. */
  function GetBlob(w: World, i: nat, ending: Ending): World
    requires i < |w.jobs|
  {
    var key := w.jobs[i].job.key;
    if ending.Success? && key in w.documents then WithStatus(w, i, Running(Drawing(w.documents[key]))) else w
  }

  /** Prediction, rendering and `blob.put` of the overlay. */
  function PutOverlay(w: World, i: nat, content: Content, ending: Ending): World
    requires i < |w.jobs|
  {
    var overlays := w.overlays[OverlayObject(w.jobs[i].job) := content];
    var drawn := if TakesEffect(ending) then w.(overlays := overlays) else w;
    if ending.Success? then WithStatus(drawn, i, Running(Recording(content))) else drawn
  }

  /** `record_prediction` in its own transaction. */
  function Record(w: World, i: nat, t: S.Transaction, ending: Ending): World
    requires i < |w.jobs|
  {
    if S.Attempt(w.db, t).Err? then w
    else
      var recorded := if TakesEffect(ending) then w.(db := S.Commit(w.db, t)) else w;
      if ending.Success? then WithStatus(recorded, i, Finished) else recorded
  }

  function WorkStep(w: World, i: nat, ending: Ending, id: Id, latency: real, now: nat): World
    requires i < |w.jobs| && w.jobs[i].status.Running?
  {
    match w.jobs[i].status.progress
    case Fetching => GetBlob(w, i, ending)
    case Drawing(content) => PutOverlay(w, i, content, ending)
    case Recording(content) =>
      Record(w, i, S.WorkerWrite(ResultOf(w, w.jobs[i].job, content, id, latency), now), ending)
  }

  /** One step; an event that is not possible in a state leaves the state alone. */
  function Step(w: World, e: Event): World {
    match e
    case Drop(path, content) =>
      if Incoming(path) in w.files then w
      else w.(files := w.files[Incoming(path) := File(w.dropped, path, content)], dropped := w.dropped + 1)
    case Fetch(path) =>
      if w.ingest.Idle? && Incoming(path) in w.files
      then w.(ingest := AfterFetch(path, w.files[Incoming(path)].content, w.config.maxBytes))
      else w
    case Call(ending) => IngestStep(w, ending)
    case GiveUp => w.(ingest := Idle)
    case Take(i) =>
      if i < |w.jobs| && w.jobs[i].status.Queued? then WithStatus(w, i, Running(Fetching)) else w
    case Work(i, ending, id, latency, now) =>
      if i < |w.jobs| && w.jobs[i].status.Running? then WorkStep(w, i, ending, id, latency, now) else w
    case Retry(i) =>
      if i < |w.jobs| && w.jobs[i].status.Running? then WithStatus(w, i, Running(Fetching)) else w
    case Fail(i) =>
      if i < |w.jobs| && w.jobs[i].status.Running? then WithStatus(w, i, Failed) else w
    case Requeue(i) =>
      if i < |w.jobs| then WithStatus(w, i, Queued) else w
    case Duplicate(i) =>
      if i < |w.jobs| then w.(jobs := w.jobs + [JobRecord(w.jobs[i].job, Queued)]) else w
    case Serve(request) => w.(db := S.Commit(w.db, S.Http(request)))
  }

  /**
   A call of the ingest process that fails without effect changes nothing; one that fails after its
   effect has done all that a success does, but the process still stands before the call, unless the
   call was the move that ends the file's turn.
   */
  lemma FailedCall(w: World, retryable: bool)
    ensures Step(w, Call(Failure(false, retryable))) == w
    ensures Step(w, Call(Failure(true, retryable)))
            == if w.ingest.ToMove? || w.ingest.ToQuarantine? then Step(w, Call(Success))
               else Step(w, Call(Success)).(ingest := w.ingest)
  {
    match w.ingest {
      case Idle =>
      case ToUpload(doc) =>
      case ToRow(doc) => FailedRow(w, doc, retryable);
      case ToEnqueue(doc) =>
      case ToMove(doc) => FailedMove(w, Incoming(doc.path), Processed(Basename(doc.path)), retryable);
      case ToQuarantine(path) => FailedMove(w, Incoming(path), Quarantine(Basename(path)), retryable);
    }
    hide EnsureRow;
    hide MoveTo;
    hide Basename;
    hide JobFor;
  }

  lemma FailedRow(w: World, doc: IngestedDocument, retryable: bool)
    ensures EnsureRow(w, doc, Failure(false, retryable)) == w
    ensures EnsureRow(w, doc, Failure(true, retryable)) == EnsureRow(w, doc, Success).(ingest := w.ingest)
  {
    hide S.Attempt;
    hide S.Commit;
    hide RowTransaction;
  }

  lemma FailedMove(w: World, from: Location, to: Location, retryable: bool)
    ensures MoveTo(w, from, to, Failure(false, retryable)) == w
    ensures MoveTo(w, from, to, Failure(true, retryable)) == MoveTo(w, from, to, Success)
  {
    hide Rename;
    hide CanRename;
  }

  /** The same for a worker's call; its job stands where it stood. */
  lemma FailedWork(w: World, i: nat, retryable: bool, id: Id, latency: real, now: nat)
    ensures Step(w, Work(i, Failure(false, retryable), id, latency, now)) == w
    ensures Step(w, Work(i, Failure(true, retryable), id, latency, now))
            == Step(w, Work(i, Success, id, latency, now)).(jobs := w.jobs)
  {
    if i < |w.jobs| && w.jobs[i].status.Running? {
      FailedGet(w, i, retryable);
      match w.jobs[i].status.progress
      case Fetching =>
      case Drawing(content) => FailedPut(w, i, content, retryable);
      case Recording(content) =>
        FailedRecord(w, i, S.WorkerWrite(ResultOf(w, w.jobs[i].job, content, id, latency), now), retryable);
    }
    hide GetBlob;
    hide PutOverlay;
    hide Record;
    hide ResultOf;
  }

  lemma FailedGet(w: World, i: nat, retryable: bool)
    requires i < |w.jobs|
    ensures GetBlob(w, i, Failure(false, retryable)) == w
    ensures GetBlob(w, i, Failure(true, retryable)) == GetBlob(w, i, Success).(jobs := w.jobs)
  {
  }

  lemma FailedPut(w: World, i: nat, content: Content, retryable: bool)
    requires i < |w.jobs|
    ensures PutOverlay(w, i, content, Failure(false, retryable)) == w
    ensures PutOverlay(w, i, content, Failure(true, retryable)) == PutOverlay(w, i, content, Success).(jobs := w.jobs)
  {
    hide OverlayObject;
  }

  lemma FailedRecord(w: World, i: nat, t: S.Transaction, retryable: bool)
    requires i < |w.jobs|
    ensures Record(w, i, t, Failure(false, retryable)) == w
    ensures Record(w, i, t, Failure(true, retryable)) == Record(w, i, t, Success).(jobs := w.jobs)
  {
    hide S.Attempt;
    hide S.Commit;
  }

  /** Any job, whatever its state, may be waiting again, and so may a copy of it. */
  lemma DeliveredAgain(w: World, i: nat)
    requires i < |w.jobs|
    ensures Step(w, Requeue(i)).jobs == w.jobs[i := JobRecord(w.jobs[i].job, Queued)]
    ensures Step(w, Duplicate(i)).jobs == w.jobs + [JobRecord(w.jobs[i].job, Queued)]
  {
  }

  /** The state after a run of events. */
  function Run(w: World, es: seq<Event>): World {
    if es == [] then w else Step(Run(w, es[..|es| - 1]), es[|es| - 1])
  }

  /** The transaction that a step commits, if any. */
  function Committed(w: World, e: Event): Option<S.Transaction> {
    match e
    case Call(ending) =>
      if w.ingest.ToRow? && TakesEffect(ending)
      then Some(RowTransaction(w.ingest.doc)) else None
    case Work(i, ending, id, latency, now) =>
      if i < |w.jobs| && w.jobs[i].status.Running? && w.jobs[i].status.progress.Recording? && TakesEffect(ending)
      then Some(S.WorkerWrite(ResultOf(w, w.jobs[i].job, w.jobs[i].status.progress.content, id, latency), now))
      else None
    case Serve(request) => Some(S.Http(request))
    case _ => None
  }

  /** What a worker commits: the job's ids, the ranking of the bytes it fetched, its own id, latency and moment. */
  lemma WorkRecords(w: World, i: nat, content: Content, id: Id, latency: real, now: nat)
    requires i < |w.jobs| && w.jobs[i].status == Running(Recording(content))
    ensures var job := w.jobs[i].job;
            var result := S.WorkerResult(job.batch, job.document, content.ranking, id, w.config.modelVersion, latency);
            Step(w, Work(i, Success, id, latency, now)).db == S.Commit(w.db, S.WorkerWrite(result, now))
            && Committed(w, Work(i, Success, id, latency, now)) == Some(S.WorkerWrite(result, now))
  {
    hide S.Attempt;
  }

  /** The transactions that a run commits, in order. */
  function Transactions(w: World, es: seq<Event>): seq<S.Transaction> {
    if es == [] then []
    else
      var before := es[..|es| - 1];
      var t := Committed(Run(w, before), es[|es| - 1]);
      Transactions(w, before) + if t.Some? then [t.value] else []
  }

  function After(db: Db, t: Option<S.Transaction>): Db {
    if t.Some? then S.Commit(db, t.value) else db
  }

  lemma CallCommits(w: World, ending: Ending)
    ensures IngestStep(w, ending).db == After(w.db, Committed(w, Call(ending)))
  {
    hide S.Attempt;
    hide Basename;
    hide Rename;
    hide CanRename;
  }

  lemma WorkCommits(w: World, i: nat, ending: Ending, id: Id, latency: real, now: nat)
    requires i < |w.jobs| && w.jobs[i].status.Running?
    ensures WorkStep(w, i, ending, id, latency, now).db
            == After(w.db, Committed(w, Work(i, ending, id, latency, now)))
  {
    hide S.Attempt;
    hide OverlayObject;
    hide ResultOf;
  }

  lemma CommittedIs(w: World, e: Event)
    ensures Step(w, e).db == After(w.db, Committed(w, e))
  {
    if e.Call? {
      CallCommits(w, e.ending);
    } else if e.Work? && e.job < |w.jobs| && w.jobs[e.job].status.Running? {
      WorkCommits(w, e.job, e.ending, e.id, e.latency, e.now);
    }
    hide S.Commit;
    hide IngestStep;
    hide WorkStep;
    hide AfterFetch;
    hide ResultOf;
    hide RowTransaction;
  }

  /** The tables of the pipeline are those of a run of transactions, so all that holds of such runs holds here. */
  lemma {:induction false} TablesOfRun(w: World, es: seq<Event>)
    ensures Run(w, es).db == S.Run(w.db, Transactions(w, es))
  {
    hide S.Attempt;
    if es != [] {
      var before := es[..|es| - 1];
      TablesOfRun(w, before);
      CommittedIs(Run(w, before), es[|es| - 1]);
      hide Step;
      hide Committed;
      var t := Committed(Run(w, before), es[|es| - 1]);
      var ts := Transactions(w, before);
      if t.Some? {
        assert (ts + [t.value])[..|ts + [t.value]| - 1] == ts;
      } else {
        assert ts + [] == ts;
      }
    }
  }
}
