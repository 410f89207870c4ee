/**
 Where predictions and overlays come from: in every reachable state each of them was made from the
 bytes of a file on the server that was accepted under the same ids. The worker never compares them.
 */
module Provenance {
  import opened Prelude
  import opened Paths
  import opened Database
  import opened Protocol
  import opened PipelineSafety
  import opened FileConservation
  import S = Services
  import T = Tables
  import L = LastWriter
  import Uuid

  // ---------------------------------------------------------------------------
  // The invariant
  // ---------------------------------------------------------------------------

  /** The verdict on a file as it lies on the server. */
  function VerdictOn(w: World, place: Location): Verdict
    requires place in w.files
  {
    Validate(w.files[place].path, w.files[place].content, w.config.maxBytes)
  }

  /** The row's ranking is the predictor's for a file accepted under the row's ids. */
  predicate DrawnFrom(w: World, place: Location, row: Prediction) {
    && place in w.files && VerdictOn(w, place).Accepted?
    && var doc := VerdictOn(w, place).doc;
       && Uuid.Parse(doc.batch) == Some(row.batch) && Uuid.Parse(doc.document) == Some(row.document)
       && doc.content.ranking == row.ranking
  }

  /** The overlay object was drawn on a file accepted under the ids in its name. */
  predicate OverlayFrom(w: World, place: Location, name: string, content: Content) {
    && place in w.files && VerdictOn(w, place).Accepted?
    && OverlayObject(JobFor(VerdictOn(w, place).doc)) == name && w.files[place].content == content
  }

  /** The bytes that a worker holds for a job. */
  function InHand(status: Status): Option<Content> {
    match status
    case Running(Drawing(content)) => Some(content)
    case Running(Recording(content)) => Some(content)
    case _ => None
  }

  /** Some file on the server is where the row came from. */
  ghost predicate HasOrigin(w: World, row: Prediction) {
    exists place :: DrawnFrom(w, place, row)
  }

  ghost predicate RowsDrawn(w: World) {
    forall i :: 0 <= i < |w.db.predictions| ==> HasOrigin(w, w.db.predictions[i])
  }

  ghost predicate OverlaysDrawn(w: World) {
    forall name :: name in w.overlays ==> exists place :: OverlayFrom(w, place, name, w.overlays[name])
  }

  ghost predicate JobHonest(w: World, record: JobRecord) {
    InHand(record.status).Some? ==> exists place :: SourceOf(w, place, record.job.key, InHand(record.status).value)
  }

  ghost predicate HandsHonest(w: World) {
    forall i :: 0 <= i < |w.jobs| ==> JobHonest(w, w.jobs[i])
  }

  // ---------------------------------------------------------------------------
  // Files stay on the server
  // ---------------------------------------------------------------------------

  lemma FileStays(w: World, e: Event, place: Location) returns (place': Location)
    requires place in w.files
    ensures place' in Step(w, e).files && Step(w, e).files[place'] == w.files[place]
    ensures Step(w, e).config == w.config
  {
    StepGrows(w, e);
    hide Step;
    assert [e][..0] == [];
    assert Run(w, [e]) == Step(Run(w, [e][..0]), e);
    FilesNeverLost(w, [e], place);
    hide Run;
    place' :| place' in Step(w, e).files && Step(w, e).files[place'] == w.files[place]
              && (place' == place || (place.Incoming? && !place'.Incoming?));
  }

  lemma DrawnStays(w: World, e: Event, place: Location, row: Prediction)
    requires DrawnFrom(w, place, row)
    ensures HasOrigin(Step(w, e), row)
  {
    hide Validate;
    hide Step;
    hide Uuid.Parse;
    var place' := FileStays(w, e, place);
    assert DrawnFrom(Step(w, e), place', row);
  }

  lemma OverlayStays(w: World, e: Event, place: Location, name: string, content: Content)
    requires OverlayFrom(w, place, name, content)
    ensures exists place' :: OverlayFrom(Step(w, e), place', name, content)
  {
    hide Validate;
    hide Step;
    hide OverlayObject;
    var place' := FileStays(w, e, place);
    assert OverlayFrom(Step(w, e), place', name, content);
  }

  // ---------------------------------------------------------------------------
  // Steps
  // ---------------------------------------------------------------------------

  /** Job i after a step: empty-handed, or with what it held before, or with the blob just fetched. */
  predicate HandMoved(w: World, w': World, i: nat)
    requires i < |w'.jobs|
  {
    var record := w'.jobs[i];
    || InHand(record.status).None?
    || (i < |w.jobs| && record.job == w.jobs[i].job && InHand(record.status) == InHand(w.jobs[i].status))
    || (i < |w.jobs| && record.job == w.jobs[i].job && record.job.key in w.documents
        && InHand(record.status) == Some(w.documents[record.job.key]))
  }

  lemma CallHands(w: World, ending: Ending, i: nat)
    requires i < |IngestStep(w, ending).jobs|
    ensures HandMoved(w, IngestStep(w, ending), i)
  {
    hide S.Attempt;
    hide S.Commit;
    hide Rename;
    hide CanRename;
    hide Basename;
  }

  /** How one call of a worker changes the hands and the overlays. */
  lemma WorkMoves(w: World, e: Event, i: nat)
    requires e.Work? && e.job < |w.jobs| && w.jobs[e.job].status.Running?
    ensures var w', record := WorkStep(w, e.job, e.ending, e.id, e.latency, e.now), w.jobs[e.job];
            && (i < |w'.jobs| ==> HandMoved(w, w', i))
            && (w'.overlays == w.overlays
                || (record.status.progress.Drawing?
                    && w'.overlays == w.overlays[OverlayObject(record.job) := record.status.progress.content]))
  {
    hide HandMoved;
    hide OverlayObject;
    match w.jobs[e.job].status.progress
    case Fetching =>
      GetBlobMoves(w, e.job, e.ending, i);
      hide GetBlob;
    case Drawing(content) =>
      PutOverlayMoves(w, e.job, content, e.ending, i);
      hide PutOverlay;
    case Recording(content) =>
      var t := S.WorkerWrite(ResultOf(w, w.jobs[e.job].job, content, e.id, e.latency), e.now);
      RecordMoves(w, e.job, t, e.ending, i);
      hide Record;
      hide ResultOf;
  }

  lemma GetBlobMoves(w: World, j: nat, ending: Ending, i: nat)
    requires j < |w.jobs|
    ensures i < |GetBlob(w, j, ending).jobs| ==> HandMoved(w, GetBlob(w, j, ending), i)
    ensures GetBlob(w, j, ending).overlays == w.overlays
  {
  }

  lemma PutOverlayMoves(w: World, j: nat, content: Content, ending: Ending, i: nat)
    requires j < |w.jobs| && w.jobs[j].status == Running(Drawing(content))
    ensures i < |PutOverlay(w, j, content, ending).jobs| ==> HandMoved(w, PutOverlay(w, j, content, ending), i)
    ensures PutOverlay(w, j, content, ending).overlays == w.overlays
            || PutOverlay(w, j, content, ending).overlays == w.overlays[OverlayObject(w.jobs[j].job) := content]
  {
    hide OverlayObject;
  }

  lemma RecordMoves(w: World, j: nat, t: S.Transaction, ending: Ending, i: nat)
    requires j < |w.jobs|
    ensures i < |Record(w, j, t, ending).jobs| ==> HandMoved(w, Record(w, j, t, ending), i)
    ensures Record(w, j, t, ending).overlays == w.overlays
  {
    hide S.Attempt;
    hide S.Commit;
  }

  lemma StepHands(w: World, e: Event, i: nat)
    requires i < |Step(w, e).jobs|
    ensures HandMoved(w, Step(w, e), i)
  {
    if e.Call? {
      CallHands(w, e.ending, i);
    } else if e.Work? && e.job < |w.jobs| && w.jobs[e.job].status.Running? {
      WorkMoves(w, e, i);
    }
    hide IngestStep;
    hide WorkStep;
    hide S.Commit;
    hide AfterFetch;
  }

  lemma HandsStep(w: World, e: Event)
    requires HandsHonest(w) && BlobsHonest(w)
    ensures HandsHonest(Step(w, e))
  {
    var w' := Step(w, e);
    hide Step;
    hide SourceOf;
    forall i | 0 <= i < |w'.jobs|
      ensures JobHonest(w', w'.jobs[i])
    {
      StepHands(w, e, i);
      var record := w'.jobs[i];
      if InHand(record.status).Some? {
        var content := InHand(record.status).value;
        if InHand(record.status) != InHand(w.jobs[i].status) {
          var place :| SourceOf(w, place, record.job.key, w.documents[record.job.key]);
          SourceStays(w, e, place, record.job.key, content);
        } else {
          assert JobHonest(w, w.jobs[i]);
          var place :| SourceOf(w, place, record.job.key, content);
          SourceStays(w, e, place, record.job.key, content);
        }
      }
    }
  }

  /** A file accepted under a job's key carries the job's own ids. */
  lemma SourceHasIds(w: World, place: Location, job: Job, content: Content)
    requires SourceOf(w, place, job.key, content) && JobGrounded(w, job)
    ensures VerdictOn(w, place).Accepted?
    ensures var doc := VerdictOn(w, place).doc;
            doc.batch == job.batch && doc.document == job.document && doc.content == content
  {
    var doc := VerdictOn(w, place).doc;
    assert doc.key == BlobKey(doc.batch, doc.document);
    assert Uuid.Parse(doc.batch).Some? && Uuid.Parse(doc.document).Some?;
    BlobKeyInjective(doc.batch, doc.document, job.batch, job.document);
  }

  /** How a step changes the overlays: it draws on the bytes in hand, under the job's name. */
  lemma StepOverlays(w: World, e: Event)
    ensures Step(w, e).overlays == w.overlays
            || (e.Work? && e.job < |w.jobs| && w.jobs[e.job].status.Running?
                && w.jobs[e.job].status.progress.Drawing?
                && Step(w, e).overlays
                   == w.overlays[OverlayObject(w.jobs[e.job].job) := w.jobs[e.job].status.progress.content])
  {
    if e.Call? {
      CallLeavesOverlays(w, e.ending);
    } else if e.Work? && e.job < |w.jobs| && w.jobs[e.job].status.Running? {
      WorkMoves(w, e, 0);
    }
    hide IngestStep;
    hide WorkStep;
    hide S.Commit;
    hide AfterFetch;
    hide OverlayObject;
    hide HandMoved;
  }

  lemma CallLeavesOverlays(w: World, ending: Ending)
    ensures IngestStep(w, ending).overlays == w.overlays
  {
    hide S.Attempt;
    hide S.Commit;
    hide Rename;
    hide CanRename;
    hide Basename;
  }

  lemma OverlaysStep(w: World, e: Event)
    requires Invariant(w) && HandsHonest(w) && OverlaysDrawn(w)
    ensures OverlaysDrawn(Step(w, e))
  {
    StepOverlays(w, e);
    var w' := Step(w, e);
    hide Step;
    forall name | name in w'.overlays
      ensures exists place :: OverlayFrom(w', place, name, w'.overlays[name])
    {
      if name in w.overlays && w'.overlays[name] == w.overlays[name] {
        var place :| OverlayFrom(w, place, name, w.overlays[name]);
        OverlayStays(w, e, place, name, w.overlays[name]);
      } else {
        var record := w.jobs[e.job];
        assert JobHonest(w, record) && JobGrounded(w, record.job);
        var place :| SourceOf(w, place, record.job.key, record.status.progress.content);
        SourceHasIds(w, place, record.job, record.status.progress.content);
        hide Validate;
        hide BlobKey;
        hide RowFiled;
        hide PutTarget;
        assert OverlayFrom(w, place, name, record.status.progress.content);
        OverlayStays(w, e, place, name, record.status.progress.content);
      }
    }
  }

  /** What decides where a row came from. */
  predicate SameOrigin(row: Prediction, row': Prediction) {
    row'.batch == row.batch && row'.document == row.document && row'.ranking == row.ranking
  }

  /** A row has the origin that a row at its place had, or was just recorded from the bytes in hand. */
  lemma CommitRows(db: Db, t: S.Transaction, j: nat)
    requires j < |S.Commit(db, t).predictions|
    ensures var row := S.Commit(db, t).predictions[j];
            || (j < |db.predictions| && SameOrigin(db.predictions[j], row))
            || (t.WorkerWrite? && Uuid.Parse(t.result.batch) == Some(row.batch)
                && Uuid.Parse(t.result.document) == Some(row.document) && row.ranking == t.result.ranking)
  {
    hide Uuid.Parse;
    match t
    case IngestRow(_, _, _) =>
    case WorkerWrite(result, now) =>
      if S.Attempt(db, t).Ok? {
        S.RecordEffect(db, S.PredictionFor(result), now);
      }
      hide S.RecordPrediction;
    case Http(r) =>
      T.HttpKeepsRows(db, r);
      hide S.Commit;
  }

  lemma RowsStep(w: World, e: Event)
    requires Invariant(w) && HandsHonest(w) && RowsDrawn(w)
    ensures RowsDrawn(Step(w, e))
  {
    CommittedIs(w, e);
    var w', t := Step(w, e), Committed(w, e);
    hide Step;
    forall j | 0 <= j < |w'.db.predictions|
      ensures HasOrigin(w', w'.db.predictions[j])
    {
      var row := w'.db.predictions[j];
      if t.Some? {
        CommitRows(w.db, t.value, j);
      }
      hide S.Commit;
      if j < |w.db.predictions| && SameOrigin(w.db.predictions[j], row) {
        assert HasOrigin(w, w.db.predictions[j]);
        var place :| DrawnFrom(w, place, w.db.predictions[j]);
        OriginOnly(w, place, w.db.predictions[j], row);
        DrawnStays(w, e, place, row);
      } else {
        RecordedFromHand(w, e, row);
      }
    }
  }

  lemma OriginOnly(w: World, place: Location, row: Prediction, row': Prediction)
    requires DrawnFrom(w, place, row) && SameOrigin(row, row')
    ensures DrawnFrom(w, place, row')
  {
    hide Validate;
    hide Uuid.Parse;
  }

  lemma RecordedFromHand(w: World, e: Event, row: Prediction)
    requires Invariant(w) && HandsHonest(w)
    requires var t := Committed(w, e);
             t.Some? && t.value.WorkerWrite? && Uuid.Parse(t.value.result.batch) == Some(row.batch)
             && Uuid.Parse(t.value.result.document) == Some(row.document)
             && row.ranking == t.value.result.ranking
    ensures HasOrigin(Step(w, e), row)
  {
    hide Uuid.Parse;
    hide Step;
    var record := w.jobs[e.job];
    var content := record.status.progress.content;
    assert JobHonest(w, record) && JobGrounded(w, record.job);
    var place :| SourceOf(w, place, record.job.key, content);
    SourceHasIds(w, place, record.job, content);
    hide Validate;
    hide Invariant;
    hide BlobKey;
    assert DrawnFrom(w, place, row);
    DrawnStays(w, e, place, row);
  }

  // ---------------------------------------------------------------------------
  // Runs
  // ---------------------------------------------------------------------------

  lemma {:induction false} AlwaysDrawn(config: Config, es: seq<Event>)
    ensures var w := Run(Start(config), es); HandsHonest(w) && OverlaysDrawn(w) && RowsDrawn(w)
  {
    hide Step;
    if es != [] {
      var before, e := es[..|es| - 1], es[|es| - 1];
      var w := Run(Start(config), before);
      AlwaysDrawn(config, before);
      Always(config, before);
      BlobsAlwaysHonest(config, before);
      hide Invariant;
      hide BlobsHonest;
      hide HandsHonest;
      hide OverlaysDrawn;
      hide RowsDrawn;
      HandsStep(w, e);
      OverlaysStep(w, e);
      RowsStep(w, e);
    }
  }

  /** Every prediction in the table is the predictor's answer for a vendor file with the prediction's ids. */
  lemma {:induction false} PredictionsFromFiles(config: Config, es: seq<Event>, i: nat)
    requires i < |Run(Start(config), es).db.predictions|
    ensures var w := Run(Start(config), es); HasOrigin(w, w.db.predictions[i])
  {
    AlwaysDrawn(config, es);
    hide Run;
    hide HasOrigin;
    hide HandsHonest;
    hide OverlaysDrawn;
  }

  /** Every overlay object was drawn on a vendor file with the ids in the object's name. */
  lemma {:induction false} OverlaysFromFiles(config: Config, es: seq<Event>, name: string)
    requires name in Run(Start(config), es).overlays
    ensures var w := Run(Start(config), es); exists place :: OverlayFrom(w, place, name, w.overlays[name])
  {
    AlwaysDrawn(config, es);
    hide Run;
    hide OverlayFrom;
    hide HandsHonest;
    hide RowsDrawn;
  }

  // ---------------------------------------------------------------------------
  // A prediction's own overlay
  // ---------------------------------------------------------------------------

  /** The row's address is made of these texts, which name its ids, and the object there was drawn on this file. */
  predicate OverlayDrawnFor(w: World, row: Prediction, place: Location, batch: string, document: string) {
    && row.overlay == OverlayKey(batch, document)
    && Uuid.Parse(batch) == Some(row.batch) && Uuid.Parse(document) == Some(row.document)
    && place in w.files && VerdictOn(w, place).Accepted?
    && VerdictOn(w, place).doc.batch == batch && VerdictOn(w, place).doc.document == document
    && OverlayLookup(row.overlay) in w.overlays
    && w.overlays[OverlayLookup(row.overlay)] == w.files[place].content
  }

  /** The API finds the row's own overlay. */
  ghost predicate OverlayIsOwn(w: World, row: Prediction) {
    exists place, batch, document :: OverlayDrawnFor(w, row, place, batch, document)
  }

  /** What the reader looks up is where the writer put the object. */
  lemma SameObject(b: string, d: string, b': string, d': string, key: string, key': string)
    requires Uuid.Parse(b).Some? && Uuid.Parse(b').Some?
    requires OverlayObject(Job(b, d, key)) == OverlayObject(Job(b', d', key'))
    ensures b == b' && d == d'
  {
    OverlayPutTarget(b, d);
    OverlayPutTarget(b', d');
    OverlayInjective(b, d, b', d');
  }

  /**
   In every reachable state the API finds for each prediction the prediction's own overlay: its address
   names the prediction's ids, and the object there was drawn on a file accepted under the same texts.
   */
  lemma {:induction false} PredictionsHaveTheirOverlay(config: Config, es: seq<Event>, i: nat)
    requires i < |Run(Start(config), es).db.predictions|
    ensures OverlayIsOwn(Run(Start(config), es), Run(Start(config), es).db.predictions[i])
  {
    hide Uuid.Parse;
    TablesOfRun(Start(config), es);
    var batch, document := L.OverlayAddressIsOwn(Transactions(Start(config), es), i);
    OverlayReadable(config, es, i);
    var w := Run(Start(config), es);
    var row := w.db.predictions[i];
    LookupIsObject(batch, document, "");
    OverlaysFromFiles(config, es, OverlayLookup(row.overlay));
    hide Run;
    hide OverlayKey;
    hide OverlayObject;
    hide OverlayLookup;
    hide S.Run;
    var name := OverlayLookup(row.overlay);
    var place :| OverlayFrom(w, place, name, w.overlays[name]);
    var doc := VerdictOn(w, place).doc;
    AcceptedIds(w, place);
    SameObject(doc.batch, doc.document, batch, document, doc.key, "");
    hide Validate;
    assert OverlayDrawnFor(w, row, place, batch, document);
  }

  lemma AcceptedIds(w: World, place: Location)
    requires place in w.files && VerdictOn(w, place).Accepted?
    ensures var doc := VerdictOn(w, place).doc;
            Uuid.Parse(doc.batch).Some? && Uuid.Parse(doc.document).Some? && doc.content == w.files[place].content
            && doc.key == BlobKey(doc.batch, doc.document)
  {
    hide Uuid.Parse;
  }

  // ---------------------------------------------------------------------------
  // Documents have their blob
  // ---------------------------------------------------------------------------

  predicate KeyIsOwn(d: Id, document: Document, batchText: string, documentText: string) {
    && document.key == BlobKey(batchText, documentText)
    && Uuid.Parse(batchText) == Some(document.batch) && Uuid.Parse(documentText) == Some(d)
  }

  /** The blob of a document's row is stored, under the key that its own ids make. */
  ghost predicate BlobStored(w: World, d: Id)
    requires d in w.db.documents
  {
    && w.db.documents[d].key in w.documents
    && exists batchText, documentText :: KeyIsOwn(d, w.db.documents[d], batchText, documentText)
  }

  lemma CommitDocuments(db: Db, t: S.Transaction, d: Id)
    requires d in S.Commit(db, t).documents
    ensures var document := S.Commit(db, t).documents[d];
            || (d in db.documents && document == db.documents[d])
            || (t.IngestRow? && Uuid.Parse(t.document) == Some(d) && Uuid.Parse(t.batch) == Some(document.batch)
                && document.key == t.key)
  {
    hide Uuid.Parse;
    match t
    case IngestRow(_, _, _) =>
    case WorkerWrite(_, _) =>
    case Http(r) =>
      T.HttpKeepsRows(db, r);
      hide S.Commit;
  }

  /** In every reachable state each document's blob is stored under the key of texts that name its ids. */
  lemma {:induction false} DocumentsHaveTheirBlob(config: Config, es: seq<Event>, d: Id)
    requires d in Run(Start(config), es).db.documents
    ensures BlobStored(Run(Start(config), es), d)
  {
    hide Step;
    hide Uuid.Parse;
    hide BlobKey;
    if es != [] {
      var before, e := es[..|es| - 1], es[|es| - 1];
      var w, w' := Run(Start(config), before), Run(Start(config), es);
      hide Run;
      CommittedIs(w, e);
      StepGrows(w, e);
      var t := Committed(w, e);
      if t.Some? {
        CommitDocuments(w.db, t.value, d);
      }
      hide S.Commit;
      if d in w.db.documents && w'.db.documents[d] == w.db.documents[d] {
        DocumentsHaveTheirBlob(config, before, d);
      } else {
        Always(config, before);
        var doc := w.ingest.doc;
        assert Waiting(w, doc.path) && doc.key in w.documents;
        AcceptedIds(w, Incoming(doc.path));
        assert KeyIsOwn(d, w'.db.documents[d], doc.batch, doc.document);
      }
    }
  }
}
