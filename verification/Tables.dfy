/**
 What every run of transactions keeps true of the tables: counters, keys and confidences, and
 what delivering a worker's result again does.
 */
module Tables {
  import opened Prelude
  import opened Paths
  import opened Database
  import opened Services
  import Uuid

  // ---------------------------------------------------------------------------
  // The invariant
  // ---------------------------------------------------------------------------

  function DocumentsOf(documents: map<Id, Document>, b: Id): set<Id> {
    set d | d in documents && documents[d].batch == b
  }

  /** Each counter is the number of the batch's documents, and no batch is empty or missing. */
  predicate Counted(batches: map<Id, Batch>, documents: map<Id, Document>) {
    && (forall b :: b in batches ==>
          batches[b].documentCount == |DocumentsOf(documents, b)| && batches[b].documentCount >= 1)
    && (forall d :: d in documents ==> documents[d].batch in batches)
  }

  predicate UniqueIds(rows: seq<Prediction>) {
    forall i, j :: 0 <= i < j < |rows| ==> rows[i].id != rows[j].id
  }

  /** The constraint `uq_predictions_batch_document`. */
  predicate UniqueKeys(rows: seq<Prediction>) {
    forall i, j :: 0 <= i < j < |rows| ==> rows[i].batch != rows[j].batch || rows[i].document != rows[j].document
  }

  predicate HeadConfidence(rows: seq<Prediction>) {
    forall i :: 0 <= i < |rows| ==> rows[i].top1 == rows[i].ranking[0].1
  }

  predicate RowsInvariant(rows: seq<Prediction>) {
    UniqueIds(rows) && UniqueKeys(rows) && HeadConfidence(rows)
  }

  predicate TablesInvariant(db: Db) {
    Counted(db.batches, db.documents) && RowsInvariant(db.predictions)
  }

  // ---------------------------------------------------------------------------
  // Steps
  // ---------------------------------------------------------------------------

  lemma DocumentsOfInserted(documents: map<Id, Document>, d0: Id, b0: Id, key: string, b: Id)
    requires d0 !in documents
    ensures var documents' := documents[d0 := Document(b0, key)];
            |DocumentsOf(documents', b)| == |DocumentsOf(documents, b)| + if b == b0 then 1 else 0
  {
    var documents' := documents[d0 := Document(b0, key)];
    if b == b0 {
      assert DocumentsOf(documents', b) == DocumentsOf(documents, b) + {d0};
    } else {
      assert DocumentsOf(documents', b) == DocumentsOf(documents, b);
    }
  }

  lemma NoDocumentsOf(batches: map<Id, Batch>, documents: map<Id, Document>, b: Id)
    requires Counted(batches, documents) && b !in batches
    ensures DocumentsOf(documents, b) == {}
  {
  }

  lemma InsertKeepsCounts(batches: map<Id, Batch>, documents: map<Id, Document>, b0: Id, d0: Id, key: string)
    requires Counted(batches, documents) && d0 !in documents
    ensures var count := if b0 in batches then batches[b0].documentCount else 0;
            Counted(batches[b0 := Batch(count + 1)], documents[d0 := Document(b0, key)])
  {
    var count := if b0 in batches then batches[b0].documentCount else 0;
    var batches', documents' := batches[b0 := Batch(count + 1)], documents[d0 := Document(b0, key)];
    if b0 !in batches {
      NoDocumentsOf(batches, documents, b0);
    }
    hide DocumentsOf;
    forall b | b in batches'
      ensures batches'[b].documentCount == |DocumentsOf(documents', b)| >= 1
    {
      DocumentsOfInserted(documents, d0, b0, key, b);
    }
  }

  lemma OverwriteKeepsCounts(batches: map<Id, Batch>, documents: map<Id, Document>, d0: Id, key: string)
    requires Counted(batches, documents) && d0 in documents
    ensures Counted(batches, documents[d0 := Document(documents[d0].batch, key)])
  {
    var documents' := documents[d0 := Document(documents[d0].batch, key)];
    forall b
      ensures DocumentsOf(documents', b) == DocumentsOf(documents, b)
    {
    }
  }

  lemma BatchExists(batches: map<Id, Batch>, documents: map<Id, Document>, d: Id)
    requires Counted(batches, documents) && d in documents
    ensures documents[d].batch in batches
  {
  }

  lemma IngestKeepsCounts(db: Db, batch: string, document: string, key: string)
    requires Counted(db.batches, db.documents)
    requires EnsureForIngest(db, batch, document, key).Ok?
    ensures var db' := EnsureForIngest(db, batch, document, key).value;
            Counted(db'.batches, db'.documents)
  {
    hide Uuid.Parse;
    hide Counted;
    var db' := EnsureForIngest(db, batch, document, key).value;
    var b, d := Uuid.Parse(batch).value, Uuid.Parse(document).value;
    if d in db.documents {
      BatchExists(db.batches, db.documents, d);
      OverwriteKeepsCounts(db.batches, db.documents, d, key);
    } else {
      InsertKeepsCounts(db.batches, db.documents, b, d, key);
      var count := if b in db.batches then db.batches[b].documentCount else 0;
      assert db'.batches == db.batches[b := Batch(count + 1)];
    }
  }

  /** Refused for its batch exactly when the document is filed under another one. */
  lemma RefusedForBatch(db: Db, batch: string, document: string, key: string)
    ensures EnsureForIngest(db, batch, document, key) == Err(OtherBatch)
            <==> Uuid.Parse(batch).Some? && Uuid.Parse(document).Some?
                 && Uuid.Parse(document).value in db.documents
                 && db.documents[Uuid.Parse(document).value].batch != Uuid.Parse(batch).value
  {
  }

  lemma WriteKeepsRows(db: Db, w: WorkerResult, now: nat)
    requires RowsInvariant(db.predictions)
    requires CreateIdempotent(db, PredictionFor(w), now).Ok?
    ensures RowsInvariant(CreateIdempotent(db, PredictionFor(w), now).value.predictions)
  {
    hide Uuid.Parse;
    var rows' := CreateIdempotent(db, PredictionFor(w), now).value.predictions;
    var b, d := Uuid.Parse(w.batch).value, Uuid.Parse(w.document).value;
    var i := FindKey(db.predictions, b, d);
    if i < |db.predictions| {
      assert rows'[i].id == db.predictions[i].id;
    } else {
      assert FindId(db.predictions, w.id) == |db.predictions|;
    }
  }

  /** Rows that differ at most in label, comment, colour and name. */
  predicate SameButReview(rows: seq<Prediction>, rows': seq<Prediction>) {
    && |rows'| == |rows|
    && forall i :: 0 <= i < |rows| ==>
         rows'[i] == rows[i].(category := rows'[i].category, comment := rows'[i].comment,
                              color := rows'[i].color, name := rows'[i].name)
  }

  lemma {:induction false} HttpKeepsRows(db: Db, r: Request)
    ensures SameButReview(db.predictions, Commit(db, Http(r)).predictions)
    ensures Commit(db, Http(r)).batches == db.batches && Commit(db, Http(r)).documents == db.documents
  {
    if Attempt(db, Http(r)).Ok? {
      AcceptedIs(db, Http(r));
    }
    hide Attempt;
    hide CleanName;
  }

  lemma TablesStep(db: Db, t: Transaction)
    requires TablesInvariant(db)
    ensures TablesInvariant(Commit(db, t))
  {
    match t
    case IngestRow(batch, document, key) =>
      if Attempt(db, t).Ok? { IngestKeepsCounts(db, batch, document, key); }
    case WorkerWrite(w, now) =>
      if Attempt(db, t).Ok? { WriteKeepsRows(db, w, now); }
    case Http(r) =>
      hide Attempt;
      HttpKeepsRows(db, r);
  }

  /** Counters, keys and confidences are right after every run. */
  lemma {:induction false} TablesAlways(ts: seq<Transaction>)
    ensures TablesInvariant(Run(EMPTY_DB, ts))
  {
    hide Attempt;
    if ts != [] {
      TablesAlways(ts[..|ts| - 1]);
      TablesStep(Run(EMPTY_DB, ts[..|ts| - 1]), ts[|ts| - 1]);
    }
  }

  // ---------------------------------------------------------------------------
  // Whose document it is
  // ---------------------------------------------------------------------------

  predicate NamesDocument(t: Transaction, d: Id) {
    t.IngestRow? && Uuid.Parse(t.document) == Some(d) && Uuid.Parse(t.batch).Some?
  }

  /** The batch under which a document was ingested first, by a request that names both by UUIDs. */
  function FirstBatch(ts: seq<Transaction>, d: Id): Option<Id> {
    if ts == [] then None
    else if FirstBatch(ts[..|ts| - 1], d).Some? then FirstBatch(ts[..|ts| - 1], d)
    else if NamesDocument(ts[|ts| - 1], d) then Uuid.Parse(ts[|ts| - 1].batch)
    else None
  }

  lemma IngestFiles(db: Db, t: Transaction, d: Id)
    ensures var documents := Commit(db, t).documents;
            if d in db.documents then d in documents && documents[d].batch == db.documents[d].batch
            else if NamesDocument(t, d) then d in documents && documents[d].batch == Uuid.Parse(t.batch).value
            else d !in documents
  {
    hide Uuid.Parse;
    match t
    case IngestRow(_, _, _) =>
    case WorkerWrite(_, _) =>
    case Http(r) =>
      HttpKeepsRows(db, r);
      hide Commit;
  }

  /** The first ingest of a document settles its batch for the rest of the run. */
  lemma {:induction false} FirstBatchSettles(ts: seq<Transaction>, d: Id)
    ensures var documents := Run(EMPTY_DB, ts).documents;
            if FirstBatch(ts, d).Some? then d in documents && documents[d].batch == FirstBatch(ts, d).value
            else d !in documents
  {
    hide Attempt;
    hide Uuid.Parse;
    if ts != [] {
      FirstBatchSettles(ts[..|ts| - 1], d);
      IngestFiles(Run(EMPTY_DB, ts[..|ts| - 1]), ts[|ts| - 1], d);
      hide Commit;
    }
  }

  /**
   First come, first served: after any run, ingest is refused for its batch exactly when an earlier
   ingest was the first to name the document, and named another batch.
   */
  lemma FirstBatchWins(ts: seq<Transaction>, batch: string, document: string, key: string)
    ensures Attempt(Run(EMPTY_DB, ts), IngestRow(batch, document, key)) == Err(OtherBatch)
            <==> Uuid.Parse(batch).Some? && Uuid.Parse(document).Some?
                 && FirstBatch(ts, Uuid.Parse(document).value).Some?
                 && FirstBatch(ts, Uuid.Parse(document).value) != Uuid.Parse(batch)
  {
    hide Uuid.Parse;
    RefusedForBatch(Run(EMPTY_DB, ts), batch, document, key);
    if Uuid.Parse(document).Some? {
      FirstBatchSettles(ts, Uuid.Parse(document).value);
    }
    hide Run;
  }

  // ---------------------------------------------------------------------------
  // Delivering a job again
  // ---------------------------------------------------------------------------

  /** A delivery of the same job: same ids, same bytes, hence the same ranking; own id and latency. */
  predicate SameJob(w: WorkerResult, v: WorkerResult) {
    w.batch == v.batch && w.document == v.document && w.ranking == v.ranking && w.version == v.version
  }

  predicate DeliveriesOf(ts: seq<Transaction>, w: WorkerResult) {
    forall i :: 0 <= i < |ts| ==> ts[i].WorkerWrite? && SameJob(w, ts[i].result)
  }

  /** k entries of the worker, which name no actor. */
  function WorkerEntries(w: WorkerResult, k: nat): (r: seq<AuditEntry>)
    ensures |r| == k
    ensures forall i :: 0 <= i < k ==> r[i] == AuditEntry(None, BatchState(w.batch, w.document))
  {
    if k == 0 then [] else WorkerEntries(w, k - 1) + [AuditEntry(None, BatchState(w.batch, w.document))]
  }

  /** Writing a second record under a key only replaces the first one's data. */
  lemma UpsertTwice(rows: seq<Prediction>, p: PredictionOut, q: PredictionOut, b: Id, d: Id, now: nat, later: nat)
    requires q == p.(id := q.id, latency := q.latency)
    ensures Upsert(Upsert(rows, p, b, d, now), q, b, d, later)
            == Upsert(rows, p.(latency := q.latency), b, d, now)
    ensures FindKey(Upsert(rows, p, b, d, now), b, d) < |Upsert(rows, p, b, d, now)|
  {
    var i := FindKey(rows, b, d);
    var once := Upsert(rows, p, b, d, now);
    assert once[i].batch == b && once[i].document == d;
    assert forall j :: 0 <= j < i ==> once[j] == rows[j];
    assert FindKey(once, b, d) == i;
    if i < |rows| {
      assert Overwritten(once[i], q) == Overwritten(rows[i], p.(latency := q.latency));
    } else {
      assert Overwritten(once[i], q) == NewRow(p.(latency := q.latency), b, d, now);
      assert once[..|rows|] == rows;
    }
  }

  /** The same over runs: after one write of the job, another only brings its own latency. */
  lemma DeliveredAgain(db: Db, w: WorkerResult, now: nat, mid: Db, v: WorkerResult, later: nat)
    requires Attempt(db, WorkerWrite(w, now)).Ok? && SameJob(w, v)
    requires var once := Commit(db, WorkerWrite(w, now));
             mid == once.(audit := mid.audit)
    ensures Attempt(mid, WorkerWrite(v, later)).Ok?
    ensures Commit(mid, WorkerWrite(v, later))
            == Commit(db, WorkerWrite(w.(latency := v.latency), now)).(
                 audit := mid.audit + [AuditEntry(None, BatchState(w.batch, w.document))])
  {
    hide Uuid.Parse;
    var b, d := Uuid.Parse(w.batch).value, Uuid.Parse(w.document).value;
    UpsertTwice(db.predictions, PredictionFor(w), PredictionFor(v), b, d, now, later);
  }

  /** Whether a write succeeds does not depend on the latency, and it adds one entry. */
  lemma OneDelivery(db: Db, w: WorkerResult, now: nat, latency: real)
    requires Attempt(db, WorkerWrite(w, now)).Ok?
    ensures Attempt(db, WorkerWrite(w.(latency := latency), now)).Ok?
    ensures Commit(db, WorkerWrite(w.(latency := latency), now)).audit
            == db.audit + [AuditEntry(None, BatchState(w.batch, w.document))]
  {
  }

  lemma DeliveredOnTop(db: Db, w: WorkerResult, now: nat, n: nat, latency: real, mid: Db, v: WorkerResult, later: nat)
    requires Attempt(db, WorkerWrite(w, now)).Ok? && SameJob(w, v)
    requires mid == Commit(db, WorkerWrite(w.(latency := latency), now)).(audit := db.audit + WorkerEntries(w, n))
    ensures Commit(mid, WorkerWrite(v, later))
            == Commit(db, WorkerWrite(w.(latency := v.latency), now)).(audit := db.audit + WorkerEntries(w, n + 1))
  {
    hide Uuid.Parse;
    hide Attempt;
    hide Commit;
    var first := w.(latency := latency);
    OneDelivery(db, w, now, latency);
    DeliveredAgain(db, first, now, mid, v, later);
    assert first.(latency := v.latency) == w.(latency := v.latency);
    var entry := AuditEntry(None, BatchState(w.batch, w.document));
    assert (db.audit + WorkerEntries(w, n)) + [entry] == db.audit + (WorkerEntries(w, n) + [entry]);
  }

  /**
   Delivering a job k >= 1 times leaves the tables of a single delivery with the last one's latency,
   and one batch_state entry per delivery.
   */
  lemma {:induction false} RedeliveryIdempotent(db: Db, ts: seq<Transaction>)
    requires |ts| >= 1 && ts[0].WorkerWrite? && DeliveriesOf(ts, ts[0].result)
    requires Attempt(db, ts[0]).Ok?
    ensures var w := ts[0].result;
            Run(db, ts)
            == Commit(db, WorkerWrite(w.(latency := ts[|ts| - 1].result.latency), ts[0].now)).(
                 audit := db.audit + WorkerEntries(w, |ts|))
    decreases |ts|
  {
    hide Uuid.Parse;
    hide Attempt;
    hide Commit;
    var k := |ts| - 1;
    var w, now := ts[0].result, ts[0].now;
    if k == 0 {
      assert Run(db, ts) == Commit(Run(db, ts[..0]), ts[0]);
      OneDelivery(db, w, now, w.latency);
      assert w.(latency := w.latency) == w;
      assert WorkerEntries(w, 1) == WorkerEntries(w, 0) + [AuditEntry(None, BatchState(w.batch, w.document))];
    } else {
      var front := ts[..k];
      assert front[0] == ts[0] && front[k - 1] == ts[k - 1];
      assert DeliveriesOf(front, w) && SameJob(w, ts[k].result) && ts[k - 1].WorkerWrite?;
      RedeliveryIdempotent(db, front);
      assert Run(db, ts) == Commit(Run(db, front), ts[k]);
      hide *;
      DeliveredOnTop(db, w, now, k, ts[k - 1].result.latency, Run(db, front), ts[k].result, ts[k].now);
    }
  }

  /** A write keeps what reviewers and the database put into every row, and the order of the rows. */
  lemma WriteKeepsReview(db: Db, w: WorkerResult, now: nat, j: nat)
    requires j < |db.predictions|
    ensures j < |Commit(db, WorkerWrite(w, now)).predictions|
    ensures var row, row' := db.predictions[j], Commit(db, WorkerWrite(w, now)).predictions[j];
            && row'.id == row.id && row'.batch == row.batch && row'.document == row.document
            && row'.createdAt == row.createdAt
            && row'.comment == row.comment && row'.color == row.color && row'.name == row.name
  {
    hide Uuid.Parse;
  }
}
