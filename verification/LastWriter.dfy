/**
 The last writer wins: after every run a prediction row holds the result of the last accepted worker
 write under its key, and the label of the last accepted write or relabelling.
 */
module LastWriter {
  import opened Prelude
  import opened Paths
  import opened Database
  import opened Services
  import opened Tables
  import opened ConfidenceGate
  import L = Listing
  import Uuid

  /** The row holds what the worker recorded, whatever reviewers have added. */
  predicate Shows(row: Prediction, w: WorkerResult) {
    && row.ranking == w.ranking && row.top1 == w.ranking[0].1
    && row.overlay == OverlayKey(w.batch, w.document)
    && row.version == w.version && row.latency == Some(w.latency)
  }

  /** Transaction i is the last accepted write into the row. */
  predicate LastWrite(ts: seq<Transaction>, i: nat, row: Prediction) {
    && Succeeded(ts, i) && Writes(ts[i], row)
    && forall j :: i < j < |ts| && Succeeded(ts, j) ==> !Writes(ts[j], row)
  }

  predicate Labels(t: Transaction, row: Prediction) {
    Writes(t, row) || Relabels(t, row)
  }

  function LabelGiven(t: Transaction): Label
    requires t.WorkerWrite? || (t.Http? && t.request.PatchLabel?)
  {
    if t.WorkerWrite? then t.result.ranking[0].0 else t.request.newLabel
  }

  /** Transaction i is the last accepted write or relabelling of the row. */
  predicate LastLabel(ts: seq<Transaction>, i: nat, row: Prediction) {
    && Succeeded(ts, i) && Labels(ts[i], row)
    && forall j :: i < j < |ts| && Succeeded(ts, j) ==> !Labels(ts[j], row)
  }

  /** The parts of a row that a worker writes and no reviewer touches, and what tells the row apart. */
  predicate SameOutcome(row: Prediction, row': Prediction) {
    && row.id == row'.id && row.batch == row'.batch && row.document == row'.document
    && row.ranking == row'.ranking && row.top1 == row'.top1 && row.overlay == row'.overlay
    && row.version == row'.version && row.latency == row'.latency
  }

  // ---------------------------------------------------------------------------
  // One step
  // ---------------------------------------------------------------------------

  predicate OutcomeHistory(db: Db, t: Transaction, j: nat, row': Prediction) {
    || (Writes(t, row') && Shows(row', t.result) && row'.category == t.result.ranking[0].0)
    || (!Writes(t, row') && j < |db.predictions| && SameOutcome(db.predictions[j], row'))
  }

  lemma WriteOutcome(db: Db, w: WorkerResult, now: nat, j: nat)
    requires UniqueKeys(db.predictions) && Uuid.Parse(w.batch).Some? && Uuid.Parse(w.document).Some?
    requires j < |Applied(db, WorkerWrite(w, now)).predictions|
    ensures OutcomeHistory(db, WorkerWrite(w, now), j, Applied(db, WorkerWrite(w, now)).predictions[j])
  {
    hide Uuid.Parse;
    hide OverlayKey;
    var b, d := Uuid.Parse(w.batch).value, Uuid.Parse(w.document).value;
    var i := FindKey(db.predictions, b, d);
    var rows' := Upsert(db.predictions, PredictionFor(w), b, d, now);
    if j != i {
      assert rows'[j] == db.predictions[j];
    }
  }

  lemma StepOutcome(db: Db, t: Transaction, j: nat)
    requires UniqueKeys(db.predictions) && Attempt(db, t).Ok? && j < |Commit(db, t).predictions|
    ensures OutcomeHistory(db, t, j, Commit(db, t).predictions[j])
  {
    hide Uuid.Parse;
    AcceptedIs(db, t);
    match t
    case IngestRow(_, _, _) =>
    case WorkerWrite(w, now) =>
      WriteOutcome(db, w, now, j);
      hide Attempt;
      hide Applied;
    case Http(r) =>
      HttpKeepsRows(db, r);
      hide Attempt;
      hide Commit;
      hide Applied;
  }

  // ---------------------------------------------------------------------------
  // Runs
  // ---------------------------------------------------------------------------

  lemma {:induction false} ResultIsLastWritten(ts: seq<Transaction>, j: nat) returns (i: nat)
    requires j < |Run(EMPTY_DB, ts).predictions|
    ensures var row := Run(EMPTY_DB, ts).predictions[j]; LastWrite(ts, i, row) && Shows(row, ts[i].result)
  {
    hide Attempt;
    hide Uuid.Parse;
    hide OverlayKey;
    var n := |ts| - 1;
    var db, t := Run(EMPTY_DB, ts[..n]), ts[n];
    var row := Run(EMPTY_DB, ts).predictions[j];
    TablesAlways(ts[..n]);
    if Attempt(db, t).Ok? {
      StepOutcome(db, t, j);
    }
    if Attempt(db, t).Ok? && Writes(t, row) {
      i := n;
    } else {
      i := ResultIsLastWritten(ts[..n], j);
      PrefixAccepted(ts, n, i);
      forall m | i < m < |ts| && Succeeded(ts, m)
        ensures !Writes(ts[m], row)
      {
        if m < n {
          PrefixAccepted(ts, n, m);
        }
      }
    }
  }

  lemma {:induction false} LabelIsLastGiven(ts: seq<Transaction>, j: nat) returns (i: nat)
    requires j < |Run(EMPTY_DB, ts).predictions|
    ensures var row := Run(EMPTY_DB, ts).predictions[j]; LastLabel(ts, i, row) && row.category == LabelGiven(ts[i])
  {
    hide Attempt;
    hide Uuid.Parse;
    hide Shows;
    var n := |ts| - 1;
    var db, t := Run(EMPTY_DB, ts[..n]), ts[n];
    var row := Run(EMPTY_DB, ts).predictions[j];
    TablesAlways(ts[..n]);
    if Attempt(db, t).Ok? {
      StepHistory(db, t, j);
      StepOutcome(db, t, j);
    }
    if Attempt(db, t).Ok? && Labels(t, row) {
      i := n;
    } else {
      i := LabelIsLastGiven(ts[..n], j);
      PrefixAccepted(ts, n, i);
      forall m | i < m < |ts| && Succeeded(ts, m)
        ensures !Labels(ts[m], row)
      {
        if m < n {
          PrefixAccepted(ts, n, m);
        }
      }
    }
  }

  /**
   Every row of every run is explained: its result is that of the last accepted write under its key,
   and its label that of the last accepted write or relabelling.
   */
  lemma RowIsExplained(ts: seq<Transaction>, j: nat)
    requires j < |Run(EMPTY_DB, ts).predictions|
    ensures var row := Run(EMPTY_DB, ts).predictions[j];
            && (exists i: nat :: LastWrite(ts, i, row) && Shows(row, ts[i].result))
            && (exists i: nat :: LastLabel(ts, i, row) && row.category == LabelGiven(ts[i]))
  {
    hide Run;
    hide LastWrite;
    hide LastLabel;
    var _ := ResultIsLastWritten(ts, j);
    var _ := LabelIsLastGiven(ts, j);
  }

  /** So each row's overlay address is its own: made of texts that name the row's batch and document. */
  lemma OverlayAddressIsOwn(ts: seq<Transaction>, j: nat) returns (batch: string, document: string)
    requires j < |Run(EMPTY_DB, ts).predictions|
    ensures var row := Run(EMPTY_DB, ts).predictions[j];
            row.overlay == OverlayKey(batch, document)
            && Uuid.Parse(batch) == Some(row.batch) && Uuid.Parse(document) == Some(row.document)
  {
    hide Run;
    hide Uuid.Parse;
    hide OverlayKey;
    var i := ResultIsLastWritten(ts, j);
    batch, document := ts[i].result.batch, ts[i].result.document;
  }

  // ---------------------------------------------------------------------------
  // The first write
  // ---------------------------------------------------------------------------

  /** Transaction i is the first accepted write into the row. */
  predicate FirstWrite(ts: seq<Transaction>, i: nat, row: Prediction) {
    && Succeeded(ts, i) && Writes(ts[i], row)
    && forall j :: 0 <= j < i && Succeeded(ts, j) ==> !Writes(ts[j], row)
  }

  /** The row was made by the transaction: it has its moment and its id. */
  predicate MadeBy(t: Transaction, row: Prediction) {
    Writes(t, row) && row.createdAt == t.now && row.id == t.result.id
  }

  predicate HasKey(rows: seq<Prediction>, b: Id, d: Id) {
    exists k :: 0 <= k < |rows| && rows[k].batch == b && rows[k].document == d
  }

  /** What tells rows apart and dates them stays; at most one row is added, by a write under a new key. */
  predicate RowsAdded(rows: seq<Prediction>, t: Transaction, rows': seq<Prediction>) {
    && |rows| <= |rows'| <= |rows| + 1
    && (forall j :: 0 <= j < |rows| ==>
          rows'[j].id == rows[j].id && rows'[j].batch == rows[j].batch && rows'[j].document == rows[j].document
          && rows'[j].createdAt == rows[j].createdAt)
    && (|rows'| > |rows| ==>
          MadeBy(t, rows'[|rows|]) && !HasKey(rows, rows'[|rows|].batch, rows'[|rows|].document))
  }

  lemma UpsertAdds(rows: seq<Prediction>, w: WorkerResult, b: Id, d: Id, now: nat)
    requires Uuid.Parse(w.batch) == Some(b) && Uuid.Parse(w.document) == Some(d)
    ensures RowsAdded(rows, WorkerWrite(w, now), Upsert(rows, PredictionFor(w), b, d, now))
    ensures HasKey(Upsert(rows, PredictionFor(w), b, d, now), b, d)
  {
    hide Uuid.Parse;
    hide OverlayKey;
    var rows' := Upsert(rows, PredictionFor(w), b, d, now);
    var i := FindKey(rows, b, d);
    assert rows'[i].batch == b && rows'[i].document == d;
  }

  lemma RowsStep(db: Db, t: Transaction)
    ensures RowsAdded(db.predictions, t, Commit(db, t).predictions)
    ensures t.WorkerWrite? && Attempt(db, t).Ok? ==>
              HasKey(Commit(db, t).predictions, Uuid.Parse(t.result.batch).value, Uuid.Parse(t.result.document).value)
  {
    hide Uuid.Parse;
    hide Attempt;
    if Attempt(db, t).Ok? {
      AcceptedIs(db, t);
      if t.WorkerWrite? {
        var b, d := Uuid.Parse(t.result.batch).value, Uuid.Parse(t.result.document).value;
        UpsertAdds(db.predictions, t.result, b, d, t.now);
      }
    }
    if t.Http? {
      HttpKeepsRows(db, t.request);
    }
    hide AppliedRequest;
    hide Upsert;
    hide PredictionFor;
    hide HasKey;
    hide EnsureForIngest;
  }

  lemma RunOn(ts: seq<Transaction>)
    requires ts != []
    ensures var n := |ts| - 1;
            Run(EMPTY_DB, ts) == Commit(Run(EMPTY_DB, ts[..n]), ts[n])
            && (Succeeded(ts, n) <==> Attempt(Run(EMPTY_DB, ts[..n]), ts[n]).Ok?)
  {
  }

  /** Once written, a key stays in the table. */
  lemma {:induction false} WrittenKeyStays(ts: seq<Transaction>, i: nat, row: Prediction)
    requires Succeeded(ts, i) && Writes(ts[i], row)
    ensures HasKey(Run(EMPTY_DB, ts).predictions, row.batch, row.document)
  {
    hide Uuid.Parse;
    hide Attempt;
    var n := |ts| - 1;
    RunOn(ts);
    var rows := Run(EMPTY_DB, ts[..n]).predictions;
    RowsStep(Run(EMPTY_DB, ts[..n]), ts[n]);
    hide Commit;
    hide Run;
    if i < n {
      PrefixAccepted(ts, n, i);
      WrittenKeyStays(ts[..n], i, row);
      var k :| 0 <= k < |rows| && rows[k].batch == row.batch && rows[k].document == row.document;
      var rows' := Run(EMPTY_DB, ts).predictions;
      assert rows'[k].batch == row.batch && rows'[k].document == row.document;
    }
  }

  /**
   The rows of every run, in their order: each was made by the first accepted write under its key and
   has the moment and the id of that write, and the first writes come in the same order.
   */
  lemma {:induction false} RowsFromFirstWrites(ts: seq<Transaction>) returns (births: seq<nat>)
    ensures |births| == |Run(EMPTY_DB, ts).predictions|
    ensures forall j, k :: 0 <= j < k < |births| ==> births[j] < births[k]
    ensures forall j :: 0 <= j < |births| ==>
              var row := Run(EMPTY_DB, ts).predictions[j];
              FirstWrite(ts, births[j], row)
              && row.createdAt == ts[births[j]].now && row.id == ts[births[j]].result.id
  {
    hide Uuid.Parse;
    hide Attempt;
    if ts == [] {
      births := [];
    } else {
      var n := |ts| - 1;
      births := RowsFromFirstWrites(ts[..n]);
      RunOn(ts);
      var rows, rows' := Run(EMPTY_DB, ts[..n]).predictions, Run(EMPTY_DB, ts).predictions;
      RowsStep(Run(EMPTY_DB, ts[..n]), ts[n]);
      if |rows'| > |rows| {
        NewRowIsFirst(ts, rows'[|rows|]);
        births := births + [n];
      }
      hide Run;
      forall j | 0 <= j < |rows|
        ensures FirstWrite(ts, births[j], rows'[j])
      {
        FirstWriteStays(ts, births[j], rows[j], rows'[j]);
      }
    }
  }

  lemma FirstWriteStays(ts: seq<Transaction>, i: nat, row: Prediction, row': Prediction)
    requires ts != [] && FirstWrite(ts[..|ts| - 1], i, row)
    requires row'.batch == row.batch && row'.document == row.document
    ensures FirstWrite(ts, i, row')
  {
    hide Uuid.Parse;
    hide Succeeded;
    var n := |ts| - 1;
    assert i < n by { SucceededIsIn(ts[..n], i); }
    PrefixAccepted(ts, n, i);
    forall j | 0 <= j < i && Succeeded(ts, j)
      ensures !Writes(ts[j], row')
    {
      PrefixAccepted(ts, n, j);
      assert ts[..n][j] == ts[j];
    }
  }

  lemma SucceededIsIn(ts: seq<Transaction>, i: nat)
    requires Succeeded(ts, i)
    ensures i < |ts|
  {
  }

  lemma NewRowIsFirst(ts: seq<Transaction>, row: Prediction)
    requires ts != [] && Writes(ts[|ts| - 1], row) && Succeeded(ts, |ts| - 1)
    requires !HasKey(Run(EMPTY_DB, ts[..|ts| - 1]).predictions, row.batch, row.document)
    ensures FirstWrite(ts, |ts| - 1, row)
  {
    hide Uuid.Parse;
    hide Succeeded;
    hide HasKey;
    hide Run;
    var n := |ts| - 1;
    forall j | 0 <= j < n && Succeeded(ts, j)
      ensures !Writes(ts[j], row)
    {
      PrefixAccepted(ts, n, j);
      if Writes(ts[j], row) {
        assert ts[..n][j] == ts[j];
        WrittenKeyStays(ts[..n], j, row);
      }
    }
  }

  /** So when writes come at increasing moments, the newest-first list is the list of first writes reversed. */
  lemma {:induction false} LatestPredictionFirst(ts: seq<Transaction>)
    requires forall i, k :: 0 <= i < k < |ts| && ts[i].WorkerWrite? && ts[k].WorkerWrite? ==> ts[i].now < ts[k].now
    ensures var rows := Run(EMPTY_DB, ts).predictions;
            |L.NewestFirst(rows)| == |rows|
            && forall k :: 0 <= k < |rows| ==> L.NewestFirst(rows)[k] == rows[|rows| - 1 - k]
  {
    hide Uuid.Parse;
    hide Succeeded;
    var births := RowsFromFirstWrites(ts);
    hide Run;
    var rows := Run(EMPTY_DB, ts).predictions;
    forall j, k | 0 <= j < k < |rows|
      ensures rows[j].createdAt < rows[k].createdAt
    {
      assert FirstWrite(ts, births[j], rows[j]) && FirstWrite(ts, births[k], rows[k]);
      SucceededIsIn(ts, births[k]);
    }
    L.LatestFirst(rows);
  }
}
