/**
 The confidence gate of prediction_service.py over whole runs: who may have given a prediction a
 label that is not the model's first choice.
 */
module ConfidenceGate {
  import opened Prelude
  import opened Paths
  import opened Database
  import opened Services
  import opened Tables
  import Uuid

  /** A transaction relabels the row. */
  predicate Relabels(t: Transaction, row: Prediction) {
    t.Http? && t.request.PatchLabel? && Uuid.Parse(t.request.pid) == Some(row.id)
  }

  /** A transaction writes the worker's result into the row. */
  predicate Writes(t: Transaction, row: Prediction) {
    && t.WorkerWrite?
    && Uuid.Parse(t.result.batch) == Some(row.batch) && Uuid.Parse(t.result.document) == Some(row.document)
  }

  /** Step i gave the row its label, and nothing has relabelled or rewritten the row since. */
  predicate LatestReview(ts: seq<Transaction>, i: nat, row: Prediction) {
    && Succeeded(ts, i) && Relabels(ts[i], row)
    && ts[i].request.newLabel == row.category
    && forall j: nat :: i < j < |ts| && Succeeded(ts, j) ==> !Relabels(ts[j], row) && !Writes(ts[j], row)
  }

  /** The actor of step i was an administrator at the time. */
  predicate MadeByAdmin(ts: seq<Transaction>, i: nat)
    requires i < |ts| && ts[i].Http? && ts[i].request.PatchLabel?
  {
    var users := Before(EMPTY_DB, ts, i).users;
    ts[i].request.actor in users && users[ts[i].request.actor].role == Admin
  }

  predicate ModelsChoice(row: Prediction) {
    row.category == row.ranking[0].0
  }

  /** The parts of a row that the gate looks at. */
  predicate SameForGate(row: Prediction, row': Prediction) {
    && row.id == row'.id && row.batch == row'.batch && row.document == row'.document
    && row.category == row'.category && row.ranking == row'.ranking && row.top1 == row'.top1
  }

  // ---------------------------------------------------------------------------
  // One step
  // ---------------------------------------------------------------------------

  /** How row j of the new tables came about. */
  predicate RowHistory(db: Db, t: Transaction, j: nat, row': Prediction) {
    || (Writes(t, row') && ModelsChoice(row'))
    || (Relabels(t, row') && row'.category == t.request.newLabel
        && t.request.actor in db.users
        && (row'.top1 >= CONFIDENT ==> db.users[t.request.actor].role == Admin))
    || (!Writes(t, row') && !Relabels(t, row') && j < |db.predictions| && SameForGate(db.predictions[j], row'))
  }

  lemma WriteHistory(db: Db, w: WorkerResult, now: nat, j: nat)
    requires TablesInvariant(db) && Found(db, WorkerWrite(w, now))
    requires j < |Applied(db, WorkerWrite(w, now)).predictions|
    ensures RowHistory(db, WorkerWrite(w, now), j, Applied(db, WorkerWrite(w, now)).predictions[j])
  {
    hide Uuid.Parse;
    var t := WorkerWrite(w, now);
    var b, d := Uuid.Parse(w.batch).value, Uuid.Parse(w.document).value;
    var i := FindKey(db.predictions, b, d);
    var rows' := Upsert(db.predictions, PredictionFor(w), b, d, now);
    if j == i {
      assert Writes(t, rows'[j]) && ModelsChoice(rows'[j]);
    } else {
      assert rows'[j] == db.predictions[j];
      assert !Writes(t, rows'[j]);
    }
  }

  lemma ConfidentRelabel(db: Db, actor: Id, pid: string, newLabel: Label)
    requires Attempt(db, Http(PatchLabel(actor, pid, newLabel))).Ok?
    ensures actor in db.users && LocatePrediction(db, pid).Ok?
    ensures db.predictions[LocatePrediction(db, pid).value].top1 >= CONFIDENT ==> db.users[actor].role == Admin
  {
    RelabelEffect(db, actor, db.users[actor].role, pid, newLabel);
    hide Relabel;
  }

  lemma RelabelHistory(db: Db, actor: Id, pid: string, newLabel: Label, j: nat)
    requires TablesInvariant(db) && Attempt(db, Http(PatchLabel(actor, pid, newLabel))).Ok?
    requires j < |Applied(db, Http(PatchLabel(actor, pid, newLabel))).predictions|
    ensures RowHistory(db, Http(PatchLabel(actor, pid, newLabel)), j,
                       Applied(db, Http(PatchLabel(actor, pid, newLabel))).predictions[j])
  {
    ConfidentRelabel(db, actor, pid, newLabel);
    hide Attempt;
    var i := LocatePrediction(db, pid).value;
    assert Uuid.Parse(pid) == Some(db.predictions[i].id);
    hide LocatePrediction;
  }

  lemma StepHistory(db: Db, t: Transaction, j: nat)
    requires TablesInvariant(db) && Attempt(db, t).Ok? && j < |Commit(db, t).predictions|
    ensures RowHistory(db, t, j, Commit(db, t).predictions[j])
  {
    hide Uuid.Parse;
    AcceptedIs(db, t);
    hide Attempt;
    hide CleanName;
    if t.WorkerWrite? {
      WriteHistory(db, t.result, t.now, j);
    } else if t.Http? && t.request.PatchLabel? {
      RelabelHistory(db, t.request.actor, t.request.pid, t.request.newLabel, j);
    } else {
      hide EnsureForIngest;
      hide LocatePrediction;
      hide TablesInvariant;
    }
  }

  // ---------------------------------------------------------------------------
  // Runs
  // ---------------------------------------------------------------------------

  lemma PrefixAccepted(ts: seq<Transaction>, n: nat, i: nat)
    requires i < n <= |ts|
    ensures Succeeded(ts[..n], i) <==> Succeeded(ts, i)
    ensures Before(EMPTY_DB, ts[..n], i) == Before(EMPTY_DB, ts, i)
  {
    assert ts[..n][..i] == ts[..i];
  }

  lemma ReviewSurvives(ts: seq<Transaction>, i: nat, row: Prediction, row': Prediction)
    requires |ts| > 0 && LatestReview(ts[..|ts| - 1], i, row) && SameForGate(row, row')
    requires Succeeded(ts, |ts| - 1) ==> !Relabels(ts[|ts| - 1], row') && !Writes(ts[|ts| - 1], row')
    ensures LatestReview(ts, i, row')
    ensures MadeByAdmin(ts, i) <==> MadeByAdmin(ts[..|ts| - 1], i)
  {
    hide Attempt;
    var n := |ts| - 1;
    PrefixAccepted(ts, n, i);
    forall j: nat | i < j < |ts| && Succeeded(ts, j)
      ensures !Relabels(ts[j], row') && !Writes(ts[j], row')
    {
      if j < n {
        PrefixAccepted(ts, n, j);
      }
    }
  }

  /**
   In every run, a label that is not the model's first choice was given by the latest relabel since
   the worker last wrote the row, and at a confidence of 0.7 or more an administrator gave it.
   */
  lemma {:induction false} Gate(ts: seq<Transaction>, j: nat)
    requires j < |Run(EMPTY_DB, ts).predictions|
    ensures var row := Run(EMPTY_DB, ts).predictions[j];
            !ModelsChoice(row) ==>
              exists i: nat :: LatestReview(ts, i, row) && (row.top1 >= CONFIDENT ==> MadeByAdmin(ts, i))
  {
    hide Attempt;
    if ts != [] {
      var n := |ts| - 1;
      var db, t := Run(EMPTY_DB, ts[..n]), ts[n];
      var row := Run(EMPTY_DB, ts).predictions[j];
      TablesAlways(ts[..n]);
      if Attempt(db, t).Ok? {
        StepHistory(db, t, j);
      }
      assert Succeeded(ts, n) <==> Attempt(db, t).Ok?;
      if !ModelsChoice(row) {
        if Attempt(db, t).Ok? && Relabels(t, row) {
          assert LatestReview(ts, n, row);
        } else {
          Gate(ts[..n], j);
          var before := db.predictions[j];
          var i: nat :| LatestReview(ts[..n], i, before) && (before.top1 >= CONFIDENT ==> MadeByAdmin(ts[..n], i));
          ReviewSurvives(ts, i, before, row);
        }
      }
    }
  }

  /** A request to relabel a confident prediction is accepted from an administrator only. */
  lemma ConfidentNeedsAdmin(db: Db, actor: Id, pid: string, newLabel: Label)
    requires actor in db.users && LocatePrediction(db, pid).Ok?
    ensures Attempt(db, Http(PatchLabel(actor, pid, newLabel))).Ok?
            <==> (match db.users[actor].role
                  case Admin => true
                  case Reviewer => db.predictions[LocatePrediction(db, pid).value].top1 < 0.7
                  case Auditor => false)
  {
    hide Uuid.Parse;
  }
}
