/**
 Delivering a job again in the middle of other traffic: anything may happen between the deliveries but
 a write of another result into the same row. The extra deliveries could as well be left out, but for
 the latency and the label of the one row and what the log says of them; and it is said exactly when
 the label, too, is the one that the row would have without them.
 */
module Redelivery {
  import opened Prelude
  import opened Paths
  import opened Database
  import opened Services
  import T = Tables
  import Uuid

  // ---------------------------------------------------------------------------
  // Deliveries and other traffic
  // ---------------------------------------------------------------------------

  predicate Delivery(t: Transaction, w: WorkerResult) {
    t.WorkerWrite? && T.SameJob(w, t.result)
  }

  /** The transaction writes no result into the row of the job. */
  predicate Elsewhere(t: Transaction, w: WorkerResult) {
    t.WorkerWrite? ==>
      Uuid.Parse(t.result.batch) != Uuid.Parse(w.batch) || Uuid.Parse(t.result.document) != Uuid.Parse(w.document)
  }

  /** The transaction gives row k a new label, and is not refused. */
  predicate Relabels(db: Db, t: Transaction, k: nat) {
    t.Http? && t.request.PatchLabel? && LocatePrediction(db, t.request.pid) == Ok(k) && Attempt(db, t).Ok?
  }

  /** The same traffic without the deliveries. */
  function WithoutDeliveries(ts: seq<Transaction>, w: WorkerResult): seq<Transaction> {
    if ts == [] then []
    else WithoutDeliveries(ts[..|ts| - 1], w) + if Delivery(ts[|ts| - 1], w) then [] else [ts[|ts| - 1]]
  }

  function Deliveries(ts: seq<Transaction>, w: WorkerResult): nat {
    if ts == [] then 0 else Deliveries(ts[..|ts| - 1], w) + if Delivery(ts[|ts| - 1], w) then 1 else 0
  }

  /** The latency that the last delivery measured. */
  function LastLatency(ts: seq<Transaction>, w: WorkerResult): real {
    if ts == [] then w.latency
    else if Delivery(ts[|ts| - 1], w) then ts[|ts| - 1].result.latency
    else LastLatency(ts[..|ts| - 1], w)
  }

  // ---------------------------------------------------------------------------
  // Tables that differ in one latency, one label and the log of these
  // ---------------------------------------------------------------------------

  predicate EntryOf(entry: AuditEntry, w: WorkerResult) {
    entry.action == BatchState(w.batch, w.document)
  }

  /** An entry, but for the former label in a relabelling of the row. */
  function Masked(entry: AuditEntry, row: Id): AuditEntry {
    match entry.action
    case Relabeled(target, _, toLabel) =>
      if Uuid.Parse(target) == Some(row) then entry.(action := Relabeled(target, toLabel, toLabel)) else entry
    case _ => entry
  }

  /** The log without the entries of the job and without the former labels of its row. */
  function Others(audit: seq<AuditEntry>, w: WorkerResult, row: Id): seq<AuditEntry> {
    if audit == [] then []
    else
      var last := audit[|audit| - 1];
      Others(audit[..|audit| - 1], w, row) + if EntryOf(last, w) then [] else [Masked(last, row)]
  }

  /** Rows that agree but for the latency and the label of row k. */
  predicate SameRows(rows: seq<Prediction>, rows': seq<Prediction>, k: nat) {
    && |rows| == |rows'| && k < |rows|
    && (forall i :: 0 <= i < |rows| && i != k ==> rows'[i] == rows[i])
    && rows'[k] == rows[k].(latency := rows'[k].latency, category := rows'[k].category)
  }

  predicate Alike(a: Db, b: Db, w: WorkerResult, k: nat, row: Id, extra: nat) {
    && a.users == b.users && a.batches == b.batches && a.documents == b.documents
    && SameRows(b.predictions, a.predictions, k)
    && Others(a.audit, w, row) == Others(b.audit, w, row)
    && |a.audit| == |b.audit| + extra
  }

  /** What a delivery makes of the job's row when that holds the result already. */
  function Refreshed(row: Prediction, v: WorkerResult): Prediction {
    row.(latency := Some(v.latency), category := v.ranking[0].0)
  }

  /** Row k is the job's, and holds its result with some latency and some label. */
  predicate Holds(db: Db, w: WorkerResult, k: nat, row: Id) {
    && Uuid.Parse(w.batch).Some? && Uuid.Parse(w.document).Some?
    && Uuid.Parse(w.batch).value in db.batches && Uuid.Parse(w.document).value in db.documents
    && k < |db.predictions| && db.predictions[k].id == row
    && FindKey(db.predictions, Uuid.Parse(w.batch).value, Uuid.Parse(w.document).value) == k
    && Overwritten(db.predictions[k], PredictionFor(w)) == Refreshed(db.predictions[k], w)
  }

  // ---------------------------------------------------------------------------
  // The log
  // ---------------------------------------------------------------------------

  lemma OthersAppend(audit: seq<AuditEntry>, entry: AuditEntry, w: WorkerResult, row: Id)
    ensures Others(audit + [entry], w, row)
            == Others(audit, w, row) + if EntryOf(entry, w) then [] else [Masked(entry, row)]
  {
    hide Masked;
    assert (audit + [entry])[..|audit|] == audit;
  }

  lemma {:induction false} OthersWithoutActor(audit: seq<AuditEntry>, u: Id, w: WorkerResult, row: Id)
    ensures Others(WithoutActor(audit, u), w, row) == WithoutActor(Others(audit, w, row), u)
  {
    hide Uuid.Parse;
    if audit != [] {
      var front, last := audit[..|audit| - 1], audit[|audit| - 1];
      OthersWithoutActor(front, u, w, row);
      var cleared := WithoutActor(audit, u);
      var entry := Masked(last, row);
      assert cleared[..|audit| - 1] == WithoutActor(front, u);
      assert WithoutActor([entry], u) == [Masked(cleared[|audit| - 1], row)];
      assert WithoutActor(Others(front, w, row) + [entry], u)
             == WithoutActor(Others(front, w, row), u) + WithoutActor([entry], u);
      assert Others(front, w, row) + [] == Others(front, w, row);
    }
  }

  // ---------------------------------------------------------------------------
  // Finding rows
  // ---------------------------------------------------------------------------

  lemma FindsAlike(rows: seq<Prediction>, rows': seq<Prediction>, k: nat)
    requires SameRows(rows, rows', k)
    ensures forall id :: FindId(rows', id) == FindId(rows, id)
    ensures forall b, d :: FindKey(rows', b, d) == FindKey(rows, b, d)
  {
    forall id
      ensures FindId(rows', id) == FindId(rows, id)
    {
      var i, j := FindId(rows, id), FindId(rows', id);
      assert i < |rows| ==> rows'[i].id == id;
      assert j < |rows| ==> rows[j].id == id;
    }
    forall b, d
      ensures FindKey(rows', b, d) == FindKey(rows, b, d)
    {
      var i, j := FindKey(rows, b, d), FindKey(rows', b, d);
      assert i < |rows| ==> rows'[i].batch == b && rows'[i].document == d;
      assert j < |rows| ==> rows[j].batch == b && rows[j].document == d;
    }
  }

  // ---------------------------------------------------------------------------
  // One transaction
  // ---------------------------------------------------------------------------

  lemma LocatesAlike(a: Db, b: Db, k: nat, text: string)
    requires SameRows(b.predictions, a.predictions, k)
    ensures LocatePrediction(a, text) == LocatePrediction(b, text)
    ensures LocatePrediction(a, text).Ok? ==>
              a.predictions[LocatePrediction(a, text).value].top1 == b.predictions[LocatePrediction(a, text).value].top1
  {
    hide Uuid.Parse;
    FindsAlike(b.predictions, a.predictions, k);
    hide FindId;
  }

  lemma ReviewAccepted(db: Db, actor: Id, role: Role, r: Request)
    requires r.PatchLabel? || r.PatchComment? || r.PatchName?
    ensures var found := actor in db.users && LocatePrediction(db, r.pid).Ok?;
            && (r.PatchLabel? ==>
                  (Relabel(db, actor, role, r.pid, r.newLabel).Ok?
                   <==> found && (role == Admin
                                  || db.predictions[LocatePrediction(db, r.pid).value].top1 < CONFIDENT)))
            && (r.PatchComment? ==> (AddComment(db, actor, r.pid, r.comment, r.color).Ok? <==> found))
            && (r.PatchName? ==> (RenameDocument(db, actor, r.pid, r.newName).Ok? <==> found))
  {
    hide Uuid.Parse;
    hide CleanName;
    hide FindId;
  }

  lemma ReviewVerdict(a: Db, b: Db, k: nat, r: Request)
    requires a.users == b.users && SameRows(b.predictions, a.predictions, k)
    requires r.PatchLabel? || r.PatchComment? || r.PatchName?
    ensures Handle(a, r).Ok? <==> Handle(b, r).Ok?
  {
    LocatesAlike(a, b, k, r.pid);
    if r.actor in a.users {
      ReviewAccepted(a, r.actor, a.users[r.actor].role, r);
      ReviewAccepted(b, r.actor, b.users[r.actor].role, r);
    }
    hide Relabel;
    hide AddComment;
    hide RenameDocument;
    hide LocatePrediction;
    hide SameRows;
  }

  lemma UserChangeAccepted(db: Db, actor: Id, role: Role, target: string, newRole: Role)
    ensures ToggleRole(db, actor, role, target, newRole).Ok?
            <==> LocateUser(db, target).Ok? && !DemotesOnlyAdmin(db, actor, role, target, newRole) && actor in db.users
    ensures DeleteUser(db, actor, role, target).Ok?
            <==> Uuid.Print(actor) != target && !OnlyAdminRefusal(db, actor, role, target)
                 && LocateUser(db, target).Ok? && actor in db.users && LocateUser(db, target).value != actor
  {
    hide Uuid.Parse;
    hide Uuid.Print;
    hide DemotesOnlyAdmin;
    hide OnlyAdminRefusal;
    hide WithoutActor;
  }

  lemma UserChangeVerdict(a: Db, b: Db, actor: Id, role: Role, target: string, newRole: Role)
    requires a.users == b.users
    ensures ToggleRole(a, actor, role, target, newRole).Ok? <==> ToggleRole(b, actor, role, target, newRole).Ok?
    ensures DeleteUser(a, actor, role, target).Ok? <==> DeleteUser(b, actor, role, target).Ok?
  {
    UserChangeAccepted(a, actor, role, target, newRole);
    UserChangeAccepted(b, actor, role, target, newRole);
    hide ToggleRole;
    hide DeleteUser;
    hide Uuid.Parse;
    hide Uuid.Print;
  }

  lemma UserVerdict(a: Db, b: Db, r: Request)
    requires a.users == b.users && (r.PostRegister? || r.PatchRole? || r.DeleteAccount?)
    ensures Handle(a, r).Ok? <==> Handle(b, r).Ok?
  {
    if r.PostRegister? {
      assert CountAdmins(a) == CountAdmins(b);
      assert EmailTaken(a, r.email) == EmailTaken(b, r.email);
      hide CountAdmins;
      hide EmailTaken;
    } else if r.actor in a.users {
      UserChangeVerdict(a, b, r.actor, a.users[r.actor].role, r.target, if r.PatchRole? then r.newRole else Admin);
    }
    hide ToggleRole;
    hide DeleteUser;
  }

  lemma WriteVerdict(a: Db, b: Db, k: nat, p: PredictionOut, now: nat)
    requires a.documents == b.documents && a.batches == b.batches && SameRows(b.predictions, a.predictions, k)
    ensures RecordPrediction(a, p, now).Ok? <==> RecordPrediction(b, p, now).Ok?
  {
    hide Uuid.Parse;
    FindsAlike(b.predictions, a.predictions, k);
    hide FindId;
    hide FindKey;
    hide Upsert;
    hide SameRows;
  }

  /** Neither the latency nor the log decides whether a transaction is accepted. */
  lemma SameVerdict(a: Db, b: Db, w: WorkerResult, k: nat, row: Id, extra: nat, t: Transaction)
    requires Alike(a, b, w, k, row, extra)
    ensures Attempt(a, t).Ok? <==> Attempt(b, t).Ok?
  {
    hide Uuid.Parse;
    hide PredictionFor;
    hide Handle;
    hide RecordPrediction;
    hide Others;
    match t
    case IngestRow(_, _, _) =>
    case WorkerWrite(v, now) =>
      WriteVerdict(a, b, k, PredictionFor(v), now);
    case Http(r) =>
      if r.PatchLabel? || r.PatchComment? || r.PatchName? {
        ReviewVerdict(a, b, k, r);
      } else {
        UserVerdict(a, b, r);
      }
  }

  lemma WriteElsewhere(rows: seq<Prediction>, rows': seq<Prediction>, k: nat, p: PredictionOut, b: Id, d: Id, now: nat)
    requires SameRows(rows, rows', k) && !(rows[k].batch == b && rows[k].document == d)
    ensures SameRows(Upsert(rows, p, b, d, now), Upsert(rows', p, b, d, now), k)
    ensures Upsert(rows', p, b, d, now)[k] == rows'[k]
  {
    FindsAlike(rows, rows', k);
  }

  lemma WriteAlike(a: Db, b: Db, w: WorkerResult, k: nat, row: Id, extra: nat, v: WorkerResult, now: nat)
    requires Alike(a, b, w, k, row, extra) && Holds(a, w, k, row) && Elsewhere(WorkerWrite(v, now), w)
    ensures Alike(Applied(a, WorkerWrite(v, now)), Applied(b, WorkerWrite(v, now)), w, k, row, extra)
  {
    hide Uuid.Parse;
    hide Others;
    hide Upsert;
    if Uuid.Parse(v.batch).Some? && Uuid.Parse(v.document).Some? {
      WriteElsewhere(b.predictions, a.predictions, k, PredictionFor(v), Uuid.Parse(v.batch).value,
                     Uuid.Parse(v.document).value, now);
      LogAlike(a, b, w, row, AuditEntry(None, BatchState(v.batch, v.document)));
    }
    hide PredictionFor;
    hide SameRows;
  }

  /** Other traffic keeps tables alike that were alike. */
  lemma ElsewhereAlike(a: Db, b: Db, w: WorkerResult, k: nat, row: Id, extra: nat, t: Transaction)
    requires Alike(a, b, w, k, row, extra) && Holds(a, w, k, row) && Elsewhere(t, w)
    requires Attempt(a, t).Ok? && Attempt(b, t).Ok?
    ensures Alike(Applied(a, t), Applied(b, t), w, k, row, extra)
  {
    hide Uuid.Parse;
    hide Attempt;
    hide PredictionFor;
    hide Others;
    AcceptedIs(a, t);
    match t
    case IngestRow(_, _, _) =>
      hide SameRows;
    case WorkerWrite(v, now) =>
      WriteAlike(a, b, w, k, row, extra, v, now);
      hide Applied;
    case Http(r) =>
      hide AppliedRequest;
      if r.PatchLabel? || r.PatchComment? || r.PatchName? {
        ReviewAlike(a, b, w, k, row, extra, r);
      } else {
        UserRequestAlike(a, b, w, k, row, extra, r);
      }
      hide Alike;
  }

  lemma LogAlike(a: Db, b: Db, w: WorkerResult, row: Id, entry: AuditEntry)
    requires Others(a.audit, w, row) == Others(b.audit, w, row)
    ensures Others(a.audit + [entry], w, row) == Others(b.audit + [entry], w, row)
  {
    OthersAppend(a.audit, entry, w, row);
    OthersAppend(b.audit, entry, w, row);
  }

  lemma RelabelLogAlike(a: Db, b: Db, w: WorkerResult, row: Id, actor: Id, pid: string, x: Label, y: Label, to: Label)
    requires Others(a.audit, w, row) == Others(b.audit, w, row)
    requires x == y || Uuid.Parse(pid) == Some(row)
    ensures Others(a.audit + [AuditEntry(Some(actor), Relabeled(pid, x, to))], w, row)
            == Others(b.audit + [AuditEntry(Some(actor), Relabeled(pid, y, to))], w, row)
  {
    hide Uuid.Parse;
    hide Others;
    OthersAppend(a.audit, AuditEntry(Some(actor), Relabeled(pid, x, to)), w, row);
    OthersAppend(b.audit, AuditEntry(Some(actor), Relabeled(pid, y, to)), w, row);
  }

  lemma UserRequestAlike(a: Db, b: Db, w: WorkerResult, k: nat, row: Id, extra: nat, r: Request)
    requires Alike(a, b, w, k, row, extra) && (r.PostRegister? || r.PatchRole? || r.DeleteAccount?)
    requires Found(a, Http(r))
    ensures Alike(AppliedRequest(a, r), AppliedRequest(b, r), w, k, row, extra)
  {
    hide Uuid.Parse;
    hide SameRows;
    hide Others;
    match r
    case PostRegister(_, _) =>
    case PatchRole(actor, target, newRole) =>
      var u := LocateUser(a, target).value;
      LogAlike(a, b, w, row, AuditEntry(Some(actor), RoleChange(target, a.users[u].role, newRole)));
    case DeleteAccount(actor, target) =>
      var u := LocateUser(a, target).value;
      OthersWithoutActor(a.audit, u, w, row);
      OthersWithoutActor(b.audit, u, w, row);
      OthersAppend(WithoutActor(a.audit, u), AuditEntry(Some(actor), DeletedUser(target)), w, row);
      OthersAppend(WithoutActor(b.audit, u), AuditEntry(Some(actor), DeletedUser(target)), w, row);
      hide WithoutActor;
  }

  lemma RowReplaced(rows: seq<Prediction>, rows': seq<Prediction>, k: nat, i: nat, r: Prediction, r': Prediction)
    requires SameRows(rows, rows', k) && i < |rows|
    requires if i == k then r' == r.(latency := r'.latency, category := r'.category) else r' == r
    ensures SameRows(rows[i := r], rows'[i := r'], k)
  {
  }

  lemma ReviewAlike(a: Db, b: Db, w: WorkerResult, k: nat, row: Id, extra: nat, r: Request)
    requires Alike(a, b, w, k, row, extra) && (r.PatchLabel? || r.PatchComment? || r.PatchName?)
    requires a.predictions[k].id == row && Found(a, Http(r))
    ensures Alike(AppliedRequest(a, r), AppliedRequest(b, r), w, k, row, extra)
  {
    LocatesAlike(a, b, k, r.pid);
    hide Uuid.Parse;
    hide CleanName;
    hide LocatePrediction;
    hide Others;
    var i := LocatePrediction(a, r.pid).value;
    var x, y := a.predictions[i], b.predictions[i];
    assert if i == k then x == y.(latency := x.latency, category := x.category) else x == y;
    match r
    case PatchLabel(actor, pid, newLabel) =>
      RowReplaced(b.predictions, a.predictions, k, i, y.(category := newLabel), x.(category := newLabel));
      RelabelLogAlike(a, b, w, row, actor, pid, x.category, y.category, newLabel);
      hide SameRows;
    case PatchComment(actor, pid, comment, color) =>
      RowReplaced(b.predictions, a.predictions, k, i,
                  y.(comment := comment, color := color), x.(comment := comment, color := color));
      LogAlike(a, b, w, row, AuditEntry(Some(actor), Commented(pid, comment, color)));
      hide SameRows;
    case PatchName(actor, pid, newName) =>
      var name := CleanName(newName);
      RowReplaced(b.predictions, a.predictions, k, i, y.(name := name), x.(name := name));
      LogAlike(a, b, w, row, AuditEntry(Some(actor), Renamed(pid, x.name, name)));
      hide SameRows;
  }

  // ---------------------------------------------------------------------------
  // The job's row
  // ---------------------------------------------------------------------------

  /** Rows keep their ids and keys, and no batch or document goes. */
  predicate KeysKept(db: Db, db': Db) {
    && db.batches.Keys <= db'.batches.Keys && db.documents.Keys <= db'.documents.Keys
    && |db.predictions| <= |db'.predictions|
    && forall i :: 0 <= i < |db.predictions| ==>
         db'.predictions[i].id == db.predictions[i].id && db'.predictions[i].batch == db.predictions[i].batch
         && db'.predictions[i].document == db.predictions[i].document
  }

  lemma HoldsStill(db: Db, db': Db, w: WorkerResult, k: nat, row: Id)
    requires Holds(db, w, k, row) && KeysKept(db, db')
    requires Overwritten(db'.predictions[k], PredictionFor(w)) == Refreshed(db'.predictions[k], w)
    ensures Holds(db', w, k, row)
  {
    hide Uuid.Parse;
    hide PredictionFor;
    hide Overwritten;
    var b, d := Uuid.Parse(w.batch).value, Uuid.Parse(w.document).value;
    assert db'.predictions[k].batch == b && db'.predictions[k].document == d;
    forall j | 0 <= j < k
      ensures !(db'.predictions[j].batch == b && db'.predictions[j].document == d)
    {
      assert !(db.predictions[j].batch == b && db.predictions[j].document == d);
    }
  }

  lemma ElsewhereKeepsKeys(db: Db, t: Transaction)
    ensures KeysKept(db, Commit(db, t))
  {
    hide Uuid.Parse;
    match t
    case IngestRow(_, _, _) =>
    case WorkerWrite(w, now) =>
      if Attempt(db, t).Ok? {
        RecordEffect(db, PredictionFor(w), now);
      }
      hide RecordPrediction;
      hide PredictionFor;
    case Http(r) =>
      T.HttpKeepsRows(db, r);
      hide Commit;
  }

  lemma OtherWriteKeepsRow(rows: seq<Prediction>, k: nat, p: PredictionOut, b: Id, d: Id, now: nat)
    requires k < |rows| && !(rows[k].batch == b && rows[k].document == d)
    ensures k < |Upsert(rows, p, b, d, now)| && Upsert(rows, p, b, d, now)[k] == rows[k]
  {
  }

  lemma ReviewKeepsResult(db: Db, k: nat, r: Request)
    requires k < |db.predictions| && Found(db, Http(r))
    ensures var rows' := AppliedRequest(db, r).predictions;
            && k < |rows'| && SameResult(db.predictions[k], rows'[k])
            && rows'[k].category
               == if r.PatchLabel? && LocatePrediction(db, r.pid) == Ok(k) then r.newLabel
                  else db.predictions[k].category
  {
    hide LocatePrediction;
    hide CleanName;
    hide CountAdmins;
    hide WithoutActor;
    hide LocateUser;
  }

  /** Nothing of the row changed but its label, comment, colour and name. */
  predicate SameResult(r: Prediction, r': Prediction) {
    r' == r.(category := r'.category, comment := r'.comment, color := r'.color, name := r'.name)
  }

  /** Other traffic leaves the job's row its result, and its label unless it is an accepted relabelling. */
  lemma ElsewhereKeepsResult(db: Db, w: WorkerResult, k: nat, row: Id, t: Transaction)
    requires Holds(db, w, k, row) && Elsewhere(t, w)
    ensures var rows' := Commit(db, t).predictions;
            && k < |rows'| && SameResult(db.predictions[k], rows'[k])
            && rows'[k].category == if Relabels(db, t, k) then t.request.newLabel else db.predictions[k].category
  {
    hide Uuid.Parse;
    hide PredictionFor;
    hide Overwritten;
    if Attempt(db, t).Ok? {
      AcceptedIs(db, t);
      hide Attempt;
      hide Commit;
      match t
      case IngestRow(_, _, _) =>
      case WorkerWrite(v, now) =>
        OtherWriteKeepsRow(db.predictions, k, PredictionFor(v), Uuid.Parse(v.batch).value,
                           Uuid.Parse(v.document).value, now);
        hide Upsert;
      case Http(r) =>
        ReviewKeepsResult(db, k, r);
        hide AppliedRequest;
    }
  }

  /** Other traffic leaves the result in the job's row, and its latency. */
  lemma ElsewhereHolds(db: Db, w: WorkerResult, k: nat, row: Id, t: Transaction)
    requires Holds(db, w, k, row) && Elsewhere(t, w)
    ensures Holds(Commit(db, t), w, k, row)
    ensures Commit(db, t).predictions[k].latency == db.predictions[k].latency
  {
    hide Uuid.Parse;
    hide PredictionFor;
    ElsewhereKeepsKeys(db, t);
    ElsewhereKeepsResult(db, w, k, row, t);
    hide Commit;
    HoldsStill(db, Commit(db, t), w, k, row);
  }

  // ---------------------------------------------------------------------------
  // Deliveries
  // ---------------------------------------------------------------------------

  /** The row that the first delivery writes holds the result. */
  lemma FirstDelivery(db: Db, w: WorkerResult, now: nat) returns (k: nat)
    requires Attempt(db, WorkerWrite(w, now)).Ok?
    ensures var once := Commit(db, WorkerWrite(w, now));
            k < |once.predictions| && Holds(once, w, k, once.predictions[k].id)
            && once.predictions[k].latency == Some(w.latency)
  {
    hide Uuid.Parse;
    var p := PredictionFor(w);
    RecordEffect(db, p, now);
    k := FindKey(db.predictions, Uuid.Parse(w.batch).value, Uuid.Parse(w.document).value);
    T.UpsertTwice(db.predictions, p, p, Uuid.Parse(w.batch).value, Uuid.Parse(w.document).value, now, now);
    var rows := Commit(db, WorkerWrite(w, now)).predictions;
    forall j | 0 <= j < k
      ensures rows[j] == db.predictions[j]
    {
    }
  }

  lemma DeliveryRow(row: Prediction, w: WorkerResult, v: WorkerResult)
    requires T.SameJob(w, v) && Overwritten(row, PredictionFor(w)) == Refreshed(row, w)
    ensures Overwritten(row, PredictionFor(v)) == Refreshed(row, v)
    ensures Overwritten(Refreshed(row, v), PredictionFor(w)) == Refreshed(row, w)
  {
    assert PredictionFor(v) == PredictionFor(w).(id := v.id, latency := Some(v.latency));
    assert Overwritten(row, PredictionFor(v)) == Overwritten(row, PredictionFor(w)).(latency := Some(v.latency));
  }

  /** Another delivery is accepted, brings its latency and the model's label, and adds one entry. */
  lemma DeliveryIs(db: Db, w: WorkerResult, k: nat, row: Id, v: WorkerResult, now: nat)
    requires Holds(db, w, k, row) && T.SameJob(w, v)
    ensures Commit(db, WorkerWrite(v, now)) == db.(
              predictions := db.predictions[k := Refreshed(db.predictions[k], v)],
              audit := db.audit + [AuditEntry(None, BatchState(w.batch, w.document))])
  {
    hide Uuid.Parse;
    DeliveryRow(db.predictions[k], w, v);
    assert 0.0 <= v.ranking[0].1 <= 1.0;
    hide Overwritten;
    hide Refreshed;
  }

  lemma DeliveryAlike(a: Db, b: Db, w: WorkerResult, k: nat, row: Id, extra: nat, v: WorkerResult, now: nat)
    requires Alike(a, b, w, k, row, extra) && Holds(a, w, k, row) && T.SameJob(w, v)
    ensures var a' := Commit(a, WorkerWrite(v, now));
            Alike(a', b, w, k, row, extra + 1) && Holds(a', w, k, row)
            && a'.predictions[k] == Refreshed(a.predictions[k], v)
  {
    hide Uuid.Parse;
    DeliveryIs(a, w, k, row, v, now);
    DeliveryRow(a.predictions[k], w, v);
    OthersAppend(a.audit, AuditEntry(None, BatchState(w.batch, w.document)), w, row);
    hide Commit;
    hide Others;
    hide PredictionFor;
    hide Overwritten;
    var a' := Commit(a, WorkerWrite(v, now));
    assert Others(a.audit, w, row) + [] == Others(a.audit, w, row);
    HoldsStill(a, a', w, k, row);
  }

  // ---------------------------------------------------------------------------
  // Runs
  // ---------------------------------------------------------------------------

  predicate Traffic(ts: seq<Transaction>, w: WorkerResult) {
    forall i :: 0 <= i < |ts| ==> Delivery(ts[i], w) || Elsewhere(ts[i], w)
  }

  lemma WithoutLast(ts: seq<Transaction>, w: WorkerResult)
    requires ts != []
    ensures var front, t := ts[..|ts| - 1], ts[|ts| - 1];
            forall db :: Run(db, WithoutDeliveries(ts, w))
                         == if Delivery(t, w) then Run(db, WithoutDeliveries(front, w))
                            else Commit(Run(db, WithoutDeliveries(front, w)), t)
  {
    hide Commit;
    hide Delivery;
    var t, kept := ts[|ts| - 1], WithoutDeliveries(ts[..|ts| - 1], w);
    assert kept + [] == kept;
    assert (kept + [t])[..|kept|] == kept;
  }

  lemma {:induction false} TrafficAlike(once: Db, w: WorkerResult, k: nat, row: Id, ts: seq<Transaction>)
    requires Holds(once, w, k, row) && once.predictions[k].latency == Some(w.latency) && Traffic(ts, w)
    ensures var a, b := Run(once, ts), Run(once, WithoutDeliveries(ts, w));
            Alike(a, b, w, k, row, Deliveries(ts, w)) && Holds(a, w, k, row)
            && a.predictions[k].latency == Some(LastLatency(ts, w))
  {
    hide Uuid.Parse;
    hide Attempt;
    hide Others;
    if ts != [] {
      var front, t := ts[..|ts| - 1], ts[|ts| - 1];
      TrafficAlike(once, w, k, row, front);
      WithoutLast(ts, w);
      var a, b, n := Run(once, front), Run(once, WithoutDeliveries(front, w)), Deliveries(front, w);
      if Delivery(t, w) {
        DeliveryAlike(a, b, w, k, row, n, t.result, t.now);
      } else {
        ElsewhereHolds(a, w, k, row, t);
        SameVerdict(a, b, w, k, row, n, t);
        if Attempt(a, t).Ok? {
          ElsewhereAlike(a, b, w, k, row, n, t);
          AcceptedIs(a, t);
          AcceptedIs(b, t);
        }
      }
      hide Commit;
      hide Alike;
      hide Holds;
    }
  }

  /** Transaction j of the traffic relabels row k. */
  predicate RelabelsAt(once: Db, ts: seq<Transaction>, j: nat, k: nat) {
    j < |ts| && Relabels(Run(once, ts[..j]), ts[j], k)
  }

  /** Some accepted relabelling of row k follows event i. */
  predicate RelabelledAfter(once: Db, ts: seq<Transaction>, i: nat, k: nat) {
    exists j :: i < j < |ts| && RelabelsAt(once, ts, j, k)
  }

  /** Every further delivery has been followed by an accepted relabelling of the row. */
  predicate LabelStands(once: Db, ts: seq<Transaction>, w: WorkerResult, k: nat) {
    forall i :: 0 <= i < |ts| && Delivery(ts[i], w) ==> RelabelledAfter(once, ts, i, k)
  }

  lemma SameRelabels(once: Db, ts: seq<Transaction>, j: nat, k: nat)
    requires j + 1 < |ts|
    ensures RelabelsAt(once, ts, j, k) <==> RelabelsAt(once, ts[..|ts| - 1], j, k)
  {
    hide Run;
    hide Relabels;
    assert ts[..|ts| - 1][..j] == ts[..j];
  }

  lemma LabelStandsStep(once: Db, ts: seq<Transaction>, w: WorkerResult, k: nat)
    requires ts != []
    ensures var front, t := ts[..|ts| - 1], ts[|ts| - 1];
            LabelStands(once, ts, w, k)
            <==> if Delivery(t, w) then false
                 else Relabels(Run(once, front), t, k) || LabelStands(once, front, w, k)
  {
    hide Run;
    hide Relabels;
    hide Delivery;
    var n := |ts| - 1;
    var front, t := ts[..n], ts[n];
    assert RelabelsAt(once, ts, n, k) <==> Relabels(Run(once, front), t, k);
    forall j | 0 <= j < n
      ensures RelabelsAt(once, ts, j, k) <==> RelabelsAt(once, front, j, k)
    {
      SameRelabels(once, ts, j, k);
    }
    hide RelabelsAt;
    forall i | 0 <= i < n
      ensures RelabelledAfter(once, ts, i, k) <==> RelabelledAfter(once, front, i, k) || RelabelsAt(once, ts, n, k)
    {
    }
    assert !RelabelledAfter(once, ts, n, k);
    hide RelabelledAfter;
    assert forall i :: 0 <= i < n ==> front[i] == ts[i];
  }

  /** Which label the row has with the deliveries, in terms of the one that it has without. */
  lemma {:induction false} LabelInTraffic(once: Db, w: WorkerResult, k: nat, row: Id, ts: seq<Transaction>)
    requires Holds(once, w, k, row) && once.predictions[k].latency == Some(w.latency) && Traffic(ts, w)
    ensures var a, b := Run(once, ts).predictions, Run(once, WithoutDeliveries(ts, w)).predictions;
            && k < |a| && k < |b|
            && a[k].category == if LabelStands(once, ts, w, k) then b[k].category else w.ranking[0].0
  {
    hide Uuid.Parse;
    hide Attempt;
    hide LabelStands;
    hide Others;
    TrafficAlike(once, w, k, row, ts);
    if ts == [] {
      NoTraffic(once, w, k);
    } else {
      var front, t := ts[..|ts| - 1], ts[|ts| - 1];
      LabelInTraffic(once, w, k, row, front);
      TrafficAlike(once, w, k, row, front);
      WithoutLast(ts, w);
      LabelStandsStep(once, ts, w, k);
      var a, b, n := Run(once, front), Run(once, WithoutDeliveries(front, w)), Deliveries(front, w);
      if Delivery(t, w) {
        DeliveryAlike(a, b, w, k, row, n, t.result, t.now);
        hide Commit;
        hide Holds;
      } else {
        LabelStep(a, b, w, k, row, n, t);
        hide Commit;
        hide Holds;
        hide Alike;
      }
    }
  }

  lemma NoTraffic(once: Db, w: WorkerResult, k: nat)
    ensures LabelStands(once, [], w, k)
  {
  }

  /** Other traffic relabels the row with the deliveries exactly when it does so without, and to the same label. */
  lemma LabelStep(a: Db, b: Db, w: WorkerResult, k: nat, row: Id, n: nat, t: Transaction)
    requires Alike(a, b, w, k, row, n) && Holds(a, w, k, row) && Elsewhere(t, w)
    ensures var rows, rows' := Commit(a, t).predictions, Commit(b, t).predictions;
            && k < |rows| && k < |rows'|
            && rows[k].category == (if Relabels(a, t, k) then t.request.newLabel else a.predictions[k].category)
            && rows'[k].category == (if Relabels(a, t, k) then t.request.newLabel else b.predictions[k].category)
  {
    hide Uuid.Parse;
    hide PredictionFor;
    SameVerdict(a, b, w, k, row, n, t);
    HoldsAlike(a, b, w, k, row, n);
    if t.Http? && t.request.PatchLabel? {
      LocatesAlike(a, b, k, t.request.pid);
    }
    ElsewhereKeepsResult(a, w, k, row, t);
    ElsewhereKeepsResult(b, w, k, row, t);
    hide Commit;
    hide Attempt;
    hide Holds;
    hide Alike;
    hide LocatePrediction;
  }

  lemma HoldsAlike(a: Db, b: Db, w: WorkerResult, k: nat, row: Id, n: nat)
    requires Alike(a, b, w, k, row, n) && Holds(a, w, k, row)
    ensures Holds(b, w, k, row)
  {
    hide Uuid.Parse;
    hide PredictionFor;
    hide Others;
    FindsAlike(b.predictions, a.predictions, k);
    hide FindKey;
    hide FindId;
  }

  /** Where the job's row is, or past the end. */
  function JobRow(db: Db, w: WorkerResult): nat {
    if Uuid.Parse(w.batch).Some? && Uuid.Parse(w.document).Some?
    then FindKey(db.predictions, Uuid.Parse(w.batch).value, Uuid.Parse(w.document).value)
    else |db.predictions|
  }

  /**
   Re-delivery in the middle of other traffic, relabellings of the row included: after a first
   delivery, leaving out all further deliveries changes nothing but the latency and the label of the
   job's row, the former labels that the log gives for it, and the job's entries in the log, one for
   each delivery. The latency is the last one measured.
   */
  lemma RedeliveryInTraffic(db: Db, w: WorkerResult, now: nat, ts: seq<Transaction>)
    requires Attempt(db, WorkerWrite(w, now)).Ok? && Traffic(ts, w)
    ensures var once := Commit(db, WorkerWrite(w, now));
            var k, a, b := JobRow(once, w), Run(once, ts), Run(once, WithoutDeliveries(ts, w));
            && k < |a.predictions| && a.predictions[k].latency == Some(LastLatency(ts, w))
            && Alike(a, b, w, k, a.predictions[k].id, Deliveries(ts, w))
  {
    hide Uuid.Parse;
    var k := FirstDelivery(db, w, now);
    var once := Commit(db, WorkerWrite(w, now));
    hide Commit;
    TrafficAlike(once, w, k, once.predictions[k].id, ts);
    hide Run;
    hide Alike;
  }

  /**
   Exactly when re-delivery leaves the label alone: if and only if each further delivery has been
   followed by an accepted relabelling of the row, or the label that the row would have without the
   deliveries is the model's. Otherwise the row has the model's label, and a review is lost.
   */
  lemma LabelKeptExactlyWhen(db: Db, w: WorkerResult, now: nat, ts: seq<Transaction>)
    requires Attempt(db, WorkerWrite(w, now)).Ok? && Traffic(ts, w)
    ensures var once := Commit(db, WorkerWrite(w, now));
            var k, a, b := JobRow(once, w), Run(once, ts).predictions, Run(once, WithoutDeliveries(ts, w)).predictions;
            && k < |a| && k < |b|
            && (a[k].category == b[k].category
                <==> LabelStands(once, ts, w, k) || b[k].category == w.ranking[0].0)
            && (a[k].category != b[k].category ==> a[k].category == w.ranking[0].0)
  {
    hide Uuid.Parse;
    var k := FirstDelivery(db, w, now);
    var once := Commit(db, WorkerWrite(w, now));
    hide Commit;
    LabelInTraffic(once, w, k, once.predictions[k].id, ts);
    hide Run;
    hide LabelStands;
  }

  /** So every relabelling to another label than the model's is lost by the next delivery. */
  lemma NextDeliveryLosesReview(db: Db, w: WorkerResult, now: nat, review: Transaction, v: WorkerResult, later: nat)
    requires Attempt(db, WorkerWrite(w, now)).Ok? && T.SameJob(w, v)
    requires var once := Commit(db, WorkerWrite(w, now)); Relabels(once, review, JobRow(once, w))
    requires review.request.newLabel != w.ranking[0].0
    ensures var once := Commit(db, WorkerWrite(w, now));
            var k, b := JobRow(once, w), Run(once, [review]).predictions;
            var a := Run(once, [review, WorkerWrite(v, later)]).predictions;
            k < |a| && k < |b| && b[k].category == review.request.newLabel && a[k].category == w.ranking[0].0
  {
    hide Uuid.Parse;
    hide PredictionFor;
    var k := FirstDelivery(db, w, now);
    var once := Commit(db, WorkerWrite(w, now));
    var ts := [review, WorkerWrite(v, later)];
    ElsewhereKeepsResult(once, w, k, once.predictions[k].id, review);
    ElsewhereHolds(once, w, k, once.predictions[k].id, review);
    var reviewed := Commit(once, review);
    DeliveryIs(reviewed, w, k, once.predictions[k].id, v, later);
    hide Commit;
    assert [review][..0] == [] && ts[..1] == [review];
    assert Run(once, [review]) == reviewed;
    assert Run(once, ts) == Commit(reviewed, WorkerWrite(v, later));
    hide Relabels;
  }
}
