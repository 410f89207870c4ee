/**
 The tables, and what each repository operation does to them inside a transaction
 (app/db/models.py and app/repositories). An operation either yields the new contents of the
 session or is refused; every refusal is an exception that ends the request or the attempt.
 */
module Database {
  import opened Prelude
  import opened Paths
  import Uuid

  type Id = Uuid.Id

  datatype Role = Admin | Reviewer | Auditor

  datatype User = User(email: string, role: Role)

  datatype Batch = Batch(documentCount: nat)

  datatype Document = Document(batch: Id, key: string)

  datatype Prediction = Prediction(
    id: Id, batch: Id, document: Id,
    category: Label, top1: real, ranking: Ranking, overlay: string, version: string, latency: Option<real>,
    createdAt: nat,
    comment: Option<string>, color: Option<string>, name: Option<string>)

  /** The record that the worker hands over; its ids are texts. */
  datatype PredictionOut = PredictionOut(
    id: Id, batch: string, document: string,
    category: Label, top1: real, ranking: Ranking, overlay: string, version: string, latency: Option<real>)

  datatype Action =
    | RoleChange(target: string, fromRole: Role, toRole: Role)
    | DeletedUser(target: string)
    | Relabeled(target: string, fromLabel: Label, toLabel: Label)
    | Commented(target: string, comment: Option<string>, color: Option<string>)
    | Renamed(target: string, fromName: Option<string>, toName: Option<string>)
    | BatchState(target: string, document: string)

  /** The actor is a nullable foreign key: deleting a user empties it in that user's entries. */
  datatype AuditEntry = AuditEntry(actor: Option<Id>, action: Action)

  datatype Db = Db(
    users: map<Id, User>,
    batches: map<Id, Batch>,
    documents: map<Id, Document>,
    predictions: seq<Prediction>,
    audit: seq<AuditEntry>)

  const EMPTY_DB := Db(map[], map[], map[], [], [])

  datatype Refusal =
    | BadUuid | NotFound | OtherBatch | Integrity
    | Unauthorized | Forbidden | Conflict | TooConfident

  // ---------------------------------------------------------------------------
  // DocumentRepository
  // ---------------------------------------------------------------------------

  /** `ensure_for_ingest`. */
  function EnsureForIngest(db: Db, batchText: string, documentText: string, key: string): (r: Result<Db, Refusal>)
    ensures r.Ok? ==> r.value == db.(batches := r.value.batches, documents := r.value.documents)
  {
    match (Uuid.Parse(batchText), Uuid.Parse(documentText))
    case (Some(b), Some(d)) =>
      var batches := if b in db.batches then db.batches else db.batches[b := Batch(0)];
      if d !in db.documents then
        Ok(db.(documents := db.documents[d := Document(b, key)],
               batches := batches[b := Batch(batches[b].documentCount + 1)]))
      else if db.documents[d].batch != b then Err(OtherBatch)
      else Ok(db.(documents := db.documents[d := Document(b, key)], batches := batches))
    case _ => Err(BadUuid)
  }

  // ---------------------------------------------------------------------------
  // PredictionRepository
  // ---------------------------------------------------------------------------

  /** The first row for a batch and a document, or |rows|. */
  function FindKey(rows: seq<Prediction>, b: Id, d: Id): (i: nat)
    ensures i <= |rows|
    ensures i < |rows| ==> rows[i].batch == b && rows[i].document == d
    ensures forall j :: 0 <= j < i ==> !(rows[j].batch == b && rows[j].document == d)
  {
    if rows == [] || (rows[0].batch == b && rows[0].document == d) then 0
    else 1 + FindKey(rows[1..], b, d)
  }

  /** The first row with an id, or |rows|. */
  function FindId(rows: seq<Prediction>, id: Id): (i: nat)
    ensures i <= |rows|
    ensures i < |rows| ==> rows[i].id == id
    ensures forall j :: 0 <= j < i ==> rows[j].id != id
  {
    if rows == [] || rows[0].id == id then 0 else 1 + FindId(rows[1..], id)
  }

  /** What `ON CONFLICT ... DO UPDATE` overwrites; everything else in the row stays. */
  function Overwritten(row: Prediction, p: PredictionOut): Prediction {
    row.(category := p.category, top1 := p.top1, ranking := p.ranking, overlay := p.overlay,
         version := p.version, latency := p.latency)
  }

  function NewRow(p: PredictionOut, b: Id, d: Id, now: nat): Prediction {
    Prediction(p.id, b, d, p.category, p.top1, p.ranking, p.overlay, p.version, p.latency, now,
               None, None, None)
  }

  /** Insert, or overwrite the row that already has this batch and document. */
  function Upsert(rows: seq<Prediction>, p: PredictionOut, b: Id, d: Id, now: nat): seq<Prediction> {
    var i := FindKey(rows, b, d);
    if i < |rows| then rows[i := Overwritten(rows[i], p)] else rows + [NewRow(p, b, d, now)]
  }

  /** `create_idempotent`: the document must exist, batches are not compared. */
  function CreateIdempotent(db: Db, p: PredictionOut, now: nat): (r: Result<Db, Refusal>)
    ensures r.Ok? ==> r.value == db.(predictions := r.value.predictions)
  {
    match (Uuid.Parse(p.batch), Uuid.Parse(p.document))
    case (Some(b), Some(d)) =>
      if d !in db.documents then Err(NotFound)
      else if b !in db.batches || !(0.0 <= p.top1 <= 1.0) then Err(Integrity)
      else if FindKey(db.predictions, b, d) == |db.predictions|
              && FindId(db.predictions, p.id) < |db.predictions| then Err(Integrity)
      else Ok(db.(predictions := Upsert(db.predictions, p, b, d, now)))
    case _ => Err(BadUuid)
  }

  /** `session.get(Prediction, parse_uuid(text))` followed by `require_row`: the row's index. */
  function LocatePrediction(db: Db, text: string): (r: Result<nat, Refusal>)
    ensures r.Ok? ==> r.value < |db.predictions| && Uuid.Parse(text) == Some(db.predictions[r.value].id)
  {
    match Uuid.Parse(text)
    case None => Err(BadUuid)
    case Some(id) =>
      var i := FindId(db.predictions, id);
      if i < |db.predictions| then Ok(i) else Err(NotFound)
  }

  function UpdateLabel(db: Db, text: string, newLabel: Label): (r: Result<Db, Refusal>)
    ensures r.Ok? ==> r.value == db.(predictions := r.value.predictions)
  {
    var i :- LocatePrediction(db, text);
    Ok(db.(predictions := db.predictions[i := db.predictions[i].(category := newLabel)]))
  }

  function UpdateComment(db: Db, text: string, comment: Option<string>, color: Option<string>): (r: Result<Db, Refusal>)
    ensures r.Ok? ==> r.value == db.(predictions := r.value.predictions)
  {
    var i :- LocatePrediction(db, text);
    Ok(db.(predictions := db.predictions[i := db.predictions[i].(comment := comment, color := color)]))
  }

  function UpdateName(db: Db, text: string, name: Option<string>): (r: Result<Db, Refusal>)
    ensures r.Ok? ==> r.value == db.(predictions := r.value.predictions)
  {
    var i :- LocatePrediction(db, text);
    Ok(db.(predictions := db.predictions[i := db.predictions[i].(name := name)]))
  }

  // ---------------------------------------------------------------------------
  // UserRepository
  // ---------------------------------------------------------------------------

  predicate EmailTaken(db: Db, email: string) {
    exists u :: u in db.users && db.users[u].email == email
  }

  function Admins(users: map<Id, User>): set<Id> {
    set u | u in users && users[u].role == Admin
  }

  /** `count_admins`. */
  function CountAdmins(db: Db): nat {
    |Admins(db.users)|
  }

  /** `create_user`: the primary key and the unique e-mail address are checked by the database. */
  function CreateUser(db: Db, id: Id, email: string, role: Role): (r: Result<Db, Refusal>)
    ensures r.Ok? ==> r.value == db.(users := r.value.users)
  {
    if id in db.users || EmailTaken(db, email) then Err(Integrity)
    else Ok(db.(users := db.users[id := User(email, role)]))
  }

  function LocateUser(db: Db, text: string): (r: Result<Id, Refusal>)
    ensures r.Ok? ==> r.value in db.users && Uuid.Parse(text) == Some(r.value)
  {
    match Uuid.Parse(text)
    case None => Err(BadUuid)
    case Some(id) => if id in db.users then Ok(id) else Err(NotFound)
  }

  function UpdateRole(db: Db, text: string, role: Role): (r: Result<Db, Refusal>)
    ensures r.Ok? ==> r.value == db.(users := r.value.users)
  {
    var u :- LocateUser(db, text);
    Ok(db.(users := db.users[u := db.users[u].(role := role)]))
  }

  /** ON DELETE SET NULL of `audit_log.actor_id`. */
  function WithoutActor(audit: seq<AuditEntry>, u: Id): (r: seq<AuditEntry>)
    ensures |r| == |audit|
    ensures forall i :: 0 <= i < |audit| ==> r[i].action == audit[i].action
    ensures forall i :: 0 <= i < |audit| ==> r[i].actor == if audit[i].actor == Some(u) then None else audit[i].actor
  {
    seq(|audit|, i requires 0 <= i < |audit| =>
      if audit[i].actor == Some(u) then AuditEntry(None, audit[i].action) else audit[i])
  }

  function DeleteUserRow(db: Db, text: string): (r: Result<Db, Refusal>)
    ensures r.Ok? ==> r.value == db.(users := r.value.users, audit := r.value.audit)
  {
    var u :- LocateUser(db, text);
    Ok(db.(users := db.users - {u}, audit := WithoutActor(db.audit, u)))
  }

  // ---------------------------------------------------------------------------
  // AuditRepository
  // ---------------------------------------------------------------------------

  /** `insert`: a named actor must be a row of the user table. */
  function InsertAudit(db: Db, actor: Option<Id>, action: Action): (r: Result<Db, Refusal>)
    ensures r.Ok? ==> r.value == db.(audit := r.value.audit)
  {
    if actor.Some? && actor.value !in db.users then Err(Integrity)
    else Ok(db.(audit := db.audit + [AuditEntry(actor, action)]))
  }
}
