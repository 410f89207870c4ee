/**
 The service layer and the request handlers as transactions: each maps the committed tables to
 new tables or to a refusal, and a refusal leaves the tables as they were (get_session commits or
 rolls back a whole request). A run is any sequence of such transactions.
 */
module Services {
  import opened Prelude
  import opened Paths
  import opened Database
  import Uuid

  // ---------------------------------------------------------------------------
  // Authorisation
  // ---------------------------------------------------------------------------

  datatype Permission =
    | InviteUser | ChangeRole | DeleteUsers | ReadAudit | ReadBatch
    | RelabelPrediction | AddComments | TriggerScan | RenameDocuments

  /** The policy file: allowed (role, action) pairs, with no grouping rules. */
  predicate Allowed(role: Role, permission: Permission) {
    match role
    case Admin => true
    case Reviewer =>
      permission in {ReadBatch, RelabelPrediction, AddComments, TriggerScan, RenameDocuments}
    case Auditor => permission in {ReadBatch, ReadAudit}
  }

  /** `get_current_user` followed by `require_role`: the role of the actor. */
  function Authorize(db: Db, actor: Id, permission: Permission): Result<Role, Refusal> {
    if actor !in db.users then Err(Unauthorized)
    else if Allowed(db.users[actor].role, permission) then Ok(db.users[actor].role)
    else Err(Forbidden)
  }

  // ---------------------------------------------------------------------------
  // PredictionService
  // ---------------------------------------------------------------------------

  /** `record_prediction`, called by the worker only. */
  function RecordPrediction(db: Db, p: PredictionOut, now: nat): (r: Result<Db, Refusal>)
    ensures r.Ok? ==> r.value == db.(predictions := r.value.predictions, audit := r.value.audit)
  {
    var saved :- CreateIdempotent(db, p, now);
    InsertAudit(saved, None, BatchState(p.batch, p.document))
  }

  const CONFIDENT := 0.7

  function Relabel(db: Db, actor: Id, role: Role, text: string, newLabel: Label): (r: Result<Db, Refusal>)
    ensures r.Ok? ==> r.value == db.(predictions := r.value.predictions, audit := r.value.audit)
  {
    var i :- LocatePrediction(db, text);
    var existing := db.predictions[i];
    if role != Admin && existing.top1 >= CONFIDENT then Err(TooConfident)
    else
      match UpdateLabel(db, text, newLabel)
      case Err(e) => Err(e)
      case Ok(updated) => InsertAudit(updated, Some(actor), Relabeled(text, existing.category, newLabel))
  }

  function AddComment(db: Db, actor: Id, text: string, comment: Option<string>, color: Option<string>):
    (r: Result<Db, Refusal>)
    ensures r.Ok? ==> r.value == db.(predictions := r.value.predictions, audit := r.value.audit)
  {
    var _ :- LocatePrediction(db, text);
    match UpdateComment(db, text, comment, color)
    case Err(e) => Err(e)
    case Ok(updated) => InsertAudit(updated, Some(actor), Commented(text, comment, color))
  }

  /** The characters that `str.strip()` removes. */
  const SPACES: set<char> :=
    {' ', '\t', '\n', '\r', '\U{0B}', '\U{0C}', '\U{1C}', '\U{1D}', '\U{1E}', '\U{1F}', '\U{85}', '\U{A0}',
     '\U{1680}', '\U{2000}', '\U{2001}', '\U{2002}', '\U{2003}', '\U{2004}', '\U{2005}', '\U{2006}',
     '\U{2007}', '\U{2008}', '\U{2009}', '\U{200A}', '\U{2028}', '\U{2029}', '\U{202F}', '\U{205F}',
     '\U{3000}'}

  /** The name that is stored: stripped, and None instead of an empty text. */
  function CleanName(name: Option<string>): Option<string> {
    if name.None? then None
    else
      var stripped := Uuid.Strip(name.value, SPACES);
      if stripped == "" then None else Some(stripped)
  }

  function RenameDocument(db: Db, actor: Id, text: string, name: Option<string>): (r: Result<Db, Refusal>)
    ensures r.Ok? ==> r.value == db.(predictions := r.value.predictions, audit := r.value.audit)
  {
    var i :- LocatePrediction(db, text);
    var cleaned := CleanName(name);
    match UpdateName(db, text, cleaned)
    case Err(e) => Err(e)
    case Ok(updated) => InsertAudit(updated, Some(actor), Renamed(text, db.predictions[i].name, cleaned))
  }

  // ---------------------------------------------------------------------------
  // UserService and registration
  // ---------------------------------------------------------------------------

  function Register(db: Db, email: string, id: Id): (r: Result<Db, Refusal>)
    ensures r.Ok? ==> r.value == db.(users := r.value.users)
  {
    if EmailTaken(db, email) then Err(Conflict)
    else CreateUser(db, id, email, if CountAdmins(db) == 0 then Admin else Reviewer)
  }

  /** The guard compares texts, the repository compares parsed ids. */
  predicate DemotesOnlyAdmin(db: Db, actor: Id, role: Role, target: string, newRole: Role) {
    Uuid.Print(actor) == target && role == Admin && newRole != Admin && CountAdmins(db) == 1
  }

  function ToggleRole(db: Db, actor: Id, role: Role, target: string, newRole: Role): (r: Result<Db, Refusal>)
    ensures r.Ok? ==> r.value == db.(users := r.value.users, audit := r.value.audit)
  {
    var u :- LocateUser(db, target);
    if DemotesOnlyAdmin(db, actor, role, target, newRole) then Err(Conflict)
    else
      match UpdateRole(db, target, newRole)
      case Err(e) => Err(e)
      case Ok(updated) => InsertAudit(updated, Some(actor), RoleChange(target, db.users[u].role, newRole))
  }

  /** The refusal "cannot delete the only admin account". */
  predicate OnlyAdminRefusal(db: Db, actor: Id, role: Role, target: string) {
    && Uuid.Print(actor) != target
    && role == Admin
    && CountAdmins(db) == 1
    && LocateUser(db, target).Ok?
    && db.users[LocateUser(db, target).value].role == Admin
  }

  function DeleteUser(db: Db, actor: Id, role: Role, target: string): (r: Result<Db, Refusal>)
    ensures r.Ok? ==> r.value == db.(users := r.value.users, audit := r.value.audit)
  {
    if Uuid.Print(actor) == target then Err(Conflict)
    else if OnlyAdminRefusal(db, actor, role, target) then Err(Conflict)
    else
      var deleted :- DeleteUserRow(db, target);
      InsertAudit(deleted, Some(actor), DeletedUser(target))
  }

  // ---------------------------------------------------------------------------
  // Transactions
  // ---------------------------------------------------------------------------

  datatype Request =
    | PostRegister(email: string, id: Id)
    | PatchRole(actor: Id, target: string, newRole: Role)
    | DeleteAccount(actor: Id, target: string)
    | PatchLabel(actor: Id, pid: string, newLabel: Label)
    | PatchComment(actor: Id, pid: string, comment: Option<string>, color: Option<string>)
    | PatchName(actor: Id, pid: string, newName: Option<string>)

  function Handle(db: Db, r: Request): Result<Db, Refusal> {
    match r
    case PostRegister(email, id) => Register(db, email, id)
    case PatchRole(actor, target, newRole) =>
      var role :- Authorize(db, actor, ChangeRole);
      ToggleRole(db, actor, role, target, newRole)
    case DeleteAccount(actor, target) =>
      var role :- Authorize(db, actor, DeleteUsers);
      DeleteUser(db, actor, role, target)
    case PatchLabel(actor, pid, newLabel) =>
      var role :- Authorize(db, actor, RelabelPrediction);
      Relabel(db, actor, role, pid, newLabel)
    case PatchComment(actor, pid, comment, color) =>
      var _ :- Authorize(db, actor, AddComments);
      AddComment(db, actor, pid, comment, color)
    case PatchName(actor, pid, newName) =>
      var _ :- Authorize(db, actor, RenameDocuments);
      RenameDocument(db, actor, pid, newName)
  }

  /** What one attempt of the worker's handler found out about a document. */
  datatype WorkerResult = WorkerResult(
    batch: string, document: string, ranking: Ranking, id: Id, version: string, latency: real)

  /** Step e of the handler: the record is built from the head of the ranking. */
  function PredictionFor(w: WorkerResult): PredictionOut {
    PredictionOut(w.id, w.batch, w.document, w.ranking[0].0, w.ranking[0].1, w.ranking,
                  OverlayKey(w.batch, w.document), w.version, Some(w.latency))
  }

  /** Whatever opens a transaction on the database. */
  datatype Transaction =
    | IngestRow(batch: string, document: string, key: string)
    | WorkerWrite(result: WorkerResult, now: nat)
    | Http(request: Request)

  function Attempt(db: Db, t: Transaction): Result<Db, Refusal> {
    match t
    case IngestRow(batch, document, key) => EnsureForIngest(db, batch, document, key)
    case WorkerWrite(result, now) => RecordPrediction(db, PredictionFor(result), now)
    case Http(r) => Handle(db, r)
  }

  /** Commit on success, roll back otherwise. */
  function Commit(db: Db, t: Transaction): Db {
    var r := Attempt(db, t);
    if r.Ok? then r.value else db
  }

  /** The tables after a run of transactions, one after the other. */
  function Run(db: Db, ts: seq<Transaction>): Db {
    if ts == [] then db else Commit(Run(db, ts[..|ts| - 1]), ts[|ts| - 1])
  }

  /** The tables before transaction i of a run. */
  function Before(db: Db, ts: seq<Transaction>, i: nat): Db
    requires i <= |ts|
  {
    Run(db, ts[..i])
  }

  /** Transaction i of a run was not refused. */
  predicate Succeeded(ts: seq<Transaction>, i: nat) {
    i < |ts| && Attempt(Before(EMPTY_DB, ts, i), ts[i]).Ok?
  }

  // ---------------------------------------------------------------------------
  // What an accepted operation leaves behind
  // ---------------------------------------------------------------------------

  lemma RecordEffect(db: Db, p: PredictionOut, now: nat)
    requires RecordPrediction(db, p, now).Ok?
    ensures Uuid.Parse(p.batch).Some? && Uuid.Parse(p.document).Some?
    ensures RecordPrediction(db, p, now).value == db.(
              predictions := Upsert(db.predictions, p, Uuid.Parse(p.batch).value, Uuid.Parse(p.document).value, now),
              audit := db.audit + [AuditEntry(None, BatchState(p.batch, p.document))])
  {
  }

  lemma RelabelEffect(db: Db, actor: Id, role: Role, text: string, newLabel: Label)
    requires Relabel(db, actor, role, text, newLabel).Ok?
    ensures LocatePrediction(db, text).Ok?
    ensures var i := LocatePrediction(db, text).value;
            && (role == Admin || db.predictions[i].top1 < CONFIDENT)
            && Relabel(db, actor, role, text, newLabel).value == db.(
                 predictions := db.predictions[i := db.predictions[i].(category := newLabel)],
                 audit := db.audit
                          + [AuditEntry(Some(actor), Relabeled(text, db.predictions[i].category, newLabel))])
  {
  }

  lemma CommentEffect(db: Db, actor: Id, text: string, comment: Option<string>, color: Option<string>)
    requires AddComment(db, actor, text, comment, color).Ok?
    ensures LocatePrediction(db, text).Ok?
    ensures var i := LocatePrediction(db, text).value;
            AddComment(db, actor, text, comment, color).value == db.(
              predictions := db.predictions[i := db.predictions[i].(comment := comment, color := color)],
              audit := db.audit + [AuditEntry(Some(actor), Commented(text, comment, color))])
  {
  }

  lemma RenameEffect(db: Db, actor: Id, text: string, name: Option<string>)
    requires RenameDocument(db, actor, text, name).Ok?
    ensures LocatePrediction(db, text).Ok?
    ensures var i := LocatePrediction(db, text).value;
            RenameDocument(db, actor, text, name).value == db.(
              predictions := db.predictions[i := db.predictions[i].(name := CleanName(name))],
              audit := db.audit
                       + [AuditEntry(Some(actor), Renamed(text, db.predictions[i].name, CleanName(name)))])
  {
    hide CleanName;
  }

  lemma ToggleEffect(db: Db, actor: Id, role: Role, target: string, newRole: Role)
    requires ToggleRole(db, actor, role, target, newRole).Ok?
    ensures LocateUser(db, target).Ok?
    ensures var u := LocateUser(db, target).value;
            ToggleRole(db, actor, role, target, newRole).value == db.(
              users := db.users[u := db.users[u].(role := newRole)],
              audit := db.audit + [AuditEntry(Some(actor), RoleChange(target, db.users[u].role, newRole))])
  {
  }

  lemma DeleteEffect(db: Db, actor: Id, role: Role, target: string)
    requires DeleteUser(db, actor, role, target).Ok?
    ensures LocateUser(db, target).Ok? && actor in db.users && LocateUser(db, target).value != actor
    ensures var u := LocateUser(db, target).value;
            DeleteUser(db, actor, role, target).value == db.(
              users := db.users - {u},
              audit := WithoutActor(db.audit, u) + [AuditEntry(Some(actor), DeletedUser(target))])
  {
  }

  /** The tables that an accepted transaction leaves, without the checks on the way. */
  function Applied(db: Db, t: Transaction): Db {
    match t
    case IngestRow(batch, document, key) =>
      var r := EnsureForIngest(db, batch, document, key);
      if r.Ok? then db.(batches := r.value.batches, documents := r.value.documents) else db
    case WorkerWrite(w, now) =>
      if Uuid.Parse(w.batch).Some? && Uuid.Parse(w.document).Some? then
        db.(predictions := Upsert(db.predictions, PredictionFor(w), Uuid.Parse(w.batch).value,
                                  Uuid.Parse(w.document).value, now),
            audit := db.audit + [AuditEntry(None, BatchState(w.batch, w.document))])
      else db
    case Http(r) => AppliedRequest(db, r)
  }

  function AppliedRequest(db: Db, r: Request): Db {
    match r
    case PostRegister(email, id) =>
      db.(users := db.users[id := User(email, if CountAdmins(db) == 0 then Admin else Reviewer)])
    case PatchRole(actor, target, newRole) =>
      var u := LocateUser(db, target);
      if u.Ok? then
        db.(users := db.users[u.value := db.users[u.value].(role := newRole)],
            audit := db.audit + [AuditEntry(Some(actor), RoleChange(target, db.users[u.value].role, newRole))])
      else db
    case DeleteAccount(actor, target) =>
      var u := LocateUser(db, target);
      if u.Ok? then
        db.(users := db.users - {u.value},
            audit := WithoutActor(db.audit, u.value) + [AuditEntry(Some(actor), DeletedUser(target))])
      else db
    case PatchLabel(actor, pid, newLabel) =>
      var i := LocatePrediction(db, pid);
      if i.Ok? then
        var row := db.predictions[i.value];
        db.(predictions := db.predictions[i.value := row.(category := newLabel)],
            audit := db.audit + [AuditEntry(Some(actor), Relabeled(pid, row.category, newLabel))])
      else db
    case PatchComment(actor, pid, comment, color) =>
      var i := LocatePrediction(db, pid);
      if i.Ok? then
        var row := db.predictions[i.value];
        db.(predictions := db.predictions[i.value := row.(comment := comment, color := color)],
            audit := db.audit + [AuditEntry(Some(actor), Commented(pid, comment, color))])
      else db
    case PatchName(actor, pid, newName) =>
      var i := LocatePrediction(db, pid);
      if i.Ok? then
        var row := db.predictions[i.value];
        db.(predictions := db.predictions[i.value := row.(name := CleanName(newName))],
            audit := db.audit + [AuditEntry(Some(actor), Renamed(pid, row.name, CleanName(newName)))])
      else db
  }

  /** What a request needs to find to be accepted. */
  predicate Found(db: Db, t: Transaction) {
    match t
    case IngestRow(batch, document, key) => EnsureForIngest(db, batch, document, key).Ok?
    case WorkerWrite(w, _) => Uuid.Parse(w.batch).Some? && Uuid.Parse(w.document).Some?
    case Http(PostRegister(_, id)) => id !in db.users
    case Http(PatchRole(actor, target, _)) => actor in db.users && LocateUser(db, target).Ok?
    case Http(DeleteAccount(actor, target)) => actor in db.users && LocateUser(db, target).Ok?
    case Http(PatchLabel(actor, pid, _)) => actor in db.users && LocatePrediction(db, pid).Ok?
    case Http(PatchComment(actor, pid, _, _)) => actor in db.users && LocatePrediction(db, pid).Ok?
    case Http(PatchName(actor, pid, _)) => actor in db.users && LocatePrediction(db, pid).Ok?
  }

  lemma AcceptedRequestIs(db: Db, r: Request)
    requires Handle(db, r).Ok?
    ensures Handle(db, r).value == AppliedRequest(db, r) && Found(db, Http(r))
  {
    hide Relabel;
    hide AddComment;
    hide RenameDocument;
    hide ToggleRole;
    hide DeleteUser;
    hide CleanName;
    match r
    case PostRegister(_, _) =>
    case PatchRole(actor, target, newRole) =>
      ToggleEffect(db, actor, db.users[actor].role, target, newRole);
    case DeleteAccount(actor, target) =>
      DeleteEffect(db, actor, db.users[actor].role, target);
    case PatchLabel(actor, pid, newLabel) =>
      RelabelEffect(db, actor, db.users[actor].role, pid, newLabel);
    case PatchComment(actor, pid, comment, color) =>
      CommentEffect(db, actor, pid, comment, color);
    case PatchName(actor, pid, newName) =>
      RenameEffect(db, actor, pid, newName);
  }

  /** An accepted transaction commits exactly these tables. */
  lemma {:induction false} AcceptedIs(db: Db, t: Transaction)
    requires Attempt(db, t).Ok?
    ensures Commit(db, t) == Attempt(db, t).value == Applied(db, t) && Found(db, t)
  {
    hide AppliedRequest;
    match t
    case IngestRow(_, _, _) =>
    case WorkerWrite(w, now) =>
      RecordEffect(db, PredictionFor(w), now);
    case Http(r) =>
      hide Handle;
      hide Found;
      AcceptedRequestIs(db, r);
  }
}
