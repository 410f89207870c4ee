/**
 The services and the transaction boundaries as the code runs them: repository calls in sequence
 on one session, then commit or rollback. Each request is proved to commit exactly what the
 transaction of the same name in Services says, and a refused one to leave the tables alone.
 */
module Api {
  import opened Prelude
  import opened Paths
  import opened Repositories
  import D = Database
  import S = Services
  import T = Tables
  import Rules = AdminRules
  import Replay = AuditReplay
  import G = ConfidenceGate
  import Uuid

  class PredictionService {
    const repo: PredictionRepository
    const audit: AuditRepository

    constructor (session: Session)
      ensures repo.session == session && audit.session == session
      ensures fresh(repo) && fresh(audit)
    {
      repo := new PredictionRepository(session);
      audit := new AuditRepository(session);
    }

    method RecordPrediction(p: D.PredictionOut, now: nat) returns (r: Outcome<Refusal>)
      requires repo.session == audit.session
      modifies repo.session`work
      ensures Follows(S.RecordPrediction(old(repo.session.work), p, now), r, repo.session.work)
    {
      r := repo.CreateIdempotent(p, now);
      if r.Done? {
        r := audit.Insert(None, D.BatchState(p.batch, p.document));
      }
    }

    method AddComment(actor: Id, text: string, comment: Option<string>, color: Option<string>)
      returns (r: Outcome<Refusal>)
      requires repo.session == audit.session
      modifies repo.session`work
      ensures Follows(S.AddComment(old(repo.session.work), actor, text, comment, color), r, repo.session.work)
    {
      var _ :- repo.Get(text);
      r := repo.UpdateComment(text, comment, color);
      if r.Done? {
        r := audit.Insert(Some(actor), D.Commented(text, comment, color));
      }
    }

    method RenameDocument(actor: Id, text: string, name: Option<string>) returns (r: Outcome<Refusal>)
      requires repo.session == audit.session
      modifies repo.session`work
      ensures Follows(S.RenameDocument(old(repo.session.work), actor, text, name), r, repo.session.work)
    {
      var i :- repo.Get(text);
      var oldName := repo.session.work.predictions[i].name;
      var cleaned := S.CleanName(name);
      r := repo.UpdateName(text, cleaned);
      if r.Done? {
        r := audit.Insert(Some(actor), D.Renamed(text, oldName, cleaned));
      }
    }

    method Relabel(actor: Id, role: D.Role, text: string, newLabel: Label) returns (r: Outcome<Refusal>)
      requires repo.session == audit.session
      modifies repo.session`work
      ensures Follows(S.Relabel(old(repo.session.work), actor, role, text, newLabel), r, repo.session.work)
    {
      var i :- repo.Get(text);
      var existing := repo.session.work.predictions[i];
      if role != D.Admin && existing.top1 >= S.CONFIDENT {
        return Raise(D.TooConfident);
      }
      r := repo.UpdateLabel(text, newLabel);
      if r.Done? {
        r := audit.Insert(Some(actor), D.Relabeled(text, existing.category, newLabel));
      }
    }
  }

  class UserService {
    const repo: UserRepository
    const audit: AuditRepository

    constructor (session: Session)
      ensures repo.session == session && audit.session == session
      ensures fresh(repo) && fresh(audit)
    {
      repo := new UserRepository(session);
      audit := new AuditRepository(session);
    }

    method ToggleRole(actor: Id, role: D.Role, target: string, newRole: D.Role) returns (r: Outcome<Refusal>)
      requires repo.session == audit.session
      modifies repo.session`work
      ensures Follows(S.ToggleRole(old(repo.session.work), actor, role, target, newRole), r, repo.session.work)
    {
      var u :- repo.Get(target);
      var oldRole := repo.session.work.users[u].role;
      if Uuid.Print(actor) == target && role == D.Admin && newRole != D.Admin
         && D.CountAdmins(repo.session.work) == 1 {
        return Raise(D.Conflict);
      }
      r := repo.UpdateRole(target, newRole);
      if r.Done? {
        r := audit.Insert(Some(actor), D.RoleChange(target, oldRole, newRole));
      }
    }

    method DeleteUser(actor: Id, role: D.Role, target: string) returns (r: Outcome<Refusal>)
      requires repo.session == audit.session
      modifies repo.session`work
      ensures Follows(S.DeleteUser(old(repo.session.work), actor, role, target), r, repo.session.work)
    {
      if Uuid.Print(actor) == target {
        return Raise(D.Conflict);
      }
      if role == D.Admin && D.CountAdmins(repo.session.work) == 1 {
        var u :- repo.Get(target);
        if repo.session.work.users[u].role == D.Admin {
          return Raise(D.Conflict);
        }
      }
      r := repo.Delete(target);
      if r.Done? {
        r := audit.Insert(Some(actor), D.DeletedUser(target));
      }
    }

    /** The registration route: it works on the repository directly and writes no audit entry. */
    method Register(email: string, id: Id) returns (r: Outcome<Refusal>)
      modifies repo.session`work
      ensures Follows(S.Register(old(repo.session.work), email, id), r, repo.session.work)
    {
      if D.EmailTaken(repo.session.work, email) {
        return Raise(D.Conflict);
      }
      var adminCount := D.CountAdmins(repo.session.work);
      r := repo.CreateUser(id, email, if adminCount == 0 then D.Admin else D.Reviewer);
    }
  }

  /** `get_current_user` and `require_role` on a session. */
  method RequireRole(session: Session, actor: Id, permission: S.Permission) returns (r: Outcome<Refusal>, role: D.Role)
    ensures match S.Authorize(session.work, actor, permission)
            case Ok(granted) => r.Done? && role == granted
            case Err(e) => r == Raise(e)
  {
    role := D.Auditor;
    if actor !in session.work.users {
      r := Raise(D.Unauthorized);
    } else {
      role := session.work.users[actor].role;
      r := if S.Allowed(role, permission) then Done else Raise(D.Forbidden);
    }
  }

  method Dispatch(session: Session, request: S.Request) returns (r: Outcome<Refusal>)
    modifies session`work
    ensures Follows(S.Handle(old(session.work), request), r, session.work)
  {
    hide S.Allowed;
    hide S.Register;
    hide S.ToggleRole;
    hide S.DeleteUser;
    hide S.Relabel;
    hide S.AddComment;
    hide S.RenameDocument;
    var users := new UserService(session);
    var predictions := new PredictionService(session);
    match request
    case PostRegister(email, id) =>
      r := users.Register(email, id);
    case PatchRole(actor, target, newRole) =>
      var role :- RequireRole(session, actor, S.ChangeRole);
      r := users.ToggleRole(actor, role, target, newRole);
    case DeleteAccount(actor, target) =>
      var role :- RequireRole(session, actor, S.DeleteUsers);
      r := users.DeleteUser(actor, role, target);
    case PatchLabel(actor, pid, newLabel) =>
      var role :- RequireRole(session, actor, S.RelabelPrediction);
      r := predictions.Relabel(actor, role, pid, newLabel);
    case PatchComment(actor, pid, comment, color) =>
      var _ :- RequireRole(session, actor, S.AddComments);
      r := predictions.AddComment(actor, pid, comment, color);
    case PatchName(actor, pid, newName) =>
      var _ :- RequireRole(session, actor, S.RenameDocuments);
      r := predictions.RenameDocument(actor, pid, newName);
  }

  // ---------------------------------------------------------------------------
  // Transactions
  // ---------------------------------------------------------------------------

  /** A label that is not the model's is explained by the history. */
  ghost predicate LabelExplained(history: seq<S.Transaction>, row: D.Prediction) {
    !G.ModelsChoice(row) ==>
      exists i: nat :: G.LatestReview(history, i, row) && (row.top1 >= S.CONFIDENT ==> G.MadeByAdmin(history, i))
  }

  /** What every history of transactions comes to: the tables are in order, and explained by the log. */
  ghost predicate Governed(history: seq<S.Transaction>, db: D.Db) {
    && T.TablesInvariant(db)
    && (Rules.CanonicalTargets(history) ==> Rules.AdminInvariant(db))
    && Replay.LoggedPart(Replay.Journal(history)) == Replay.Actions(db.audit)
    && Replay.Roles(db.users) == Replay.RolesAfter(Replay.Journal(history))
    && (forall id :: Replay.NoteAfter(Replay.Actions(db.audit), id) == Replay.NoteIn(db.predictions, id))
    && (forall j :: 0 <= j < |db.predictions| ==> LabelExplained(history, db.predictions[j]))
  }

  lemma HistoryGoverns(history: seq<S.Transaction>)
    ensures Governed(history, S.Run(D.EMPTY_DB, history))
  {
    hide *;
    var db := S.Run(D.EMPTY_DB, history);
    T.TablesAlways(history);
    if Rules.CanonicalTargets(history) {
      Rules.AdminAlways(history);
    }
    Replay.RolesReplay(history);
    forall id
      ensures Replay.NoteAfter(Replay.Actions(db.audit), id) == Replay.NoteIn(db.predictions, id)
    {
      Replay.NotesReplay(history, id);
    }
    forall j | 0 <= j < |db.predictions|
      ensures LabelExplained(history, db.predictions[j])
    {
      G.Gate(history, j);
      LabelExplainedBy(history, db.predictions[j]);
    }
    GovernedBy(history, db);
  }

  lemma LabelExplainedBy(history: seq<S.Transaction>, row: D.Prediction)
    requires !G.ModelsChoice(row) ==>
               exists i: nat :: G.LatestReview(history, i, row)
                                && (row.top1 >= S.CONFIDENT ==> G.MadeByAdmin(history, i))
    ensures LabelExplained(history, row)
  {
  }

  lemma GovernedBy(history: seq<S.Transaction>, db: D.Db)
    requires T.TablesInvariant(db) && (Rules.CanonicalTargets(history) ==> Rules.AdminInvariant(db))
    requires Replay.LoggedPart(Replay.Journal(history)) == Replay.Actions(db.audit)
    requires Replay.Roles(db.users) == Replay.RolesAfter(Replay.Journal(history))
    requires forall id :: Replay.NoteAfter(Replay.Actions(db.audit), id) == Replay.NoteIn(db.predictions, id)
    requires forall j :: 0 <= j < |db.predictions| ==> LabelExplained(history, db.predictions[j])
    ensures Governed(history, db)
  {
  }

  /** Commit when the calls returned, roll back when they raised. */
  method Finish(session: Session, r: Outcome<Refusal>, ghost t: S.Transaction)
    requires session.Valid() && Follows(S.Attempt(session.committed, t), r, session.work)
    modifies session
    ensures session.Valid() && session.history == old(session.history) + [t]
    ensures session.committed == session.work == S.Commit(old(session.committed), t)
    ensures Governed(session.history, session.committed)
  {
    hide Governed;
    hide S.Attempt;
    hide S.Run;
    if r.Done? {
      session.Commit(t);
    } else {
      session.Rollback(t);
    }
    HistoryGoverns(session.history);
  }

  /**
   `get_session` around a request: commit when it returns, roll back when it raises. Whatever went
   before, the tables afterwards are in order and explained by the log.
   */
  method HandleRequest(session: Session, request: S.Request) returns (r: Outcome<Refusal>)
    requires session.Valid()
    modifies session
    ensures session.Valid() && session.history == old(session.history) + [S.Http(request)]
    ensures session.committed == session.work == S.Commit(old(session.committed), S.Http(request))
    ensures r.Done? <==> S.Attempt(old(session.committed), S.Http(request)).Ok?
    ensures r.Raise? ==> session.committed == old(session.committed)
    ensures Governed(session.history, session.committed)
  {
    hide S.Handle;
    hide S.Run;
    hide Governed;
    session.Begin();
    r := Dispatch(session, request);
    Finish(session, r, S.Http(request));
  }

  /** `WorkerPredictionService._record`: one session, closed without a commit when the record raises. */
  method RecordResult(session: Session, result: S.WorkerResult, now: nat) returns (r: Outcome<Refusal>)
    requires session.Valid()
    modifies session
    ensures session.Valid() && session.history == old(session.history) + [S.WorkerWrite(result, now)]
    ensures session.committed == S.Commit(old(session.committed), S.WorkerWrite(result, now))
    ensures r.Done? <==> S.Attempt(old(session.committed), S.WorkerWrite(result, now)).Ok?
    ensures Governed(session.history, session.committed)
  {
    hide S.RecordPrediction;
    hide S.Run;
    hide Governed;
    session.Begin();
    var service := new PredictionService(session);
    r := service.RecordPrediction(S.PredictionFor(result), now);
    Finish(session, r, S.WorkerWrite(result, now));
  }

  /** One attempt of `ensure_document_row`: a batch row added before a refusal is never committed. */
  method EnsureDocumentRow(session: Session, batch: string, document: string, key: string)
    returns (r: Outcome<Refusal>)
    requires session.Valid()
    modifies session
    ensures session.Valid() && session.history == old(session.history) + [S.IngestRow(batch, document, key)]
    ensures session.committed == S.Commit(old(session.committed), S.IngestRow(batch, document, key))
    ensures r.Done? <==> S.Attempt(old(session.committed), S.IngestRow(batch, document, key)).Ok?
    ensures Governed(session.history, session.committed)
  {
    hide S.Run;
    hide Governed;
    session.Begin();
    var repository := new DocumentRepository(session);
    r := repository.EnsureForIngest(batch, document, key);
    Finish(session, r, S.IngestRow(batch, document, key));
  }
}
