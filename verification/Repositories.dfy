/**
 The repository classes over one database session. A session holds the committed tables and the
 tables as its own statements have left them; repositories change the latter in place, and a call
 that raises may leave them half changed.
 */
module Repositories {
  import opened Prelude
  import opened Paths
  import D = Database
  import S = Services
  import Uuid

  type Id = D.Id
  type Refusal = D.Refusal

  /** The tables as committed and as the open transaction has left them, and every transaction so far. */
  class Session {
    var committed: D.Db
    var work: D.Db
    ghost var history: seq<S.Transaction>

    /** What is committed is what the transactions so far come to. */
    ghost predicate Valid()
      reads this
    {
      committed == S.Run(D.EMPTY_DB, history)
    }

    constructor ()
      ensures Valid() && committed == work == D.EMPTY_DB && history == []
    {
      committed, work, history := D.EMPTY_DB, D.EMPTY_DB, [];
    }

    method Begin()
      modifies this`work
      ensures work == committed
    {
      work := committed;
    }

    /** The end of a transaction that was carried out. */
    method Commit(ghost t: S.Transaction)
      requires Valid() && S.Commit(committed, t) == work
      modifies this`committed, this`history
      ensures Valid() && committed == work && history == old(history) + [t]
    {
      hide S.Commit;
      committed := work;
      history := history + [t];
      assert history[..|history| - 1] == old(history);
    }

    /** The end of a transaction that was refused. */
    method Rollback(ghost t: S.Transaction)
      requires Valid() && S.Commit(committed, t) == committed
      modifies this`work, this`history
      ensures Valid() && work == committed && history == old(history) + [t]
    {
      hide S.Commit;
      work := committed;
      history := history + [t];
      assert history[..|history| - 1] == old(history);
    }
  }

  /** A call did what a specification says: the new tables, or the specification's refusal. */
  predicate Follows(spec: Result<D.Db, Refusal>, r: Outcome<Refusal>, work: D.Db) {
    match spec
    case Ok(db) => r.Done? && work == db
    case Err(e) => r == Raise(e)
  }

  // ---------------------------------------------------------------------------
  // Documents
  // ---------------------------------------------------------------------------

  class DocumentRepository {
    const session: Session

    constructor (session: Session)
      ensures this.session == session
    {
      this.session := session;
    }

    /** The batch row is added before the document is looked up. */
    method EnsureForIngest(batchText: string, documentText: string, key: string) returns (r: Outcome<Refusal>)
      modifies session`work
      ensures Follows(D.EnsureForIngest(old(session.work), batchText, documentText, key), r, session.work)
    {
      var batch := Uuid.Parse(batchText);
      var document := Uuid.Parse(documentText);
      if batch.None? || document.None? {
        return Raise(D.BadUuid);
      }
      var b, d := batch.value, document.value;
      if b !in session.work.batches {
        session.work := session.work.(batches := session.work.batches[b := D.Batch(0)]);
      }
      if d !in session.work.documents {
        session.work := session.work.(documents := session.work.documents[d := D.Document(b, key)]);
        var count := session.work.batches[b].documentCount;
        session.work := session.work.(batches := session.work.batches[b := D.Batch(count + 1)]);
      } else {
        var row := session.work.documents[d];
        if row.batch != b {
          return Raise(D.OtherBatch);
        }
        session.work := session.work.(documents := session.work.documents[d := row.(key := key)]);
      }
      return Done;
    }
  }

  // ---------------------------------------------------------------------------
  // Predictions
  // ---------------------------------------------------------------------------

  class PredictionRepository {
    const session: Session

    constructor (session: Session)
      ensures this.session == session
    {
      this.session := session;
    }

    method CreateIdempotent(p: D.PredictionOut, now: nat) returns (r: Outcome<Refusal>)
      modifies session`work
      ensures Follows(D.CreateIdempotent(old(session.work), p, now), r, session.work)
    {
      var batch := Uuid.Parse(p.batch);
      var document := Uuid.Parse(p.document);
      if batch.None? || document.None? {
        return Raise(D.BadUuid);
      }
      if document.value !in session.work.documents {
        return Raise(D.NotFound);
      }
      if batch.value !in session.work.batches || !(0.0 <= p.top1 <= 1.0) {
        return Raise(D.Integrity);
      }
      var rows := session.work.predictions;
      var i := D.FindKey(rows, batch.value, document.value);
      if i < |rows| {
        session.work := session.work.(predictions := rows[i := D.Overwritten(rows[i], p)]);
      } else if D.FindId(rows, p.id) < |rows| {
        return Raise(D.Integrity);
      } else {
        session.work := session.work.(predictions := rows + [D.NewRow(p, batch.value, document.value, now)]);
      }
      return Done;
    }

    method Get(text: string) returns (r: Outcome<Refusal>, index: nat)
      ensures match D.LocatePrediction(session.work, text)
              case Ok(i) => r.Done? && index == i
              case Err(e) => r == Raise(e)
    {
      index := 0;
      match D.LocatePrediction(session.work, text)
      case Ok(i) => r, index := Done, i;
      case Err(e) => r := Raise(e);
    }

    method UpdateLabel(text: string, newLabel: Label) returns (r: Outcome<Refusal>)
      modifies session`work
      ensures Follows(D.UpdateLabel(old(session.work), text, newLabel), r, session.work)
    {
      var i :- Get(text);
      var rows := session.work.predictions;
      session.work := session.work.(predictions := rows[i := rows[i].(category := newLabel)]);
      return Done;
    }

    method UpdateComment(text: string, comment: Option<string>, color: Option<string>) returns (r: Outcome<Refusal>)
      modifies session`work
      ensures Follows(D.UpdateComment(old(session.work), text, comment, color), r, session.work)
    {
      var i :- Get(text);
      var rows := session.work.predictions;
      session.work := session.work.(predictions := rows[i := rows[i].(comment := comment, color := color)]);
      return Done;
    }

    method UpdateName(text: string, name: Option<string>) returns (r: Outcome<Refusal>)
      modifies session`work
      ensures Follows(D.UpdateName(old(session.work), text, name), r, session.work)
    {
      var i :- Get(text);
      var rows := session.work.predictions;
      session.work := session.work.(predictions := rows[i := rows[i].(name := name)]);
      return Done;
    }
  }

  // ---------------------------------------------------------------------------
  // Users
  // ---------------------------------------------------------------------------

  class UserRepository {
    const session: Session

    constructor (session: Session)
      ensures this.session == session
    {
      this.session := session;
    }

    method CreateUser(id: Id, email: string, role: D.Role) returns (r: Outcome<Refusal>)
      modifies session`work
      ensures Follows(D.CreateUser(old(session.work), id, email, role), r, session.work)
    {
      if id in session.work.users || D.EmailTaken(session.work, email) {
        return Raise(D.Integrity);
      }
      session.work := session.work.(users := session.work.users[id := D.User(email, role)]);
      return Done;
    }

    method Get(text: string) returns (r: Outcome<Refusal>, id: Id)
      ensures match D.LocateUser(session.work, text)
              case Ok(u) => r.Done? && id == u
              case Err(e) => r == Raise(e)
    {
      id := 0;
      match D.LocateUser(session.work, text)
      case Ok(u) => r, id := Done, u;
      case Err(e) => r := Raise(e);
    }

    method UpdateRole(text: string, role: D.Role) returns (r: Outcome<Refusal>)
      modifies session`work
      ensures Follows(D.UpdateRole(old(session.work), text, role), r, session.work)
    {
      var u :- Get(text);
      var users := session.work.users;
      session.work := session.work.(users := users[u := users[u].(role := role)]);
      return Done;
    }

    method Delete(text: string) returns (r: Outcome<Refusal>)
      modifies session`work
      ensures Follows(D.DeleteUserRow(old(session.work), text), r, session.work)
    {
      var u :- Get(text);
      session.work := session.work.(users := session.work.users - {u},
                                    audit := D.WithoutActor(session.work.audit, u));
      return Done;
    }
  }

  // ---------------------------------------------------------------------------
  // Audit log
  // ---------------------------------------------------------------------------

  class AuditRepository {
    const session: Session

    constructor (session: Session)
      ensures this.session == session
    {
      this.session := session;
    }

    method Insert(actor: Option<Id>, action: D.Action) returns (r: Outcome<Refusal>)
      modifies session`work
      ensures Follows(D.InsertAudit(old(session.work), actor, action), r, session.work)
    {
      if actor.Some? && actor.value !in session.work.users {
        return Raise(D.Integrity);
      }
      session.work := session.work.(audit := session.work.audit + [D.AuditEntry(actor, action)]);
      return Done;
    }
  }
}
