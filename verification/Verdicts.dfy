/**
 Which transactions are accepted and which are refused, and as what: the policy file, the guards of
 the services and the checks of the repositories taken together, by roles and ids alone
 (api/deps.py, services and repositories). And what an accepted rename stores.
 */
module Verdicts {
  import opened Prelude
  import opened Paths
  import opened Database
  import opened Services
  import R = AdminRules
  import Uuid

  /** The sixteen lines of the policy file. */
  lemma PolicyIs(role: Role, permission: Permission)
    ensures Allowed(role, permission)
            <==> (role, permission) in {
                   (Admin, InviteUser), (Admin, ChangeRole), (Admin, DeleteUsers), (Admin, ReadAudit),
                   (Admin, ReadBatch), (Admin, RelabelPrediction), (Admin, AddComments),
                   (Admin, TriggerScan), (Admin, RenameDocuments),
                   (Reviewer, ReadBatch), (Reviewer, RelabelPrediction), (Reviewer, AddComments),
                   (Reviewer, TriggerScan), (Reviewer, RenameDocuments),
                   (Auditor, ReadBatch), (Auditor, ReadAudit)}
  {
  }

  // ---------------------------------------------------------------------------
  // Users
  // ---------------------------------------------------------------------------

  /** Nobody but this user is an administrator. */
  predicate NoOtherAdmin(users: map<Id, User>, a: Id) {
    forall u :: u in users && users[u].role == Admin ==> u == a
  }

  lemma OneAdmin(db: Db, a: Id)
    requires a in db.users && db.users[a].role == Admin
    ensures CountAdmins(db) == 1 <==> NoOtherAdmin(db.users, a)
  {
    var admins := Admins(db.users);
    assert a in admins;
    if NoOtherAdmin(db.users, a) {
      assert admins == {a};
    }
    if u :| u in db.users && db.users[u].role == Admin && u != a {
      assert {a, u} <= admins;
      assert admins == {a, u} + (admins - {a, u});
    }
  }

  lemma NoAdmin(db: Db)
    ensures CountAdmins(db) == 0 <==> forall u :: u in db.users ==> db.users[u].role != Admin
  {
    var admins := Admins(db.users);
    if u :| u in db.users && db.users[u].role == Admin {
      assert u in admins;
    }
  }

  /** `register`: the address must be new; the role is Admin exactly when there is no administrator. */
  lemma RegisterVerdict(db: Db, email: string, id: Id)
    ensures var verdict := Attempt(db, Http(PostRegister(email, id)));
            if exists u :: u in db.users && db.users[u].email == email then verdict == Err(Conflict)
            else if id in db.users then verdict == Err(Integrity)
            else if forall u :: u in db.users ==> db.users[u].role != Admin then
              verdict == Ok(db.(users := db.users[id := User(email, Admin)]))
            else verdict == Ok(db.(users := db.users[id := User(email, Reviewer)]))
  {
    NoAdmin(db);
    hide CountAdmins;
  }

  /**
   `toggle_role`: for administrators only, and refused as a conflict exactly when the only
   administrator takes the role from themselves under the text that the API prints for them.
   */
  lemma PatchRoleVerdict(db: Db, a: Id, target: string, newRole: Role)
    ensures var verdict := Attempt(db, Http(PatchRole(a, target, newRole)));
            if a !in db.users then verdict == Err(Unauthorized)
            else if db.users[a].role != Admin then verdict == Err(Forbidden)
            else if Uuid.Parse(target).None? then verdict == Err(BadUuid)
            else if Uuid.Parse(target).value !in db.users then verdict == Err(NotFound)
            else if target == Uuid.Print(a) && newRole != Admin && NoOtherAdmin(db.users, a) then
              verdict == Err(Conflict)
            else verdict.Ok?
  {
    hide Uuid.Parse;
    hide Uuid.Print;
    hide CountAdmins;
    hide NoOtherAdmin;
    if a in db.users && db.users[a].role == Admin {
      OneAdmin(db, a);
    }
  }

  /**
   `delete_user`: for administrators only; a conflict under one's own printed text, and for the only
   administrator under any text of their own id; under such a text beside other administrators the
   audit entry finds its actor gone.
   */
  lemma DeleteVerdict(db: Db, a: Id, target: string)
    ensures var verdict := Attempt(db, Http(DeleteAccount(a, target)));
            if a !in db.users then verdict == Err(Unauthorized)
            else if db.users[a].role != Admin then verdict == Err(Forbidden)
            else if target == Uuid.Print(a) then verdict == Err(Conflict)
            else if Uuid.Parse(target).None? then verdict == Err(BadUuid)
            else if Uuid.Parse(target).value !in db.users then verdict == Err(NotFound)
            else if Uuid.Parse(target).value == a then
              verdict == Err(if NoOtherAdmin(db.users, a) then Conflict else Integrity)
            else verdict.Ok?
  {
    hide Uuid.Parse;
    hide Uuid.Print;
    hide CountAdmins;
    if a in db.users && db.users[a].role == Admin {
      OneAdmin(db, a);
    }
  }

  predicate UniqueEmails(users: map<Id, User>) {
    forall u, v :: u in users && v in users && users[u].email == users[v].email ==> u == v
  }

  lemma EmailsStep(db: Db, t: Transaction)
    requires UniqueEmails(db.users)
    ensures UniqueEmails(Commit(db, t).users)
  {
    hide Uuid.Parse;
    if !R.ChangesUsers(t) {
      R.UsersUntouched(db, t);
    } else if Attempt(db, t).Ok? {
      AcceptedIs(db, t);
      if t.request.PostRegister? {
        RegisterVerdict(db, t.request.email, t.request.id);
      }
      hide Attempt;
    }
  }

  /** In every run no two users share an e-mail address. */
  lemma {:induction false} EmailsUniqueAlways(ts: seq<Transaction>)
    ensures UniqueEmails(Run(EMPTY_DB, ts).users)
  {
    hide Attempt;
    hide Commit;
    if ts != [] {
      EmailsUniqueAlways(ts[..|ts| - 1]);
      EmailsStep(Run(EMPTY_DB, ts[..|ts| - 1]), ts[|ts| - 1]);
    }
  }

  // ---------------------------------------------------------------------------
  // Reviews
  // ---------------------------------------------------------------------------

  predicate HasId(rows: seq<Prediction>, id: Id) {
    exists i :: 0 <= i < |rows| && rows[i].id == id
  }

  /** What every review request needs: a user whose role is not Auditor, and a text that names a row. */
  function ReviewRefusal(db: Db, a: Id, pid: string): Option<Refusal> {
    if a !in db.users then Some(Unauthorized)
    else if db.users[a].role == Auditor then Some(Forbidden)
    else if Uuid.Parse(pid).None? then Some(BadUuid)
    else if !HasId(db.predictions, Uuid.Parse(pid).value) then Some(NotFound)
    else None
  }

  /** Comments and names are given by administrators and reviewers, and by nobody else. */
  lemma CommentVerdict(db: Db, a: Id, pid: string, comment: Option<string>, color: Option<string>)
    ensures var verdict := Attempt(db, Http(PatchComment(a, pid, comment, color)));
            match ReviewRefusal(db, a, pid)
            case Some(e) => verdict == Err(e)
            case None => verdict.Ok?
  {
    hide Uuid.Parse;
  }

  lemma NameVerdict(db: Db, a: Id, pid: string, newName: Option<string>)
    ensures var verdict := Attempt(db, Http(PatchName(a, pid, newName)));
            match ReviewRefusal(db, a, pid)
            case Some(e) => verdict == Err(e)
            case None => verdict.Ok?
  {
    hide Uuid.Parse;
    hide CleanName;
  }

  /** Labels too; a prediction at 0.7 or more is left to administrators. */
  lemma LabelVerdict(db: Db, a: Id, pid: string, newLabel: Label)
    ensures var verdict := Attempt(db, Http(PatchLabel(a, pid, newLabel)));
            match ReviewRefusal(db, a, pid)
            case Some(e) => verdict == Err(e)
            case None =>
              var row := db.predictions[FindId(db.predictions, Uuid.Parse(pid).value)];
              if db.users[a].role == Reviewer && row.top1 >= 0.7 then verdict == Err(TooConfident)
              else verdict.Ok?
  {
    hide Uuid.Parse;
  }

  // ---------------------------------------------------------------------------
  // Names
  // ---------------------------------------------------------------------------

  /** The characters that `str.strip()` removes. */
  predicate IsSpace(c: char) {
    var n := c as int;
    || 9 <= n <= 13 || 28 <= n <= 32 || n == 0x85 || n == 0xA0 || n == 0x1680 || 0x2000 <= n <= 0x200A
    || n == 0x2028 || n == 0x2029 || n == 0x202F || n == 0x205F || n == 0x3000
  }

  predicate OnlySpaces(s: string) {
    forall i :: 0 <= i < |s| ==> IsSpace(s[i])
  }

  lemma SpacesAre(c: char)
    ensures c in SPACES <==> IsSpace(c)
  {
  }

  /** The text without the spaces around it, or None when there is nothing else. */
  ghost predicate Trimmed(name: Option<string>, stored: Option<string>) {
    match stored
    case None => name.None? || OnlySpaces(name.value)
    case Some(s) =>
      && s != "" && !IsSpace(s[0]) && !IsSpace(s[|s| - 1])
      && name.Some?
      && exists left, right :: OnlySpaces(left) && OnlySpaces(right) && name.value == left + s + right
  }

  lemma CleanNameTrims(name: Option<string>)
    ensures Trimmed(name, CleanName(name))
  {
    hide Uuid.Strip;
    if name.Some? {
      var s := name.value;
      forall c: char
        ensures c in SPACES <==> IsSpace(c)
      {
        SpacesAre(c);
      }
      hide IsSpace;
      hide SPACES;
      var left, right := Uuid.StripIs(s, SPACES);
      assert OnlySpaces(left) && OnlySpaces(right);
      assert OnlySpaces(s) <==> Uuid.AllIn(s, SPACES);
    }
  }

  lemma {:induction false} TrimmedOnce(name: Option<string>, a: Option<string>, b: Option<string>)
    requires Trimmed(name, a) && Trimmed(name, b)
    ensures a == b
  {
    hide IsSpace;
    if a.Some? && b.Some? {
      var l, r :| OnlySpaces(l) && OnlySpaces(r) && name.value == l + a.value + r;
      var l', r' :| OnlySpaces(l') && OnlySpaces(r') && name.value == l' + b.value + r';
      assert name.value[|l|] == a.value[0] && name.value[|l'|] == b.value[0];
      assert |l| == |l'|;
      var m, m' := |l| + |a.value| - 1, |l'| + |b.value| - 1;
      assert name.value[m] == a.value[|a.value| - 1] && name.value[m'] == b.value[|b.value| - 1];
      assert m == m';
      assert a.value == name.value[|l|..m + 1] == b.value;
    } else if a.Some? {
      SomethingLeft(name.value, a.value);
    } else if b.Some? {
      SomethingLeft(name.value, b.value);
    }
  }

  lemma SomethingLeft(name: string, s: string)
    requires Trimmed(Some(name), Some(s))
    ensures !OnlySpaces(name)
  {
    hide IsSpace;
    var l, r :| OnlySpaces(l) && OnlySpaces(r) && name == l + s + r;
    assert name[|l|] == s[0];
  }

  /**
   An accepted rename stores and logs the text without the spaces around it: a text with none as it
   is, and no name when there is nothing else. No other row and nothing else of the row changes.
   */
  lemma RenameStores(db: Db, a: Id, pid: string, newName: Option<string>) returns (i: nat, stored: Option<string>)
    requires Attempt(db, Http(PatchName(a, pid, newName))).Ok?
    ensures Trimmed(newName, stored)
    ensures i < |db.predictions| && Uuid.Parse(pid) == Some(db.predictions[i].id)
    ensures var db' := Commit(db, Http(PatchName(a, pid, newName)));
            && db'.predictions == db.predictions[i := db.predictions[i].(name := stored)]
            && db'.audit == db.audit + [AuditEntry(Some(a), Renamed(pid, db.predictions[i].name, stored))]
  {
    hide Uuid.Parse;
    hide CleanName;
    AcceptedIs(db, Http(PatchName(a, pid, newName)));
    hide Attempt;
    i := LocatePrediction(db, pid).value;
    stored := CleanName(newName);
    CleanNameTrims(newName);
  }

  /** A name that begins and ends with other characters than spaces is stored as it is. */
  lemma BareNameStored(name: string)
    requires name != "" && !IsSpace(name[0]) && !IsSpace(name[|name| - 1])
    ensures forall stored :: Trimmed(Some(name), stored) <==> stored == Some(name)
  {
    hide IsSpace;
    assert "" + name + "" == name && OnlySpaces("");
    assert Trimmed(Some(name), Some(name));
    forall stored | Trimmed(Some(name), stored)
      ensures stored == Some(name)
    {
      TrimmedOnce(Some(name), stored, Some(name));
    }
  }

  // ---------------------------------------------------------------------------
  // Ingest and worker
  // ---------------------------------------------------------------------------

  /**
   `ensure_for_ingest`: refused for a text that is no UUID or a document of another batch; else the
   document's row is there with its batch and key, and its batch counts it once.
   */
  lemma IngestVerdict(db: Db, batch: string, document: string, key: string)
    ensures var verdict := Attempt(db, IngestRow(batch, document, key));
            match (Uuid.Parse(batch), Uuid.Parse(document))
            case (Some(b), Some(d)) =>
              if d in db.documents && db.documents[d].batch != b then verdict == Err(OtherBatch)
              else
                var count := if b in db.batches then db.batches[b].documentCount else 0;
                verdict == Ok(db.(
                  documents := db.documents[d := Document(b, key)],
                  batches := db.batches[b := Batch(count + if d in db.documents then 0 else 1)]))
            case _ => verdict == Err(BadUuid)
  {
    hide Uuid.Parse;
    if Uuid.Parse(batch).Some? {
      var b := Uuid.Parse(batch).value;
      assert b in db.batches ==> db.batches[b := Batch(db.batches[b].documentCount)] == db.batches;
      assert db.batches[b := Batch(0)][b := Batch(1)] == db.batches[b := Batch(1)];
    }
  }

  /** `create_idempotent`: what a worker's record needs; it is never refused for its confidence. */
  lemma WriteVerdict(db: Db, w: WorkerResult, now: nat)
    ensures var verdict := Attempt(db, WorkerWrite(w, now));
            match (Uuid.Parse(w.batch), Uuid.Parse(w.document))
            case (Some(b), Some(d)) =>
              if d !in db.documents then verdict == Err(NotFound)
              else if b !in db.batches then verdict == Err(Integrity)
              else if HasId(db.predictions, w.id)
                      && forall i :: 0 <= i < |db.predictions| ==>
                           !(db.predictions[i].batch == b && db.predictions[i].document == d)
              then verdict == Err(Integrity)
              else verdict.Ok?
            case _ => verdict == Err(BadUuid)
  {
    hide Uuid.Parse;
    assert PredictionFor(w).id == w.id && PredictionFor(w).batch == w.batch && PredictionFor(w).document == w.document;
    assert 0.0 <= PredictionFor(w).top1 <= 1.0;
  }
}
