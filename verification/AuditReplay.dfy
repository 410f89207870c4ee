/**
 The audit log replays to the tables: folding its entries gives the current roles, names, comments
 and colours, and the "from" of each entry is what the entries before it say.
 */
module AuditReplay {
  import opened Prelude
  import opened Paths
  import opened Database
  import opened Services
  import opened Tables
  import Uuid

  function Actions(audit: seq<AuditEntry>): (r: seq<Action>)
    ensures |r| == |audit|
    ensures forall i :: 0 <= i < |audit| ==> r[i] == audit[i].action
  {
    seq(|audit|, i requires 0 <= i < |audit| => audit[i].action)
  }

  // ---------------------------------------------------------------------------
  // Replaying notes: comments, colours and names
  // ---------------------------------------------------------------------------

  datatype Note = Note(comment: Option<string>, color: Option<string>, name: Option<string>)

  const BLANK := Note(None, None, None)

  function Noted(note: Note, action: Action, id: Id): Note {
    match action
    case Commented(target, comment, color) =>
      if Uuid.Parse(target) == Some(id) then note.(comment := comment, color := color) else note
    case Renamed(target, _, toName) =>
      if Uuid.Parse(target) == Some(id) then note.(name := toName) else note
    case _ => note
  }

  /** What a log says about one prediction. */
  function NoteAfter(actions: seq<Action>, id: Id): Note {
    if actions == [] then BLANK
    else Noted(NoteAfter(actions[..|actions| - 1], id), actions[|actions| - 1], id)
  }

  function NoteOf(row: Prediction): Note {
    Note(row.comment, row.color, row.name)
  }

  /** The note of the row with an id, or nothing. */
  function NoteIn(rows: seq<Prediction>, id: Id): Note {
    var i := FindId(rows, id);
    if i < |rows| then NoteOf(rows[i]) else BLANK
  }

  // ---------------------------------------------------------------------------
  // Replaying roles
  // ---------------------------------------------------------------------------

  /** Registrations are not logged; a journal is the log with each of them at its moment. */
  datatype JournalEntry = Registered(id: Id, role: Role) | Logged(action: Action)

  /** How one entry moves the role map. */
  function RoleMove(roles: map<Id, Role>, entry: JournalEntry): map<Id, Role> {
    match entry
    case Registered(id, role) => roles[id := role]
    case Logged(RoleChange(target, _, toRole)) =>
      if Uuid.Parse(target).Some? then roles[Uuid.Parse(target).value := toRole] else roles
    case Logged(DeletedUser(target)) =>
      if Uuid.Parse(target).Some? then roles - {Uuid.Parse(target).value} else roles
    case Logged(_) => roles
  }

  /** What a journal says about everybody's role. */
  function RolesAfter(journal: seq<JournalEntry>): map<Id, Role> {
    if journal == [] then map[]
    else RoleMove(RolesAfter(journal[..|journal| - 1]), journal[|journal| - 1])
  }

  function Roles(users: map<Id, User>): map<Id, Role> {
    map u | u in users :: users[u].role
  }

  /** What a transaction adds to the journal: its registration or the newest entry of the log. */
  function Contribution(db: Db, t: Transaction): Option<JournalEntry> {
    if Attempt(db, t).Err? then None
    else
      var db' := Commit(db, t);
      if t.Http? && t.request.PostRegister? then
        if t.request.id in db'.users then Some(Registered(t.request.id, db'.users[t.request.id].role)) else None
      else if |db'.audit| > |db.audit| then Some(Logged(db'.audit[|db'.audit| - 1].action))
      else None
  }

  function Extended(journal: seq<JournalEntry>, entry: Option<JournalEntry>): seq<JournalEntry> {
    if entry.Some? then journal + [entry.value] else journal
  }

  function Journal(ts: seq<Transaction>): seq<JournalEntry> {
    if ts == [] then []
    else Extended(Journal(ts[..|ts| - 1]), Contribution(Run(EMPTY_DB, ts[..|ts| - 1]), ts[|ts| - 1]))
  }

  /** The logged part of a journal. */
  function LoggedPart(journal: seq<JournalEntry>): seq<Action> {
    if journal == [] then []
    else
      LoggedPart(journal[..|journal| - 1]) +
      match journal[|journal| - 1] { case Logged(action) => [action] case Registered(_, _) => [] }
  }

  // ---------------------------------------------------------------------------
  // One step
  // ---------------------------------------------------------------------------

  /** How a transaction extends the log: not at all, or by one action. */
  predicate LogStep(db: Db, db': Db, action: Option<Action>) {
    match action
    case None => Actions(db'.audit) == Actions(db.audit)
    case Some(a) => Actions(db'.audit) == Actions(db.audit) + [a]
  }

  /** The action that a transaction logs when it is accepted. */
  function ActionOf(db: Db, t: Transaction): Option<Action> {
    match t
    case IngestRow(_, _, _) => None
    case WorkerWrite(w, _) => Some(BatchState(w.batch, w.document))
    case Http(PostRegister(_, _)) => None
    case Http(PatchRole(_, target, newRole)) =>
      if LocateUser(db, target).Ok?
      then Some(RoleChange(target, db.users[LocateUser(db, target).value].role, newRole)) else None
    case Http(DeleteAccount(_, target)) => Some(DeletedUser(target))
    case Http(PatchLabel(_, pid, newLabel)) =>
      if LocatePrediction(db, pid).Ok?
      then Some(Relabeled(pid, db.predictions[LocatePrediction(db, pid).value].category, newLabel)) else None
    case Http(PatchComment(_, pid, comment, color)) => Some(Commented(pid, comment, color))
    case Http(PatchName(_, pid, newName)) =>
      if LocatePrediction(db, pid).Ok?
      then Some(Renamed(pid, db.predictions[LocatePrediction(db, pid).value].name, CleanName(newName))) else None
  }

  lemma AppendAction(audit: seq<AuditEntry>, entry: AuditEntry)
    ensures Actions(audit + [entry]) == Actions(audit) + [entry.action]
  {
  }

  lemma {:induction false} ActionLogged(db: Db, t: Transaction)
    requires Attempt(db, t).Ok?
    ensures LogStep(db, Commit(db, t), ActionOf(db, t))
    ensures ActionOf(db, t).Some? ==> |Commit(db, t).audit| == |db.audit| + 1
  {
    AcceptedIs(db, t);
    hide Attempt;
    hide CleanName;
    if t.Http? && t.request.DeleteAccount? {
      var cleared := WithoutActor(db.audit, LocateUser(db, t.request.target).value);
      assert Actions(cleared) == Actions(db.audit);
      AppendAction(cleared, AuditEntry(Some(t.request.actor), DeletedUser(t.request.target)));
    } else if ActionOf(db, t).Some? {
      var entry := Applied(db, t).audit[|db.audit|];
      assert Applied(db, t).audit == db.audit + [entry];
      AppendAction(db.audit, entry);
    }
  }

  /** A refused transaction, a request included, changes neither tables nor log. */
  lemma RefusedChangesNothing(db: Db, t: Transaction)
    requires Attempt(db, t).Err?
    ensures Commit(db, t) == db && Contribution(db, t) == None
  {
  }

  // ---------------------------------------------------------------------------
  // Notes
  // ---------------------------------------------------------------------------

  lemma FindIdAfterReplace(rows: seq<Prediction>, i: nat, row: Prediction, id: Id)
    requires i < |rows| && row.id == rows[i].id
    ensures FindId(rows[i := row], id) == FindId(rows, id)
  {
    assert forall j :: 0 <= j < |rows| ==> rows[i := row][j].id == rows[j].id;
  }

  lemma FindIdAfterAppend(rows: seq<Prediction>, row: Prediction, id: Id)
    ensures FindId(rows, id) < |rows| ==> FindId(rows + [row], id) == FindId(rows, id)
    ensures FindId(rows, id) == |rows| ==> FindId(rows + [row], id) >= |rows|
  {
    assert forall j :: 0 <= j < |rows| ==> (rows + [row])[j] == rows[j];
  }

  lemma UpsertKeepsNotes(rows: seq<Prediction>, p: PredictionOut, b: Id, d: Id, now: nat, id: Id)
    ensures NoteIn(Upsert(rows, p, b, d, now), id) == NoteIn(rows, id)
  {
    var i := FindKey(rows, b, d);
    if i < |rows| {
      FindIdAfterReplace(rows, i, Overwritten(rows[i], p), id);
    } else {
      FindIdAfterAppend(rows, NewRow(p, b, d, now), id);
    }
  }

  /** Rows after a review request: the located row has the new note, every other its old one. */
  lemma ReviewedNotes(db: Db, text: string, row: Prediction, id: Id)
    requires LocatePrediction(db, text).Ok?
    requires row.id == db.predictions[LocatePrediction(db, text).value].id
    ensures var i := LocatePrediction(db, text).value;
            NoteIn(db.predictions[i := row], id)
            == if Uuid.Parse(text) == Some(id) then NoteOf(row) else NoteIn(db.predictions, id)
    ensures Uuid.Parse(text) == Some(id)
            ==> NoteIn(db.predictions, id) == NoteOf(db.predictions[LocatePrediction(db, text).value])
  {
    var i := LocatePrediction(db, text).value;
    FindIdAfterReplace(db.predictions, i, row, id);
  }

  lemma CommentNote(db: Db, actor: Id, pid: string, comment: Option<string>, color: Option<string>, id: Id)
    requires LocatePrediction(db, pid).Ok?
    ensures NoteIn(Applied(db, Http(PatchComment(actor, pid, comment, color))).predictions, id)
            == Noted(NoteIn(db.predictions, id), Commented(pid, comment, color), id)
  {
    hide Uuid.Parse;
    var row := db.predictions[LocatePrediction(db, pid).value];
    ReviewedNotes(db, pid, row.(comment := comment, color := color), id);
  }

  lemma NameNote(db: Db, actor: Id, pid: string, newName: Option<string>, id: Id)
    requires LocatePrediction(db, pid).Ok?
    ensures var row := db.predictions[LocatePrediction(db, pid).value];
            NoteIn(Applied(db, Http(PatchName(actor, pid, newName))).predictions, id)
            == Noted(NoteIn(db.predictions, id), Renamed(pid, row.name, CleanName(newName)), id)
  {
    hide Uuid.Parse;
    hide CleanName;
    var row := db.predictions[LocatePrediction(db, pid).value];
    ReviewedNotes(db, pid, row.(name := CleanName(newName)), id);
  }

  lemma LabelNote(db: Db, actor: Id, pid: string, newLabel: Label, id: Id)
    requires LocatePrediction(db, pid).Ok?
    ensures NoteIn(Applied(db, Http(PatchLabel(actor, pid, newLabel))).predictions, id)
            == NoteIn(db.predictions, id)
  {
    hide Uuid.Parse;
    var row := db.predictions[LocatePrediction(db, pid).value];
    ReviewedNotes(db, pid, row.(category := newLabel), id);
  }

  /** The tables and the log move together. */
  lemma NoteStep(db: Db, t: Transaction, id: Id)
    requires Attempt(db, t).Ok?
    ensures var note := NoteIn(db.predictions, id);
            NoteIn(Commit(db, t).predictions, id)
            == if ActionOf(db, t).Some? then Noted(note, ActionOf(db, t).value, id) else note
  {
    hide Uuid.Parse;
    AcceptedIs(db, t);
    hide Attempt;
    hide CleanName;
    hide NoteIn;
    match t
    case WorkerWrite(w, now) =>
      UpsertKeepsNotes(db.predictions, PredictionFor(w), Uuid.Parse(w.batch).value,
                       Uuid.Parse(w.document).value, now, id);
    case Http(PatchLabel(actor, pid, newLabel)) =>
      LabelNote(db, actor, pid, newLabel, id);
    case Http(PatchComment(actor, pid, comment, color)) =>
      CommentNote(db, actor, pid, comment, color, id);
    case Http(PatchName(actor, pid, newName)) =>
      NameNote(db, actor, pid, newName, id);
    case _ =>
      hide LocatePrediction;
      hide EnsureForIngest;
  }

  /** Folding the log gives the comment, colour and name of every prediction. */
  lemma {:induction false} NotesReplay(ts: seq<Transaction>, id: Id)
    ensures NoteAfter(Actions(Run(EMPTY_DB, ts).audit), id) == NoteIn(Run(EMPTY_DB, ts).predictions, id)
  {
    hide Attempt;
    if ts != [] {
      var db, t := Run(EMPTY_DB, ts[..|ts| - 1]), ts[|ts| - 1];
      NotesReplay(ts[..|ts| - 1], id);
      if Attempt(db, t).Ok? {
        ActionLogged(db, t);
        NoteStep(db, t, id);
        if ActionOf(db, t).Some? {
          NoteFold(Actions(db.audit), ActionOf(db, t).value, id);
        }
      }
    }
  }

  lemma NoteFold(actions: seq<Action>, action: Action, id: Id)
    ensures NoteAfter(actions + [action], id) == Noted(NoteAfter(actions, id), action, id)
  {
    assert (actions + [action])[..|actions|] == actions;
  }

  /** Each rename entry's "from" is the name that the entries before it give. */
  predicate NamesChained(actions: seq<Action>) {
    forall i :: 0 <= i < |actions| && actions[i].Renamed? ==>
      && Uuid.Parse(actions[i].target).Some?
      && NoteAfter(actions[..i], Uuid.Parse(actions[i].target).value).name == actions[i].fromName
  }

  lemma ChainExtends(actions: seq<Action>, action: Action)
    requires NamesChained(actions)
    requires action.Renamed? ==>
      && Uuid.Parse(action.target).Some?
      && NoteAfter(actions, Uuid.Parse(action.target).value).name == action.fromName
    ensures NamesChained(actions + [action])
  {
    var longer := actions + [action];
    forall i | 0 <= i < |longer| && longer[i].Renamed?
      ensures Uuid.Parse(longer[i].target).Some?
      ensures NoteAfter(longer[..i], Uuid.Parse(longer[i].target).value).name == longer[i].fromName
    {
      assert longer[..i] == actions[..i];
      if i == |actions| {
        assert actions[..i] == actions;
      }
    }
  }

  /** A rename logs the name that the row has. */
  lemma RenameLogsCurrentName(db: Db, t: Transaction)
    requires ActionOf(db, t).Some? && ActionOf(db, t).value.Renamed?
    ensures var a := ActionOf(db, t).value;
            Uuid.Parse(a.target).Some? && NoteIn(db.predictions, Uuid.Parse(a.target).value).name == a.fromName
  {
    hide CleanName;
  }

  lemma {:induction false} NamesChainAlways(ts: seq<Transaction>)
    ensures NamesChained(Actions(Run(EMPTY_DB, ts).audit))
  {
    hide Attempt;
    hide ActionOf;
    if ts != [] {
      var db, t := Run(EMPTY_DB, ts[..|ts| - 1]), ts[|ts| - 1];
      NamesChainAlways(ts[..|ts| - 1]);
      if Attempt(db, t).Ok? {
        ActionLogged(db, t);
        if ActionOf(db, t).Some? {
          var a := ActionOf(db, t).value;
          if a.Renamed? {
            RenameLogsCurrentName(db, t);
            NotesReplay(ts[..|ts| - 1], Uuid.Parse(a.target).value);
          }
          ChainExtends(Actions(db.audit), a);
        }
      }
    }
  }

  // ---------------------------------------------------------------------------
  // Roles
  // ---------------------------------------------------------------------------

  lemma JournalFold(journal: seq<JournalEntry>, entry: JournalEntry)
    ensures RolesAfter(journal + [entry]) == RoleMove(RolesAfter(journal), entry)
    ensures LoggedPart(journal + [entry])
            == LoggedPart(journal) + if entry.Logged? then [entry.action] else []
  {
    assert (journal + [entry])[..|journal|] == journal;
  }

  /** The contribution of an accepted transaction, spelled out. */
  lemma ContributionIs(db: Db, t: Transaction)
    requires Attempt(db, t).Ok?
    ensures Contribution(db, t)
            == if t.Http? && t.request.PostRegister?
               then Some(Registered(t.request.id, if CountAdmins(db) == 0 then Admin else Reviewer))
               else if ActionOf(db, t).Some? then Some(Logged(ActionOf(db, t).value)) else None
  {
    ActionLogged(db, t);
    AcceptedIs(db, t);
    hide Attempt;
    if !(t.Http? && t.request.PostRegister?) {
      hide Applied;
      hide ActionOf;
      var db' := Commit(db, t);
      if ActionOf(db, t).Some? {
        assert Actions(db'.audit)[|db.audit|] == ActionOf(db, t).value;
      } else {
        assert |Actions(db'.audit)| == |Actions(db.audit)|;
      }
    }
  }

  lemma RolesSet(users: map<Id, User>, u: Id, user: User)
    ensures Roles(users[u := user]) == Roles(users)[u := user.role]
  {
  }

  lemma RolesWithout(users: map<Id, User>, u: Id)
    ensures Roles(users - {u}) == Roles(users) - {u}
  {
  }

  /** What everybody's role becomes when a transaction is accepted. */
  lemma AppliedRoles(db: Db, t: Transaction)
    requires Found(db, t)
    ensures Roles(Applied(db, t).users)
            == if t.Http? && t.request.PostRegister? then
                 Roles(db.users)[t.request.id := if CountAdmins(db) == 0 then Admin else Reviewer]
               else if ActionOf(db, t).Some? then RoleMove(Roles(db.users), Logged(ActionOf(db, t).value))
               else Roles(db.users)
  {
    hide Uuid.Parse;
    hide CleanName;
    hide LocatePrediction;
    hide EnsureForIngest;
    hide Upsert;
    hide WithoutActor;
    hide PredictionFor;
    if t.Http? && t.request.PostRegister? {
      RolesSet(db.users, t.request.id, User(t.request.email, if CountAdmins(db) == 0 then Admin else Reviewer));
    } else if t.Http? && t.request.PatchRole? {
      var u := LocateUser(db, t.request.target).value;
      RolesSet(db.users, u, db.users[u].(role := t.request.newRole));
    } else if t.Http? && t.request.DeleteAccount? {
      RolesWithout(db.users, LocateUser(db, t.request.target).value);
    }
    hide Roles;
    hide CountAdmins;
  }

  /** An accepted transaction moves the roles as its journal entry says. */
  lemma RoleStep(db: Db, t: Transaction)
    requires Attempt(db, t).Ok?
    ensures Roles(Commit(db, t).users)
            == if Contribution(db, t).Some? then RoleMove(Roles(db.users), Contribution(db, t).value)
               else Roles(db.users)
  {
    ContributionIs(db, t);
    AcceptedIs(db, t);
    AppliedRoles(db, t);
    hide Attempt;
    hide Contribution;
    hide Applied;
    hide ActionOf;
    hide Found;
  }

  /** The journal is the log with the registrations put in, and folding it gives everybody's role. */
  lemma {:induction false} RolesReplay(ts: seq<Transaction>)
    ensures LoggedPart(Journal(ts)) == Actions(Run(EMPTY_DB, ts).audit)
    ensures RolesAfter(Journal(ts)) == Roles(Run(EMPTY_DB, ts).users)
  {
    hide Attempt;
    hide ActionOf;
    hide Contribution;
    if ts != [] {
      var db, t := Run(EMPTY_DB, ts[..|ts| - 1]), ts[|ts| - 1];
      RolesReplay(ts[..|ts| - 1]);
      if Attempt(db, t).Ok? {
        ActionLogged(db, t);
        ContributionIs(db, t);
        RoleStep(db, t);
        LogsNothingButItsAction(db, t);
        if Contribution(db, t).Some? {
          JournalFold(Journal(ts[..|ts| - 1]), Contribution(db, t).value);
        }
      } else {
        RefusedChangesNothing(db, t);
      }
    }
  }

  lemma LogsNothingButItsAction(db: Db, t: Transaction)
    ensures t.Http? && t.request.PostRegister? ==> ActionOf(db, t).None?
  {
  }

  /** Each role entry's "from" is the role that the journal before it gives. */
  predicate RolesChained(journal: seq<JournalEntry>) {
    forall i :: 0 <= i < |journal| && journal[i].Logged? && journal[i].action.RoleChange? ==>
      var a := journal[i].action;
      && Uuid.Parse(a.target).Some?
      && Uuid.Parse(a.target).value in RolesAfter(journal[..i])
      && RolesAfter(journal[..i])[Uuid.Parse(a.target).value] == a.fromRole
  }

  lemma RoleChainExtends(journal: seq<JournalEntry>, entry: JournalEntry)
    requires RolesChained(journal)
    requires entry.Logged? && entry.action.RoleChange? ==>
      && Uuid.Parse(entry.action.target).Some?
      && Uuid.Parse(entry.action.target).value in RolesAfter(journal)
      && RolesAfter(journal)[Uuid.Parse(entry.action.target).value] == entry.action.fromRole
    ensures RolesChained(journal + [entry])
  {
    var longer := journal + [entry];
    forall i | 0 <= i < |longer| && longer[i].Logged? && longer[i].action.RoleChange?
      ensures var a := longer[i].action;
              && Uuid.Parse(a.target).Some?
              && Uuid.Parse(a.target).value in RolesAfter(longer[..i])
              && RolesAfter(longer[..i])[Uuid.Parse(a.target).value] == a.fromRole
    {
      assert longer[..i] == journal[..i];
      if i == |journal| {
        assert journal[..i] == journal;
      }
    }
  }

  lemma RoleChangeLogsCurrentRole(db: Db, t: Transaction)
    requires ActionOf(db, t).Some? && ActionOf(db, t).value.RoleChange?
    ensures var a := ActionOf(db, t).value;
            && Uuid.Parse(a.target).Some?
            && Uuid.Parse(a.target).value in Roles(db.users)
            && Roles(db.users)[Uuid.Parse(a.target).value] == a.fromRole
  {
  }

  lemma {:induction false} RolesChainAlways(ts: seq<Transaction>)
    ensures RolesChained(Journal(ts))
  {
    hide Attempt;
    hide ActionOf;
    hide Contribution;
    if ts != [] {
      var db, t := Run(EMPTY_DB, ts[..|ts| - 1]), ts[|ts| - 1];
      RolesChainAlways(ts[..|ts| - 1]);
      if Attempt(db, t).Err? {
        RefusedChangesNothing(db, t);
      } else {
        ContributionIs(db, t);
        RolesReplay(ts[..|ts| - 1]);
        if Contribution(db, t).Some? {
          var entry := Contribution(db, t).value;
          if entry.Logged? && entry.action.RoleChange? {
            RoleChangeLogsCurrentRole(db, t);
          }
          RoleChainExtends(Journal(ts[..|ts| - 1]), entry);
        }
      }
    }
  }

  // ---------------------------------------------------------------------------
  // Refused transactions
  // ---------------------------------------------------------------------------

  /** A run without its refused transactions. */
  function AcceptedOnly(ts: seq<Transaction>): seq<Transaction> {
    if ts == [] then []
    else
      var before := AcceptedOnly(ts[..|ts| - 1]);
      if Succeeded(ts, |ts| - 1) then before + [ts[|ts| - 1]] else before
  }

  /** Leaving refused transactions out of a run changes neither its tables nor its journal, and refuses no other. */
  lemma {:induction false} RefusedErased(ts: seq<Transaction>)
    ensures Run(EMPTY_DB, AcceptedOnly(ts)) == Run(EMPTY_DB, ts)
    ensures Journal(AcceptedOnly(ts)) == Journal(ts)
    ensures forall i :: 0 <= i < |AcceptedOnly(ts)| ==> Succeeded(AcceptedOnly(ts), i)
  {
    hide Attempt;
    if ts != [] {
      var n := |ts| - 1;
      var db, kept := Run(EMPTY_DB, ts[..n]), AcceptedOnly(ts[..n]);
      RefusedErased(ts[..n]);
      var all := AcceptedOnly(ts);
      if Attempt(db, ts[n]).Err? {
        RefusedChangesNothing(db, ts[n]);
      } else {
        assert all[..|kept|] == kept;
        forall i | 0 <= i < |all|
          ensures Succeeded(all, i)
        {
          assert all[..i] == kept[..i];
          if i < |kept| {
            assert Succeeded(kept, i);
          } else {
            assert kept[..i] == kept;
          }
        }
      }
    }
  }

  // ---------------------------------------------------------------------------
  // Actors
  // ---------------------------------------------------------------------------

  /** In whose name a transaction is made. */
  function ActorOf(t: Transaction): Option<Id> {
    if t.Http? && !t.request.PostRegister? then Some(t.request.actor) else None
  }

  predicate Deletes(t: Transaction, u: Id) {
    t.Http? && t.request.DeleteAccount? && Uuid.Parse(t.request.target) == Some(u)
  }

  /** The actor of an older entry after a transaction. */
  predicate ActorKept(t: Transaction, before: Option<Id>, after: Option<Id>) {
    after == if before.Some? && Deletes(t, before.value) then None else before
  }

  lemma DeleteActors(db: Db, actor: Id, target: string)
    requires Attempt(db, Http(DeleteAccount(actor, target))).Ok?
    ensures var t, audit := Http(DeleteAccount(actor, target)), Commit(db, Http(DeleteAccount(actor, target))).audit;
            && |audit| == |db.audit| + 1
            && (forall j :: 0 <= j < |db.audit| ==> ActorKept(t, db.audit[j].actor, audit[j].actor))
            && audit[|db.audit|].actor == Some(actor)
  {
    hide Uuid.Parse;
    AcceptedIs(db, Http(DeleteAccount(actor, target)));
    hide Attempt;
    hide WithoutActor;
  }

  lemma ActorStep(db: Db, t: Transaction)
    requires Attempt(db, t).Ok?
    ensures |Commit(db, t).audit| == |db.audit| + if ActionOf(db, t).Some? then 1 else 0
    ensures forall j :: 0 <= j < |db.audit| ==> ActorKept(t, db.audit[j].actor, Commit(db, t).audit[j].actor)
    ensures ActionOf(db, t).Some? ==> Commit(db, t).audit[|db.audit|].actor == ActorOf(t)
  {
    hide Uuid.Parse;
    if t.Http? && t.request.DeleteAccount? {
      DeleteActors(db, t.request.actor, t.request.target);
      hide Attempt;
      hide Commit;
    } else {
      AcceptedIs(db, t);
      hide Attempt;
      hide CleanName;
    }
  }

  /** Somebody's account was deleted after transaction k of the run. */
  predicate DeletedAfter(ts: seq<Transaction>, k: nat, u: Id) {
    exists m :: k < m < |ts| && Succeeded(ts, m) && Deletes(ts[m], u)
  }

  predicate LoggedBy(ts: seq<Transaction>, k: nat, entry: AuditEntry) {
    && Succeeded(ts, k) && ActionOf(Before(EMPTY_DB, ts, k), ts[k]) == Some(entry.action)
    && entry.actor == if ActorOf(ts[k]).Some? && DeletedAfter(ts, k, ActorOf(ts[k]).value) then None else ActorOf(ts[k])
  }

  lemma SamePrefix(ts: seq<Transaction>, k: nat)
    requires k + 1 < |ts|
    ensures Succeeded(ts, k) <==> Succeeded(ts[..|ts| - 1], k)
    ensures Before(EMPTY_DB, ts, k) == Before(EMPTY_DB, ts[..|ts| - 1], k)
  {
    assert ts[..|ts| - 1][..k] == ts[..k];
  }

  lemma DeletedAfterStep(ts: seq<Transaction>, k: nat, u: Id)
    requires k + 1 < |ts|
    ensures DeletedAfter(ts, k, u)
            <==> DeletedAfter(ts[..|ts| - 1], k, u) || (Succeeded(ts, |ts| - 1) && Deletes(ts[|ts| - 1], u))
  {
    hide Succeeded;
    hide Deletes;
    var n := |ts| - 1;
    forall m | k < m < n
      ensures Succeeded(ts, m) <==> Succeeded(ts[..n], m)
      ensures ts[..n][m] == ts[m]
    {
      SamePrefix(ts, m);
    }
    if DeletedAfter(ts[..n], k, u) {
      var m :| k < m < |ts[..n]| && Succeeded(ts[..n], m) && Deletes(ts[..n][m], u);
      assert Succeeded(ts, m) && Deletes(ts[m], u);
    }
    if m :| k < m < |ts| && Succeeded(ts, m) && Deletes(ts[m], u) && m < n {
      assert Succeeded(ts[..n], m) && Deletes(ts[..n][m], u);
    }
  }

  lemma LoggedByStays(ts: seq<Transaction>, k: nat, entry: AuditEntry, entry': AuditEntry)
    requires ts != [] && LoggedBy(ts[..|ts| - 1], k, entry) && entry'.action == entry.action
    requires if Succeeded(ts, |ts| - 1) then ActorKept(ts[|ts| - 1], entry.actor, entry'.actor) else entry' == entry
    ensures LoggedBy(ts, k, entry')
  {
    hide Uuid.Parse;
    hide Attempt;
    hide ActionOf;
    hide DeletedAfter;
    hide Before;
    SamePrefix(ts, k);
    hide Succeeded;
    if ActorOf(ts[k]).Some? {
      DeletedAfterStep(ts, k, ActorOf(ts[k]).value);
    }
  }

  /**
   Who is named in the log: each entry was logged by one accepted transaction, and names the user in
   whose name it was made, the worker's entries nobody, unless that user's account was deleted later.
   */
  lemma {:induction false} ActorsReplay(ts: seq<Transaction>, j: nat) returns (k: nat)
    requires j < |Run(EMPTY_DB, ts).audit|
    ensures LoggedBy(ts, k, Run(EMPTY_DB, ts).audit[j])
  {
    hide Attempt;
    hide ActionOf;
    hide ActorOf;
    hide ActorKept;
    var n := |ts| - 1;
    var db, t := Run(EMPTY_DB, ts[..n]), ts[n];
    assert Succeeded(ts, n) <==> Attempt(db, t).Ok?;
    if Attempt(db, t).Ok? {
      ActorStep(db, t);
      ActionLogged(db, t);
      EntryActions(db, t);
    }
    if j < |db.audit| {
      k := ActorsReplay(ts[..n], j);
      LoggedByStays(ts, k, db.audit[j], Run(EMPTY_DB, ts).audit[j]);
    } else {
      k := n;
      if ActorOf(t).Some? {
        NothingAfter(ts, ActorOf(t).value);
      }
    }
  }

  lemma NothingAfter(ts: seq<Transaction>, u: Id)
    requires ts != []
    ensures !DeletedAfter(ts, |ts| - 1, u)
  {
  }

  lemma EntryActions(db: Db, t: Transaction)
    requires LogStep(db, Commit(db, t), ActionOf(db, t)) && |Commit(db, t).audit| >= |db.audit|
    ensures forall j :: 0 <= j < |db.audit| ==> Commit(db, t).audit[j].action == db.audit[j].action
    ensures ActionOf(db, t).Some? && |Commit(db, t).audit| > |db.audit|
            ==> Commit(db, t).audit[|db.audit|].action == ActionOf(db, t).value
  {
    hide Commit;
    hide ActionOf;
    var audit, audit' := db.audit, Commit(db, t).audit;
    forall j | 0 <= j < |audit|
      ensures audit'[j].action == audit[j].action
    {
      assert Actions(audit')[j] == audit'[j].action && Actions(audit)[j] == audit[j].action;
    }
    if ActionOf(db, t).Some? && |audit'| > |audit| {
      assert Actions(audit')[|audit|] == audit'[|audit|].action;
    }
  }

  /** The foreign key of the log. */
  predicate ActorsExist(db: Db) {
    forall j :: 0 <= j < |db.audit| ==> db.audit[j].actor.Some? ==> db.audit[j].actor.value in db.users
  }

  lemma ActorsExistStep(db: Db, t: Transaction)
    requires ActorsExist(db) && Attempt(db, t).Ok?
    ensures ActorsExist(Commit(db, t))
  {
    hide Attempt;
    hide ActionOf;
    hide Commit;
    hide Deletes;
    hide ActorOf;
    ActorStep(db, t);
    if ActorOf(t).Some? {
      ActorLeft(db, t);
      UserLeft(db, t, ActorOf(t).value);
    }
    var db' := Commit(db, t);
    forall j | 0 <= j < |db'.audit| && db'.audit[j].actor.Some?
      ensures db'.audit[j].actor.value in db'.users
    {
      if j < |db.audit| {
        assert ActorKept(t, db.audit[j].actor, db'.audit[j].actor);
        UserLeft(db, t, db'.audit[j].actor.value);
      }
    }
  }

  /** Every actor that the log names is a user, after every run. */
  lemma {:induction false} ActorsAreUsers(ts: seq<Transaction>)
    ensures ActorsExist(Run(EMPTY_DB, ts))
  {
    hide Attempt;
    hide ActorsExist;
    if ts == [] {
      NoActors();
    } else {
      var db, t := Run(EMPTY_DB, ts[..|ts| - 1]), ts[|ts| - 1];
      ActorsAreUsers(ts[..|ts| - 1]);
      if Attempt(db, t).Ok? {
        ActorsExistStep(db, t);
      }
    }
  }

  lemma NoActors()
    ensures ActorsExist(EMPTY_DB)
  {
  }

  lemma UserLeft(db: Db, t: Transaction, u: Id)
    requires Attempt(db, t).Ok? && u in db.users && !Deletes(t, u)
    ensures u in Commit(db, t).users
  {
    hide Uuid.Parse;
    hide LocatePrediction;
    AcceptedIs(db, t);
    hide Attempt;
    hide Found;
    AppliedRoles(db, t);
    hide Applied;
    hide Commit;
    assert u in Roles(db.users);
    assert u in Roles(Applied(db, t).users);
  }

  lemma ActorLeft(db: Db, t: Transaction)
    requires Attempt(db, t).Ok? && ActorOf(t).Some?
    ensures ActorOf(t).value in db.users && !Deletes(t, ActorOf(t).value)
  {
    if t.request.DeleteAccount? {
      DeleteEffect(db, t.request.actor, db.users[t.request.actor].role, t.request.target);
    }
    AcceptedIs(db, t);
    hide Handle;
    hide Applied;
    hide LocatePrediction;
    hide Uuid.Parse;
  }
}
