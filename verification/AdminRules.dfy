/**
 An administrator always exists: the guards of user_service.py and the promotion in auth.py,
 over every run of transactions.
 */
module AdminRules {
  import opened Prelude
  import opened Database
  import opened Services
  import Uuid

  predicate HasAdmin(users: map<Id, User>) {
    Admins(users) != {}
  }

  /** Nobody is registered yet, or somebody is an administrator. */
  predicate AdminInvariant(db: Db) {
    db.users == map[] || HasAdmin(db.users)
  }

  // ---------------------------------------------------------------------------
  // Counting administrators
  // ---------------------------------------------------------------------------

  lemma SingletonSet<T>(s: set<T>, x: T)
    requires x in s
    ensures |s| == 1 <==> s == {x}
  {
    if |s| == 1 {
      assert |s - {x}| == 0;
      assert s == {x} + (s - {x});
    }
  }

  lemma AdminsAfterRole(users: map<Id, User>, u: Id, role: Role)
    requires u in users
    ensures Admins(users[u := users[u].(role := role)])
            == if role == Admin then Admins(users) + {u} else Admins(users) - {u}
  {
  }

  // ---------------------------------------------------------------------------
  // One step
  // ---------------------------------------------------------------------------

  /**
   The one request that takes the last administrator away: the only administrator demotes
   themselves under a text of their own id that is not the printed one, so the guard's
   text comparison misses it.
   */
  predicate LocksOut(db: Db, t: Transaction) {
    t.Http? && t.request.PatchRole? &&
    var r := t.request;
    && r.actor in db.users
    && Admins(db.users) == {r.actor}
    && r.newRole != Admin
    && Uuid.Parse(r.target) == Some(r.actor)
    && r.target != Uuid.Print(r.actor)
  }

  lemma RoleStep(db: Db, actor: Id, target: string, newRole: Role)
    requires AdminInvariant(db)
    ensures var t := Http(PatchRole(actor, target, newRole));
            AdminInvariant(Commit(db, t)) <==> !LocksOut(db, t)
  {
    hide Uuid.Parse;
    hide Uuid.Print;
    var t := Http(PatchRole(actor, target, newRole));
    var r := Attempt(db, t);
    if actor in db.users && db.users[actor].role == Admin {
      SingletonSet(Admins(db.users), actor);
      if r.Ok? {
        var u := LocateUser(db, target).value;
        AdminsAfterRole(db.users, u, newRole);
        assert r.value.users == db.users[u := db.users[u].(role := newRole)];
        assert u in r.value.users;
        if u != actor || newRole == Admin {
          assert actor in Admins(r.value.users);
          assert HasAdmin(r.value.users);
        } else {
          assert HasAdmin(r.value.users) <==> Admins(db.users) != {actor};
        }
      } else if LocksOut(db, t) {
        assert false;
      }
    }
  }

  lemma RoleKeepsUsers(db: Db, actor: Id, target: string, newRole: Role)
    ensures Commit(db, Http(PatchRole(actor, target, newRole))).users.Keys == db.users.Keys
  {
    hide Uuid.Parse;
    hide Uuid.Print;
  }

  lemma DeleteStep(db: Db, actor: Id, target: string)
    requires AdminInvariant(db)
    ensures var db' := Commit(db, Http(DeleteAccount(actor, target)));
            AdminInvariant(db') && (db.users != map[] ==> db'.users != map[])
  {
    var r := Attempt(db, Http(DeleteAccount(actor, target)));
    if r.Ok? {
      assert actor in r.value.users;
      assert r.value.users[actor] == db.users[actor];
      assert actor in Admins(r.value.users);
    }
  }

  lemma RegisterStep(db: Db, email: string, id: Id)
    requires AdminInvariant(db)
    ensures AdminInvariant(Commit(db, Http(PostRegister(email, id))))
  {
    var r := Attempt(db, Http(PostRegister(email, id)));
    if r.Ok? {
      var users' := r.value.users;
      if Admins(db.users) == {} {
        assert users'[id].role == Admin;
        assert id in Admins(users');
      } else {
        var a :| a in Admins(db.users);
        assert a in Admins(users');
      }
    }
  }

  predicate ChangesUsers(t: Transaction) {
    t.Http? && (t.request.PostRegister? || t.request.PatchRole? || t.request.DeleteAccount?)
  }

  lemma UsersUntouched(db: Db, t: Transaction)
    requires !ChangesUsers(t)
    ensures Commit(db, t).users == db.users
  {
    if Attempt(db, t).Ok? {
      AcceptedIs(db, t);
    }
    hide Attempt;
    hide CleanName;
  }

  /** A step keeps an administrator exactly when it is not the one lock-out request. */
  lemma AdminStep(db: Db, t: Transaction)
    requires AdminInvariant(db)
    ensures AdminInvariant(Commit(db, t)) <==> !LocksOut(db, t)
  {
    if !ChangesUsers(t) {
      UsersUntouched(db, t);
    } else {
      match t.request
      case PatchRole(actor, target, newRole) => RoleStep(db, actor, target, newRole);
      case DeleteAccount(actor, target) => DeleteStep(db, actor, target);
      case PostRegister(email, id) => RegisterStep(db, email, id);
    }
  }

  // ---------------------------------------------------------------------------
  // Runs
  // ---------------------------------------------------------------------------

  /** Every role change names its target in the form that the API prints. */
  predicate CanonicalTargets(ts: seq<Transaction>) {
    forall i :: 0 <= i < |ts| && ts[i].Http? && ts[i].request.PatchRole?
      ==> Uuid.Canonical(ts[i].request.target)
  }

  /** In every run with canonical targets a non-empty user table has an administrator. */
  lemma {:induction false} AdminAlways(ts: seq<Transaction>)
    requires CanonicalTargets(ts)
    ensures AdminInvariant(Run(EMPTY_DB, ts))
  {
    if ts != [] {
      AdminAlways(ts[..|ts| - 1]);
      AdminStep(Run(EMPTY_DB, ts[..|ts| - 1]), ts[|ts| - 1]);
    }
  }

  lemma FirstRegistration(email: string, id: Id)
    ensures Commit(EMPTY_DB, Http(PostRegister(email, id))).users == map[id := User(email, Admin)]
  {
    assert Admins(EMPTY_DB.users) == {};
    assert !EmailTaken(EMPTY_DB, email);
  }

  lemma OnlyAdminDemotesThemselves(db: Db, id: Id, email: string, target: string)
    requires db.users == map[id := User(email, Admin)]
    requires Uuid.Parse(target) == Some(id) && target != Uuid.Print(id)
    ensures Commit(db, Http(PatchRole(id, target, Reviewer))).users == map[id := User(email, Reviewer)]
  {
    hide Uuid.Parse;
    hide Uuid.Print;
    assert LocateUser(db, target) == Ok(id);
    assert db.users[id := User(email, Reviewer)] == map[id := User(email, Reviewer)];
  }

  /** Without canonical targets it fails: two requests leave a user table with no administrator. */
  lemma AdminLostBy(email: string, id: Id, target: string)
    requires Uuid.Parse(target) == Some(id) && target != Uuid.Print(id)
    ensures var ts := [Http(PostRegister(email, id)), Http(PatchRole(id, target, Reviewer))];
            Run(EMPTY_DB, ts).users == map[id := User(email, Reviewer)]
            && !AdminInvariant(Run(EMPTY_DB, ts))
  {
    hide Uuid.Parse;
    hide Uuid.Print;
    hide Attempt;
    var first, second := Http(PostRegister(email, id)), Http(PatchRole(id, target, Reviewer));
    var ts := [first, second];
    FirstRegistration(email, id);
    assert [first][..0] == [];
    assert Run(EMPTY_DB, [first]) == Commit(Run(EMPTY_DB, []), first);
    OnlyAdminDemotesThemselves(Run(EMPTY_DB, [first]), id, email, target);
    assert ts[..1] == [first];
    assert Run(EMPTY_DB, ts) == Commit(Run(EMPTY_DB, [first]), second);
    var users := map[id := User(email, Reviewer)];
    assert id in users && Admins(users) == {};
  }

  /** For example with the id's printed text in braces, which uuid.UUID accepts. */
  lemma AdminCanBeLost(id: Id)
    ensures exists ts :: Run(EMPTY_DB, ts).users != map[] && !HasAdmin(Run(EMPTY_DB, ts).users)
  {
    hide Uuid.Parse;
    hide Uuid.Print;
    hide Run;
    hide Commit;
    hide HasAdmin;
    Uuid.BracedText(id);
    Uuid.ParsePrint(id);
    AdminLostBy("a@b.c", id, "{" + Uuid.Print(id) + "}");
  }

  predicate Registration(ts: seq<Transaction>, i: nat) {
    i < |ts| && ts[i].Http? && ts[i].request.PostRegister? && Succeeded(ts, i)
  }

  /** Registration i of a run made its user an administrator. */
  predicate Promotion(ts: seq<Transaction>, i: nat) {
    && Registration(ts, i)
    && var users := Attempt(Before(EMPTY_DB, ts, i), ts[i]).value.users;
       ts[i].request.id in users && users[ts[i].request.id].role == Admin
  }

  lemma RunTo(ts: seq<Transaction>, i: nat)
    requires i < |ts|
    ensures Before(EMPTY_DB, ts, i + 1) == Commit(Before(EMPTY_DB, ts, i), ts[i])
  {
    assert ts[..i + 1][..i] == ts[..i];
  }

  /** Only a registration fills an empty user table, and nothing empties one. */
  lemma PopulationStep(db: Db, t: Transaction)
    requires AdminInvariant(db)
    ensures Commit(db, t).users != map[]
            <==> db.users != map[] || (t.Http? && t.request.PostRegister? && Attempt(db, t).Ok?)
  {
    if !ChangesUsers(t) {
      UsersUntouched(db, t);
    } else {
      match t.request
      case PatchRole(actor, target, newRole) =>
        RoleKeepsUsers(db, actor, target, newRole);
      case DeleteAccount(actor, target) =>
        DeleteStep(db, actor, target);
      case PostRegister(email, id) =>
        if Attempt(db, t).Ok? {
          assert id in Commit(db, t).users;
        }
    }
  }

  /** The user table is non-empty exactly when somebody has registered before. */
  lemma {:induction false} PopulatedAfterRegistration(ts: seq<Transaction>, n: nat)
    requires CanonicalTargets(ts) && n <= |ts|
    ensures Before(EMPTY_DB, ts, n).users != map[] <==> exists i: nat :: i < n && Registration(ts, i)
  {
    hide Attempt;
    if n > 0 {
      PopulatedAfterRegistration(ts, n - 1);
      RunTo(ts, n - 1);
      AdminAlways(ts[..n - 1]);
      PopulationStep(Before(EMPTY_DB, ts, n - 1), ts[n - 1]);
      assert Registration(ts, n - 1)
        <==> ts[n - 1].Http? && ts[n - 1].request.PostRegister?
             && Attempt(Before(EMPTY_DB, ts, n - 1), ts[n - 1]).Ok?;
    }
  }

  /** Somebody is promoted as soon as somebody registers, and it happens to the first one only. */
  lemma PromotedOnce(ts: seq<Transaction>, i: nat)
    requires CanonicalTargets(ts) && Registration(ts, i)
    ensures Promotion(ts, i) <==> forall j: nat :: j < i ==> !Registration(ts, j)
  {
    var db := Before(EMPTY_DB, ts, i);
    AdminAlways(ts[..i]);
    PopulatedAfterRegistration(ts, i);
    assert db.users == map[] ==> Admins(db.users) == {};
  }

  /**
   Deleting is refused because of "the only admin" exactly when the only administrator names
   themselves by a text that is not the printed one; with canonical targets never.
   */
  lemma OnlyAdminRefusalReached(db: Db, actor: Id, target: string)
    requires Authorize(db, actor, DeleteUsers).Ok?
    ensures OnlyAdminRefusal(db, actor, db.users[actor].role, target)
            <==> Admins(db.users) == {actor} && Uuid.Parse(target) == Some(actor) && target != Uuid.Print(actor)
    ensures Uuid.Canonical(target) ==> !OnlyAdminRefusal(db, actor, db.users[actor].role, target)
  {
    assert actor in Admins(db.users);
    SingletonSet(Admins(db.users), actor);
    if OnlyAdminRefusal(db, actor, db.users[actor].role, target) {
      assert LocateUser(db, target).value in Admins(db.users);
    }
  }

  /**
   No text of their own id lets a user delete themselves: what the text comparison misses, the
   audit entry's foreign key refuses after the row is gone, and the whole request is rolled back.
   */
  lemma NobodyDeletesThemselves(db: Db, actor: Id, target: string)
    requires Uuid.Parse(target) == Some(actor)
    ensures Commit(db, Http(DeleteAccount(actor, target))) == db
  {
  }
}
