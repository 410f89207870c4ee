/**
 The in-memory user repository (tests/fakes/user_repo.py): a store, an index by e-mail address and a
 password table that are changed together, and how far it stands in for the database repository.
 */
module UserStore {
  import opened Prelude
  import D = Database
  import S = Services
  import Uuid

  datatype UserOut = UserOut(id: string, email: string, role: D.Role)

  datatype StoreError = EmailTaken | UnknownUser

  // ---------------------------------------------------------------------------
  // Contents
  // ---------------------------------------------------------------------------

  /** The three dictionaries. */
  datatype Users = Users(
    store: map<string, UserOut>, byEmail: map<string, string>, passwords: map<string, string>)

  const EMPTY := Users(map[], map[], map[])

  /** Store, index and password table describe the same users, and no address is used twice. */
  predicate Consistent(c: Users) {
    && (forall id :: id in c.store ==>
          && c.store[id].id == id && id != ""
          && c.store[id].email in c.byEmail && c.byEmail[c.store[id].email] == id)
    && (forall email :: email in c.byEmail ==>
          c.byEmail[email] in c.store && c.store[c.byEmail[email]].email == email)
    && c.passwords.Keys == c.store.Keys
  }

  /** `seed`. */
  function With(c: Users, user: UserOut, hash: string): Users {
    Users(c.store[user.id := user], c.byEmail[user.email := user.id], c.passwords[user.id := hash])
  }

  /** The user that `create_user` makes: the first one is an admin whatever was asked for. */
  function NewUser(c: Users, id: string, email: string, role: D.Role): UserOut {
    UserOut(id, email, if c.store == map[] then D.Admin else role)
  }

  function WithRole(c: Users, id: string, role: D.Role): Users
    requires id in c.store
  {
    c.(store := c.store[id := c.store[id].(role := role)])
  }

  function Without(c: Users, id: string): Users
    requires id in c.store
  {
    Users(c.store - {id}, c.byEmail - {c.store[id].email}, c.passwords - {id})
  }

  function Admins(store: map<string, UserOut>): set<string> {
    set id | id in store && store[id].role == D.Admin
  }

  function AdminsAmong(store: map<string, UserOut>, ids: set<string>): set<string> {
    set id | id in ids && id in store && store[id].role == D.Admin
  }

  lemma OneFewer(store: map<string, UserOut>, ids: set<string>, id: string)
    requires id in ids && id in store
    ensures |AdminsAmong(store, ids)|
            == |AdminsAmong(store, ids - {id})| + if store[id].role == D.Admin then 1 else 0
  {
    var before, after := AdminsAmong(store, ids), AdminsAmong(store, ids - {id});
    if store[id].role == D.Admin {
      assert before == after + {id};
    } else {
      assert before == after;
    }
  }

  // ---------------------------------------------------------------------------
  // Laws of the contents
  // ---------------------------------------------------------------------------

  lemma WithConsistent(c: Users, user: UserOut, hash: string)
    requires Consistent(c) && user.id !in c.store && user.id != "" && user.email !in c.byEmail
    ensures Consistent(With(c, user, hash))
  {
  }

  lemma WithoutConsistent(c: Users, id: string)
    requires Consistent(c) && id in c.store
    ensures Consistent(Without(c, id))
  {
  }

  /** Deleting a user just created restores all three dictionaries. */
  lemma CreateDelete(c: Users, user: UserOut, hash: string)
    requires Consistent(c) && user.id !in c.store && user.email !in c.byEmail
    ensures Without(With(c, user, hash), user.id) == c
  {
    assert user.id !in c.passwords;
  }

  /** Once deleted, neither id, address nor password of a user is left, and everybody else is untouched. */
  lemma DeleteLeavesNoTrace(c: Users, id: string)
    requires Consistent(c) && id in c.store
    ensures var c' := Without(c, id);
            && id !in c'.store && id !in c'.passwords && c.store[id].email !in c'.byEmail
            && (forall other :: other in c.store && other != id ==>
                  other in c'.store && c'.store[other] == c.store[other]
                  && c.store[other].email in c'.byEmail && c'.byEmail[c.store[other].email] == other
                  && other in c'.passwords && c'.passwords[other] == c.passwords[other])
  {
    forall other | other in c.store && other != id
      ensures c.store[other].email != c.store[id].email
    {
      assert c.byEmail[c.store[other].email] == other;
    }
  }

  // ---------------------------------------------------------------------------
  // The object
  // ---------------------------------------------------------------------------

  class FakeUserRepo {
    var store: map<string, UserOut>
    var byEmail: map<string, string>
    var hashedPasswords: map<string, string>

    function Contents(): Users
      reads this
    {
      Users(store, byEmail, hashedPasswords)
    }

    ghost predicate Valid()
      reads this
    {
      Consistent(Contents())
    }

    constructor ()
      ensures Valid() && Contents() == EMPTY
    {
      store, byEmail, hashedPasswords := map[], map[], map[];
    }

    /** `create_user`; the id is a fresh uuid4 text. */
    method CreateUser(email: string, hash: string, role: D.Role, id: string) returns (r: Result<UserOut, StoreError>)
      requires Valid() && id !in store && id != ""
      modifies this
      ensures Valid()
      ensures r.Err? <==> exists u :: u in old(store) && old(store)[u].email == email
      ensures r.Err? ==> Contents() == old(Contents()) && r.error == EmailTaken
      ensures r.Ok? ==> r.value == NewUser(old(Contents()), id, email, role)
                        && r.value == UserOut(id, email, if old(store) == map[] then D.Admin else role)
                        && Contents() == With(old(Contents()), r.value, hash)
                        && store == old(store)[id := r.value] && byEmail == old(byEmail)[email := id]
                        && hashedPasswords == old(hashedPasswords)[id := hash]
    {
      if email in byEmail {
        assert store[byEmail[email]].email == email;
        return Err(EmailTaken);
      }
      var promoted := if store == map[] then D.Admin else role;
      var user := UserOut(id, email, promoted);
      WithConsistent(Contents(), user, hash);
      store := store[id := user];
      byEmail := byEmail[email := id];
      hashedPasswords := hashedPasswords[id := hash];
      return Ok(user);
    }

    method Get(id: string) returns (r: Result<UserOut, StoreError>)
      ensures r == if id in store then Ok(store[id]) else Err(UnknownUser)
    {
      if id !in store {
        return Err(UnknownUser);
      }
      return Ok(store[id]);
    }

    /** `get_by_email`: the one user with the address, if there is one. */
    method GetByEmail(email: string) returns (r: Option<UserOut>)
      requires Valid()
      ensures r.Some? <==> exists id :: id in store && store[id].email == email
      ensures forall id :: id in store && store[id].email == email ==> r == Some(store[id])
    {
      if email in byEmail && byEmail[email] != "" {
        assert store[byEmail[email]].email == email;
        return Some(store[byEmail[email]]);
      }
      return None;
    }

    method GetHashedPassword(id: string) returns (hash: string)
      ensures hash == if id in hashedPasswords then hashedPasswords[id] else ""
    {
      return if id in hashedPasswords then hashedPasswords[id] else "";
    }

    method UpdateRole(id: string, role: D.Role) returns (r: Result<UserOut, StoreError>)
      requires Valid()
      modifies this`store
      ensures Valid()
      ensures if id in old(store)
              then r == Ok(old(store)[id].(role := role)) && Contents() == WithRole(old(Contents()), id, role)
              else r == Err(UnknownUser) && Contents() == old(Contents())
    {
      if id !in store {
        return Err(UnknownUser);
      }
      var updated := store[id].(role := role);
      store := store[id := updated];
      return Ok(updated);
    }

    /** `count_admins` goes through the values one by one. */
    method CountAdmins() returns (n: nat)
      ensures n == |Admins(store)|
    {
      n := 0;
      var rest := store.Keys;
      assert AdminsAmong(store, rest) == Admins(store);
      while rest != {}
        invariant rest <= store.Keys && n + |AdminsAmong(store, rest)| == |Admins(store)|
      {
        var id :| id in rest;
        OneFewer(store, rest, id);
        if store[id].role == D.Admin {
          n := n + 1;
        }
        rest := rest - {id};
      }
    }

    method Delete(id: string) returns (r: Outcome<StoreError>)
      requires Valid()
      modifies this
      ensures Valid()
      ensures if id in old(store) then r.Done? && Contents() == Without(old(Contents()), id)
              else r == Raise(UnknownUser) && Contents() == old(Contents())
    {
      if id !in store {
        return Raise(UnknownUser);
      }
      WithoutConsistent(Contents(), id);
      var user := store[id];
      store := store - {id};
      byEmail := byEmail - {user.email};
      hashedPasswords := hashedPasswords - {id};
      return Done;
    }
  }

  // ---------------------------------------------------------------------------
  // Standing in for the database
  // ---------------------------------------------------------------------------

  /** The store holds the users of the table, under the canonical texts of their ids. */
  ghost predicate Represents(c: Users, users: map<D.Id, D.User>) {
    && (forall u: D.Id :: u in users ==> RepresentsUser(c, u, users[u]))
    && (forall id :: id in c.store ==> Uuid.Canonical(id) && Uuid.Parse(id).value in users)
  }

  predicate RepresentsUser(c: Users, u: D.Id, user: D.User) {
    Uuid.Print(u) in c.store && c.store[Uuid.Print(u)] == UserOut(Uuid.Print(u), user.email, user.role)
  }

  lemma RepresentedEmail(c: Users, db: D.Db, email: string)
    requires Consistent(c) && Represents(c, db.users)
    ensures email in c.byEmail <==> D.EmailTaken(db, email)
  {
    hide Uuid.Parse;
    hide Uuid.Print;
    if email in c.byEmail {
      var u := Uuid.Parse(c.byEmail[email]).value;
      assert RepresentsUser(c, u, db.users[u]);
      assert db.users[u].email == email;
    }
    if u :| u in db.users && db.users[u].email == email {
      assert RepresentsUser(c, u, db.users[u]);
    }
  }

  lemma RepresentedAdmins(c: Users, users: map<D.Id, D.User>)
    requires Represents(c, users)
    ensures Admins(c.store) == {} <==> D.Admins(users) == {}
  {
    hide Uuid.Parse;
    hide Uuid.Print;
    if u :| u in D.Admins(users) {
      assert RepresentsUser(c, u, users[u]);
      assert Uuid.Print(u) in Admins(c.store);
    }
    if id :| id in Admins(c.store) {
      var u := Uuid.Parse(id).value;
      assert RepresentsUser(c, u, users[u]);
      assert u in D.Admins(users);
    }
  }

  /** The role that the register route asks for. */
  function RouteRole(c: Users): D.Role {
    if Admins(c.store) == {} then D.Admin else D.Reviewer
  }

  lemma WithRepresents(c: Users, users: map<D.Id, D.User>, id: D.Id, user: D.User, hash: string)
    requires Represents(c, users) && id !in users
    ensures Represents(With(c, UserOut(Uuid.Print(id), user.email, user.role), hash), users[id := user])
  {
    hide Uuid.Parse;
    hide Uuid.Print;
    var c' := With(c, UserOut(Uuid.Print(id), user.email, user.role), hash);
    Uuid.ParsePrint(id);
    var users' := users[id := user];
    forall u: D.Id | u in users'
      ensures RepresentsUser(c', u, users'[u])
    {
      if u != id {
        assert RepresentsUser(c, u, users[u]);
        if Uuid.Print(u) == Uuid.Print(id) {
          Uuid.PrintInjective(u, id);
        }
      }
    }
  }

  lemma RegisterIs(db: D.Db, email: string, id: D.Id)
    requires id !in db.users
    ensures S.Register(db, email, id)
            == if D.EmailTaken(db, email) then Err(D.Conflict)
               else
                 var role := if D.Admins(db.users) == {} then D.Admin else D.Reviewer;
                 Ok(db.(users := db.users[id := D.User(email, role)]))
  {
    hide D.EmailTaken;
    assert D.CountAdmins(db) == 0 <==> D.Admins(db.users) == {};
  }

  /** Registering over the fake is registering over the database. */
  lemma {:induction false} RegisterAgrees(c: Users, db: D.Db, email: string, hash: string, id: D.Id)
    requires Consistent(c) && Represents(c, db.users) && id !in db.users
    ensures S.Register(db, email, id).Ok? <==> email !in c.byEmail
    ensures S.Register(db, email, id).Ok? ==>
              Represents(With(c, NewUser(c, Uuid.Print(id), email, RouteRole(c)), hash),
                         S.Register(db, email, id).value.users)
  {
    hide *;
    RepresentedEmail(c, db, email);
    RepresentedAdmins(c, db.users);
    RegisterIs(db, email, id);
    RouteRoleIs(c);
    WithRepresents(c, db.users, id, D.User(email, RouteRole(c)), hash);
    NewUserRole(c, Uuid.Print(id), email);
  }

  lemma RouteRoleIs(c: Users)
    ensures RouteRole(c) == if Admins(c.store) == {} then D.Admin else D.Reviewer
  {
  }

  /** The promotion in the store never contradicts the route. */
  lemma NewUserRole(c: Users, id: string, email: string)
    ensures NewUser(c, id, email, RouteRole(c)) == UserOut(id, email, RouteRole(c))
  {
    if c.store == map[] {
      assert Admins(c.store) == {};
    }
  }

  lemma WithRoleRepresents(c: Users, users: map<D.Id, D.User>, id: D.Id, role: D.Role)
    requires Represents(c, users) && id in users
    ensures Uuid.Print(id) in c.store
    ensures Represents(WithRole(c, Uuid.Print(id), role), users[id := users[id].(role := role)])
  {
    hide Uuid.Parse;
    hide Uuid.Print;
    assert RepresentsUser(c, id, users[id]);
    var users' := users[id := users[id].(role := role)];
    forall u: D.Id | u in users'
      ensures RepresentsUser(WithRole(c, Uuid.Print(id), role), u, users'[u])
    {
      assert RepresentsUser(c, u, users[u]);
      if Uuid.Print(u) == Uuid.Print(id) {
        Uuid.PrintInjective(u, id);
      }
    }
  }

  /** For canonical texts, changing a role over the fake is changing it over the database. */
  lemma {:induction false} UpdateRoleAgrees(c: Users, db: D.Db, text: string, role: D.Role)
    requires Represents(c, db.users) && Uuid.Canonical(text)
    ensures D.UpdateRole(db, text, role).Ok? <==> text in c.store
    ensures text in c.store ==> Represents(WithRole(c, text, role), D.UpdateRole(db, text, role).value.users)
  {
    hide Uuid.Parse;
    hide Uuid.Print;
    var id := Uuid.Parse(text).value;
    if id in db.users {
      WithRoleRepresents(c, db.users, id, role);
    }
    hide RepresentsUser;
  }

  /** For canonical texts, deleting over the fake is deleting over the database. */
  lemma {:induction false} DeleteAgrees(c: Users, db: D.Db, text: string)
    requires Represents(c, db.users) && Uuid.Canonical(text)
    ensures D.DeleteUserRow(db, text).Ok? <==> text in c.store
    ensures text in c.store ==> Represents(Without(c, text), D.DeleteUserRow(db, text).value.users)
  {
    hide Uuid.Parse;
    hide Uuid.Print;
    var id := Uuid.Parse(text).value;
    if id in db.users {
      assert RepresentsUser(c, id, db.users[id]);
      var users := D.DeleteUserRow(db, text).value.users;
      forall u: D.Id | u in users
        ensures RepresentsUser(Without(c, text), u, users[u])
      {
        assert RepresentsUser(c, u, db.users[u]);
        if Uuid.Print(u) == Uuid.Print(id) {
          Uuid.PrintInjective(u, id);
        }
      }
    }
  }

  /** On any text the two find the same user exactly when the text is canonical or the database finds none. */
  lemma LookupAgrees(c: Users, db: D.Db, text: string)
    requires Represents(c, db.users)
    ensures (text in c.store <==> D.LocateUser(db, text).Ok?)
            <==> Uuid.Canonical(text) || D.LocateUser(db, text).Err?
  {
    hide Uuid.Parse;
    hide Uuid.Print;
    if D.LocateUser(db, text).Ok? {
      var u := D.LocateUser(db, text).value;
      assert RepresentsUser(c, u, db.users[u]);
    }
  }
}
