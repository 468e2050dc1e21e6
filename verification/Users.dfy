/** services/auth_service.go (Register) and services/user_service.go (UpdateUser,
    DeleteUser): the calls that create users and change roles and activity. */
module Users {
  import opened Common
  import opened Tables
  import Accounts
  import Audit

  const VIEWER := "viewer"
  const ANALYST := "analyst"
  const ADMIN := "admin"

  predicate ValidRole(role: string) {
    role == VIEWER || role == ANALYST || role == ADMIN
  }

  predicate EmailTaken(users: map<Id, User>, email: string) {
    exists id | id in users :: users[id].email == email
  }

  // ---- Register ----

  /** Statements: count, user, three accounts, audit pair, commit. */
  function Register(s: State, name: string, email: string, password: string, role: string, faultAt: nat)
    : (State, Result<Id>)
  {
    var role' := if role == "" then VIEWER else role;
    if role' == ADMIN then (s, Err(Forbidden("admin role cannot be self-assigned")))
    else if !ValidRole(role') then (s, Err(Validation("invalid role")))
    else if faultAt == 1 then (s, Err(Internal))
    else if EmailTaken(s.users, email) then (s, Err(Conflict))
    else
      var accounts := Accounts.WithDefaults(s.accounts, s.next, s.next + 1, 3);
      if 2 <= faultAt <= 8 || accounts.None? then (s, Err(Internal))
      else
        var t := s.(users := s.users[s.next := User(name, email, Digest(password), role', true)],
                    accounts := accounts.value);
        (Audit.Logged(t, Audit.BuildEvent(s.next + 4, "user", s.next, Create)).(next := s.next + 5), Ok(s.next))
  }

  // ---- UpdateUser ----

  /** The role key of the update map: absent, a string, or a value of another type. */
  datatype RoleChange = KeepRole | SetRole(role: string) | NotAString

  datatype UserChanges = UserChanges(name: Option<string>, role: RoleChange, active: Option<bool>)

  function Changed(u: User, c: UserChanges): User {
    u.(name := if c.name.Some? then c.name.value else u.name,
       role := if c.role.SetRole? then c.role.role else u.role,
       active := if c.active.Some? then c.active.value else u.active)
  }

  /** Statements: select, update, audit pair, commit, re-read. The re-read runs after the
      commit, so its failure is reported although the update stands. */
  function UpdateUser(s: State, id: Id, c: UserChanges, faultAt: nat): (State, Result<User>) {
    if faultAt == 1 then (s, Err(Internal))
    else if id !in s.users then (s, Err(NotFound))
    else if c.role.NotAString? then (s, Err(Validation("role must be a string")))
    else if c.role.SetRole? && !ValidRole(c.role.role) then (s, Err(Validation("invalid role")))
    else if 2 <= faultAt <= 5 then (s, Err(Internal))
    else
      var u := Changed(s.users[id], c);
      var t := s.(users := s.users[id := u]);
      (Audit.Logged(t, Audit.BuildEvent(s.next, "user", id, Update)).(next := s.next + 1),
       if faultAt == 6 then Err(Internal) else Ok(u))
  }

  // ---- DeleteUser ----

  /** Accounts, records and refresh tokens go with their user; ledger entries do not, so
      a user who owns an account with entries cannot be deleted. */
  predicate Referenced(s: State, id: Id) {
    exists e | e in s.entries :: e.account in s.accounts && s.accounts[e.account].owner == id
  }

  function Cascade(s: State, id: Id): State {
    s.(users := s.users - {id},
       accounts := map a | a in s.accounts && s.accounts[a].owner != id :: s.accounts[a],
       records := map r | r in s.records && s.records[r].owner != id :: s.records[r],
       tokens := map t | t in s.tokens && s.tokens[t].owner != id :: s.tokens[t])
  }

  /** Statements: select, delete, audit pair, commit. */
  function DeleteUser(s: State, id: Id, faultAt: nat): (State, Result<Id>) {
    if faultAt == 1 then (s, Err(Internal))
    else if id !in s.users then (s, Err(NotFound))
    else if Referenced(s, id) || 2 <= faultAt <= 5 then (s, Err(Internal))
    else
      (Audit.Logged(Cascade(s, id), Audit.BuildEvent(s.next, "user", id, Delete)).(next := s.next + 1), Ok(id))
  }

}

/** The same calls as the services run them, statement by statement. */
module UserServices {
  import opened Common
  import opened Tables
  import opened Users
  import Accounts
  import Audit

  class UserService {
    const db: Database

    constructor (db: Database)
      ensures this.db == db
    {
      this.db := db;
    }

    method Register(name: string, email: string, password: string, role: string, faultAt: nat)
      returns (r: Result<Id>)
      modifies db
      ensures (db.Contents(), r) == Users.Register(old(db.Contents()), name, email, password, role, faultAt)
      ensures db.keys == old(db.keys)
    {
      var role' := role;
      if role' == "" {
        role' := VIEWER;
      }
      if role' == ADMIN {
        return Err(Forbidden("admin role cannot be self-assigned"));
      }
      if !ValidRole(role') {
        return Err(Validation("invalid role"));
      }
      if faultAt == 1 {
        return Err(Internal);
      }
      if EmailTaken(db.users, email) {
        return Err(Conflict);
      }
      var before := db.Contents();
      var created := CreateUserRows(User(name, email, Digest(password), role', true), faultAt);
      if !created {
        db.Rollback(before);
        return Err(Internal);
      }
      return Ok(before.next);
    }

    /** The inserts of the registration transaction. */
    method CreateUserRows(user: User, faultAt: nat) returns (ok: bool)
      modifies db`users, db`accounts, db`audit, db`outbox, db`next
      ensures var s := old(db.Contents());
              var accounts := Accounts.WithDefaults(s.accounts, s.next, s.next + 1, 3);
              && (ok <==> !(2 <= faultAt <= 8) && accounts.Some?)
              && (ok ==> db.Contents()
                         == Audit.Logged(s.(users := s.users[s.next := user], accounts := accounts.value),
                                         Audit.BuildEvent(s.next + 4, "user", s.next, Create)).(next := s.next + 5))
    {
      var id := FreshId(db);
      if faultAt == 2 {
        return false;
      }
      db.users := db.users[id := user];
      ok := Accounts.CreateDefaultAccounts(db, id, 3, faultAt);
      if !ok {
        return;
      }
      var event := FreshId(db);
      ok := Audit.LogEvent(db, Audit.BuildEvent(event, "user", id, Create), 6, faultAt);
      return ok && faultAt != 8;
    }

    method Update(id: Id, changes: UserChanges, faultAt: nat) returns (r: Result<User>)
      modifies db
      ensures (db.Contents(), r) == UpdateUser(old(db.Contents()), id, changes, faultAt)
      ensures db.keys == old(db.keys)
    {
      if faultAt == 1 {
        return Err(Internal);
      }
      if id !in db.users {
        return Err(NotFound);
      }
      if changes.role.NotAString? {
        return Err(Validation("role must be a string"));
      }
      if changes.role.SetRole? && !ValidRole(changes.role.role) {
        return Err(Validation("invalid role"));
      }
      var before := db.Contents();
      var event := FreshId(db);
      db.users := db.users[id := Changed(db.users[id], changes)];
      var logged := Audit.LogEvent(db, Audit.BuildEvent(event, "user", id, Action.Update), 3, faultAt);
      if faultAt == 2 || !logged || faultAt == 5 {
        db.Rollback(before);
        return Err(Internal);
      }
      return if faultAt == 6 then Err(Internal) else Ok(db.users[id]);
    }

    method Delete(id: Id, faultAt: nat) returns (r: Result<Id>)
      modifies db
      ensures (db.Contents(), r) == DeleteUser(old(db.Contents()), id, faultAt)
      ensures db.keys == old(db.keys)
    {
      if faultAt == 1 {
        return Err(Internal);
      }
      if id !in db.users {
        return Err(NotFound);
      }
      var before := db.Contents();
      if faultAt == 2 || Referenced(before, id) {
        return Err(Internal);
      }
      var event := FreshId(db);
      var after := Cascade(before, id);
      db.users, db.accounts, db.records, db.tokens := after.users, after.accounts, after.records, after.tokens;
      var logged := Audit.LogEvent(db, Audit.BuildEvent(event, "user", id, Action.Delete), 3, faultAt);
      if !logged || faultAt == 5 {
        db.Rollback(before);
        return Err(Internal);
      }
      return Ok(id);
    }
  }
}
