/**
 * `UsersService`'s write operations as they run against the store: each one
 * opens a transaction (a snapshot of the tables), writes step by step, and
 * either commits or rolls back to the snapshot and rethrows. Each method's
 * result and new state are those of the transition of the same name in
 * module `Users`, and each keeps the store invariant.
 */
module UsersStore {
  import opened Wrappers
  import opened Errors
  import opened Users
  import UsersProperties

  /** The object a caller hands to `createAuthUser`, which overwrites its `id` and `password`. */
  class UserRequest {
    var id: Option<Id>
    var first_name: string
    var last_name: string
    var email: string
    var username: string
    var password: string
    var token: Option<string>

    function Attrs(): Attributes
      reads this
    {
      Attributes(id, first_name, last_name, email, username, password, token)
    }

    constructor (a: Attributes)
      ensures Attrs() == a
    {
      id, first_name, last_name, email := a.id, a.first_name, a.last_name, a.email;
      username, password, token := a.username, a.password, a.token;
    }
  }

  /** The Users, Profiles and Roles tables. */
  class Store {
    var users: map<Id, User>
    var profiles: seq<Profile>
    var roles: seq<Role>

    function Snapshot(): Db
      reads this
    {
      Db(users, profiles, roles)
    }

    ghost predicate Valid()
      reads this
    {
      Invariant(Snapshot())
    }

    /** A store with the given roles and no users yet. */
    constructor (roles: seq<Role>)
      ensures Valid() && Snapshot() == Db(map[], [], roles)
    {
      users, profiles, this.roles := map[], [], roles;
    }

    /** `transaction.rollback()`: undo every write made since `transaction` was taken. */
    method Rollback(transaction: Db)
      modifies this
      ensures Snapshot() == transaction
    {
      users, profiles, roles := transaction.users, transaction.profiles, transaction.roles;
    }

    method CreateAuthUser(obj: UserRequest, freshId: Id, hash: string -> string) returns (r: Result<User>)
      requires Valid() && freshId !in users && !HasProfile(profiles, freshId)
      modifies this, obj
      ensures Valid()
      ensures obj.Attrs() == old(obj.Attrs()).(id := Some(freshId), password := hash(old(obj.password)))
      ensures Outcome(r, Snapshot()) == Users.CreateAuthUser(old(Snapshot()), old(obj.Attrs()), freshId, hash)
    {
      var transaction := Snapshot();
      obj.id := Some(freshId);
      obj.password := hash(obj.password);
      // Users.create(obj, { fields: [...] }) keeps only the white-listed columns
      if EmailTaken(users, obj.email) {
        Rollback(transaction);
        return Err(DuplicateEmail);
      }
      var newUser := User(freshId, obj.first_name, obj.last_name, obj.email, obj.username, obj.password, None);
      users := users[freshId := newUser];
      var publicRole := FindRole(roles, "public");
      if publicRole.None? {
        Rollback(transaction);
        return Err(NoPublicRole);
      }
      profiles := profiles + [Profile(newUser.id, publicRole.value.id)];
      r := Ok(newUser);
      UsersProperties.CreateAuthUserKeepsInvariant(transaction, old(obj.Attrs()), freshId, hash);
    }

    method UpdateUser(id: Id, obj: Patch) returns (r: Result<User>)
      requires Valid()
      modifies this
      ensures Valid()
      ensures Outcome(r, Snapshot()) == Users.UpdateUser(old(Snapshot()), id, obj)
    {
      var transaction := Snapshot();
      if id !in users {
        Rollback(transaction);
        return Err(NotFoundRow);
      }
      if EmailClash(users, id, obj) {
        Rollback(transaction);
        return Err(DuplicateEmail);
      }
      var updatedUser := Apply(users[id], obj);
      users := users[id := updatedUser];
      r := Ok(updatedUser);
      UsersProperties.UpdateUserKeepsInvariant(transaction, id, obj);
    }

    method RemoveUser(id: Id) returns (r: Result<User>)
      requires Valid()
      modifies this
      ensures Valid()
      ensures Outcome(r, Snapshot()) == Users.RemoveUser(old(Snapshot()), id)
    {
      var transaction := Snapshot();
      if id !in users {
        Rollback(transaction);
        return Err(NotFoundRow);
      }
      var user := users[id];
      users := map k | k in users && k != id :: users[k];
      r := Ok(user);
      UsersProperties.RemoveUserKeepsInvariant(transaction, id);
    }

    method SetTokenUser(id: Id, token: string) returns (r: Result<User>)
      requires Valid()
      modifies this
      ensures Valid()
      ensures Outcome(r, Snapshot()) == Users.SetTokenUser(old(Snapshot()), id, token)
    {
      var transaction := Snapshot();
      if id !in users {
        Rollback(transaction);
        return Err(NotFoundRow);
      }
      var updatedUser := users[id].(token := Some(token));
      users := users[id := updatedUser];
      r := Ok(updatedUser);
      UsersProperties.SetTokenUserKeepsInvariant(transaction, id, token);
    }

    method RemoveTokenUser(id: Id) returns (r: Result<()>)
      requires Valid()
      modifies this
      ensures Valid()
      ensures Outcome(r, Snapshot()) == Users.RemoveTokenUser(old(Snapshot()), id)
    {
      var transaction := Snapshot();
      if id !in users {
        Rollback(transaction);
        return Err(NotFoundRow);
      }
      users := users[id := users[id].(token := None)];
      r := Ok(());
      UsersProperties.RemoveTokenUserKeepsInvariant(transaction, id);
    }

    method VerifiedTokenUser(id: Option<Id>, token: Option<string>, exp: Option<int>, now: int) returns (r: Result<User>)
      requires Valid()
      modifies this
      ensures Valid()
      ensures Outcome(r, Snapshot()) == Users.VerifiedTokenUser(old(Snapshot()), id, token, exp, now)
    {
      var transaction := Snapshot();
      if !Present(id) {
        Rollback(transaction);
        return Err(NoIdProvided);
      }
      if !Present(token) {
        Rollback(transaction);
        return Err(NoTokenProvided);
      }
      if !PresentNum(exp) {
        Rollback(transaction);
        return Err(NoExpProvided);
      }
      // Users.findOne({ where: { id, token } })
      if !TokenMatches(users, id.value, token.value) {
        Rollback(transaction);
        return Err(InvalidToken);
      }
      if now > exp.value * 1000 {
        Rollback(transaction);
        return Err(TokenExpired);
      }
      var user := users[id.value].(token := None);
      users := users[id.value := user];
      r := Ok(user);
      UsersProperties.VerifiedTokenUserKeepsInvariant(transaction, id, token, exp, now);
    }

    method UpdatePassword(id: Option<Id>, newPassword: string, hash: string -> string) returns (r: Result<User>)
      requires Valid()
      modifies this
      ensures Valid()
      ensures Outcome(r, Snapshot()) == Users.UpdatePassword(old(Snapshot()), id, newPassword, hash)
    {
      var transaction := Snapshot();
      if !Present(id) {
        Rollback(transaction);
        return Err(NoIdProvided);
      }
      if id.value !in users {
        Rollback(transaction);
        return Err(NotFoundRow);
      }
      var restoreUser := users[id.value].(password := hash(newPassword));
      users := users[id.value := restoreUser];
      r := Ok(restoreUser);
      UsersProperties.UpdatePasswordKeepsInvariant(transaction, id, newPassword, hash);
    }
  }

  /** Issuing two tokens in a row, verifying the first, then the second twice, through the store. */
  method IssueTwiceThenVerify(s: Store, id: Id, exp: int, now: int)
      returns (a: Result<User>, b: Result<User>, first: Result<User>, second: Result<User>, third: Result<User>)
    requires s.Valid() && id in s.users && id != "" && exp != 0 && now <= exp * 1000
    modifies s
    ensures s.Valid()
    ensures a.Ok? && a.value.token == Some("A") && b.Ok? && b.value.token == Some("B")
    ensures first == Err(InvalidToken)
    ensures second.Ok? && second.value.id == id && second.value.token == None
    ensures third == Err(InvalidToken)
  {
    a := s.SetTokenUser(id, "A");
    b := s.SetTokenUser(id, "B");
    first := s.VerifiedTokenUser(Some(id), Some("A"), Some(exp), now);
    second := s.VerifiedTokenUser(Some(id), Some("B"), Some(exp), now);
    third := s.VerifiedTokenUser(Some(id), Some("B"), Some(exp), now);
  }
}
