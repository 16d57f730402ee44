/**
 * The user credential lifecycle of `UsersService`: the rows it reads and
 * writes, the errors it throws, and each operation as a transition from the
 * store it starts from to its result and the store it leaves behind. A
 * transaction that is rolled back leaves the store exactly as it was.
 *
 * The password hasher and the random identifier generator are not modelled:
 * the hasher is a parameter `hash`, the new identifier a parameter `freshId`
 * that no stored user has. The clock is a parameter `now` in milliseconds.
 */
module Users {
  import opened Wrappers
  import opened Js
  import opened Errors
  import opened Listing

  type Id = string
  type RoleId = int

  datatype User = User(id: Id, first_name: string, last_name: string, email: string,
                       username: string, password: string, token: Option<string>)

  /** The row that assigns a role to a user. */
  datatype Profile = Profile(user_id: Id, role_id: RoleId)

  datatype Role = Role(id: RoleId, name: string)

  /** The persisted tables: Users by primary key, Profiles and Roles in table order. */
  datatype Db = Db(users: map<Id, User>, profiles: seq<Profile>, roles: seq<Role>)

  /** What a transactional operation returns, and the store after commit or rollback. */
  datatype Outcome<T> = Outcome(result: Result<T>, db: Db)

  // The errors `UsersService` throws, with its own messages, statuses and names.
  const NotFoundUser: Error := Custom("Not found User", 404, "Not Found")
  const NotFoundView: Error := Custom("Not found user", 404, "Not found")
  const NotFoundRow: Error := Custom("Not found user", 404, "Not Found")
  const EmailNotGiven: Error := Custom("Email not given", 400, "Bad Request")
  const NoIdProvided: Error := Custom("Not ID provided", 400, "Bad Request")
  const NoTokenProvided: Error := Custom("Not token provided", 400, "Bad Request")
  const NoExpProvided: Error := Custom("Not exp exist", 400, "Bad Request")
  const InvalidToken: Error := Custom("The user associated with the token was not found", 400, "Invalid Token")
  const TokenExpired: Error := Custom("The token has expired, the 15min limit has been exceeded", 401, "Unauthorized")
  /** `publicRole.id` when no role is named "public". */
  const NoPublicRole: Error := NullDereference("publicRole.id")
  const DuplicateEmail: Error := UniqueViolation("email")

  /** JavaScript truthiness of an argument that may be absent. */
  predicate Present(s: Option<string>) { s.Some? && s.value != "" }
  predicate PresentNum(n: Option<int>) { n.Some? && n.value != 0 }

  // ---------------------------------------------------------------------------
  // Store invariant

  predicate KeysAreIds(users: map<Id, User>)
  {
    forall k :: k in users ==> users[k].id == k
  }

  /** The persistence layer keeps `email` unique. */
  predicate EmailsUnique(users: map<Id, User>)
  {
    forall a, b :: a in users && b in users && users[a].email == users[b].email ==> a == b
  }

  predicate EmailTaken(users: map<Id, User>, email: string)
  {
    exists k :: k in users && users[k].email == email
  }

  predicate HasProfile(profiles: seq<Profile>, id: Id)
  {
    exists i :: 0 <= i < |profiles| && profiles[i].user_id == id
  }

  predicate RoleExists(roles: seq<Role>, id: RoleId)
  {
    exists i :: 0 <= i < |roles| && roles[i].id == id
  }

  /** No two profiles are for the same user id. */
  predicate ProfilesDistinct(profiles: seq<Profile>)
  {
    forall i, j :: 0 <= i < |profiles| && 0 <= j < |profiles| && profiles[i].user_id == profiles[j].user_id ==> i == j
  }

  /**
   * Rows are stored under their own id, emails are unique, every user has
   * exactly one profile (users are only created together with one), and every
   * profile points at an existing role.
   */
  ghost predicate Invariant(db: Db)
  {
    && KeysAreIds(db.users)
    && EmailsUnique(db.users)
    && (forall k :: k in db.users ==> HasProfile(db.profiles, k))
    && ProfilesDistinct(db.profiles)
    && (forall i :: 0 <= i < |db.profiles| ==> RoleExists(db.roles, db.profiles[i].role_id))
  }

  /** `after` differs from `before` at most in the row under `id`. */
  predicate OthersUnchanged(before: map<Id, User>, after: map<Id, User>, id: Id)
  {
    after.Keys == before.Keys && forall k :: k in before && k != id ==> after[k] == before[k]
  }

  /** `u'` is `u` with at most its token changed. */
  predicate SameButToken(u: User, u': User)
  {
    u' == u.(token := u'.token)
  }

  // ---------------------------------------------------------------------------
  // Lookups (users.service.js:78-113)

  /** The views of a user the persistence layer's scopes select. */
  datatype Scope = DefaultScope | AuthFlow | ViewPublic | ViewSameUser

  /** `Users.scope(s).findByPk(id)`: the row under `id`, seen through the scope's projection. */
  function ScopedFindByPk<V>(users: map<Id, User>, id: Id, scope: Scope, project: (Scope, User) -> V): (r: Option<V>)
    ensures r.Some? <==> id in users
    ensures r.Some? ==> r.value == project(scope, users[id])
  {
    if id in users then Some(project(scope, users[id])) else None
  }

  /** A failed lookup throws `notFound`. */
  function OrThrow<V>(found: Option<V>, notFound: Error): Result<V>
  {
    match found
    case Some(v) => Ok(v)
    case None => Err(notFound)
  }

  function GetAuthUserOr404<V>(db: Db, id: Id, project: (Scope, User) -> V): (r: Result<V>)
    ensures r.Ok? <==> id in db.users
    ensures r.Ok? ==> r.value == project(AuthFlow, db.users[id])
    ensures r.Err? ==> r.error == NotFoundUser
  {
    OrThrow(ScopedFindByPk(db.users, id, AuthFlow, project), NotFoundUser)
  }

  function GetPublicUser<V>(db: Db, id: Id, project: (Scope, User) -> V): (r: Result<V>)
    ensures r.Ok? <==> id in db.users
    ensures r.Ok? ==> r.value == project(ViewPublic, db.users[id])
    ensures r.Err? ==> r.error == NotFoundView
  {
    OrThrow(ScopedFindByPk(db.users, id, ViewPublic, project), NotFoundView)
  }

  function GetSameUser<V>(db: Db, id: Id, project: (Scope, User) -> V): (r: Result<V>)
    ensures r.Ok? <==> id in db.users
    ensures r.Ok? ==> r.value == project(ViewSameUser, db.users[id])
    ensures r.Err? ==> r.error == NotFoundView
  {
    OrThrow(ScopedFindByPk(db.users, id, ViewSameUser, project), NotFoundView)
  }

  function GetUser<V>(db: Db, id: Id, project: (Scope, User) -> V): (r: Result<V>)
    ensures r.Ok? <==> id in db.users
    ensures r.Ok? ==> r.value == project(DefaultScope, db.users[id])
    ensures r.Err? ==> r.error == NotFoundUser
  {
    OrThrow(ScopedFindByPk(db.users, id, DefaultScope, project), NotFoundUser)
  }

  /**
   * 400 when no email is given, 404 when no user has it, otherwise the (unique)
   * user with that email.
   */
  function FindUserByEmailOr404<V>(db: Db, email: Option<string>, project: (Scope, User) -> V): (r: Result<V>)
    requires EmailsUnique(db.users)
    ensures !Present(email) ==> r == Err(EmailNotGiven)
    ensures Present(email) && !EmailTaken(db.users, email.value) ==> r == Err(NotFoundUser)
    ensures r.Ok? <==> Present(email) && EmailTaken(db.users, email.value)
    ensures r.Ok? ==> exists k :: k in db.users && db.users[k].email == email.value
                                && r.value == project(DefaultScope, db.users[k])
  {
    if !Present(email) then Err(EmailNotGiven)
    else if !EmailTaken(db.users, email.value) then Err(NotFoundUser)
    else
      var k :| k in db.users && db.users[k].email == email.value;
      Ok(project(DefaultScope, db.users[k]))
  }

  // ---------------------------------------------------------------------------
  // Account provisioning (users.service.js:43-76)

  /** The request object a caller passes to `createAuthUser`. */
  datatype Attributes = Attributes(id: Option<Id>, first_name: string, last_name: string, email: string,
                                   username: string, password: string, token: Option<string>)

  /** `Roles.findOne({ where: { name } })`: the first role with that name. */
  function FindRole(roles: seq<Role>, name: string): (r: Option<Role>)
    ensures r.Some? <==> exists i :: 0 <= i < |roles| && roles[i].name == name
    ensures r.Some? ==> exists i :: 0 <= i < |roles| && roles[i] == r.value && r.value.name == name
                                 && forall j :: 0 <= j < i ==> roles[j].name != name
  {
    if roles == [] then None
    else if roles[0].name == name then Some(roles[0])
    else
      var r := FindRole(roles[1..], name);
      assert r.Some? ==> exists i :: 0 <= i < |roles| - 1 && roles[1..][i] == r.value
                                 && forall j :: 0 <= j < i ==> roles[1..][j].name != name;
      r
  }

  /** The row `Users.create` writes: only the white-listed fields, the password hashed. */
  function NewUser(a: Attributes, freshId: Id, hash: string -> string): (u: User)
    ensures u.id == freshId && u.password == hash(a.password) && u.token == None
    ensures u.first_name == a.first_name && u.last_name == a.last_name
    ensures u.email == a.email && u.username == a.username
  {
    User(freshId, a.first_name, a.last_name, a.email, a.username, hash(a.password), None)
  }

  /**
   * All or nothing: either one new user under `freshId` and one profile linking
   * it to the first "public" role are added and the user is returned, or the
   * store is unchanged. A duplicate email fails the user insert; a missing
   * "public" role fails on `publicRole.id`.
   */
  function CreateAuthUser(db: Db, a: Attributes, freshId: Id, hash: string -> string): (o: Outcome<User>)
    requires freshId !in db.users && !HasProfile(db.profiles, freshId)
    ensures o.result.Err? ==> o.db == db
    ensures EmailTaken(db.users, a.email) ==> o.result == Err(DuplicateEmail)
    ensures !EmailTaken(db.users, a.email) && FindRole(db.roles, "public").None? ==> o.result == Err(NoPublicRole)
    ensures o.result.Ok? <==> !EmailTaken(db.users, a.email) && FindRole(db.roles, "public").Some?
    ensures o.result.Ok? ==>
      var u := o.result.value;
      && u.id == freshId && u.password == hash(a.password) && u.token == None
      && u.first_name == a.first_name && u.last_name == a.last_name
      && u.email == a.email && u.username == a.username
      && o.db.users == db.users[freshId := u]
      && o.db.profiles == db.profiles + [Profile(freshId, FindRole(db.roles, "public").value.id)]
      && o.db.roles == db.roles
  {
    if EmailTaken(db.users, a.email) then Outcome(Err(DuplicateEmail), db)
    else
      match FindRole(db.roles, "public")
      case None => Outcome(Err(NoPublicRole), db)
      case Some(role) =>
        var u := NewUser(a, freshId, hash);
        Outcome(Ok(u), Db(db.users[freshId := u], db.profiles + [Profile(u.id, role.id)], db.roles))
  }

  // ---------------------------------------------------------------------------
  // Generic update and delete (users.service.js:115-141)

  /** The fields an `update(obj)` call carries; `None` leaves a column as it is. */
  datatype Patch = Patch(first_name: Option<string>, last_name: Option<string>, email: Option<string>,
                         username: Option<string>, password: Option<string>, token: Option<Option<string>>)

  function Apply(u: User, p: Patch): (u': User)
    ensures u'.id == u.id
    ensures u'.first_name == (if p.first_name.Some? then p.first_name.value else u.first_name)
    ensures u'.last_name == (if p.last_name.Some? then p.last_name.value else u.last_name)
    ensures u'.email == (if p.email.Some? then p.email.value else u.email)
    ensures u'.username == (if p.username.Some? then p.username.value else u.username)
    ensures u'.password == (if p.password.Some? then p.password.value else u.password)
    ensures u'.token == (if p.token.Some? then p.token.value else u.token)
  {
    User(u.id,
         if p.first_name.Some? then p.first_name.value else u.first_name,
         if p.last_name.Some? then p.last_name.value else u.last_name,
         if p.email.Some? then p.email.value else u.email,
         if p.username.Some? then p.username.value else u.username,
         if p.password.Some? then p.password.value else u.password,
         if p.token.Some? then p.token.value else u.token)
  }

  /** Another user than `id` already has the email the patch sets. */
  predicate EmailClash(users: map<Id, User>, id: Id, p: Patch)
  {
    p.email.Some? && exists k :: k in users && k != id && users[k].email == p.email.value
  }

  /**
   * 404 for an unknown id; a patch that would duplicate another user's email is
   * refused; otherwise exactly the patched columns of that one row change.
   */
  function UpdateUser(db: Db, id: Id, p: Patch): (o: Outcome<User>)
    ensures o.result.Err? ==> o.db == db
    ensures id !in db.users ==> o.result == Err(NotFoundRow)
    ensures id in db.users && EmailClash(db.users, id, p) ==> o.result == Err(DuplicateEmail)
    ensures o.result.Ok? <==> id in db.users && !EmailClash(db.users, id, p)
    ensures o.result.Ok? ==>
      && o.result.value == Apply(db.users[id], p)
      && OthersUnchanged(db.users, o.db.users, id) && o.db.users[id] == o.result.value
      && o.db.profiles == db.profiles && o.db.roles == db.roles
  {
    if id !in db.users then Outcome(Err(NotFoundRow), db)
    else if EmailClash(db.users, id, p) then Outcome(Err(DuplicateEmail), db)
    else
      var u := Apply(db.users[id], p);
      Outcome(Ok(u), db.(users := db.users[id := u]))
  }

  /** 404 for an unknown id; otherwise that row, and only it, is gone and is returned. */
  function RemoveUser(db: Db, id: Id): (o: Outcome<User>)
    ensures o.result.Err? ==> o.db == db
    ensures o.result.Ok? <==> id in db.users
    ensures o.result.Err? ==> o.result.error == NotFoundRow
    ensures o.result.Ok? ==>
      && o.result.value == db.users[id]
      && id !in o.db.users && o.db.users.Keys == db.users.Keys - {id}
      && (forall k :: k in o.db.users ==> o.db.users[k] == db.users[k])
      && o.db.profiles == db.profiles && o.db.roles == db.roles
  {
    if id !in db.users then Outcome(Err(NotFoundRow), db)
    else Outcome(Ok(db.users[id]), db.(users := map k | k in db.users && k != id :: db.users[k]))
  }

  // ---------------------------------------------------------------------------
  // Token lifecycle (users.service.js:143-203)

  /** `Users.findOne({ where: { id, token } })` finds a row. */
  predicate TokenMatches(users: map<Id, User>, id: Id, token: string)
  {
    id in users && users[id].token == Some(token)
  }

  /** 404 for an unknown id; otherwise the user's token becomes `token` and nothing else changes. */
  function SetTokenUser(db: Db, id: Id, token: string): (o: Outcome<User>)
    ensures o.result.Err? ==> o.db == db
    ensures o.result.Ok? <==> id in db.users
    ensures o.result.Err? ==> o.result.error == NotFoundRow
    ensures o.result.Ok? ==>
      && o.result.value.token == Some(token) && SameButToken(db.users[id], o.result.value)
      && OthersUnchanged(db.users, o.db.users, id) && o.db.users[id] == o.result.value
      && o.db.profiles == db.profiles && o.db.roles == db.roles
  {
    if id !in db.users then Outcome(Err(NotFoundRow), db)
    else
      var u := db.users[id].(token := Some(token));
      Outcome(Ok(u), db.(users := db.users[id := u]))
  }

  /** 404 for an unknown id; otherwise the user's token is cleared and nothing else changes. */
  function RemoveTokenUser(db: Db, id: Id): (o: Outcome<()>)
    ensures o.result.Err? ==> o.db == db
    ensures o.result.Ok? <==> id in db.users
    ensures o.result.Err? ==> o.result.error == NotFoundRow
    ensures o.result.Ok? ==>
      && OthersUnchanged(db.users, o.db.users, id)
      && o.db.users[id].token == None && SameButToken(db.users[id], o.db.users[id])
      && o.db.profiles == db.profiles && o.db.roles == db.roles
  {
    if id !in db.users then Outcome(Err(NotFoundRow), db)
    else Outcome(Ok(()), db.(users := db.users[id := db.users[id].(token := None)]))
  }

  /** The three arguments `verifiedTokenUser` checks before it looks anything up. */
  predicate ArgsGiven(id: Option<Id>, token: Option<string>, exp: Option<int>)
  {
    Present(id) && Present(token) && PresentNum(exp)
  }

  /**
   * Checks, in this order: an id, a token and an expiry are given (400 "Bad
   * Request" each); the user holds exactly that token (400 "Invalid Token");
   * the expiry, in seconds, has not strictly passed (401 "Unauthorized"). On
   * success the token is consumed and nothing else changes; any failure leaves
   * the store as it was, the token included.
   */
  function VerifiedTokenUser(db: Db, id: Option<Id>, token: Option<string>, exp: Option<int>, now: int): (o: Outcome<User>)
    ensures o.result.Err? ==> o.db == db
    ensures !Present(id) ==> o.result == Err(NoIdProvided)
    ensures Present(id) && !Present(token) ==> o.result == Err(NoTokenProvided)
    ensures Present(id) && Present(token) && !PresentNum(exp) ==> o.result == Err(NoExpProvided)
    ensures ArgsGiven(id, token, exp) && !TokenMatches(db.users, id.value, token.value) ==> o.result == Err(InvalidToken)
    ensures o.result == Err(TokenExpired) <==>
              ArgsGiven(id, token, exp) && TokenMatches(db.users, id.value, token.value) && now > exp.value * 1000
    ensures o.result.Ok? <==>
              ArgsGiven(id, token, exp) && TokenMatches(db.users, id.value, token.value) && now <= exp.value * 1000
    ensures o.result.Ok? ==>
      && o.result.value.token == None && SameButToken(db.users[id.value], o.result.value)
      && OthersUnchanged(db.users, o.db.users, id.value) && o.db.users[id.value] == o.result.value
      && o.db.profiles == db.profiles && o.db.roles == db.roles
  {
    if !Present(id) then Outcome(Err(NoIdProvided), db)
    else if !Present(token) then Outcome(Err(NoTokenProvided), db)
    else if !PresentNum(exp) then Outcome(Err(NoExpProvided), db)
    else if !TokenMatches(db.users, id.value, token.value) then Outcome(Err(InvalidToken), db)
    else if now > exp.value * 1000 then Outcome(Err(TokenExpired), db)
    else
      var u := db.users[id.value].(token := None);
      Outcome(Ok(u), db.(users := db.users[id.value := u]))
  }

  // ---------------------------------------------------------------------------
  // Password rotation (users.service.js:205-221)

  /**
   * 400 without an id, 404 for an unknown id; otherwise the password becomes
   * `hash(newPassword)` and every other column, the token included, is kept.
   */
  function UpdatePassword(db: Db, id: Option<Id>, newPassword: string, hash: string -> string): (o: Outcome<User>)
    ensures o.result.Err? ==> o.db == db
    ensures !Present(id) ==> o.result == Err(NoIdProvided)
    ensures Present(id) && id.value !in db.users ==> o.result == Err(NotFoundRow)
    ensures o.result.Ok? <==> Present(id) && id.value in db.users
    ensures o.result.Ok? ==>
      && o.result.value == db.users[id.value].(password := hash(newPassword))
      && OthersUnchanged(db.users, o.db.users, id.value) && o.db.users[id.value] == o.result.value
      && o.db.profiles == db.profiles && o.db.roles == db.roles
  {
    if !Present(id) then Outcome(Err(NoIdProvided), db)
    else if id.value !in db.users then Outcome(Err(NotFoundRow), db)
    else
      var u := db.users[id.value].(password := hash(newPassword));
      Outcome(Ok(u), db.(users := db.users[id.value := u]))
  }

  // ---------------------------------------------------------------------------
  // Query options (users.service.js:10-41, 223-244)

  /**
   * `id` is an equality and `first_name`, `created_at` are `%v%` iLike
   * filters, each present exactly when the query gives a truthy value; paging
   * only when both `limit` and `offset` are truthy; always `distinct`.
   */
  function FindAndCountOptions(q: Query): (o: FindOptions)
    ensures o.distinct
    ensures o.limit.Some? <==> Given(q, "limit") && Given(q, "offset")
    ensures o.offset.Some? <==> Given(q, "limit") && Given(q, "offset")
    ensures o.limit.Some? ==> o.limit.value == q["limit"] && o.offset.value == q["offset"]
    ensures o.where.Keys <= {"id", "first_name", "created_at"}
    ensures ("id" in o.where <==> Given(q, "id")) && ("id" in o.where ==> o.where["id"] == Eq(q["id"]))
    ensures ("first_name" in o.where <==> Given(q, "first_name"))
         && ("first_name" in o.where ==> o.where["first_name"] == ILike(Substring(q["first_name"])))
    ensures ("created_at" in o.where <==> Given(q, "created_at"))
         && ("created_at" in o.where ==> o.where["created_at"] == ILike(Substring(q["created_at"])))
  {
    var w0: Where := map[];
    var w1 := if Given(q, "id") then w0["id" := Eq(q["id"])] else w0;
    var w2 := if Given(q, "first_name") then w1["first_name" := ILike(Substring(q["first_name"]))] else w1;
    var w3 := if Given(q, "created_at") then w2["created_at" := ILike(Substring(q["created_at"]))] else w2;
    Paginated(q, w3)
  }

  /** Votes of one user: a `user_id` equality when given; paging and `distinct` as above. */
  function AllVotesIdOptions(q: Query): (o: FindOptions)
    ensures o.distinct
    ensures o.limit.Some? <==> Given(q, "limit") && Given(q, "offset")
    ensures o.offset.Some? <==> Given(q, "limit") && Given(q, "offset")
    ensures o.limit.Some? ==> o.limit.value == q["limit"] && o.offset.value == q["offset"]
    ensures o.where.Keys <= {"user_id"}
    ensures ("user_id" in o.where <==> Given(q, "user_id")) && ("user_id" in o.where ==> o.where["user_id"] == Eq(q["user_id"]))
  {
    var w: Where := if Given(q, "user_id") then map["user_id" := Eq(q["user_id"])] else map[];
    Paginated(q, w)
  }
}
