# Credential lifecycle of the paracuando backend, in Dafny

This project models the user-account core of `UsersService`
(`services/users.service.js`) and the query-option builder of
`CitiesService` (`services/cities.service.js`), and proves properties of the model.

`UsersService` provisions accounts (a user row plus a profile that gives it the
"public" role), issues, revokes and verifies single-use tokens, rotates
passwords, updates and deletes users, and reads users through three scoped
views. Every write opens a transaction, runs its row operations, and either
commits or rolls back and rethrows. The list endpoints turn a request query
into a Sequelize options record (`where`, `limit`, `offset`, `distinct`).

Layout:

- `wrappers.dfy`, `js.dfy`, `errors.dfy`: `Option`; the JavaScript
  semantics the services rely on (truthiness, `${v}` in a template literal, a
  query object); `CustomError` and the other errors that escape, and `Result`.
- `listing.dfy` (module `Listing`): the options record, the shared pagination
  rule, and an abstract `findAndCountAll` over a table held as a sequence of rows.
- `users.dfy` (module `Users`): rows (`User`, `Profile`, `Role`), the store
  `Db`, the store invariant, the error constants, the lookups, every write
  operation as a pure transition `Db -> Outcome` (result plus the new store),
  and the users/votes option builders.
- `users_properties.dfy` (module `UsersProperties`): each write keeps the
  invariant; single use, latest token wins, inclusive expiry, idempotent
  revoke, atomic provisioning, and an end-to-end sign-up scenario.
- `users_store.dfy` (module `UsersStore`): class `Store` with the `users`,
  `profiles` and `roles` tables as fields. Its methods do the source's writes
  step by step. A transaction is a snapshot taken at the start, and rollback
  restores that snapshot. Each method is proved to produce the result and
  state of the `Users` transition with the same name. Class `UserRequest` is
  the caller's object, whose `id` and `password` `createAuthUser` overwrites.
- `cities.dfy` (module `Cities`): `CitiesService.findAndCount`'s options.

Abstractions:

- The password hasher is a parameter `hash: string -> string`.
- The UUID generator is a parameter `freshId` that no stored user has.
- `Date.now()` is a parameter `now`, in milliseconds.
- The scopes' field lists are a parameter `project: (Scope, User) -> V`.
- The `iLike` collation is a parameter `like`.

Behaviour of the code that the model keeps, although a reader might expect
otherwise:

- A token that does not match is `400 "Invalid Token"`, not 401.
- Expiry is inclusive: at exactly `exp * 1000` ms a matching token is accepted.
- An expired token stays stored.
- `setTokenUser`, `verifiedTokenUser`, `updateUser` and `updatePassword`
  return the row as updated. So `verifiedTokenUser` returns the user with its
  token already cleared. `removeUser` returns the row as it was before the
  delete. `removeTokenUser` returns nothing.
- `updateUser` stores a patched password as given, without hashing it.

## Model

| member | source | states |
|---|---|---|
| `Listing.Paginated` | services/users.service.js:15-19 | `limit` and `offset` are both set, to the query's values, exactly when both are truthy; `distinct` is set |
| `Listing.Substring` | services/users.service.js:28 | the iLike pattern is `%`, the template-literal text of the value, `%` |
| `Listing.Filter` | services/users.service.js:39 | every row kept satisfies every `where` condition, and each row that does is kept exactly as many times as the table holds it, so the length is the number of matching rows |
| `Listing.FindAndCountAll` | services/users.service.js:39-40 | `count` is the number of matching rows whatever the window; the page is the matches from `min(offset, count)` on, `min(limit, rest)` of them, so every returned row matches; without a window all matches are returned |
| `Listing.FilterEmptyWhere` | services/cities.service.js:11-13 | an empty `where` keeps the whole table, in order |
| `Listing.EmptyOptionsListAll` | services/cities.service.js:11-33 | options with empty `where` and no window count and return the whole table |
| `Users.GetAuthUserOr404` | services/users.service.js:78-84 | found iff the id is stored, then the `auth_flow` projection of that row; else 404 "Not Found" |
| `Users.GetPublicUser` | services/users.service.js:86-92 | found iff the id is stored, then the `view_public` projection; else 404 "Not found" |
| `Users.GetSameUser` | services/users.service.js:94-100 | found iff the id is stored, then the `view_same_user` projection; else 404 "Not found" |
| `Users.GetUser` | services/users.service.js:102-106 | found iff the id is stored, then that row (default scope); else 404 "Not Found" |
| `Users.FindUserByEmailOr404` | services/users.service.js:108-113 | 400 without an email, 404 when no user has it, success iff some user has it and then that user |
| `Users.FindRole` | services/users.service.js:60-63 | a role is found iff one has the name, and it is the first such row |
| `Users.NewUser` | services/users.service.js:46-58 | the inserted row has the fresh id, the hashed password, the caller's names/email/username and no token |
| `Users.CreateAuthUser` | services/users.service.js:43-76 | all or nothing: a duplicate email or a missing "public" role leaves the store unchanged with that error; success iff neither, then exactly one user (fresh id, `hash(password)`, no token) and one profile on the "public" role are added |
| `Users.Apply` | services/users.service.js:120 | each column takes the patch's value when the patch has one and keeps its own otherwise; the id never changes |
| `Users.UpdateUser` | services/users.service.js:115-127 | 404 for an unknown id, a refused duplicate email, otherwise only that row changes, to the patched row; failures leave the store unchanged |
| `Users.RemoveUser` | services/users.service.js:129-141 | 404 for an unknown id; otherwise exactly that row is gone and is returned, other tables untouched |
| `Users.SetTokenUser` | services/users.service.js:143-155 | 404 for an unknown id with no change; otherwise only that user's token changes, to the new one |
| `Users.RemoveTokenUser` | services/users.service.js:157-168 | 404 for an unknown id with no change; otherwise only that user's token changes, to null |
| `Users.VerifiedTokenUser` | services/users.service.js:170-203 | 400 for a missing id, then token, then exp; then 400 "Invalid Token" unless the user holds that token; 401 iff it matches and `now > exp*1000`; success iff it matches and `now <= exp*1000`, consuming the token and nothing else; failures change nothing |
| `Users.UpdatePassword` | services/users.service.js:205-221 | 400 without an id, 404 for an unknown id; otherwise only that user's password changes, to `hash(newPassword)`, token kept |
| `Users.FindAndCountOptions` | services/users.service.js:10-37 | `id` equality, `first_name`/`created_at` `%v%` iLike, each iff truthy in the query; no other filter; paging iff limit and offset truthy; `distinct` |
| `Users.AllVotesIdOptions` | services/users.service.js:223-240 | `user_id` equality iff truthy; no other filter; paging iff limit and offset truthy; `distinct` |
| `UsersProperties.CreateAuthUserKeepsInvariant` | services/users.service.js:43-76 | provisioning keeps every user with exactly one profile, every profile on an existing role, and emails unique |
| `UsersProperties.ExactlyOneProfile` | services/users.service.js:65-68 | under the store invariant each user has exactly one profile |
| `UsersProperties.UpdateUserKeepsInvariant` | services/users.service.js:115-127 | updating keeps emails unique and the invariant |
| `UsersProperties.RemoveUserKeepsInvariant` | services/users.service.js:129-141 | deleting a user keeps the invariant |
| `UsersProperties.SetTokenUserKeepsInvariant` | services/users.service.js:143-155 | issuing a token keeps the invariant |
| `UsersProperties.RemoveTokenUserKeepsInvariant` | services/users.service.js:157-168 | revoking keeps the invariant |
| `UsersProperties.VerifiedTokenUserKeepsInvariant` | services/users.service.js:170-203 | verifying keeps the invariant |
| `UsersProperties.UpdatePasswordKeepsInvariant` | services/users.service.js:205-221 | password rotation keeps the invariant |
| `UsersProperties.VerifyIsSingleUse` | services/users.service.js:178-198 | after a successful verify, the same token verifies as "Invalid Token" at any later time |
| `UsersProperties.ExpiryBoundary` | services/users.service.js:190-195 | a matching token is accepted at exactly `exp*1000` ms and rejected as expired one ms later |
| `UsersProperties.ExpiredTokenStaysOutstanding` | services/users.service.js:190-201 | after an expiry failure the token is still stored and still matches |
| `UsersProperties.LatestTokenWins` | services/users.service.js:143-183 | after issuing A then B, A reports "Invalid Token" and B is accepted iff not expired |
| `UsersProperties.RevokeIsIdempotent` | services/users.service.js:157-168 | revoking twice succeeds both times, the second changes nothing, the token is null |
| `UsersProperties.PasswordRotationKeepsToken` | services/users.service.js:205-214 | rotating the password leaves an outstanding token verifiable |
| `UsersProperties.NoPublicRoleWritesNothing` | services/users.service.js:60-74 | with no role named "public", provisioning fails and the store is unchanged |
| `UsersProperties.SignUpThenVerifyTwice` | services/users.service.js:43-203 | sign-up returns the fresh id and hashed password and links a "public" profile; a token issued then verified returns the user with the token cleared; a second verify is "Invalid Token" |
| `UsersStore.Store.Rollback` | services/users.service.js:72-75 | every write since the transaction began is undone |
| `UsersStore.Store.CreateAuthUser` | services/users.service.js:43-76 | overwrites the request's id and password in place (also on failure); result and new tables are `Users.CreateAuthUser`'s; keeps the invariant |
| `UsersStore.Store.UpdateUser` | services/users.service.js:115-127 | result and new tables are `Users.UpdateUser`'s; keeps the invariant |
| `UsersStore.Store.RemoveUser` | services/users.service.js:129-141 | result and new tables are `Users.RemoveUser`'s; keeps the invariant |
| `UsersStore.Store.SetTokenUser` | services/users.service.js:143-155 | result and new tables are `Users.SetTokenUser`'s; keeps the invariant |
| `UsersStore.Store.RemoveTokenUser` | services/users.service.js:157-168 | result and new tables are `Users.RemoveTokenUser`'s; keeps the invariant |
| `UsersStore.Store.VerifiedTokenUser` | services/users.service.js:170-203 | result and new tables are `Users.VerifiedTokenUser`'s; keeps the invariant |
| `UsersStore.Store.UpdatePassword` | services/users.service.js:205-221 | result and new tables are `Users.UpdatePassword`'s; keeps the invariant |
| `UsersStore.IssueTwiceThenVerify` | services/users.service.js:143-198 | through the store: issuing A and then B both succeed and store that token; A is then refused, B verifies once and then is refused |
| `Cities.FindAndCountOptions` | services/cities.service.js:10-31 | `id` equality iff truthy, `%name%` iLike iff truthy, no other filter; paging iff limit and offset truthy; always `distinct` |
| `Cities.EmptyQueryListsAll` | services/cities.service.js:11-31 | an empty query gives empty `where`, no window, `distinct`, and lists the whole table with its count |
| `Cities.ZeroOffsetDisablesPaging` | services/cities.service.js:15-19 | an offset of 0 switches paging off, so every match is returned |
| `Cities.CountIgnoresPaging` | services/cities.service.js:15-33 | two queries that differ only in limit/offset give the same count |

## Left out

- The field lists of the `auth_flow`, `view_public` and `view_same_user` scopes are defined in `database/models`, which is not part of this model. Projections are a parameter, so nothing is claimed about which fields each view hides.
- bcrypt hashing (`libs/bcrypt` is not part of this model) is an arbitrary function `hash`. Only "the stored value is `hash(plaintext)`" is stated. A failure of the hasher is not modelled.
- UUID generation is a caller-supplied `freshId` that no user and no profile already has.
- Wall-clock time is the input `now`.
- JavaScript numbers are integers here: NaN and fractional `exp` values are not modelled.
- Concurrency and transaction isolation are not modelled. Two concurrent verifications of one token both succeeding, and `Roles.findOne` running outside the transaction, need an interleaving model. Each call runs alone, and a transaction is "on error, the tables equal the snapshot".
- Persistence failures other than a duplicate email are not modelled. That includes connection loss, model validations and foreign-key errors.
- Users.CreateAuthUser: returns the persisted row. The instance Sequelize returns may also carry request attributes that were not saved, such as a caller-supplied token.
- Users.UpdateUser: the patch covers the user columns except `id` and `created_at`. Unknown keys and changes of the primary key are not modelled.
- Users.RemoveUser: only the Users row is deleted, as in the source. A cascade to Profiles, if the database has one, is not modelled.
- Users.GetUser: the write operations' own `findByPk` reads use the default scope and return full rows. Any default-scope projection of the instances they return is not modelled.
- `created_at` is not a column of `User`. Its filter is modelled only as an entry of the options record.
- Listing.FindAndCountAll: a `limit` or `offset` that is not a non-negative number gives `None`. How the database treats such values is not modelled. `distinct` has no effect, because no query joins tables here.
- Users.FindUserByEmailOr404: requires unique emails. The database's unique constraint on `email` guarantees this, and the store invariant keeps it. Without it, which of several users `findOne` returns is not modelled.
- Missing request fields (`undefined` first name, email, …) are not modelled. `Attributes` holds strings.
- `CustomError` internals (`utils/helpers` is not part of this model) are not modelled. Only the message, status and name each throw site passes are kept.
- `docs/routesDocs/roles.docs.js` is an OpenAPI comment with no executable logic.
- async/await plumbing and the HTTP layer are not modelled.
