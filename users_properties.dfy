/**
 * Properties of the credential lifecycle that relate several operations, and
 * the store invariant each write operation keeps.
 */
module UsersProperties {
  import opened Wrappers
  import opened Errors
  import opened Users

  // ---------------------------------------------------------------------------
  // The store invariant is kept by every write

  /** Under the invariant, each user has exactly one profile. */
  lemma ExactlyOneProfile(db: Db, k: Id)
    requires Invariant(db) && k in db.users
    ensures exists i :: 0 <= i < |db.profiles| && db.profiles[i].user_id == k
                     && forall j :: 0 <= j < |db.profiles| && db.profiles[j].user_id == k ==> j == i
  {
  }

  lemma CreateAuthUserKeepsInvariant(db: Db, a: Attributes, freshId: Id, hash: string -> string)
    requires Invariant(db) && freshId !in db.users && !HasProfile(db.profiles, freshId)
    ensures Invariant(CreateAuthUser(db, a, freshId, hash).db)
  {
    var o := CreateAuthUser(db, a, freshId, hash);
    if o.result.Ok? {
      var db' := o.db;
      var role := FindRole(db.roles, "public").value;
      var n := |db.profiles|;
      assert db'.profiles[n] == Profile(freshId, role.id);
      forall k | k in db'.users ensures HasProfile(db'.profiles, k) {
        if k == freshId {
          assert db'.profiles[n].user_id == k;
        } else {
          var i :| 0 <= i < n && db.profiles[i].user_id == k;
          assert db'.profiles[i] == db.profiles[i];
        }
      }
      forall i | 0 <= i < |db'.profiles| ensures RoleExists(db'.roles, db'.profiles[i].role_id) {
        if i < n {
          assert db'.profiles[i] == db.profiles[i];
        }
      }
    }
  }

  lemma UpdateUserKeepsInvariant(db: Db, id: Id, p: Patch)
    requires Invariant(db)
    ensures Invariant(UpdateUser(db, id, p).db)
  {
  }

  lemma RemoveUserKeepsInvariant(db: Db, id: Id)
    requires Invariant(db)
    ensures Invariant(RemoveUser(db, id).db)
  {
  }

  lemma SetTokenUserKeepsInvariant(db: Db, id: Id, token: string)
    requires Invariant(db)
    ensures Invariant(SetTokenUser(db, id, token).db)
  {
  }

  lemma RemoveTokenUserKeepsInvariant(db: Db, id: Id)
    requires Invariant(db)
    ensures Invariant(RemoveTokenUser(db, id).db)
  {
  }

  lemma VerifiedTokenUserKeepsInvariant(db: Db, id: Option<Id>, token: Option<string>, exp: Option<int>, now: int)
    requires Invariant(db)
    ensures Invariant(VerifiedTokenUser(db, id, token, exp, now).db)
  {
  }

  lemma UpdatePasswordKeepsInvariant(db: Db, id: Option<Id>, newPassword: string, hash: string -> string)
    requires Invariant(db)
    ensures Invariant(UpdatePassword(db, id, newPassword, hash).db)
  {
  }

  // ---------------------------------------------------------------------------
  // Token lifecycle

  /** A verified token is consumed: verifying it again reports "Invalid Token". */
  lemma VerifyIsSingleUse(db: Db, id: Id, token: string, exp: int, now: int, later: int)
    requires VerifiedTokenUser(db, Some(id), Some(token), Some(exp), now).result.Ok?
    ensures VerifiedTokenUser(VerifiedTokenUser(db, Some(id), Some(token), Some(exp), now).db,
                              Some(id), Some(token), Some(exp), later).result == Err(InvalidToken)
  {
  }

  /** The expiry is inclusive: at exactly `exp * 1000` milliseconds a matching token is still accepted. */
  lemma ExpiryBoundary(db: Db, id: Id, token: string, exp: int)
    requires TokenMatches(db.users, id, token) && id != "" && token != "" && exp != 0
    ensures VerifiedTokenUser(db, Some(id), Some(token), Some(exp), exp * 1000).result.Ok?
    ensures VerifiedTokenUser(db, Some(id), Some(token), Some(exp), exp * 1000 + 1).result == Err(TokenExpired)
  {
  }

  /** A token rejected as expired stays stored and still matches. */
  lemma ExpiredTokenStaysOutstanding(db: Db, id: Id, token: string, exp: int, now: int)
    requires VerifiedTokenUser(db, Some(id), Some(token), Some(exp), now).result == Err(TokenExpired)
    ensures TokenMatches(VerifiedTokenUser(db, Some(id), Some(token), Some(exp), now).db.users, id, token)
  {
  }

  /**
   * Only the latest issued token verifies: after issuing `a` then `b`, `a`
   * reports "Invalid Token" and `b` is accepted until it expires.
   */
  lemma LatestTokenWins(db: Db, id: Id, a: string, b: string, exp: int, now: int)
    requires id in db.users && id != "" && a != "" && b != "" && a != b && exp != 0
    ensures var db2 := SetTokenUser(SetTokenUser(db, id, a).db, id, b).db;
      && VerifiedTokenUser(db2, Some(id), Some(a), Some(exp), now).result == Err(InvalidToken)
      && (VerifiedTokenUser(db2, Some(id), Some(b), Some(exp), now).result.Ok? <==> now <= exp * 1000)
  {
  }

  /** Revoking twice succeeds both times and leaves the same store, with no token. */
  lemma RevokeIsIdempotent(db: Db, id: Id)
    requires id in db.users
    ensures var o1 := RemoveTokenUser(db, id);
      var o2 := RemoveTokenUser(o1.db, id);
      && o1.result.Ok? && o2.result.Ok? && o2.db == o1.db && o2.db.users[id].token == None
  {
  }

  /** Rotating the password keeps an outstanding token verifiable. */
  lemma PasswordRotationKeepsToken(db: Db, id: Id, newPassword: string, hash: string -> string,
                                   token: string)
    requires TokenMatches(db.users, id, token) && id != ""
    ensures TokenMatches(UpdatePassword(db, Some(id), newPassword, hash).db.users, id, token)
  {
  }

  // ---------------------------------------------------------------------------
  // Provisioning

  /** Without a "public" role nothing is written, whatever the request. */
  lemma NoPublicRoleWritesNothing(db: Db, a: Attributes, freshId: Id, hash: string -> string)
    requires freshId !in db.users && !HasProfile(db.profiles, freshId)
    requires forall i :: 0 <= i < |db.roles| ==> db.roles[i].name != "public"
    ensures CreateAuthUser(db, a, freshId, hash).result.Err?
    ensures CreateAuthUser(db, a, freshId, hash).db == db
  {
  }

  /**
   * Sign up, issue a token, verify it, verify it again: the account is created
   * with a hashed password and a profile on the "public" role, the first
   * verify returns the user and clears the token, the second is refused.
   */
  lemma SignUpThenVerifyTwice(db: Db, a: Attributes, freshId: Id, hash: string -> string,
                              exp: int, now: int, later: int)
    requires Invariant(db) && freshId !in db.users && !HasProfile(db.profiles, freshId) && freshId != ""
    requires !EmailTaken(db.users, a.email)
    requires exists i :: 0 <= i < |db.roles| && db.roles[i].name == "public"
    requires exp != 0 && now <= exp * 1000
    ensures var created := CreateAuthUser(db, a, freshId, hash);
      var issued := SetTokenUser(created.db, freshId, "tok-1");
      var first := VerifiedTokenUser(issued.db, Some(freshId), Some("tok-1"), Some(exp), now);
      var second := VerifiedTokenUser(first.db, Some(freshId), Some("tok-1"), Some(exp), later);
      && created.result.Ok? && created.result.value.id == freshId
      && created.result.value.password == hash(a.password)
      && Profile(freshId, FindRole(db.roles, "public").value.id) in created.db.profiles
      && first.result.Ok? && first.result.value.id == freshId && first.result.value.token == None
      && second.result == Err(InvalidToken)
  {
    var created := CreateAuthUser(db, a, freshId, hash);
    assert created.db.profiles[|db.profiles|] == Profile(freshId, FindRole(db.roles, "public").value.id);
  }
}
