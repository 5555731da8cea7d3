/** `/api/profile`: the signed-in user's own account. */
module ProfileController {
  import opened Wrappers
  import opened Tables
  import opened Entities
  import opened Store
  import opened Http

  const UserNotFound := "User not found"
  const WrongPassword := "Current password is incorrect"
  const PasswordChanged := map["message" := "Password changed successfully"]

  /** The user as the profile endpoints answer it: without its password hash. */
  function Hidden(u: User): (v: User)
    ensures v.passwordHash.None?
    ensures v.id == u.id && v.name == u.name && v.email == u.email && v.role == u.role
  {
    u.(passwordHash := None)
  }

  /** `getCurrentUser`. The hash is cleared in the answer only; the stored
      user keeps it. */
  method GetCurrentUser(db: Db, email: string) returns (r: Reply<User>)
    ensures UserByEmail(db.users, email).None? ==> r == ServerError(UserNotFound)
    ensures UserByEmail(db.users, email).Some? ==> r == Ok(Hidden(db.users[UserByEmail(db.users, email).value]))
    ensures r.Ok? ==> r.value.passwordHash.None? && r.value.email == email
  {
    var k := UserByEmail(db.users, email);
    if k.None? {
      return ServerError(UserNotFound);
    }
    return Ok(Hidden(db.users[k.value]));
  }

  /** `updateProfile`. A new email already held by another account is
      refused with an empty 400; keeping one's own email is allowed. */
  method UpdateProfile(db: Db, email: string, name: Option<string>, newEmail: string) returns (r: Reply<User>)
    requires db.Valid()
    modifies db
    ensures db.Valid()
    ensures db.products == old(db.products) && db.cartItems == old(db.cartItems) && db.orders == old(db.orders)
    ensures UserByEmail(old(db.users), email).None? ==> r == ServerError(UserNotFound) && unchanged(db)
    ensures UserByEmail(old(db.users), email).Some? ==>
      var i := UserByEmail(old(db.users), email).value;
      (email != newEmail && EmailTaken(old(db.users), newEmail) ==> r == BadRequest(map[]) && unchanged(db)) &&
      (email == newEmail || !EmailTaken(old(db.users), newEmail) ==>
        db.users == old(db.users)[i := old(db.users)[i].(name := name, email := newEmail)] &&
        r == Ok(Hidden(db.users[i])))
    ensures CountersKept(db)
  {
    var k := UserByEmail(db.users, email);
    if k.None? {
      return ServerError(UserNotFound);
    }
    var i := k.value;
    if db.users[i].email != newEmail && EmailTaken(db.users, newEmail) {
      return BadRequest(map[]);
    }
    var updated := db.users[i].(name := name, email := newEmail);
    forall j | 0 <= j < |db.users| && j != i ensures db.users[j].email != newEmail {
      if newEmail == db.users[i].email {
        assert j < i || i < j;
      }
    }
    ReplaceKeysAscend(db.users, UserKey, db.nextUserId, i, updated);
    KeysAfterReplace(db.users, UserKey, i, updated);
    db.users := db.users[i := updated];
    return Ok(Hidden(updated));
  }

  /** `changePassword`. `matches` and `encode` are the password encoder's;
      the request body is not validated, so either password may be null, and
      the encoder throws on a null one. */
  method ChangePassword(db: Db, email: string, currentPassword: Option<string>, newPassword: Option<string>,
                        matches: (string, Option<string>) -> bool, encode: string -> string)
    returns (r: Reply<map<string, string>>)
    requires db.Valid()
    modifies db
    ensures db.Valid()
    ensures db.products == old(db.products) && db.cartItems == old(db.cartItems) && db.orders == old(db.orders)
    ensures UserByEmail(old(db.users), email).None? ==> r == ServerError(UserNotFound) && unchanged(db)
    ensures UserByEmail(old(db.users), email).Some? ==>
      var i := UserByEmail(old(db.users), email).value;
      (currentPassword.None? ==> r == ServerError(RawPasswordNull) && unchanged(db)) &&
      (currentPassword.Some? && !matches(currentPassword.value, old(db.users)[i].passwordHash) ==>
        r == BadRequest(ErrorBody(WrongPassword)) && unchanged(db)) &&
      (currentPassword.Some? && matches(currentPassword.value, old(db.users)[i].passwordHash) ==>
        (newPassword.None? ==> r == ServerError(RawPasswordNull) && unchanged(db)) &&
        (newPassword.Some? ==>
          r == Ok(PasswordChanged) &&
          db.users == old(db.users)[i := old(db.users)[i].(passwordHash := Some(encode(newPassword.value)))]))
    ensures CountersKept(db)
  {
    var k := UserByEmail(db.users, email);
    if k.None? {
      return ServerError(UserNotFound);
    }
    var i := k.value;
    if currentPassword.None? {
      return ServerError(RawPasswordNull);
    }
    if !matches(currentPassword.value, db.users[i].passwordHash) {
      return BadRequest(ErrorBody(WrongPassword));
    }
    if newPassword.None? {
      return ServerError(RawPasswordNull);
    }
    var updated := db.users[i].(passwordHash := Some(encode(newPassword.value)));
    ReplaceKeysAscend(db.users, UserKey, db.nextUserId, i, updated);
    KeysAfterReplace(db.users, UserKey, i, updated);
    db.users := db.users[i := updated];
    return Ok(PasswordChanged);
  }
}
