/** `/api/auth`: signing up and logging in. */
module AuthController {
  import opened Wrappers
  import opened Tables
  import opened Entities
  import opened Store
  import opened Http

  const EmailInUse := "Email already in use"
  const DefaultRole := "ROLE_USER"
  /** What `Map.of` throws on a null value. */
  const NullPointer := "NullPointerException"

  /** What an issued token says: its subject and its "role" and "name" claims. */
  datatype Claims = Claims(subject: string, role: string, name: string)

  /** The claims of the token for `user`; None when `Map.of` throws because
      the role or the name is null. */
  function TokenClaims(subject: string, user: User): (c: Option<Claims>)
    ensures c.Some? <==> user.role.Some? && user.name.Some?
    ensures c.Some? ==> c.value.subject == subject && Some(c.value.role) == user.role &&
                        Some(c.value.name) == user.name
  {
    if user.role.Some? && user.name.Some? then Some(Claims(subject, user.role.value, user.name.value)) else None
  }

  /** The account `signup` builds: the default role and the encoded password. */
  function NewAccount(name: Option<string>, email: string, password: string, encode: string -> string): (u: User)
    ensures u.role == Some(DefaultRole) && u.passwordHash == Some(encode(password))
    ensures u.name == name && u.email == email
  {
    User(0, name, email, Some(encode(password)), Some(DefaultRole))
  }

  /** A signed-up user's token names them by email, with the default role;
      it exists exactly when they gave a name. */
  lemma SignupClaims(id: int, name: Option<string>, email: string, password: string, encode: string -> string)
    ensures var c := TokenClaims(email, NewAccount(name, email, password, encode).(id := id));
      (c.Some? <==> name.Some?) &&
      (c.Some? ==> c.value == Claims(email, DefaultRole, name.value))
  {
  }

  /** `signup`. `jwt` signs claims into a token. The request body is not
      validated: a null password makes the encoder throw before the save, and
      without a name the account is saved and then `Map.of` throws. */
  method Signup(db: Db, name: Option<string>, email: string, password: Option<string>,
                encode: string -> string, jwt: Claims -> string)
    returns (r: Reply<map<string, string>>)
    requires db.Valid()
    modifies db
    ensures db.Valid()
    ensures db.products == old(db.products) && db.cartItems == old(db.cartItems) && db.orders == old(db.orders)
    ensures EmailTaken(old(db.users), email) ==> r == BadRequest(ErrorBody(EmailInUse)) && unchanged(db)
    ensures !EmailTaken(old(db.users), email) && password.None? ==>
      r == ServerError(RawPasswordNull) && unchanged(db)
    ensures !EmailTaken(old(db.users), email) && password.Some? ==>
      db.users == old(db.users) + [NewAccount(name, email, password.value, encode).(id := old(db.nextUserId))] &&
      (name.None? ==> r == ServerError(NullPointer)) &&
      (name.Some? ==> r == Ok(map["token" := jwt(Claims(email, DefaultRole, name.value))])) &&
      db.nextUserId == old(db.nextUserId) + 1
    ensures CountersKeptBut(db, {UserKeys})
  {
    if EmailTaken(db.users, email) {
      return BadRequest(ErrorBody(EmailInUse));
    }
    if password.None? {
      return ServerError(RawPasswordNull);
    }
    var user := SaveNewUser(db, NewAccount(name, email, password.value, encode));
    var claims := TokenClaims(user.email, user);
    if claims.None? {
      return ServerError(NullPointer);
    }
    return Ok(map["token" := jwt(claims.value)]);
  }

  /** `login`. `authenticate` is the authentication manager's verdict on the
      credentials; a refusal ends the request with a 401 before any token. */
  method Login(db: Db, email: string, password: string,
               authenticate: (string, string) -> bool, jwt: Claims -> string)
    returns (r: Reply<map<string, string>>)
    ensures !authenticate(email, password) ==> r == Unauthorized
    ensures authenticate(email, password) && UserByEmail(db.users, email).None? ==> r == ServerError(NoValuePresent)
    ensures authenticate(email, password) && UserByEmail(db.users, email).Some? ==>
      var c := TokenClaims(email, db.users[UserByEmail(db.users, email).value]);
      (c.None? ==> r == ServerError(NullPointer)) &&
      (c.Some? ==> r == Ok(map["token" := jwt(c.value)]))
    ensures r.Ok? ==>
      authenticate(email, password) && UserByEmail(db.users, email).Some? &&
      var c := TokenClaims(email, db.users[UserByEmail(db.users, email).value]);
      c.Some? && r == Ok(map["token" := jwt(c.value)])
  {
    if !authenticate(email, password) {
      return Unauthorized;
    }
    var k := UserByEmail(db.users, email);
    if k.None? {
      return ServerError(NoValuePresent);
    }
    var claims := TokenClaims(email, db.users[k.value]);
    if claims.None? {
      return ServerError(NullPointer);
    }
    return Ok(map["token" := jwt(claims.value)]);
  }
}
