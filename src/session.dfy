/** `useAuth`: the signed-in state the browser derives from the stored JWT.
    Decoding a token's payload (`atob` and `JSON.parse` of its middle part)
    is a parameter that may fail. */
module Session {
  import opened Wrappers
  import opened Text
  import opened Browser

  /** The payload claims the app reads. */
  datatype Payload = Payload(sub: Option<string>, role: Option<string>, name: Option<string>)

  datatype SessionUser = SessionUser(email: Option<string>, role: string, name: string)

  const DefaultRole := "ROLE_USER"
  const MalformedToken := "malformed token"

  /** The signed-in user of a payload: its subject as the email, its role or
      ROLE_USER, its name or the empty string. */
  function UserOf(c: Payload): (u: SessionUser)
    ensures u.email == c.sub
    ensures Truthy(c.role) ==> u.role == c.role.value
    ensures !Truthy(c.role) ==> u.role == DefaultRole
    ensures Truthy(c.name) ==> u.name == c.name.value
    ensures !Truthy(c.name) ==> u.name == ""
  {
    SessionUser(c.sub, OrElse(c.role, DefaultRole), OrElse(c.name, ""))
  }

  datatype State = State(authenticated: bool, user: Option<SessionUser>)

  /** What `updateUserFromToken` derives from the stored token. */
  function Derived(token: Option<string>, decode: string -> Option<Payload>): State {
    State(
      Truthy(token),
      if Truthy(token) && decode(token.value).Some? then Some(UserOf(decode(token.value).value)) else None)
  }

  /** No token: signed out, with no user. */
  lemma NoTokenSignedOut(decode: string -> Option<Payload>)
    ensures Derived(None, decode) == State(false, None)
    ensures Derived(Some(""), decode) == State(false, None)
  {
  }

  /** A token that does not decode still counts as signed in, with no user. */
  lemma UndecodableStaysSignedIn(token: string, decode: string -> Option<Payload>)
    requires token != "" && decode(token).None?
    ensures Derived(Some(token), decode) == State(true, None)
  {
  }

  /** A decodable token signs in as the user its claims describe. */
  lemma DecodableSignsIn(token: string, decode: string -> Option<Payload>)
    requires token != "" && decode(token).Some?
    ensures Derived(Some(token), decode).authenticated
    ensures Derived(Some(token), decode).user == Some(UserOf(decode(token).value))
  {
  }

  class Auth {
    var authenticated: bool
    var user: Option<SessionUser>
    const decode: string -> Option<Payload>

    function Current(): State
      reads this
    {
      State(authenticated, user)
    }

    /** The hook's initial state: signed in iff a token is stored, no user yet. */
    constructor (store: LocalStorage, decode: string -> Option<Payload>)
      ensures authenticated == Truthy(store.token) && user == None
      ensures this.decode == decode
    {
      authenticated := Truthy(store.token);
      user := None;
      this.decode := decode;
    }

    /** `updateUserFromToken`, run on mount. */
    method Refresh(store: LocalStorage)
      modifies this
      ensures Current() == Derived(store.token, decode)
    {
      var token := store.token;
      authenticated := Truthy(token);
      if Truthy(token) {
        var payload := decode(token.value);
        if payload.Some? {
          user := Some(UserOf(payload.value));
        } else {
          user := None;
        }
      } else {
        user := None;
      }
    }

    /** `login(token)`: the token is stored first; a token that does not
        decode then throws, leaving the state as it was. */
    method Login(store: LocalStorage, token: string) returns (r: Result<()>)
      modifies this, store
      ensures store.token == Some(token) && store.wishlist == old(store.wishlist)
      ensures r.Success? <==> decode(token).Some?
      ensures r.Success? ==> Current() == State(true, Some(UserOf(decode(token).value)))
      ensures r.Failure? ==> Current() == old(Current())
      ensures r.Success? && token != "" ==> Current() == Derived(store.token, decode)
    {
      store.token := Some(token);
      var payload := decode(token);
      if payload.None? {
        return Failure(MalformedToken);
      }
      user := Some(UserOf(payload.value));
      authenticated := true;
      r := Success(());
    }

    /** `logout()`. */
    method Logout(store: LocalStorage)
      modifies this, store
      ensures store.token == None && store.wishlist == old(store.wishlist)
      ensures Current() == State(false, None) == Derived(store.token, decode)
    {
      store.token := None;
      authenticated := false;
      user := None;
    }
  }
}
