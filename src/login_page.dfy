/** The login form's `submit`: ask the backend for a token, sign in with
    it, and go to the admin page or the home page by the token's role. */
module LoginPage {
  import opened Wrappers
  import opened Client
  import opened Browser
  import opened Session

  const InvalidCredentials := "Invalid credentials"
  const AdminRole := "ROLE_ADMIN"

  class Form {
    var error: string

    constructor ()
      ensures error == ""
    {
      error := "";
    }

    /** `submit`, given the response to `POST /api/auth/login` (its `token`
        field). The payload is decoded before `login` runs, so a token that
        does not decode is never stored. */
    method Submit(auth: Auth, store: LocalStorage, reply: Response<string>) returns (nav: Option<string>)
      modifies this, auth, store
      ensures nav.Some? <==> reply.Received? && auth.decode(reply.data).Some?
      ensures nav.Some? ==> error == "" && store.token == Some(reply.data)
      ensures nav.Some? ==> auth.Current() == State(true, Some(UserOf(auth.decode(reply.data).value)))
      ensures nav.Some? ==>
        nav.value == (if auth.decode(reply.data).value.role == Some(AdminRole) then "/admin" else "/")
      ensures nav.None? ==> error == InvalidCredentials
      ensures nav.None? ==> auth.Current() == old(auth.Current()) && store.token == old(store.token)
      ensures store.wishlist == old(store.wishlist)
    {
      error := "";
      if !reply.Received? {
        error := InvalidCredentials;
        return None;
      }
      var token := reply.data;
      var payload := auth.decode(token);
      if payload.None? {
        error := InvalidCredentials;
        return None;
      }
      var r := auth.Login(store, token);
      nav := Some(if payload.value.role == Some(AdminRole) then "/admin" else "/");
    }
  }
}
