/** `App`: the route table and the `ProtectedRoute` wrapper that decides,
    from the session, whether a page renders or redirects. */
module Routes {
  import opened Wrappers
  import opened Session

  datatype Outcome = Render | Redirect(to: string)

  /** `ProtectedRoute`: sign-in first, then the role list, skipped when no
      list is given or no user could be decoded. */
  function Guard(authenticated: bool, user: Option<SessionUser>, roles: Option<seq<string>>): Outcome {
    if !authenticated then Redirect("/login")
    else if roles.Some? && user.Some? && user.value.role !in roles.value then Redirect("/")
    else Render
  }

  /** A guarded page renders exactly when the caller is signed in and either
      no roles are asked for, no user was decoded, or the user's role is
      among them; an unauthenticated caller is always sent to sign in. */
  lemma GuardRendersIff(authenticated: bool, user: Option<SessionUser>, roles: Option<seq<string>>)
    ensures Guard(authenticated, user, roles) == Render <==>
      authenticated && (roles.None? || user.None? || user.value.role in roles.value)
    ensures !authenticated ==> Guard(authenticated, user, roles) == Redirect("/login")
    ensures Guard(authenticated, user, roles) != Render ==>
      Guard(authenticated, user, roles) in {Redirect("/login"), Redirect("/")}
  {
  }

  /** How a route is wrapped. */
  datatype Access = Open | SignedIn | RolesIn(roles: seq<string>)

  const AdminOnly := RolesIn(["ROLE_ADMIN"])

  /** The `<Routes>` table, in declaration order. */
  const Table: seq<(string, Access)> := [
    ("/", Open),
    ("/shop", Open),
    ("/product/:id", Open),
    ("/cart", SignedIn),
    ("/checkout", SignedIn),
    ("/orders", SignedIn),
    ("/orders/:id", SignedIn),
    ("/order-confirmation/:id", SignedIn),
    ("/profile", SignedIn),
    ("/wishlist", Open),
    ("/admin", AdminOnly),
    ("/login", Open),
    ("/signup", Open),
    ("*", Open)
  ]

  /** The wrapping of the route declared with `pattern`, if there is one. */
  function AccessOf(pattern: string): Option<Access> {
    AccessIn(Table, pattern)
  }

  function AccessIn(t: seq<(string, Access)>, pattern: string): Option<Access> {
    if t == [] then None
    else if t[0].0 == pattern then Some(t[0].1)
    else AccessIn(t[1..], pattern)
  }

  /** A pattern the table does not declare has no wrapping. */
  lemma {:induction false} AccessInNone(t: seq<(string, Access)>, pattern: string)
    requires forall j :: 0 <= j < |t| ==> t[j].0 != pattern
    ensures AccessIn(t, pattern) == None
  {
    if t != [] {
      AccessInNone(t[1..], pattern);
    }
  }

  /** The first route declared with `pattern` decides. */
  lemma {:induction false} AccessAt(t: seq<(string, Access)>, pattern: string, i: nat)
    requires i < |t| && t[i].0 == pattern
    requires forall j :: 0 <= j < i ==> t[j].0 != pattern
    ensures AccessIn(t, pattern) == Some(t[i].1)
  {
    if i > 0 {
      AccessAt(t[1..], pattern, i - 1);
    }
  }

  /** What a caller in `state` gets on a route wrapped as `access`. */
  function Visit(access: Access, state: State): Outcome {
    match access
    case Open => Render
    case SignedIn => Guard(state.authenticated, state.user, None)
    case RolesIn(roles) => Guard(state.authenticated, state.user, Some(roles))
  }

  /** `/admin` asks for ROLE_ADMIN; the shop, wishlist, login and signup
      pages are not wrapped. */
  lemma GuardTable()
    ensures AccessOf("/admin") == Some(AdminOnly)
    ensures AccessOf("/shop") == Some(Open) && AccessOf("/wishlist") == Some(Open)
    ensures AccessOf("/login") == Some(Open) && AccessOf("/signup") == Some(Open)
    ensures AccessOf("/cart") == Some(SignedIn) && AccessOf("/checkout") == Some(SignedIn)
  {
    AccessAt(Table, "/shop", 1);
    AccessAt(Table, "/cart", 3);
    AccessAt(Table, "/checkout", 4);
    AccessAt(Table, "/wishlist", 9);
    AccessAt(Table, "/admin", 10);
    AccessAt(Table, "/login", 11);
    AccessAt(Table, "/signup", 12);
  }

  /** On `/admin`, a signed-in user whose decoded role is not ROLE_ADMIN is
      sent home, while a signed-in caller whose token did not decode is let
      through. */
  lemma AdminRoute(state: State)
    requires state.authenticated
    ensures state.user.Some? && state.user.value.role != "ROLE_ADMIN" ==>
      Visit(AdminOnly, state) == Redirect("/")
    ensures state.user.None? ==> Visit(AdminOnly, state) == Render
  {
  }
}
