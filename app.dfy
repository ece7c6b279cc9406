/** The application shell: the session flag and user, the browser's key/value storage that keeps
    the token between visits, and the route table that guards every page but the login page. */
module AppShell {
  import opened Api

  const TokenKey := "token"
  const UserKey := "user"

  /** `localStorage.getItem('token')` is truthy: present and not the empty string. */
  predicate HasToken(storage: map<string, string>)
  {
    TokenKey in storage && storage[TokenKey] != ""
  }

  /** The storage after `handleLogin(user)`; `encode` stands for `JSON.stringify`. */
  function SignIn(storage: map<string, string>, user: UserData, encode: UserData -> string): (r: map<string, string>)
    ensures TokenKey in r && r[TokenKey] == user.token
    ensures UserKey in r && r[UserKey] == encode(user)
    ensures forall k :: k != TokenKey && k != UserKey ==> (k in r <==> k in storage)
    ensures forall k :: k != TokenKey && k != UserKey && k in storage ==> r[k] == storage[k]
  {
    storage[TokenKey := user.token][UserKey := encode(user)]
  }

  /** The storage after `handleLogout`. */
  function SignOut(storage: map<string, string>): (r: map<string, string>)
    ensures TokenKey !in r && UserKey !in r
    ensures forall k :: k != TokenKey && k != UserKey ==> (k in r <==> k in storage)
    ensures forall k :: k in r ==> r[k] == storage[k]
  {
    storage - {TokenKey, UserKey}
  }

  /** Logging out after logging in leaves the storage as logging out alone would: no token is left. */
  lemma LogoutUndoesLogin(storage: map<string, string>, user: UserData, encode: UserData -> string)
    ensures SignOut(SignIn(storage, user, encode)) == SignOut(storage)
    ensures !HasToken(SignOut(SignIn(storage, user, encode)))
  {
  }

  datatype Session = Session(authenticated: bool, user: Option<UserData>)

  /** What `checkAuth` makes of the stored state: with a token, a signed-in session whose user is
      the decoded `user` entry (`JSON.parse(null)` gives null); without one, the session as it was.
      `decode` stands for `JSON.parse`. */
  function Restore(storage: map<string, string>, decode: string -> Option<UserData>, prior: Session): (s: Session)
    ensures HasToken(storage) ==> s.authenticated
    ensures !HasToken(storage) ==> s == prior
    ensures s.user != prior.user ==> HasToken(storage)
    ensures HasToken(storage) && UserKey in storage ==> s.user == decode(storage[UserKey])
    ensures HasToken(storage) && UserKey !in storage ==> s.user == None
  {
    if HasToken(storage) then
      Session(true, if UserKey in storage then decode(storage[UserKey]) else None)
    else prior
  }

  /** A reload after logging in restores that user, provided the token is not empty and decoding
      inverts encoding. */
  lemma ReloadAfterLogin(storage: map<string, string>, user: UserData, encode: UserData -> string,
                         decode: string -> Option<UserData>, prior: Session)
    requires user.token != "" && decode(encode(user)) == Some(user)
    ensures Restore(SignIn(storage, user, encode), decode, prior) == Session(true, Some(user))
  {
  }

  /** A reload after logging out restores nothing. */
  lemma ReloadAfterLogout(storage: map<string, string>, decode: string -> Option<UserData>, prior: Session)
    ensures Restore(SignOut(storage), decode, prior) == prior
  {
  }

  datatype Page = LoginPage | DashboardPage | RulesPage | AnalysisPage | AlertsPage | SettingsPage

  /** What a route renders: a page, or a `<Navigate>` to another path. */
  datatype Screen = Render(page: Page) | Redirect(to: string)

  /** The pages that only a signed-in user may see, by path. */
  function ProtectedPage(path: string): (page: Option<Page>)
    ensures page.Some? <==> path in {"/", "/rules", "/analysis", "/alerts", "/settings"}
    ensures page.Some? ==> page.value != LoginPage
  {
    if path == "/" then Some(DashboardPage)
    else if path == "/rules" then Some(RulesPage)
    else if path == "/analysis" then Some(AnalysisPage)
    else if path == "/alerts" then Some(AlertsPage)
    else if path == "/settings" then Some(SettingsPage)
    else None
  }

  /** Each guarded path shows its own page, and no two guarded paths show the same one. */
  lemma ProtectedPageTable(p: string, q: string)
    ensures ProtectedPage("/") == Some(DashboardPage) && ProtectedPage("/rules") == Some(RulesPage)
    ensures ProtectedPage("/analysis") == Some(AnalysisPage) && ProtectedPage("/alerts") == Some(AlertsPage)
    ensures ProtectedPage("/settings") == Some(SettingsPage)
    ensures ProtectedPage(p).Some? && ProtectedPage(p) == ProtectedPage(q) ==> p == q
  {
  }

  /** The `<Routes>` table. */
  function Route(path: string, authenticated: bool): (screen: Screen)
    ensures screen.Render? ==> (screen.page == LoginPage <==> !authenticated)
    ensures screen.Redirect? ==> screen.to == (if authenticated then "/" else "/login")
  {
    if path == "/login" then
      (if authenticated then Redirect("/") else Render(LoginPage))
    else if ProtectedPage(path).Some? then
      (if authenticated then Render(ProtectedPage(path).value) else Redirect("/login"))
    else
      Redirect(if authenticated then "/" else "/login")
  }

  /** A protected path renders its page exactly when signed in and otherwise sends to `/login`;
      `/login` sends a signed-in user to `/`; any other path sends to `/` or `/login`. */
  lemma RouteGuard(path: string, authenticated: bool)
    ensures ProtectedPage(path).Some? ==>
              (Route(path, authenticated).Render? <==> authenticated)
              && (authenticated ==> Route(path, authenticated) == Render(ProtectedPage(path).value))
              && (!authenticated ==> Route(path, authenticated) == Redirect("/login"))
    ensures Route("/login", authenticated) == if authenticated then Redirect("/") else Render(LoginPage)
    ensures path != "/login" && ProtectedPage(path).None? ==>
              Route(path, authenticated) == Redirect(if authenticated then "/" else "/login")
  {
  }

  /** One redirect always lands on a rendered page. */
  lemma RouteSettles(path: string, authenticated: bool)
    ensures Route(path, authenticated).Redirect? ==>
              Route(Route(path, authenticated).to, authenticated).Render?
  {
  }

  /** The component's state: `isAuthenticated`, `user`, `loading`, and `localStorage` as `storage`. */
  class App {
    var isAuthenticated: bool
    var user: Option<UserData>
    var loading: bool
    var storage: map<string, string>

    /** The first render: signed out and loading, with whatever the browser had stored. */
    constructor (stored: map<string, string>)
      ensures !isAuthenticated && user == None && loading && storage == stored
    {
      isAuthenticated := false;
      user := None;
      loading := true;
      storage := stored;
    }

    /** `checkAuth`: run once on mount; restores the session from storage and ends loading. */
    method CheckAuth(decode: string -> Option<UserData>)
      modifies this`isAuthenticated, this`user, this`loading
      ensures Session(isAuthenticated, user) == Restore(storage, decode, Session(old(isAuthenticated), old(user)))
      ensures !loading
    {
      var session := Restore(storage, decode, Session(isAuthenticated, user));
      isAuthenticated, user := session.authenticated, session.user;
      loading := false;
    }

    /** `handleLogin`: sign in and persist the token and the user. */
    method HandleLogin(userData: UserData, encode: UserData -> string)
      modifies this`isAuthenticated, this`user, this`storage
      ensures isAuthenticated && user == Some(userData)
      ensures storage == SignIn(old(storage), userData, encode)
    {
      isAuthenticated := true;
      user := Some(userData);
      storage := SignIn(storage, userData, encode);
    }

    /** `handleLogout`: sign out and forget the token and the user. */
    method HandleLogout()
      modifies this`isAuthenticated, this`user, this`storage
      ensures !isAuthenticated && user == None
      ensures storage == SignOut(old(storage))
    {
      isAuthenticated := false;
      user := None;
      storage := SignOut(storage);
    }
  }
}
