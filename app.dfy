/**
 * The application shell: the signed-in user, the startup restore from the
 * store, login and logout, and the rule that decides what each path shows.
 */
module AppShell {
  import opened Js
  import opened Types
  import opened Storage
  import opened UserCodec
  import opened Auth
  import opened Routes

  /** What the startup check does with the store it finds. */
  datatype StartupOutcome = StayAnonymous | Restore(user: User) | ParseFailure

  /**
   * Both entries must be present and non-empty for a restore; a stored user
   * that does not parse makes the startup effect throw.
   */
  function StartupDecision(items: map<string, string>): (o: StartupOutcome)
    ensures o.StayAnonymous? <==>
      !(UserKey in items && items[UserKey] != "" && TokenKey in items && items[TokenKey] != "")
    ensures o.Restore? ==> UserKey in items && Deserialize(items[UserKey]) == Some(o.user)
    ensures o.ParseFailure? ==> UserKey in items && Deserialize(items[UserKey]).None?
  {
    var stored := if UserKey in items then Some(items[UserKey]) else None;
    var token := if TokenKey in items then Some(items[TokenKey]) else None;
    if Truthy(stored) && Truthy(token) then
      match Deserialize(stored.value)
      case Some(u) => Restore(u)
      case None => ParseFailure
    else StayAnonymous
  }

  /** A session written by a login or signup with a non-empty token is restored. */
  lemma RestoreAfterSignIn(items: map<string, string>, data: AuthData)
    requires data.token != ""
    ensures StartupDecision(WithSession(items, data)) == Restore(data.user)
  {
    StoredUserParses(items, data);
    assert WithSession(items, data)[UserKey] != "" by {
      assert WithSession(items, data)[UserKey] == Serialize(data.user);
    }
  }

  /** After a logout's removals the next start stays anonymous, whatever else is stored. */
  lemma AnonymousAfterLogout(items: map<string, string>)
    ensures StartupDecision(items - {TokenKey, UserKey}) == StayAnonymous
  {
  }

  /** What the router shows for a path. */
  datatype Screen = Blank | LoginScreen | SignupScreen | DashboardScreen(user: User) | RedirectTo(path: string)

  /**
   * The route table: the two public pages only for visitors, the dashboard
   * (at "/" and "/dashboard") only for a signed-in user, nothing elsewhere.
   */
  function Route(path: string, user: Option<User>): (s: Screen)
    ensures path == LoginPath ==>
      (user.None? ==> s == LoginScreen) && (user.Some? ==> s == RedirectTo(DashboardPath))
    ensures path == SignupPath ==>
      (user.None? ==> s == SignupScreen) && (user.Some? ==> s == RedirectTo(DashboardPath))
    ensures path == RootPath || path == DashboardPath ==>
      (user.Some? ==> s == DashboardScreen(user.value)) && (user.None? ==> s == RedirectTo(LoginPath))
    ensures s.DashboardScreen? ==> user == Some(s.user)
    ensures s == LoginScreen || s == SignupScreen ==> user.None?
    ensures s == Blank <==> path !in {LoginPath, SignupPath, RootPath, DashboardPath}
  {
    if path == LoginPath || path == SignupPath then
      if user.Some? then RedirectTo(DashboardPath)
      else if path == LoginPath then LoginScreen else SignupScreen
    else if path == RootPath || path == DashboardPath then
      if user.Some? then DashboardScreen(user.value) else RedirectTo(LoginPath)
    else Blank
  }

  /** Following a redirect lands on a page at once: redirects never chain. */
  lemma RedirectSettles(path: string, user: Option<User>)
    requires Route(path, user).RedirectTo?
    ensures !Route(Route(path, user).path, user).RedirectTo?
    ensures Route(Route(path, user).path, user) != Blank
  {
  }

  /** The shell's state. */
  class App {
    var user: Option<User>
    var loading: bool

    constructor ()
      ensures user == None && loading
    {
      user := None;
      loading := true;
    }

    /**
     * The startup effect. It restores the stored user when both entries are
     * set and then ends the loading state; a stored user that does not parse
     * aborts the effect before `loading` is cleared.
     */
    method Startup(store: LocalStorage) returns (aborted: bool)
      modifies this`user, this`loading
      ensures aborted <==> StartupDecision(store.items).ParseFailure?
      ensures aborted ==> user == old(user) && loading == old(loading)
      ensures !aborted ==> !loading
      ensures StartupDecision(store.items).Restore? ==> user == Some(StartupDecision(store.items).user)
      ensures StartupDecision(store.items).StayAnonymous? ==> user == old(user)
    {
      var storedUser := store.GetItem(UserKey);
      var storedToken := store.GetItem(TokenKey);
      if Truthy(storedUser) && Truthy(storedToken) {
        match Deserialize(storedUser.value) {
          case None =>
            aborted := true;
            return;
          case Some(u) =>
            user := Some(u);
        }
      }
      aborted := false;
      loading := false;
    }

    /** `handleLogin`: records the user and touches nothing else. */
    method HandleLogin(u: User)
      modifies this`user
      ensures user == Some(u)
    {
      user := Some(u);
    }

    /** `handleLogout`: removes both session entries and forgets the user. */
    method HandleLogout(store: LocalStorage)
      modifies this`user, store
      ensures store.items == old(store.items) - {TokenKey, UserKey}
      ensures user == None
    {
      store.RemoveItem(TokenKey);
      store.RemoveItem(UserKey);
      user := None;
    }

    /** What is on screen at `path`: nothing at all while loading, else the route. */
    function View(path: string): (s: Screen)
      reads this
      ensures loading ==> s == Blank
      ensures !loading ==> s == Route(path, user)
    {
      if loading then Blank else Route(path, user)
    }
  }

  /**
   * A sign-in, then a reload: whatever the store held before, the pages'
   * two writes make the reloaded shell show the dashboard of the same user.
   */
  method SignInSurvivesReload(items: map<string, string>, data: AuthData) returns (screen: Screen)
    requires data.token != ""
    ensures screen == DashboardScreen(data.user)
  {
    var store := new LocalStorage(items);
    store.SetItem(TokenKey, data.token);
    store.SetItem(UserKey, Serialize(data.user));
    var signedIn := store.items;
    assert signedIn == WithSession(items, data);
    RestoreAfterSignIn(items, data);
    var reloaded := new App();
    var _ := reloaded.Startup(store);
    assert store.items == signedIn;
    screen := reloaded.View(DashboardPath);
  }

  /**
   * A logout, then a reload: whatever the store held, the reloaded shell
   * is anonymous and the dashboard redirects to the login page.
   */
  method LogoutSurvivesReload(items: map<string, string>, u: User) returns (screen: Screen)
    ensures screen == RedirectTo(LoginPath)
  {
    var store := new LocalStorage(items);
    var app := new App();
    app.HandleLogin(u);
    app.HandleLogout(store);
    var loggedOut := store.items;
    assert loggedOut == items - {TokenKey, UserKey};
    AnonymousAfterLogout(items);
    var reloaded := new App();
    var _ := reloaded.Startup(store);
    assert store.items == loggedOut;
    screen := reloaded.View(DashboardPath);
  }
}
