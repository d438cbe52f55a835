/** `App.jsx`: the login flag and the route table of the side panel.  The
    flag starts false, is raised on mount when both tokens are stored and
    by a successful login; the route table shows the protected screens only
    while the flag is up. */
module App {
  import opened Js
  import opened Web
  import Auth
  import opened Text

  const RootPath := "/"
  const LoginPath := "/login"
  const HomePath := "/home"
  const PatientPrefix := "/patient/"
  const SearchPath := "/patient-manaual-search"

  /** What the router renders for a path. */
  datatype Screen =
    | LoginScreen
    | Redirect(to: string)
    | HomeScreen
    | PatientDetailScreen(id: string)
    | PatientSearchScreen
    | NoMatch

  /** The `:id` parameter of `/patient/:id`: one non-empty path segment. */
  function PatientIdOf(path: string): (id: Option<string>)
    ensures id.Some? <==>
      |path| > |PatientPrefix| && path[..|PatientPrefix|] == PatientPrefix && '/' !in path[|PatientPrefix|..]
    ensures id.Some? ==> path == PatientPrefix + id.value
  {
    if |path| > |PatientPrefix| && path[..|PatientPrefix|] == PatientPrefix && '/' !in path[|PatientPrefix|..] then
      Some(path[|PatientPrefix|..])
    else
      None
  }

  /** `/patient/<id>` matches the detail route exactly when the id is one non-empty segment. */
  lemma PatientPathRoundTrip(id: string)
    ensures PatientIdOf(PatientPrefix + id).Some? <==> id != "" && '/' !in id
    ensures id != "" && '/' !in id ==> PatientIdOf(PatientPrefix + id) == Some(id)
  {
    var path := PatientPrefix + id;
    assert path[..|PatientPrefix|] == PatientPrefix;
    assert path[|PatientPrefix|..] == id;
  }

  /** The `<Routes>` table of `App`, for a path and the login flag. */
  function Route(path: string, isLoggedIn: bool): (s: Screen)
    ensures s.HomeScreen? || s.PatientDetailScreen? ==> isLoggedIn
    ensures s.Redirect? ==> s.to == (if isLoggedIn then HomePath else LoginPath)
    ensures s.PatientDetailScreen? ==> path == PatientPrefix + s.id
  {
    if path == RootPath then
      (if isLoggedIn then Redirect(HomePath) else LoginScreen)
    else if path == LoginPath then
      LoginScreen
    else if path == HomePath then
      (if isLoggedIn then HomeScreen else Redirect(LoginPath))
    else if path == SearchPath then
      PatientSearchScreen
    else
      match PatientIdOf(path)
      case Some(id) => if isLoggedIn then PatientDetailScreen(id) else Redirect(LoginPath)
      case None => NoMatch
  }

  /** The manual search page is not read as a patient id: its ninth character is not a slash. */
  lemma SearchIsNotADetailPath()
    ensures PatientIdOf(SearchPath).None?
  {
    assert SearchPath[8] == '-';
  }

  /** "/" shows the login form when logged out and sends a logged-in user to "/home". */
  lemma RootRoute(isLoggedIn: bool)
    ensures Route(RootPath, isLoggedIn) == (if isLoggedIn then Redirect(HomePath) else LoginScreen)
  {
  }

  /** "/home" and every "/patient/<id>" need the flag; without it they redirect to "/login". */
  lemma ProtectedRoutes(id: string, isLoggedIn: bool)
    requires id != "" && '/' !in id
    ensures Route(HomePath, isLoggedIn) == (if isLoggedIn then HomeScreen else Redirect(LoginPath))
    ensures Route(PatientPrefix + id, isLoggedIn) ==
      (if isLoggedIn then PatientDetailScreen(id) else Redirect(LoginPath))
  {
    PatientPathRoundTrip(id);
    var path := PatientPrefix + id;
    assert |path| > |HomePath|;
    assert path != RootPath && path != LoginPath && path != HomePath;
    assert path[8] != SearchPath[8];
  }

  /** "/login" and the manual search page render whatever the flag says. */
  lemma OpenRoutes(isLoggedIn: bool)
    ensures Route(LoginPath, isLoggedIn) == LoginScreen
    ensures Route(SearchPath, isLoggedIn) == PatientSearchScreen
  {
  }

  /** Following a redirect never redirects again: it lands on the home page
      when logged in and on the login form when logged out. */
  lemma RedirectsSettle(path: string, isLoggedIn: bool)
    requires Route(path, isLoggedIn).Redirect?
    ensures Route(Route(path, isLoggedIn).to, isLoggedIn) == (if isLoggedIn then HomeScreen else LoginScreen)
  {
    if isLoggedIn {
      assert PatientIdOf(HomePath).None?;
    }
  }

  // ---------------------------------------------------------------------
  // The login flag

  /** The flag after the mount effect: raised when both stored tokens are non-empty, else untouched. */
  function AfterMount(isLoggedIn: bool, w: World): bool {
    if Truthy(StoredItem(w, Auth.AccessTokenKey)) && Truthy(StoredItem(w, Auth.RefreshTokenKey)) then true
    else isLoggedIn
  }

  /** What can happen to the flag: the mount effect runs against the browser
      state, or the login form reports success. */
  datatype FlagEvent = Mounted(w: World) | LoginSucceeded

  function FlagStep(isLoggedIn: bool, e: FlagEvent): bool {
    match e
    case Mounted(w) => AfterMount(isLoggedIn, w)
    case LoginSucceeded => true
  }

  function FlagRun(isLoggedIn: bool, events: seq<FlagEvent>): bool
    decreases |events|
  {
    if events == [] then isLoggedIn else FlagRun(FlagStep(isLoggedIn, events[0]), events[1..])
  }

  /** A freshly mounted panel is logged in exactly when both tokens are stored and non-empty. */
  lemma FirstMount(w: World)
    ensures AfterMount(false, w) <==>
      var t := Auth.TokensOf(w);
      t.accessToken.Some? && t.accessToken.value != "" && t.refreshToken.Some? && t.refreshToken.value != ""
  {
  }

  /** After a successful `AuthLogin`, mounting the panel logs the user in
      exactly when both stored tokens print as non-empty text, which holds
      whenever neither token field is an array. */
  lemma MountAfterLogin(server: Server, w: World, email: string, password: string)
    requires Auth.Login(server, w, email, password).0.Ok?
    ensures var (r, w') := Auth.Login(server, w, email, password);
      var access := Get(r.value, "access_token");
      var refresh := Get(r.value, "refresh_token");
      && Present(access) && Present(refresh)
      && (AfterMount(false, w') <==> ValueString(access.value) != "" && ValueString(refresh.value) != "")
      && (!access.value.Arr? && !refresh.value.Arr? ==> AfterMount(false, w'))
  {
    Auth.LoginEffect(server, w, email, password);
    var (r, w') := Auth.Login(server, w, email, password);
    var access := Get(r.value, "access_token");
    var refresh := Get(r.value, "refresh_token");
    if !access.value.Arr? && !refresh.value.Arr? {
      TruthyTextNonEmpty(access.value);
      TruthyTextNonEmpty(refresh.value);
    }
  }

  /** After the tokens are cleared, mounting a fresh panel leaves the user logged out. */
  lemma MountAfterLogout(w: World)
    ensures !AfterMount(false, Auth.TokensCleared(w))
  {
    Auth.ClearRemovesCredentials(w);
  }

  /** Nothing in `App` lowers the flag: once raised it stays raised. */
  lemma {:induction false} NeverLoggedOut(events: seq<FlagEvent>)
    ensures FlagRun(true, events)
    decreases |events|
  {
    if events != [] {
      NeverLoggedOut(events[1..]);
    }
  }

  /** The flag is raised after a run exactly when it started raised or some
      event in the run raised it. */
  lemma {:induction false} RaisedBySomeEvent(isLoggedIn: bool, events: seq<FlagEvent>)
    ensures FlagRun(isLoggedIn, events) <==> isLoggedIn || exists i :: 0 <= i < |events| && FlagStep(false, events[i])
    decreases |events|
  {
    if events != [] {
      var first := FlagStep(isLoggedIn, events[0]);
      RaisedBySomeEvent(first, events[1..]);
      if first {
        NeverLoggedOut(events[1..]);
        if !isLoggedIn {
          assert FlagStep(false, events[0]);
        }
      }
      if exists i :: 0 <= i < |events| && FlagStep(false, events[i]) {
        var i :| 0 <= i < |events| && FlagStep(false, events[i]);
        if i > 0 {
          assert FlagStep(false, events[1..][i - 1]);
        }
      }
      if exists j :: 0 <= j < |events[1..]| && FlagStep(false, events[1..][j]) {
        var j :| 0 <= j < |events[1..]| && FlagStep(false, events[1..][j]);
        assert FlagStep(false, events[j + 1]);
      }
    }
  }

  // ---------------------------------------------------------------------
  // The component

  class AppView {
    var isLoggedIn: bool

    /** `useState(false)` */
    constructor ()
      ensures !isLoggedIn
    {
      isLoggedIn := false;
    }

    /** The screen the router shows for a path. */
    function Screen(path: string): Screen
      reads this
    {
      Route(path, isLoggedIn)
    }

    /** The mount effect: both tokens are read from `localStorage`. */
    method Mount(b: Browser)
      modifies this
      ensures isLoggedIn == AfterMount(old(isLoggedIn), b.State())
    {
      var accessToken := b.GetItem(Auth.AccessTokenKey);
      var refreshToken := b.GetItem(Auth.RefreshTokenKey);
      if Truthy(accessToken) && Truthy(refreshToken) {
        isLoggedIn := true;
      }
    }

    /** `handleLoginSuccess` */
    method HandleLoginSuccess()
      modifies this
      ensures isLoggedIn
    {
      isLoggedIn := true;
    }

    method Dispatch(b: Browser, e: FlagEvent)
      requires e.Mounted? ==> e.w == b.State()
      modifies this
      ensures isLoggedIn == FlagStep(old(isLoggedIn), e)
    {
      match e
      case Mounted(_) => Mount(b);
      case LoginSucceeded => HandleLoginSuccess();
    }
  }
}
