/**
 * The top level of the client: which screen a path shows for a
 * signed-in or signed-out visitor, and which dashboard the
 * `/dashboard` screen shows for the resolved role.
 */
module App {
  import opened Wrappers
  import opened Strings
  import opened Identity

  /** What the dashboard route renders. */
  datatype DashboardView = Loading | Blank | ChooseRole | Student | Tutor

  /**
   * `Dashboard`: a spinner until the identity provider has loaded,
   * nothing without a user, the role choice while no role signal is
   * set, and otherwise the student or the tutor dashboard. There is no
   * default role here.
   */
  function DashboardFor(isLoaded: bool, user: Option<User>, storedRole: Option<string>): (v: DashboardView)
    ensures v == Loading <==> !isLoaded
    ensures v == Blank <==> isLoaded && user.None?
    ensures v == ChooseRole <==> isLoaded && user.Some? && SelectedRole(user, storedRole).None?
    ensures v == Student <==> isLoaded && user.Some? && SelectedRole(user, storedRole) == Some("student")
    ensures v == Tutor <==> (isLoaded && user.Some? && SelectedRole(user, storedRole).Some? &&
      SelectedRole(user, storedRole).value != "student")
  {
    if !isLoaded then Loading
    else if user.None? then Blank
    else match SelectedRole(user, storedRole)
      case None => ChooseRole
      case Some(role) => if role == "student" then Student else Tutor
  }

  /**
   * The page asks for a role exactly where the engine, provisioning a
   * profile from the same signals, writes the `"student"` default; where
   * a role is set, the dashboard shown agrees with the provisioned role.
   */
  lemma DashboardAgreesWithProvisionedRole(user: User, storedRole: Option<string>)
    ensures DashboardFor(true, Some(user), storedRole) == ChooseRole ==> ProvisionedRole(user, storedRole) == "student"
    ensures DashboardFor(true, Some(user), storedRole) == Student <==>
      (SelectedRole(Some(user), storedRole).Some? && ProvisionedRole(user, storedRole) == "student")
    ensures DashboardFor(true, Some(user), storedRole) == Tutor <==>
      (SelectedRole(Some(user), storedRole).Some? && ProvisionedRole(user, storedRole) != "student")
  {
  }

  /** What a path renders. */
  datatype Screen =
    | Spinner
    | DashboardScreen
    | VideoPlayerScreen(videoId: string)
    | UploadScreen
    | LoginScreen
    | RegisterScreen
    | RedirectTo(target: string)

  const VideoPrefix := "/video/"

  /** The `:id` of `/video/:id`: one non-empty path segment. */
  function VideoParam(path: string): (id: Option<string>)
    ensures id.Some? <==> (StartsWith(path, VideoPrefix) && |path| > |VideoPrefix| &&
      '/' !in path[|VideoPrefix|..])
    ensures id.Some? ==> id.value != "" && '/' !in id.value && path == VideoPrefix + id.value
  {
    if StartsWith(path, VideoPrefix) && |path| > |VideoPrefix| && '/' !in path[|VideoPrefix|..] then
      assert path == path[..|VideoPrefix|] + path[|VideoPrefix|..];
      Some(path[|VideoPrefix|..])
    else None
  }

  /**
   * The route table: `/dashboard`, `/video/:id` and `/upload` when signed
   * in, everything else redirecting to `/dashboard`; `/login` and
   * `/register` when signed out, everything else redirecting to `/login`.
   */
  function Route(signedIn: bool, path: string): (s: Screen)
    ensures signedIn ==> s in {DashboardScreen, UploadScreen, RedirectTo("/dashboard")} || s.VideoPlayerScreen?
    ensures signedIn ==> (s == DashboardScreen <==> path == "/dashboard")
    ensures signedIn ==> (s == UploadScreen <==> path == "/upload")
    ensures signedIn ==> (s.VideoPlayerScreen? <==> VideoParam(path).Some?)
    ensures signedIn ==> (s == RedirectTo("/dashboard") <==>
      path != "/dashboard" && path != "/upload" && VideoParam(path).None?)
    ensures !signedIn ==> s in {LoginScreen, RegisterScreen, RedirectTo("/login")}
    ensures !signedIn ==> (s == LoginScreen <==> path == "/login")
    ensures !signedIn ==> (s == RegisterScreen <==> path == "/register")
    ensures !signedIn ==> (s == RedirectTo("/login") <==> path != "/login" && path != "/register")
    ensures s.VideoPlayerScreen? ==> signedIn && VideoParam(path) == Some(s.videoId)
  {
    assert VideoParam("/upload").None? && VideoParam("/dashboard").None? by {
      assert "/upload"[1] != VideoPrefix[1] && "/dashboard"[1] != VideoPrefix[1];
    }
    if signedIn then
      if path == "/dashboard" then DashboardScreen
      else if VideoParam(path).Some? then VideoPlayerScreen(VideoParam(path).value)
      else if path == "/upload" then UploadScreen
      else RedirectTo("/dashboard")
    else
      if path == "/login" then LoginScreen
      else if path == "/register" then RegisterScreen
      else RedirectTo("/login")
  }

  /** `AppContent`: only a spinner until the identity provider has loaded. */
  function AppScreen(isLoaded: bool, signedIn: bool, path: string): (s: Screen)
    ensures !isLoaded <==> s == Spinner
    ensures isLoaded ==> s == Route(signedIn, path)
  {
    if isLoaded then Route(signedIn, path) else Spinner
  }

  /** Every segment after `/video/` opens the player on that id, for a signed-in visitor. */
  lemma VideoPathsOpenThePlayer(id: string)
    requires id != "" && '/' !in id
    ensures Route(true, VideoPrefix + id) == VideoPlayerScreen(id)
  {
    var path := VideoPrefix + id;
    assert path[|VideoPrefix|..] == id;
    assert StartsWith(path, VideoPrefix);
    assert path[1] == 'v' && "/dashboard"[1] == 'd';
  }

  /**
   * Every redirect lands in one step on a screen that is not itself a
   * redirect: the dashboard when signed in, the login page when not.
   */
  lemma RedirectsLand(signedIn: bool, path: string)
    ensures Route(signedIn, path).RedirectTo? ==>
      Route(signedIn, Route(signedIn, path).target) == (if signedIn then DashboardScreen else LoginScreen)
  {
  }

  /**
   * A signed-in visitor never sees the login or register page, and a
   * signed-out one sees nothing else; every path outside a table leads
   * to that table's home.
   */
  lemma AuthPagesOnlyWhenSignedOut(path: string)
    ensures Route(true, path) != LoginScreen && Route(true, path) != RegisterScreen
    ensures path != "/dashboard" && path != "/upload" && VideoParam(path).None? ==>
      Route(true, path) == RedirectTo("/dashboard")
    ensures path != "/login" && path != "/register" ==> Route(false, path) == RedirectTo("/login")
    ensures Route(false, "/login") == LoginScreen && Route(false, "/register") == RegisterScreen
    ensures Route(true, "/login") == RedirectTo("/dashboard") && Route(true, "/") == RedirectTo("/dashboard")
    ensures Route(false, "/dashboard") == RedirectTo("/login") && Route(false, "/") == RedirectTo("/login")
  {
    assert !StartsWith("/login", VideoPrefix) && !StartsWith("/", VideoPrefix);
  }
}
