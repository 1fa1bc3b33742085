/**
 * The application shell: the navigation bar of `Layout`, the root redirect, and the route table
 * with its guard. `Resolve` gives what a location renders for a session state.
 */
module App {
  import opened Wrappers
  import opened AuthService
  import opened AuthContext
  import opened Screens
  import PrivateRoute
  import LoginPage
  import DashboardPage

  const REDIRECTING_TEXT := "Yönlendiriliyor..."

  /** `NavigateToDashboardOrLogin`, the element at `/`. */
  function NavigateToDashboardOrLogin(isLoading: bool, currentUser: Option<User>): (o: Outcome)
    ensures o.Placeholder? <==> isLoading
    ensures !isLoading && currentUser.Some? ==> o == Redirect(DASHBOARD_PATH)
    ensures !isLoading && currentUser.None? ==> o == Redirect(LOGIN_PATH)
  {
    if isLoading then Placeholder(REDIRECTING_TEXT)
    else if currentUser.Some? then Redirect(DASHBOARD_PATH)
    else Redirect(LOGIN_PATH)
  }

  /** The right-hand side of the navigation bar. */
  datatype NavBlock =
    | LoadingNotice
    /** The dashboard link, the user's name in brackets, and the logout button. */
    | UserMenu(dashboardLink: Path, username: string)
    /** The login and register links. */
    | GuestMenu(links: seq<Path>)

  /** `Layout`'s three independently guarded blocks, in page order: exactly one of them is shown. */
  function NavBlocks(isLoading: bool, currentUser: Option<User>): (blocks: seq<NavBlock>)
    ensures |blocks| == 1
    ensures blocks[0] == LoadingNotice <==> isLoading
    ensures blocks[0].UserMenu? <==> !isLoading && currentUser.Some?
    ensures blocks[0].UserMenu? ==> blocks[0] == UserMenu(DASHBOARD_PATH, currentUser.value.username)
    ensures blocks[0].GuestMenu? <==> !isLoading && currentUser.None?
    ensures blocks[0].GuestMenu? ==> blocks[0].links == [LOGIN_PATH, REGISTER_PATH]
  {
    (if isLoading then [LoadingNotice] else [])
    + (if !isLoading && currentUser.Some? then [UserMenu(DASHBOARD_PATH, currentUser.value.username)] else [])
    + (if !isLoading && currentUser.None? then [GuestMenu([LOGIN_PATH, REGISTER_PATH])] else [])
  }

  /** One segment of a route pattern: a literal, or a `:name` parameter. */
  datatype Segment = Literal(text: string) | Param(name: string)

  datatype Element = LoginElement | RegisterElement | DashboardElement | FirmaDetayElement | RootElement

  /** A route: its pattern, its element, and whether it sits under `PrivateRoute`. */
  datatype Route = Route(pattern: seq<Segment>, element: Element, guarded: bool)

  /** The routes under `Layout`, in the order they are declared; the catch-all `*` is handled by `Resolve`. */
  const ROUTES: seq<Route> := [
    Route([Literal("login")], LoginElement, false),
    Route([Literal("register")], RegisterElement, false),
    Route([Literal("dashboard")], DashboardElement, true),
    Route([Literal("firmalar"), Param("firmaId"), Literal("detay")], FirmaDetayElement, true),
    Route([], RootElement, false)
  ]

  /** A parameter takes any non-empty segment, a literal only itself. */
  predicate SegmentMatches(s: Segment, part: string) {
    match s
    case Literal(text) => part == text
    case Param(_) => part != ""
  }

  predicate Matches(pattern: seq<Segment>, path: Path) {
    |pattern| == |path| && forall i :: 0 <= i < |path| ==> SegmentMatches(pattern[i], path[i])
  }

  /** The index of the first route whose pattern matches, or None when only the catch-all does. */
  function FirstMatch(routes: seq<Route>, path: Path): (r: Option<nat>)
    ensures r.Some? ==> r.value < |routes| && Matches(routes[r.value].pattern, path)
    ensures r.Some? ==> forall j :: 0 <= j < r.value ==> !Matches(routes[j].pattern, path)
    ensures r.None? ==> forall j :: 0 <= j < |routes| ==> !Matches(routes[j].pattern, path)
  {
    if routes == [] then None
    else if Matches(routes[0].pattern, path) then Some(0)
    else
      match FirstMatch(routes[1..], path)
      case None => None
      case Some(k) => Some(k + 1)
  }

  /** `useParams()[name]`: the segment at the parameter's position, if the pattern has it. */
  function ParamValue(pattern: seq<Segment>, path: Path, name: string): (v: Option<string>)
    requires |pattern| == |path|
    ensures v.Some? ==> exists i :: 0 <= i < |pattern| && pattern[i] == Param(name) && path[i] == v.value
    ensures v.None? ==> Param(name) !in pattern
  {
    if pattern == [] then None
    else if pattern[0] == Param(name) then Some(path[0])
    else
      var v := ParamValue(pattern[1..], path[1..], name);
      if v.Some? then
        var i :| 0 <= i < |pattern[1..]| && pattern[1..][i] == Param(name) && path[1..][i] == v.value;
        assert pattern[i + 1] == Param(name) && path[i + 1] == v.value;
        v
      else
        assert pattern == [pattern[0]] + pattern[1..];
        v
  }

  /** What a route's element renders once it is reached. */
  function RenderElement(route: Route, path: Path, isLoading: bool, currentUser: Option<User>): (o: Outcome)
    requires Matches(route.pattern, path)
    ensures o.Placeholder? ==> isLoading
    ensures o.Redirect? ==> !isLoading
    ensures o != Show(NotFoundScreen)
  {
    match route.element
    case LoginElement => LoginPage.View(isLoading, currentUser)
    case RegisterElement => Show(RegisterScreen)
    case DashboardElement => DashboardPage.View(isLoading, currentUser)
    case FirmaDetayElement => Show(FirmaDetayScreen(ParamValue(route.pattern, path, "firmaId")))
    case RootElement => NavigateToDashboardOrLogin(isLoading, currentUser)
  }

  /** What the location `path` renders: the matched route's element, behind the guard where it is declared, else NotFound. */
  function Resolve(path: Path, isLoading: bool, currentUser: Option<User>): (o: Outcome)
    ensures o == Show(NotFoundScreen) <==> FirstMatch(ROUTES, path).None?
    ensures o.Placeholder? ==> isLoading
  {
    match FirstMatch(ROUTES, path)
    case None => Show(NotFoundScreen)
    case Some(i) =>
      var route := ROUTES[i];
      if !route.guarded then RenderElement(route, path, isLoading, currentUser)
      else
        match PrivateRoute.Decide(isLoading, currentUser)
        case CheckingAuthorization => Placeholder(PrivateRoute.CHECKING_TEXT)
        case RedirectToLogin => Redirect(LOGIN_PATH)
        case RenderOutlet => RenderElement(route, path, isLoading, currentUser)
  }

  /** The locations some declared route matches, written out independently of the table. */
  predicate IsDeclaredPath(path: Path) {
    || path == ROOT_PATH || path == LOGIN_PATH || path == REGISTER_PATH || path == DASHBOARD_PATH
    || (|path| == 3 && path[0] == "firmalar" && path[1] != "" && path[2] == "detay")
  }

  lemma MatchesWhichRoute(path: Path)
    ensures Matches(ROUTES[0].pattern, path) <==> path == LOGIN_PATH
    ensures Matches(ROUTES[1].pattern, path) <==> path == REGISTER_PATH
    ensures Matches(ROUTES[2].pattern, path) <==> path == DASHBOARD_PATH
    ensures Matches(ROUTES[3].pattern, path) <==> |path| == 3 && path[0] == "firmalar" && path[1] != "" && path[2] == "detay"
    ensures Matches(ROUTES[4].pattern, path) <==> path == ROOT_PATH
  {
    if |path| == 1 {
      assert Matches(ROUTES[0].pattern, path) ==> SegmentMatches(ROUTES[0].pattern[0], path[0]);
      assert Matches(ROUTES[1].pattern, path) ==> SegmentMatches(ROUTES[1].pattern[0], path[0]);
      assert Matches(ROUTES[2].pattern, path) ==> SegmentMatches(ROUTES[2].pattern[0], path[0]);
    }
    if |path| == 3 {
      var p := ROUTES[3].pattern;
      assert Matches(p, path) ==> SegmentMatches(p[0], path[0]) && SegmentMatches(p[1], path[1]) && SegmentMatches(p[2], path[2]);
      if path[0] == "firmalar" && path[1] != "" && path[2] == "detay" {
        forall i | 0 <= i < 3 ensures SegmentMatches(p[i], path[i]) {
          assert i == 0 || i == 1 || i == 2;
        }
      }
    }
  }

  /** No location matches two declared routes, so the order of the table (and the router's ranking) does not matter. */
  lemma RoutesAreDisjoint(path: Path, i: nat, j: nat)
    requires i < j < |ROUTES|
    ensures !(Matches(ROUTES[i].pattern, path) && Matches(ROUTES[j].pattern, path))
  {
    MatchesWhichRoute(path);
  }

  /** Exactly the undeclared locations fall through to the catch-all `*` and render NotFound. */
  lemma NotFoundExactlyForUndeclared(path: Path, isLoading: bool, currentUser: Option<User>)
    ensures Resolve(path, isLoading, currentUser) == Show(NotFoundScreen) <==> !IsDeclaredPath(path)
  {
    MatchesWhichRoute(path);
    if !IsDeclaredPath(path) {
      forall j | 0 <= j < |ROUTES| ensures !Matches(ROUTES[j].pattern, path) {
        assert j == 0 || j == 1 || j == 2 || j == 3 || j == 4;
      }
    }
  }

  /** The dashboard and the detail page are reached only through the guard: only when settled with a user. */
  lemma ProtectedPagesNeedUser(path: Path, isLoading: bool, currentUser: Option<User>)
    ensures Resolve(path, isLoading, currentUser).Show? && Resolve(path, isLoading, currentUser).page.DashboardScreen? ==> !isLoading && currentUser.Some?
    ensures Resolve(path, isLoading, currentUser).Show? && Resolve(path, isLoading, currentUser).page.FirmaDetayScreen? ==> !isLoading && currentUser.Some?
  {
    var m := FirstMatch(ROUTES, path);
    if m.Some? {
      assert m.value < 5;
    }
  }

  /** `/login` and `/register` are not guarded: they render their own page whatever the session. */
  lemma PublicPagesIgnoreGuard(isLoading: bool, currentUser: Option<User>)
    ensures Resolve(LOGIN_PATH, isLoading, currentUser) == LoginPage.View(isLoading, currentUser)
    ensures Resolve(REGISTER_PATH, isLoading, currentUser) == Show(RegisterScreen)
  {
    MatchesWhichRoute(LOGIN_PATH);
    MatchesWhichRoute(REGISTER_PATH);
  }

  /** The detail page receives the middle segment of its location as `firmaId`. */
  lemma DetailPageGetsFirmaId(firmaId: string, currentUser: Option<User>)
    requires firmaId != "" && currentUser.Some?
    ensures Resolve(["firmalar", firmaId, "detay"], false, currentUser) == Show(FirmaDetayScreen(Some(firmaId)))
  {
    var path := ["firmalar", firmaId, "detay"];
    MatchesWhichRoute(path);
    assert FirstMatch(ROUTES, path) == Some(3);
  }

  /** Every redirect is settled: to `/login` without a user, to `/dashboard` with one. */
  lemma RedirectTargets(path: Path, isLoading: bool, currentUser: Option<User>)
    ensures Resolve(path, isLoading, currentUser).Redirect? ==>
      && !isLoading
      && (Resolve(path, isLoading, currentUser).to == LOGIN_PATH <==> currentUser.None?)
      && (Resolve(path, isLoading, currentUser).to == DASHBOARD_PATH <==> currentUser.Some?)
  {
    var m := FirstMatch(ROUTES, path);
    if m.Some? {
      assert m.value < 5;
    }
  }

  /** `/dashboard` waits for the check, sends a visitor without a user to `/login`, and otherwise shows the dashboard. */
  lemma DashboardBehindGuard(isLoading: bool, currentUser: Option<User>)
    ensures Resolve(DASHBOARD_PATH, isLoading, currentUser) ==
      if isLoading then Placeholder(PrivateRoute.CHECKING_TEXT)
      else if currentUser.None? then Redirect(LOGIN_PATH)
      else Show(DashboardScreen)
  {
    MatchesWhichRoute(DASHBOARD_PATH);
    assert FirstMatch(ROUTES, DASHBOARD_PATH) == Some(2);
  }

  /** A redirect never lands on another redirect: following one settles in a single step. */
  lemma NoRedirectLoop(path: Path, isLoading: bool, currentUser: Option<User>)
    ensures Resolve(path, isLoading, currentUser).Redirect? ==> !Resolve(Resolve(path, isLoading, currentUser).to, isLoading, currentUser).Redirect?
  {
    var r := Resolve(path, isLoading, currentUser);
    if r.Redirect? {
      RedirectTargets(path, isLoading, currentUser);
      PublicPagesIgnoreGuard(isLoading, currentUser);
      DashboardBehindGuard(isLoading, currentUser);
    }
  }

  /** Signed out and settled, every protected location sends to `/login`, and `/login` shows the form. */
  lemma SignedOutLandsOnLoginForm(path: Path)
    requires path == DASHBOARD_PATH || (|path| == 3 && path[0] == "firmalar" && path[1] != "" && path[2] == "detay")
    ensures Resolve(path, false, SIGNED_OUT.user) == Redirect(LOGIN_PATH)
    ensures Resolve(LOGIN_PATH, false, SIGNED_OUT.user) == Show(LoginScreen)
  {
    MatchesWhichRoute(path);
    MatchesWhichRoute(LOGIN_PATH);
    if path == DASHBOARD_PATH {
      assert FirstMatch(ROUTES, path) == Some(2);
    } else {
      assert FirstMatch(ROUTES, path) == Some(3);
    }
  }

  /** The dashboard's own loading placeholder is never reached: the guard in front of it has already waited. */
  lemma DashboardPlaceholderUnreachable(isLoading: bool, currentUser: Option<User>)
    ensures !Resolve(DASHBOARD_PATH, isLoading, currentUser).Placeholder? || isLoading
    ensures Resolve(DASHBOARD_PATH, isLoading, currentUser) != Placeholder(DashboardPage.LOADING_TEXT)
  {
    DashboardBehindGuard(isLoading, currentUser);
  }

  /**
   * Logging in with a token the server then accepts moves the login page to the dashboard, and
   * the dashboard renders: from any session the provider can be in.
   */
  lemma LoginReachesDashboard(s: Session, token: string, u: User)
    requires token != ""
    ensures LoggedIn(s, LoginBody(Some(token)), Ok(Some(u))) == Session(Some(token), Some(u))
    ensures Resolve(LOGIN_PATH, false, Some(u)) == Redirect(DASHBOARD_PATH)
    ensures Resolve(DASHBOARD_PATH, false, Some(u)) == Show(DashboardScreen)
  {
    PublicPagesIgnoreGuard(false, Some(u));
    DashboardBehindGuard(false, Some(u));
  }
}
