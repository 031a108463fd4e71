/**
 * The application shell (client/src/App.jsx): the startup session check, the route
 * table with its per-route view choice, and the navigation chrome shown only to an
 * authenticated session.
 */
module App {
  import opened Wrappers
  import opened Browser
  import Text

  datatype View = Landing | Login | Signup | Dashboard | Upload | FixPlan | CeoReport

  /** One declared route: its path, whether it needs a session, and the view it stands for. */
  datatype Route = Route(path: string, protected: bool, view: View)

  const Routes: seq<Route> := [
    Route("/", false, Landing),
    Route("/login", false, Login),
    Route("/signup", false, Signup),
    Route("/dashboard", true, Dashboard),
    Route("/upload", true, Upload),
    Route("/fix-plan", true, FixPlan),
    Route("/ceo-report", true, CeoReport)
  ]

  /** Every character of `s` is a slash. */
  predicate AllSlashes(s: string) {
    forall i :: 0 <= i < |s| ==> s[i] == '/'
  }

  /**
   * How a `<Route path>` of React Router v6 matches the pathname when `caseSensitive` is not
   * set: ASCII letters compare without regard to case, and any number of trailing slashes may
   * follow the route's path.
   */
  predicate PathMatches(pathname: string, routePath: string) {
    |routePath| <= |pathname| && Text.Lower(pathname[..|routePath|]) == routePath
    && AllSlashes(pathname[|routePath|..])
  }

  /** A route path of one segment: a slash followed by characters other than slashes. */
  predicate OneSegment(path: string) {
    |path| > 0 && path[0] == '/' && forall k :: 1 <= k < |path| ==> path[k] != '/'
  }

  /** The declared route that `path` matches, if any; at most one can match. */
  function LookupRoute(path: string): (r: Option<Route>)
    ensures r.Some? ==> r.value in Routes && PathMatches(path, r.value.path)
    ensures r.None? ==> forall i :: 0 <= i < |Routes| ==> !PathMatches(path, Routes[i].path)
  {
    if PathMatches(path, Routes[0].path) then Some(Routes[0])
    else if PathMatches(path, Routes[1].path) then Some(Routes[1])
    else if PathMatches(path, Routes[2].path) then Some(Routes[2])
    else if PathMatches(path, Routes[3].path) then Some(Routes[3])
    else if PathMatches(path, Routes[4].path) then Some(Routes[4])
    else if PathMatches(path, Routes[5].path) then Some(Routes[5])
    else if PathMatches(path, Routes[6].path) then Some(Routes[6])
    else None
  }

  /** Two route paths matched by the same pathname agree up to trailing slashes. */
  lemma BothMatch(p: string, a: string, b: string)
    requires PathMatches(p, a) && PathMatches(p, b) && |a| <= |b|
    ensures b[..|a|] == a && AllSlashes(b[|a|..])
  {
    var lb := Text.Lower(p[..|b|]);
    forall k | 0 <= k < |a|
      ensures b[k] == a[k]
    {
      assert b[k] == lb[k] == Text.LowerChar(p[k]);
      assert a[k] == Text.Lower(p[..|a|])[k] == Text.LowerChar(p[k]);
    }
    forall k | |a| <= k < |b|
      ensures b[k] == '/'
    {
      assert p[k] == p[|a|..][k - |a|] == '/';
      assert b[k] == lb[k] == Text.LowerChar(p[k]);
    }
  }

  /** Distinct one-segment route paths are never matched by the same pathname. */
  lemma SegmentsExclusive(p: string, a: string, b: string)
    requires OneSegment(a) && OneSegment(b) && a != b
    ensures !(PathMatches(p, a) && PathMatches(p, b))
  {
    if PathMatches(p, a) && PathMatches(p, b) {
      if |a| <= |b| {
        BothMatch(p, a, b);
        SegmentPrefix(a, b);
      } else {
        BothMatch(p, b, a);
        SegmentPrefix(b, a);
      }
    }
  }

  lemma SegmentPrefix(a: string, b: string)
    requires OneSegment(a) && OneSegment(b) && a != b && |a| <= |b|
    ensures !(b[..|a|] == a && AllSlashes(b[|a|..]))
  {
    if |a| == |b| {
      assert b[..|a|] == b;
    } else {
      assert b[|a|..][0] == b[|a|] != '/';
    }
  }

  /** Every declared path is one segment and no two declared paths are equal. */
  lemma RoutesAreSegments()
    ensures forall i :: 0 <= i < |Routes| ==> OneSegment(Routes[i].path)
    ensures forall i, j :: 0 <= i < j < |Routes| ==> Routes[i].path != Routes[j].path
  {
  }

  /** Every declared path is written in lower case. */
  lemma RoutesAreLowerCase(i: nat)
    requires i < |Routes|
    ensures Text.Lower(Routes[i].path) == Routes[i].path
  {
    var p := Routes[i].path;
    assert forall k :: 0 <= k < |p| ==> !('A' <= p[k] <= 'Z');
    Text.LowerOfLowerCase(p);
  }

  /**
   * The route table is unambiguous: no pathname matches two routes, so the route React Router
   * ranks first is the only one that matches.
   */
  lemma AtMostOneRouteMatches(p: string, i: nat, j: nat)
    requires i < |Routes| && j < |Routes| && PathMatches(p, Routes[i].path) && PathMatches(p, Routes[j].path)
    ensures i == j
  {
    RoutesAreSegments();
    if i != j {
      if i < j {
        SegmentsExclusive(p, Routes[i].path, Routes[j].path);
      } else {
        SegmentsExclusive(p, Routes[j].path, Routes[i].path);
      }
    }
  }

  /**
   * The gate's rule stated on the route table: a public route shows its own view
   * (the root shows the Dashboard to a session instead), a protected route shows its
   * own view to a session and the Landing view, by substitution, to anyone else.
   */
  function Gate(route: Route, isAuthenticated: bool): View {
    if !route.protected then
      (if route.path == "/" && isAuthenticated then Dashboard else route.view)
    else if isAuthenticated then route.view
    else Landing
  }

  /**
   * The element each `<Route>` of App.jsx renders, one conditional per path; None when the
   * path matches no route (there is no catch-all route).
   */
  function RouteElement(path: string, isAuthenticated: bool): (v: Option<View>)
    ensures v == (match LookupRoute(path)
                  case None => None
                  case Some(r) => Some(Gate(r, isAuthenticated)))
  {
    if PathMatches(path, "/") then Some(if isAuthenticated then Dashboard else Landing)
    else if PathMatches(path, "/login") then Some(Login)
    else if PathMatches(path, "/signup") then Some(Signup)
    else if PathMatches(path, "/dashboard") then Some(if isAuthenticated then Dashboard else Landing)
    else if PathMatches(path, "/upload") then Some(if isAuthenticated then Upload else Landing)
    else if PathMatches(path, "/fix-plan") then Some(if isAuthenticated then FixPlan else Landing)
    else if PathMatches(path, "/ceo-report") then Some(if isAuthenticated then CeoReport else Landing)
    else None
  }

  /** A declared path in another letter case, or followed by slashes, renders what the path itself renders. */
  lemma VariantRendersAlike(path: string, i: nat, slashes: nat, isAuthenticated: bool)
    requires i < |Routes| && |path| == |Routes[i].path| && Text.Lower(path) == Routes[i].path
    ensures RouteElement(path + seq(slashes, _ => '/'), isAuthenticated) == RouteElement(Routes[i].path, isAuthenticated)
    ensures RouteElement(path + seq(slashes, _ => '/'), isAuthenticated) == Some(Gate(Routes[i], isAuthenticated))
  {
    var p := path + seq(slashes, _ => '/');
    assert p[..|Routes[i].path|] == path;
    assert p[|Routes[i].path|..] == seq(slashes, _ => '/');
    assert PathMatches(p, Routes[i].path);
    var j := MatchedIndex(p, i);
    AtMostOneRouteMatches(p, i, j);
    SelfMatch(i);
  }

  /** When `p` matches route `i`, the lookup finds a route, at some position `j` of the table. */
  lemma MatchedIndex(p: string, i: nat) returns (j: nat)
    requires i < |Routes| && PathMatches(p, Routes[i].path)
    ensures j < |Routes| && LookupRoute(p) == Some(Routes[j]) && PathMatches(p, Routes[j].path)
  {
    var r := LookupRoute(p);
    assert r.Some?;
    j :| 0 <= j < |Routes| && Routes[j] == r.value;
  }

  /** "/Dashboard" and "/dashboard/" reach the dashboard route like "/dashboard" does. */
  lemma CaseAndSlashVariants(isAuthenticated: bool)
    ensures RouteElement("/Dashboard", isAuthenticated) == Some(if isAuthenticated then Dashboard else Landing)
    ensures RouteElement("/dashboard/", isAuthenticated) == Some(if isAuthenticated then Dashboard else Landing)
  {
    assert Text.Lower("/Dashboard") == "/dashboard";
    assert "/Dashboard" + seq(0, _ => '/') == "/Dashboard";
    VariantRendersAlike("/Dashboard", 3, 0, isAuthenticated);
    Text.LowerOfLowerCase("/dashboard");
    assert "/dashboard" + seq(1, _ => '/') == "/dashboard/";
    VariantRendersAlike("/dashboard", 3, 1, isAuthenticated);
  }

  lemma SelfMatch(i: nat)
    requires i < |Routes|
    ensures LookupRoute(Routes[i].path) == Some(Routes[i])
  {
    var p := Routes[i].path;
    assert p[..|p|] == p && p[|p|..] == [];
    RoutesAreLowerCase(i);
    assert PathMatches(p, p);
    var j := MatchedIndex(p, i);
    AtMostOneRouteMatches(p, i, j);
  }

  predicate IsProtectedView(v: View) {
    v == Dashboard || v == Upload || v == FixPlan || v == CeoReport
  }

  /** Without a session no path renders a protected view; with one every protected path renders its own. */
  lemma ProtectedViewsNeedSession(path: string, isAuthenticated: bool)
    ensures !isAuthenticated && RouteElement(path, false).Some? ==> !IsProtectedView(RouteElement(path, false).value)
    ensures isAuthenticated ==> forall i :: 3 <= i < |Routes| ==> RouteElement(Routes[i].path, true) == Some(Routes[i].view)
    ensures forall i :: 1 <= i < |Routes| ==> Routes[i].protected ==> RouteElement(Routes[i].path, false) == Some(Landing)
  {
    if !isAuthenticated {
      NoSessionNoProtectedView(path);
    } else {
      SessionSeesProtectedViews();
    }
    ProtectedRoutesFallBack();
  }

  lemma NoSessionNoProtectedView(path: string)
    ensures RouteElement(path, false).Some? ==> !IsProtectedView(RouteElement(path, false).value)
  {
  }

  lemma SessionSeesProtectedViews()
    ensures forall i :: 3 <= i < |Routes| ==> RouteElement(Routes[i].path, true) == Some(Routes[i].view)
  {
    forall i | 3 <= i < |Routes|
      ensures RouteElement(Routes[i].path, true) == Some(Routes[i].view)
    {
      SelfMatch(i);
    }
  }

  lemma ProtectedRoutesFallBack()
    ensures forall i :: 1 <= i < |Routes| ==> Routes[i].protected ==> RouteElement(Routes[i].path, false) == Some(Landing)
  {
    forall i | 1 <= i < |Routes| && Routes[i].protected
      ensures RouteElement(Routes[i].path, false) == Some(Landing)
    {
      SelfMatch(i);
    }
  }

  /** What the App component returns for the current location. */
  datatype Screen =
    | LoadingScreen
    | Page(navigation: bool, view: Option<View>)

  /** The App component's state: whether a session exists and whether the startup check is pending. */
  class AppState {
    var isAuthenticated: bool
    var loading: bool

    constructor ()
      ensures !isAuthenticated && loading
    {
      isAuthenticated, loading := false, true;
    }

    /** The startup effect: a truthy stored token sets the session; loading ends either way. */
    method CheckStoredToken(browser: BrowserContext)
      modifies this
      ensures isAuthenticated == (old(isAuthenticated) || TokenTruthy(browser.authToken))
      ensures !loading
    {
      var token := browser.authToken;
      if TokenTruthy(token) {
        isAuthenticated := true;
      }
      loading := false;
    }

    /** The `setIsAuthenticated` callback handed to the login pages. */
    method SetIsAuthenticated(value: bool)
      modifies this
      ensures isAuthenticated == value && loading == old(loading)
    {
      isAuthenticated := value;
    }

    /**
     * The rendered screen: only the loading screen while the check is pending, then the
     * chrome exactly for a session and the routed view of `pathname`.
     */
    function Render(pathname: string): (s: Screen)
      reads this
      ensures loading <==> s == LoadingScreen
      ensures !loading ==> s.navigation == isAuthenticated && s.view == RouteElement(pathname, isAuthenticated)
    {
      if loading then LoadingScreen else Page(isAuthenticated, RouteElement(pathname, isAuthenticated))
    }
  }

  /** A page load: a fresh App whose startup check has run against the stored token. */
  method Startup(browser: BrowserContext) returns (app: AppState)
    ensures fresh(app)
    ensures app.isAuthenticated == TokenTruthy(browser.authToken) && !app.loading
  {
    app := new AppState();
    app.CheckStoredToken(browser);
  }
}
