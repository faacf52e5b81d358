/** The application's routes (src/App.tsx). */
module App {
  import opened Options
  import AuthContext
  import ProtectedRoutes

  /** `hideNav`: the sign-in and signed-out pages have no navigation bar. */
  predicate HideNav(path: string) {
    path == "/signin" || path == "/signed-out"
  }

  datatype Page = SignIn | SignedOut | OrderSuccess | HomePage | CheckoutPage

  /** A route: its full path, the page it renders, and whether it sits under `ProtectedRoutes`. */
  datatype Route = Route(path: string, page: Page, protected: bool)

  /** The `<Routes>` table, with the nested paths written out in full. */
  const RouteTable: seq<Route> := [
    Route("/signin", SignIn, false),
    Route("/signed-out", SignedOut, false),
    Route("/order-success", OrderSuccess, false),
    Route("/", HomePage, true),
    Route("/home", HomePage, true),
    Route("/checkout", CheckoutPage, true)
  ]

  /** The first route of `routes` whose path is `path`. */
  function Match(routes: seq<Route>, path: string): (r: Option<Route>)
    ensures r.Some? ==> r.value in routes && r.value.path == path
    ensures r.None? ==> forall k :: 0 <= k < |routes| ==> routes[k].path != path
  {
    if routes == [] then None
    else if routes[0].path == path then Some(routes[0])
    else Match(routes[1..], path)
  }

  /** What the screen shows below the (optional) navigation bar. */
  datatype Screen = NoMatch | Loading | RedirectTo(to: string, replace: bool) | Shows(page: Page)

  /** The routed content for a path and the auth context's state. */
  function Render(path: string, loading: bool, user: Option<AuthContext.User>): Screen {
    match Match(RouteTable, path)
    case None => NoMatch
    case Some(route) =>
      if !route.protected then Shows(route.page)
      else
        match ProtectedRoutes.Decide(loading, user)
        case LoadingScreen => Loading
        case Redirect(to, replace) => RedirectTo(to, replace)
        case Outlet => Shows(route.page)
  }

  /** The sign-in, signed-out and order-success pages render whatever the auth state. */
  lemma PublicRoutesUngated(loading: bool, user: Option<AuthContext.User>)
    ensures Render("/signin", loading, user) == Shows(SignIn)
    ensures Render("/signed-out", loading, user) == Shows(SignedOut)
    ensures Render("/order-success", loading, user) == Shows(OrderSuccess)
  {
  }

  /** `/`, `/home` and `/checkout` sit under the gate, and only those. */
  lemma ProtectedPaths(path: string)
    ensures (exists k :: 0 <= k < |RouteTable| && RouteTable[k].path == path && RouteTable[k].protected)
      <==> path in {"/", "/home", "/checkout"}
  {
    if path in {"/", "/home", "/checkout"} {
      var k := if path == "/" then 3 else if path == "/home" then 4 else 5;
      assert RouteTable[k].path == path && RouteTable[k].protected;
    }
  }

  /** `/` and `/home` both select the home page under the gate. */
  lemma HomeMatches()
    ensures Match(RouteTable, "/") == Some(Route("/", HomePage, true))
    ensures Match(RouteTable, "/home") == Some(Route("/home", HomePage, true))
  {
    assert RouteTable[3..][0] == Route("/", HomePage, true);
    assert RouteTable[4..][0] == Route("/home", HomePage, true);
    assert Match(RouteTable[3..], "/") == Some(Route("/", HomePage, true));
    assert Match(RouteTable[4..], "/home") == Some(Route("/home", HomePage, true));
    assert Match(RouteTable[3..], "/home") == Match(RouteTable[4..], "/home");
  }

  /** `/` and `/home` are the same page. */
  lemma HomeAliases(loading: bool, user: Option<AuthContext.User>)
    ensures Render("/", loading, user) == Render("/home", loading, user)
    ensures !loading && user.Some? ==> Render("/", loading, user) == Shows(HomePage)
  {
    HomeMatches();
  }

  /** The checkout content renders exactly when the auth state is settled and a user is present. */
  lemma CheckoutNeedsUser(loading: bool, user: Option<AuthContext.User>)
    ensures Render("/checkout", loading, user) == Shows(CheckoutPage) <==> !loading && user.Some?
    ensures !loading && user.None? ==> Render("/checkout", loading, user) == RedirectTo("/signin", true)
  {
  }

  /** The gate's redirect target renders without the gate and without the navigation bar, so it cannot loop. */
  lemma RedirectTargetPublic(loading: bool, user: Option<AuthContext.User>)
    ensures Render("/signin", loading, user) == Shows(SignIn) && HideNav("/signin")
  {
  }

  /** The navigation bar is shown on every gated page. */
  lemma NavShownOnGatedPages(path: string)
    requires path in {"/", "/home", "/checkout", "/order-success"}
    ensures !HideNav(path)
  {
  }
}
