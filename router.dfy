/**
 * The route table and the `beforeEach` navigation guard of src/router/index.ts.
 * The guard is a pure decision over the target route and the session's
 * `isAuthenticated` flag; it selects exactly one outcome per navigation attempt.
 */
module Router {
  import opened Wrappers
  import AuthStore

  /** A route record: its path, its name (absent for an unmatched route) and `meta.requiresAuth` (false when unset). */
  datatype Route = Route(path: string, name: Option<string>, requiresAuth: bool)

  const LoginRoute: Route := Route("/", Some("login"), false)
  const QueryRoute: Route := Route("/query", Some("query"), true)
  const AboutRoute: Route := Route("/about", Some("about"), false)

  /** The router's table, in declaration order. */
  const Routes: seq<Route> := [LoginRoute, QueryRoute, AboutRoute]

  /** The argument given to `next`: none (proceed) or a named route to redirect to. */
  datatype Decision = Proceed | RedirectTo(target: string)

  /** The guard's choice for a navigation to `to` when the session's flag is `authed`. */
  function Decide(to: Route, authed: bool): (d: Decision)
    ensures d == RedirectTo("login") <==> to.requiresAuth && !authed
    ensures d == RedirectTo("query") <==> to.name == Some("login") && authed
    ensures d == Proceed <==> (!to.requiresAuth || authed) && (to.name != Some("login") || !authed)
  {
    if to.requiresAuth && !authed then RedirectTo("login")
    else if to.name == Some("login") && authed then RedirectTo("query")
    else Proceed
  }

  /** The first route of `table` that `matches` accepts, as the router resolves a name or a path. */
  function Find(table: seq<Route>, matches: Route -> bool): (r: Option<Route>)
    ensures r.Some? ==> r.value in table && matches(r.value)
    ensures r.None? ==> forall x :: x in table ==> !matches(x)
  {
    if table == [] then None
    else if matches(table[0]) then Some(table[0])
    else Find(table[1..], matches)
  }

  /** The route the router resolves `{ name }` to. */
  function RouteNamed(name: string): (r: Option<Route>)
  {
    Find(Routes, (r: Route) => r.name == Some(name))
  }

  /** The route the router resolves a path to. */
  function RouteAt(path: string): (r: Option<Route>)
  {
    Find(Routes, (r: Route) => r.path == path)
  }

  /** After the route names are known: the lookups the guard and the 401 handler depend on. */
  lemma RouteLookups()
    ensures RouteNamed("login") == Some(LoginRoute)
    ensures RouteNamed("query") == Some(QueryRoute)
    ensures RouteAt("/") == Some(LoginRoute)
    ensures RouteAt("/query") == Some(QueryRoute)
  {
    assert Routes[0] == LoginRoute;
    assert Routes[1..] == [QueryRoute, AboutRoute];
    assert LoginRoute.name != Some("query");
    assert Find(Routes, (r: Route) => r.name == Some("query")) == Find([QueryRoute, AboutRoute], (r: Route) => r.name == Some("query"));
  }

  /** No two routes of the table share a name or a path, and exactly one route requires authentication. */
  lemma RouteTableWellFormed()
    ensures forall i, j :: 0 <= i < j < |Routes| ==> Routes[i].name != Routes[j].name && Routes[i].path != Routes[j].path
    ensures forall r :: r in Routes && r.requiresAuth ==> r == QueryRoute
    ensures forall r :: r in Routes ==> r.name.Some?
  {
  }

  /**
   * Where a navigation attempt to `to` lands: `to` itself when the guard
   * proceeds, otherwise the route the redirect names.
   */
  function Navigate(to: Route, authed: bool): (r: Option<Route>)
    ensures Decide(to, authed) == Proceed ==> r == Some(to)
    ensures Decide(to, authed).RedirectTo? ==>
              r.Some? && r.value in Routes && r.value.name == Some(Decide(to, authed).target)
  {
    match Decide(to, authed)
    case Proceed => Some(to)
    case RedirectTo(n) => RouteLookups(); RouteNamed(n)
  }

  /** Redirects never chain: every redirect target exists, and the guard lets it through with the same flag. */
  lemma RedirectsConverge(to: Route, authed: bool)
    ensures Navigate(to, authed).Some?
    ensures Decide(Navigate(to, authed).value, authed) == Proceed
  {
    RouteLookups();
  }

  /** An unauthenticated session never lands on a route that requires authentication, `/query` included. */
  lemma UnauthenticatedNeverReachesProtected(to: Route)
    ensures Navigate(to, false).Some?
    ensures !Navigate(to, false).value.requiresAuth
    ensures to in Routes ==> Navigate(to, false).value.path != "/query"
  {
  }

  /** An authenticated session is never redirected to, and never lands on, the login route, whatever the target. */
  lemma AuthenticatedNeverSentToLogin(to: Route)
    ensures Decide(to, true) != RedirectTo("login")
    ensures Navigate(to, true).Some? && Navigate(to, true).value.name != Some("login")
  {
  }

  /** The `beforeEach` hook: reads the session's flag, changes nothing, and yields one decision. */
  method BeforeEach(to: Route, session: AuthStore.Session) returns (d: Decision)
    ensures d == Decide(to, session.IsAuthenticated())
  {
    var authed := session.IsAuthenticated();
    d := Decide(to, authed);
  }

  /** A log of the paths given to `router.push`, in call order. */
  class Navigator {
    var pushes: seq<string>

    constructor ()
      ensures pushes == []
    {
      pushes := [];
    }

    /** `router.push(path)`. */
    method Push(path: string)
      modifies this
      ensures pushes == old(pushes) + [path]
    {
      pushes := pushes + [path];
    }
  }
}
