/** The application's routes and the navigation guard that keeps signed-out users on the
    login page and signed-in users off it. */
module Router {
  import opened Prelude

  datatype RouteMeta = RouteMeta(requiresAuth: bool, guestOnly: bool)

  /** What the guard tells the router: go on, or go to another path instead. */
  datatype Navigation = Proceed | Redirect(path: string)

  const AdminChildren: set<string> := {"/admin/users", "/admin/products", "/admin/clients", "/admin/audit"}

  /** The meta flags of the route a path matches (children inherit the `/admin` layout's);
      `None` for a path no route matches. */
  function RouteMetaOf(path: string): Option<RouteMeta>
  {
    if path == "/" then Some(RouteMeta(true, false))
    else if path == "/login" then Some(RouteMeta(false, true))
    else if path == "/admin" || path in AdminChildren then Some(RouteMeta(true, false))
    else None
  }

  /** The catch-all route: an unmatched path is redirected to the hub. */
  function Resolve(path: string): string
  {
    if RouteMetaOf(path).Some? then path else "/"
  }

  /** `beforeEach`: a protected route while signed out goes to the login page; otherwise a
      guest-only route while signed in goes to the hub; everything else proceeds. */
  function Guard(meta: RouteMeta, isAuthenticated: bool): (nav: Navigation)
    ensures nav.Redirect? ==> nav.path == "/login" || nav.path == "/"
  {
    if meta.requiresAuth && !isAuthenticated then Redirect("/login")
    else if meta.guestOnly && isAuthenticated then Redirect("/")
    else Proceed
  }

  /** A navigation proceeds exactly when the user's state meets both flags; a redirect only
      ever goes to the login page (signed out) or to the hub (signed in), and the protection
      check wins when a route carries both flags. */
  lemma GuardMeaning(meta: RouteMeta, isAuthenticated: bool)
    ensures Guard(meta, isAuthenticated) == Proceed <==>
      (!meta.requiresAuth || isAuthenticated) && (!meta.guestOnly || !isAuthenticated)
    ensures Guard(meta, isAuthenticated).Redirect? ==>
      Guard(meta, isAuthenticated).path == if isAuthenticated then "/" else "/login"
    ensures meta.requiresAuth && meta.guestOnly && !isAuthenticated ==> Guard(meta, isAuthenticated) == Redirect("/login")
  {
  }

  /** The route table: the hub, the admin layout and its pages need a session; the login page
      is for guests; every other path goes to the hub. */
  lemma RouteTable(path: string)
    ensures RouteMetaOf("/") == Some(RouteMeta(true, false))
    ensures RouteMetaOf("/login") == Some(RouteMeta(false, true))
    ensures RouteMetaOf("/admin") == Some(RouteMeta(true, false))
    ensures path in AdminChildren ==> RouteMetaOf(path) == Some(RouteMeta(true, false))
    ensures RouteMetaOf(path).None? ==> Resolve(path) == "/"
    ensures RouteMetaOf(Resolve(path)).Some?
  {
  }

  /** Where a navigation ends: the path after the catch-all, then after the guard's redirect,
      which the guard sees again. */
  function Destination(path: string, isAuthenticated: bool): string
  {
    var target := Resolve(path);
    match Guard(RouteMetaOf(target).value, isAuthenticated)
    case Proceed => target
    case Redirect(next) =>
      var again := Resolve(next);
      match Guard(RouteMetaOf(again).value, isAuthenticated)
      case Proceed => again
      case Redirect(last) => last
  }

  /** Every navigation settles after at most one redirect, on a route the guard lets through:
      signed-out users always end on the login page, signed-in users end anywhere but the
      login page, and on the page they asked for when it is a known page other than the
      login page. */
  lemma DestinationSettles(path: string, isAuthenticated: bool)
    ensures var d := Destination(path, isAuthenticated);
      RouteMetaOf(d).Some? && Guard(RouteMetaOf(d).value, isAuthenticated) == Proceed
    ensures !isAuthenticated ==> Destination(path, false) == "/login"
    ensures isAuthenticated ==> Destination(path, true) != "/login"
    ensures isAuthenticated && RouteMetaOf(path).Some? && path != "/login" ==> Destination(path, true) == path
  {
  }
}
