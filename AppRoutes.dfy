/** The shop's route table: the role guard around the admin and cashier areas, the
    login and register pages that send a signed-in user home, and the catch-all. */
module AppRoutes {
  import opened Base
  import opened AuthContext
  import opened Text

  datatype Render = RedirectTo(path: string) | RenderPage

  /** `user.role`, None when the profile has no role. */
  function RoleOf(user: Profile): Option<string>
  {
    if "role" in user then Some(user["role"]) else None
  }

  /** Where a signed-in user belongs: /admin for admins, /cashier for everyone else. */
  function HomeFor(user: Profile): (path: string)
    ensures path == "/admin" <==> RoleOf(user) == Some("admin")
    ensures path != "/admin" ==> path == "/cashier"
  {
    if RoleOf(user) == Some("admin") then "/admin" else "/cashier"
  }

  /** `ProtectedRoute`; a required role of None or '' means none is required. */
  function Guard(user: Option<Profile>, requiredRole: Option<string>): (r: Render)
    ensures user.None? ==> r == RedirectTo("/login")
    ensures r == RenderPage <==>
              user.Some? && (requiredRole.None? || requiredRole.value == "" || RoleOf(user.value) == requiredRole)
    ensures user.Some? && r.RedirectTo? ==> r.path == HomeFor(user.value)
  {
    if user.None? then RedirectTo("/login")
    else if requiredRole.Some? && requiredRole.value != "" && RoleOf(user.value) != requiredRole
    then RedirectTo(HomeFor(user.value))
    else RenderPage
  }

  /** The role each guarded area requires. */
  function AreaRole(path: string): Option<string>
  {
    if path == "/admin" then Some("admin") else if path == "/cashier" then Some("cashier") else None
  }

  /** An admin or a cashier is redirected at most once: the guard's target lets them in. */
  lemma GuardSettles(user: Profile, area: string)
    requires RoleOf(user) in {Some("admin"), Some("cashier")}
    ensures var r := Guard(Some(user), AreaRole(area));
            r == RenderPage || Guard(Some(user), AreaRole(r.path)) == RenderPage
  {
  }

  /** Any other role (a 'guest' from password login, say) is sent to /cashier by every
      area guard, the cashier guard included: it never gets in anywhere. */
  lemma OtherRolesLoop(user: Profile)
    requires RoleOf(user) !in {Some("admin"), Some("cashier")}
    ensures Guard(Some(user), AreaRole("/admin")) == RedirectTo("/cashier")
    ensures Guard(Some(user), AreaRole("/cashier")) == RedirectTo("/cashier")
  {
  }

  /** /login and /register: a signed-in user goes home, anyone else sees the page. */
  function PublicAuthPage(user: Option<Profile>): (r: Render)
    ensures r == RenderPage <==> user.None?
    ensures user.Some? ==> r == RedirectTo(HomeFor(user.value))
  {
    if user.Some? then RedirectTo(HomeFor(user.value)) else RenderPage
  }

  /** The paths the table knows, nested paths joined to their parent; everything else goes to /. */
  const KnownPaths: set<string> := {"/", "/about", "/services", "/contact", "/login", "/register", "/verify-code",
    "/admin", "/admin/inventory", "/admin/sales", "/admin/staff", "/admin/activity", "/admin/credit-approval",
    "/admin/expenses", "/admin/settings", "/cashier", "/cashier/my-sales", "/cashier/settings"}

  predicate AllSlashes(s: string)
  {
    forall i :: 0 <= i < |s| ==> s[i] == '/'
  }

  /** How React Router v6 matches a route path against the location: the whole location must
      be the route path, compared ignoring case, followed by any number of '/' (no more). */
  predicate RouterMatches(route: string, path: string)
  {
    |path| >= |route| && Lower(path[..|route|]) == route && AllSlashes(path[|route|..])
  }

  /** A route path as the table writes it: "/" itself, or a path that does not end in '/'. */
  predicate RouteShaped(route: string)
  {
    route == "/" || (|route| > 0 && route[|route| - 1] != '/')
  }

  /** The path with every trailing '/' removed. */
  function TrimTrailingSlashes(path: string): (t: string)
    ensures |t| <= |path| && t == path[..|t|] && AllSlashes(path[|t|..])
    ensures t == "" || t[|t| - 1] != '/'
  {
    if |path| > 0 && path[|path| - 1] == '/' then TrimTrailingSlashes(path[..|path| - 1]) else path
  }

  /** The key the catch-all looks up: a path of slashes only is the root, anything else
      loses its trailing slashes and is lower-cased. */
  function RouteKey(path: string): string
  {
    var t := TrimTrailingSlashes(path);
    if t == "" && path != "" then "/" else Lower(t)
  }

  /** Removing trailing slashes gives the one prefix that leaves only slashes behind and
      does not itself end in '/'. */
  lemma {:induction false} TrimTrailingSlashesUnique(path: string, n: nat)
    requires n <= |path| && AllSlashes(path[n..])
    requires n == 0 || path[n - 1] != '/'
    ensures TrimTrailingSlashes(path) == path[..n]
    decreases |path|
  {
    if |path| > n {
      assert path[|path| - 1] == path[n..][|path| - 1 - n];
      var p := path[..|path| - 1];
      assert p[..n] == path[..n];
      assert forall i :: 0 <= i < |p[n..]| ==> p[n..][i] == path[n..][i];
      TrimTrailingSlashesUnique(p, n);
    } else {
      assert path[..n] == path;
    }
  }

  /** For a route path as the table writes it, the router's match and the key lookup agree. */
  lemma RouteKeyMatches(route: string, path: string)
    requires RouteShaped(route)
    ensures RouterMatches(route, path) <==> RouteKey(path) == route
  {
    var t := TrimTrailingSlashes(path);
    if RouterMatches(route, path) {
      if route == "/" {
        assert LowerChar(path[0]) == Lower(path[..1])[0];
        assert AllSlashes(path[0..]) by {
          forall i | 0 <= i < |path| ensures path[i] == '/' {
            if i > 0 { assert path[i] == path[1..][i - 1]; }
          }
        }
        TrimTrailingSlashesUnique(path, 0);
      } else {
        var n := |route|;
        assert LowerChar(path[n - 1]) == Lower(path[..n])[n - 1];
        TrimTrailingSlashesUnique(path, n);
      }
    }
    if RouteKey(path) == route {
      if t == "" && path != "" {
        assert path[..1] == "/" by { assert path[0] == path[|t|..][0]; }
        assert forall i :: 0 <= i < |path[1..]| ==> path[1..][i] == path[|t|..][i + 1];
      } else {
        assert Lower(t) == route;
      }
    }
  }

  /** Every route of the table is matched exactly when the key lookup finds it. */
  lemma KnownRoutesMatchByKey(path: string)
    ensures forall route :: route in KnownPaths ==> (RouterMatches(route, path) <==> RouteKey(path) == route)
  {
    forall route | route in KnownPaths
      ensures RouterMatches(route, path) <==> RouteKey(path) == route
    {
      RouteKeyMatches(route, path);
    }
  }

  /** The catch-all route: a path no route matches (in React Router's sense) goes to /. */
  function CatchAll(path: string): (r: Render)
    ensures r == RenderPage <==> exists route :: route in KnownPaths && RouterMatches(route, path)
    ensures r != RenderPage ==> r == RedirectTo("/")
  {
    KnownRoutesMatchByKey(path);
    if RouteKey(path) in KnownPaths then RenderPage else RedirectTo("/")
  }

  /** Appending a '/' or upper-casing the path never changes what the catch-all does. */
  lemma CatchAllIgnoresCaseAndTrailingSlash(path: string)
    ensures CatchAll(path + "/") == CatchAll(path) || path == ""
    ensures CatchAll(Upper(path)) == CatchAll(path)
  {
    if path != "" {
      var q := path + "/";
      assert q[..|q| - 1] == path;
    }
    var u := Upper(path);
    var t := TrimTrailingSlashes(path);
    assert forall i :: 0 <= i < |u| ==> (u[i] == '/' <==> path[i] == '/');
    assert u[|t|..] == Upper(path[|t|..]);
    TrimTrailingSlashesUnique(u, |t|);
    assert Lower(u[..|t|]) == Lower(t);
  }

  /** "/about/" renders the About page and "/Admin" reaches the admin guard; "/nowhere" goes to /. */
  lemma CatchAllExamples()
    ensures CatchAll("/about/") == RenderPage
    ensures CatchAll("/Admin") == RenderPage
    ensures CatchAll("/nowhere") == RedirectTo("/")
  {
    TrimTrailingSlashesUnique("/about/", 6);
    assert RouteKey("/about/") == "/about";
    TrimTrailingSlashesUnique("/Admin", 6);
    assert RouteKey("/Admin") == "/admin";
    TrimTrailingSlashesUnique("/nowhere", 8);
    assert RouteKey("/nowhere") == "/nowhere";
  }
}
