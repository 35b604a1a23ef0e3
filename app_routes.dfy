/** The application's route table and the outcome of a navigation:
    which route the URL matches, where a redirect leads, and what the
    guards on the matched routes decide. */
module AppRoutes {
  import opened Common
  import opened Session
  import opened RoleGuard

  datatype Guard = AuthGuard | RoleGuardCheck

  /** One entry of the table: a redirect (`redirectTo`) or a page
      (`component`), with its guards, its `roles` data and its children.
      `full` is `pathMatch: 'full'`. */
  datatype Route = Route(
    path: string,
    full: bool,
    redirectTo: Option<string>,
    component: Option<string>,
    canActivate: seq<Guard>,
    roles: Option<seq<string>>,
    children: seq<Route>)

  function Redirect(path: string, to: string, full: bool): Route
  {
    Route(path, full, Some(to), None, [], None, [])
  }

  function Page(path: string, component: string, guards: seq<Guard>, roles: Option<seq<string>>, children: seq<Route>): Route
  {
    Route(path, false, None, Some(component), guards, roles, children)
  }

  const Wildcard := "**"

  const DashboardChildren: seq<Route> := [
    Redirect("", "patients", true),
    Page("patients", "PatientsComponent", [RoleGuardCheck], Some(["Receptionist", "Admin"]), []),
    Page("doctors", "DoctorsComponent", [RoleGuardCheck], Some(["Receptionist", "Admin"]), []),
    Page("visits", "VisitsComponent", [RoleGuardCheck], Some(["Doctor", "Admin"]), []),
    Page("fees", "FeesComponent", [RoleGuardCheck], Some(["Receptionist", "Admin"]), []),
    Page("activity-logs", "ActivityLogsComponent", [RoleGuardCheck], Some(["Admin"]), []),
    Page("profile", "ProfileComponent", [], None, [])
  ]

  const DashboardRoute: Route := Page("dashboard", "DashboardComponent", [AuthGuard], None, DashboardChildren)

  const RootRoute: Route := Redirect("", "/login", true)
  const LoginRoute: Route := Page("login", "LoginComponent", [], None, [])
  const RegisterRoute: Route := Page("register", "RegisterComponent", [], None, [])
  const FallbackRoute: Route := Redirect(Wildcard, "/login", false)

  const Routes: seq<Route> := [RootRoute, LoginRoute, RegisterRoute, DashboardRoute, FallbackRoute]

  /** The URL segments a path consumes. */
  function Segments(path: string): seq<string>
  {
    if path == "" then [] else [path]
  }

  /** No route of a chain is the wildcard, so every route in it consumed
      its own path. */
  predicate NoWildcard(chain: seq<Route>)
  {
    forall k :: 0 <= k < |chain| ==> chain[k].path != Wildcard
  }

  /** "/a/b" for ["a", "b"]. */
  function Url(segs: seq<string>): string
  {
    if segs == [] then "" else "/" + segs[0] + Url(segs[1..])
  }

  /** The URL segments consumed by the routes of a chain. */
  function ChainSegments(chain: seq<Route>): seq<string>
  {
    if chain == [] then [] else Segments(chain[0].path) + ChainSegments(chain[1..])
  }

  /** The first route of `routes` that matches `segs`, as the chain of
      matched routes from the outermost to the leaf. */
  function MatchRoutes(routes: seq<Route>, segs: seq<string>): (m: Option<seq<Route>>)
    ensures m.Some? ==> |m.value| > 0 && m.value[0] in routes
    decreases routes
  {
    if routes == [] then None
    else
      match MatchRoute(routes[0], segs)
      case Some(chain) => Some(chain)
      case None => MatchRoutes(routes[1..], segs)
  }

  /** A wildcard matches anything; a route without children matches its
      own path exactly; a parent matches its segment (none, for the empty
      path) followed by a URL one of its children matches. */
  function MatchRoute(r: Route, segs: seq<string>): (m: Option<seq<Route>>)
    ensures m.Some? ==> |m.value| > 0 && m.value[0] == r
    ensures r.path == Wildcard ==> m == Some([r])
    ensures r.path != Wildcard && r.children == [] ==> (m.Some? <==> segs == Segments(r.path))
    decreases r
  {
    if r.path == Wildcard then Some([r])
    else if r.children == [] then
      if segs == Segments(r.path) then Some([r]) else None
    else if r.path == "" then
      match MatchRoutes(r.children, segs)
      case Some(chain) => Some([r] + chain)
      case None => None
    else if |segs| > 0 && segs[0] == r.path then
      match MatchRoutes(r.children, segs[1..])
      case Some(chain) => Some([r] + chain)
      case None => None
    else None
  }



  /** Prepending a route to a chain prepends its path's segments. */
  lemma ChainPrepend(r: Route, chain: seq<Route>)
    ensures ChainSegments([r] + chain) == Segments(r.path) + ChainSegments(chain)
    ensures NoWildcard([r] + chain) ==> NoWildcard(chain)
  {
    assert ([r] + chain)[1..] == chain;
    if NoWildcard([r] + chain) {
      forall k | 0 <= k < |chain| ensures chain[k].path != Wildcard {
        assert chain[k] == ([r] + chain)[k + 1];
      }
    }
  }
  /** A match of a route list without the wildcard consumes exactly the
      URL: the segments of the matched routes, in order, are the URL's. */
  lemma {:induction false} RoutesConsumeUrl(routes: seq<Route>, segs: seq<string>)
    ensures var m := MatchRoutes(routes, segs);
            m.Some? && NoWildcard(m.value) ==> ChainSegments(m.value) == segs
    decreases routes
  {
    if routes != [] {
      RouteConsumesUrl(routes[0], segs);
      RoutesConsumeUrl(routes[1..], segs);
    }
  }

  /** A match of one route without the wildcard consumes exactly the URL. */
  lemma {:induction false} RouteConsumesUrl(r: Route, segs: seq<string>)
    ensures var m := MatchRoute(r, segs);
            m.Some? && NoWildcard(m.value) ==> ChainSegments(m.value) == segs
    decreases r
  {
    if r.path == Wildcard {
    } else if r.children == [] {
      assert ChainSegments([r]) == Segments(r.path) + ChainSegments([r][1..]);
    } else if r.path == "" {
      RoutesConsumeUrl(r.children, segs);
      if MatchRoutes(r.children, segs).Some? {
        ChainPrepend(r, MatchRoutes(r.children, segs).value);
      }
    } else if |segs| > 0 && segs[0] == r.path {
      RoutesConsumeUrl(r.children, segs[1..]);
      if MatchRoutes(r.children, segs[1..]).Some? {
        ChainPrepend(r, MatchRoutes(r.children, segs[1..]).value);
        assert segs == [r.path] + segs[1..];
      }
    }
  }

  /** Where a navigation ends: the page renders, a redirect or a guard
      sends it elsewhere, the authentication guard refuses it, or no
      route matches. */
  datatype Verdict = Render(component: string) | RedirectTo(url: string) | AuthGuardRefuses | NoMatch

  /** The guards of a chain, outer route first, each route's guards in
      order; the first refusal decides, and the navigation goes on only
      when every route of the chain lets it. */
  function RunGuards(chain: seq<Route>, user: Option<User>, authGuardAllows: bool): (r: Option<Verdict>)
    ensures r.None? <==> forall k :: 0 <= k < |chain| ==> RunRouteGuards(chain[k].canActivate, chain[k].roles, user, authGuardAllows).None?
    ensures r.Some? ==> r.value == AuthGuardRefuses || r.value.RedirectTo?
    ensures r == Some(AuthGuardRefuses) ==> !authGuardAllows
  {
    if chain == [] then None
    else
      match RunRouteGuards(chain[0].canActivate, chain[0].roles, user, authGuardAllows)
      case Some(v) => Some(v)
      case None =>
        var rest := RunGuards(chain[1..], user, authGuardAllows);
        assert forall k :: 1 <= k < |chain| ==> chain[k] == chain[1..][k - 1];
        rest
  }

  /** One route's guards in order: the authentication guard refuses
      unless it allows, the role guard redirects where `CanActivate`
      denies; a route passes only when each of its guards lets it. */
  function RunRouteGuards(guards: seq<Guard>, roles: Option<seq<string>>, user: Option<User>, authGuardAllows: bool): (r: Option<Verdict>)
    ensures r.None? <==> (AuthGuard in guards ==> authGuardAllows) && (RoleGuardCheck in guards ==> CanActivate(user, roles).Allow?)
    ensures r == Some(AuthGuardRefuses) ==> AuthGuard in guards && !authGuardAllows
    ensures r.Some? && r.value.RedirectTo? ==> RoleGuardCheck in guards && CanActivate(user, roles) == Deny(r.value.url)
    ensures r.Some? ==> r.value == AuthGuardRefuses || r.value.RedirectTo?
  {
    if guards == [] then None
    else
      assert guards == [guards[0]] + guards[1..];
      match guards[0]
      case AuthGuard =>
        if authGuardAllows then RunRouteGuards(guards[1..], roles, user, authGuardAllows) else Some(AuthGuardRefuses)
      case RoleGuardCheck =>
        match CanActivate(user, roles)
        case Allow => RunRouteGuards(guards[1..], roles, user, authGuardAllows)
        case Deny(target) => Some(RedirectTo(target))
  }

  /** The innermost route of a non-empty chain. */
  function Leaf(chain: seq<Route>): Route
    requires chain != []
  {
    chain[|chain| - 1]
  }

  /** The verdict for the URL `segs` with the session service's current
      user; the authentication guard's own decision, which is not part of
      this model, is the parameter `authGuardAllows`.  A page renders only
      when the URL matches it and every guard on its chain lets the
      navigation through; an unmatched URL is the only `NoMatch`. */
  function Navigate(segs: seq<string>, user: Option<User>, authGuardAllows: bool): (v: Verdict)
    ensures v == NoMatch <==> MatchRoutes(Routes, segs).None?
    ensures v.Render? ==> MatchRoutes(Routes, segs).Some? && RunGuards(MatchRoutes(Routes, segs).value, user, authGuardAllows).None?
    ensures v == AuthGuardRefuses ==> !authGuardAllows
    ensures (MatchRoutes(Routes, segs).Some? && Leaf(MatchRoutes(Routes, segs).value).redirectTo.None?
             && RunGuards(MatchRoutes(Routes, segs).value, user, authGuardAllows).None?) ==> v.Render?
  {
    match MatchRoutes(Routes, segs)
    case None => NoMatch
    case Some(chain) =>
      var leaf := chain[|chain| - 1];
      if leaf.redirectTo.Some? then
        var to := leaf.redirectTo.value;
        if |to| > 0 && to[0] == '/' then RedirectTo(to)
        else RedirectTo(Url(ChainSegments(chain[..|chain| - 1]) + [to]))
      else
        match RunGuards(chain, user, authGuardAllows)
        case Some(v) => v
        case None => Render(if leaf.component.Some? then leaf.component.value else "")
  }

  /** The login and registration pages render for everyone: they carry
      no guard. */
  lemma PublicPagesRender(user: Option<User>, authGuardAllows: bool)
    ensures Navigate(["login"], user, authGuardAllows) == Render("LoginComponent")
    ensures Navigate(["register"], user, authGuardAllows) == Render("RegisterComponent")
  {
    PublicPageRenders(["login"], LoginRoute, 1, user, authGuardAllows);
    PublicPageRenders(["register"], RegisterRoute, 2, user, authGuardAllows);
  }

  /** A guard-free public page of the table renders for its own URL. */
  lemma PublicPageRenders(segs: seq<string>, page: Route, i: nat, user: Option<User>, authGuardAllows: bool)
    requires i < |Routes| && Routes[i] == page && (page == LoginRoute || page == RegisterRoute)
    requires segs == [page.path]
    requires forall j :: 0 <= j < i ==> MatchRoute(Routes[j], segs).None?
    ensures Navigate(segs, user, authGuardAllows) == Render(page.component.value)
  {
    MatchFirst(Routes, segs, i);
    assert MatchRoutes(Routes, segs) == Some([page]);
    assert RunGuards([page], user, authGuardAllows) == None by {
      assert [page][1..] == [];
    }
  }

  /** A list holding a wildcard route matches every URL. */
  lemma {:induction false} WildcardMatches(routes: seq<Route>, segs: seq<string>, i: nat)
    requires i < |routes| && routes[i].path == Wildcard
    ensures MatchRoutes(routes, segs).Some?
  {
    if MatchRoute(routes[0], segs).None? {
      assert i > 0;
      assert routes[1..][i - 1] == routes[i];
      WildcardMatches(routes[1..], segs, i - 1);
    }
  }

  /** Because the table ends with the wildcard, no navigation is left
      without a match. */
  lemma EveryUrlMatches(segs: seq<string>, user: Option<User>, authGuardAllows: bool)
    ensures Navigate(segs, user, authGuardAllows) != NoMatch
  {
    WildcardMatches(Routes, segs, 4);
  }

  /** The first matching route of a list decides the match. */
  lemma {:induction false} MatchFirst(routes: seq<Route>, segs: seq<string>, i: nat)
    requires i < |routes|
    requires forall j :: 0 <= j < i ==> MatchRoute(routes[j], segs).None?
    requires MatchRoute(routes[i], segs).Some?
    ensures MatchRoutes(routes, segs) == MatchRoute(routes[i], segs)
  {
    if i > 0 {
      assert MatchRoute(routes[0], segs).None?;
      forall j | 0 <= j < i - 1 ensures MatchRoute(routes[1..][j], segs).None? {
        assert routes[1..][j] == routes[j + 1];
      }
      MatchFirst(routes[1..], segs, i - 1);
    }
  }

  /** A URL the table knows: the two public pages, or a dashboard URL one
      of the dashboard's children matches. */
  ghost predicate Known(segs: seq<string>)
  {
    segs == ["login"] || segs == ["register"]
    || (|segs| > 0 && segs[0] == "dashboard" && MatchRoutes(DashboardChildren, segs[1..]).Some?)
  }

  /** The empty URL and every URL the table does not know redirect to
      the login page, whoever is signed in. */
  lemma UnknownGoesToLogin(segs: seq<string>, user: Option<User>, authGuardAllows: bool)
    requires !Known(segs)
    ensures Navigate(segs, user, authGuardAllows) == RedirectTo(LoginUrl)
  {
    if segs == [] {
      MatchFirst(Routes, segs, 0);
    } else {
      UnknownSkipsNamed(segs);
      MatchFirst(Routes, segs, 4);
    }
  }

  /** A non-empty URL the table does not know passes over every route
      before the wildcard. */
  lemma UnknownSkipsNamed(segs: seq<string>)
    requires segs != [] && !Known(segs)
    ensures forall j :: 0 <= j < 4 ==> MatchRoute(Routes[j], segs).None?
  {
    LeafMisses(RootRoute, segs);
    LeafMisses(LoginRoute, segs);
    LeafMisses(RegisterRoute, segs);
    assert MatchRoute(DashboardRoute, segs).None?;
    PublicRoutesMiss(segs);
  }

  /** A route without children, other than the wildcard, misses every URL
      but its own path. */
  lemma LeafMisses(r: Route, segs: seq<string>)
    requires r.path != Wildcard && r.children == [] && segs != Segments(r.path)
    ensures MatchRoute(r, segs).None?
  {
  }

  /** The first three routes of the table are the public ones. */
  lemma PublicRoutesMiss(segs: seq<string>)
    requires MatchRoute(RootRoute, segs).None? && MatchRoute(LoginRoute, segs).None?
    requires MatchRoute(RegisterRoute, segs).None?
    ensures forall j :: 0 <= j < 3 ==> MatchRoute(Routes[j], segs).None?
  {
  }

  /** The paths of the dashboard's children, in table order. */
  lemma ChildPaths()
    ensures |DashboardChildren| == 7
    ensures DashboardChildren[0].path == "" && DashboardChildren[1].path == "patients"
    ensures DashboardChildren[2].path == "doctors" && DashboardChildren[3].path == "visits"
    ensures DashboardChildren[4].path == "fees" && DashboardChildren[5].path == "activity-logs"
    ensures DashboardChildren[6].path == "profile"
    ensures forall j :: 0 <= j < 7 ==> DashboardChildren[j].children == [] && DashboardChildren[j].path != Wildcard
  {
  }

  /** A parent route matches its own segment followed by a URL one of
      its children matches. */
  lemma ParentMatch(r: Route, rest: seq<string>, chain: seq<Route>)
    requires r.path != Wildcard && r.path != "" && r.children != []
    requires MatchRoutes(r.children, rest) == Some(chain)
    ensures MatchRoute(r, [r.path] + rest) == Some([r] + chain)
  {
    var segs := [r.path] + rest;
    assert segs[0] == r.path && segs[1..] == rest;
  }

  /** A URL that starts with "dashboard" passes over the first three
      routes. */
  lemma DashboardSkipsPublic(segs: seq<string>)
    requires |segs| > 0 && segs[0] == "dashboard"
    ensures forall j :: 0 <= j < 3 ==> MatchRoute(Routes[j], segs).None?
  {
    assert segs != [] && segs != ["login"] && segs != ["register"];
    LeafMisses(RootRoute, segs);
    LeafMisses(LoginRoute, segs);
    LeafMisses(RegisterRoute, segs);
    PublicRoutesMiss(segs);
  }

  /** A dashboard URL matches the dashboard route followed by the child
      that matches the rest of the URL. */
  lemma DashboardChain(rest: seq<string>, child: Route)
    requires MatchRoutes(DashboardChildren, rest) == Some([child])
    ensures MatchRoutes(Routes, ["dashboard"] + rest) == Some([DashboardRoute, child])
  {
    var segs := ["dashboard"] + rest;
    assert DashboardRoute.path == "dashboard" && DashboardRoute.children == DashboardChildren != [];
    ParentMatch(DashboardRoute, rest, [child]);
    assert [DashboardRoute] + [child] == [DashboardRoute, child];
    DashboardSkipsPublic(segs);
    assert Routes[3] == DashboardRoute;
    MatchFirst(Routes, segs, 3);
  }

  /** Each dashboard page is matched by its own path. */
  lemma ChildMatch(i: nat)
    requires 1 <= i < |DashboardChildren|
    ensures MatchRoutes(DashboardChildren, [DashboardChildren[i].path]) == Some([DashboardChildren[i]])
  {
    ChildPaths();
    var segs := [DashboardChildren[i].path];
    forall j | 0 <= j < i ensures MatchRoute(DashboardChildren[j], segs).None? {
      assert DashboardChildren[j].path != DashboardChildren[i].path;
    }
    MatchFirst(DashboardChildren, segs, i);
  }

  /** A URL whose chain ends in a relative redirect goes to the target
      resolved against the segments of the parent routes. */
  lemma RelativeRedirect(segs: seq<string>, chain: seq<Route>, user: Option<User>, authGuardAllows: bool)
    requires MatchRoutes(Routes, segs) == Some(chain)
    requires chain[|chain| - 1].redirectTo.Some?
    requires var to := chain[|chain| - 1].redirectTo.value; !(|to| > 0 && to[0] == '/')
    ensures Navigate(segs, user, authGuardAllows)
              == RedirectTo(Url(ChainSegments(chain[..|chain| - 1]) + [chain[|chain| - 1].redirectTo.value]))
  {
  }

  /** A target resolved against a single parent with a non-empty path. */
  lemma ParentUrl(r: Route, to: string)
    requires r.path != ""
    ensures Url(ChainSegments([r]) + [to]) == "/" + r.path + "/" + to
  {
    assert [r][1..] == [];
    assert ChainSegments([r]) == [r.path];
    var u := [r.path, to];
    assert [r.path] + [to] == u && u[1..] == [to] && [to][1..] == [];
    assert Url([to]) == "/" + to;
  }

  /** The dashboard's segment followed by "patients" is the patients URL. */
  lemma PatientsUrl()
    ensures Url(ChainSegments([DashboardRoute]) + ["patients"]) == "/dashboard/patients"
  {
    assert DashboardRoute.path == "dashboard";
    ParentUrl(DashboardRoute, "patients");
  }

  /** The dashboard's empty child sends the dashboard URL to its patients
      page. */
  lemma DashboardRedirectsToPatients(user: Option<User>, authGuardAllows: bool)
    ensures Navigate(["dashboard"], user, authGuardAllows) == RedirectTo("/dashboard/patients")
  {
    var empty: seq<string> := [];
    var child := DashboardChildren[0];
    assert child == Redirect("", "patients", true);
    assert MatchRoute(child, empty) == Some([child]);
    MatchFirst(DashboardChildren, empty, 0);
    DashboardChain(empty, child);
    assert ["dashboard"] + empty == ["dashboard"];
    var chain := [DashboardRoute, child];
    assert chain[|chain| - 1] == child && chain[..|chain| - 1] == [DashboardRoute];
    RelativeRedirect(["dashboard"], chain, user, authGuardAllows);
    PatientsUrl();
  }

  /** Every dashboard child but the first is a page with at most the
      role guard. */
  lemma ChildPages()
    ensures |DashboardChildren| == 7
    ensures forall j :: 1 <= j < 7 ==>
              DashboardChildren[j].redirectTo.None? && DashboardChildren[j].component.Some?
              && (DashboardChildren[j].canActivate == [] || DashboardChildren[j].canActivate == [RoleGuardCheck])
  {
  }

  /** The verdict of a URL that matches the dashboard and one of its
      pages. */
  lemma DashboardPageNavigation(segs: seq<string>, page: Route, user: Option<User>, authGuardAllows: bool)
    requires MatchRoutes(Routes, segs) == Some([DashboardRoute, page])
    requires page.redirectTo.None? && page.component.Some?
    requires page.canActivate == [] || page.canActivate == [RoleGuardCheck]
    ensures Navigate(segs, user, authGuardAllows) ==
              if !authGuardAllows then AuthGuardRefuses
              else if page.canActivate == [] then Render(page.component.value)
              else match CanActivate(user, page.roles)
                   case Allow => Render(page.component.value)
                   case Deny(target) => RedirectTo(target)
  {
    var chain := [DashboardRoute, page];
    assert chain[1..] == [page] && chain[|chain| - 1] == page;
    assert DashboardRoute.canActivate == [AuthGuard] && DashboardRoute.roles == None;
    var outer := RunRouteGuards([AuthGuard], None, user, authGuardAllows);
    assert [AuthGuard][0] == AuthGuard && [AuthGuard][1..] == [];
    assert RunRouteGuards([], None, user, authGuardAllows) == None;
    assert outer == if authGuardAllows then None else Some(AuthGuardRefuses);
    var inner := RunRouteGuards(page.canActivate, page.roles, user, authGuardAllows);
    assert RunGuards([page], user, authGuardAllows) == inner by {
      assert [page][1..] == [];
    }
    if page.canActivate == [] {
      assert inner == None;
    } else {
      assert page.canActivate[0] == RoleGuardCheck && page.canActivate[1..] == [];
      assert RunRouteGuards([], page.roles, user, authGuardAllows) == None;
      assert inner == match CanActivate(user, page.roles)
                      case Allow => None
                      case Deny(target) => Some(RedirectTo(target));
    }
  }

  /** The verdict for a dashboard page: the authentication guard first,
      then the page's role guard, if it has one, on its `roles` data. */
  lemma DashboardPageVerdict(i: nat, user: Option<User>, authGuardAllows: bool)
    requires 1 <= i < |DashboardChildren|
    ensures var page := DashboardChildren[i];
            Navigate(["dashboard", page.path], user, authGuardAllows) ==
              if !authGuardAllows then AuthGuardRefuses
              else if page.canActivate == [] then Render(page.component.value)
              else match CanActivate(user, page.roles)
                   case Allow => Render(page.component.value)
                   case Deny(target) => RedirectTo(target)
  {
    var page := DashboardChildren[i];
    ChildMatch(i);
    DashboardChain([page.path], page);
    assert ["dashboard"] + [page.path] == ["dashboard", page.path];
    ChildPages();
    DashboardPageNavigation(["dashboard", page.path], page, user, authGuardAllows);
  }

  /** An administrator is admitted to every dashboard page. */
  lemma AdminAdmittedEverywhere(u: User, i: nat)
    requires u.role == "Admin" && 1 <= i < |DashboardChildren|
    ensures Navigate(["dashboard", DashboardChildren[i].path], Some(u), true)
              == Render(DashboardChildren[i].component.value)
  {
    DashboardPageVerdict(i, Some(u), true);
  }

  /** A user with role "User" is admitted to the profile page only; every
      other dashboard page sends them to the dashboard. */
  lemma PlainUserOnlyProfile(u: User, i: nat)
    requires u.role == DefaultRole && 1 <= i < |DashboardChildren|
    ensures Navigate(["dashboard", DashboardChildren[i].path], Some(u), true).Render? <==> DashboardChildren[i].path == "profile"
    ensures DashboardChildren[i].path != "profile" ==>
              Navigate(["dashboard", DashboardChildren[i].path], Some(u), true) == RedirectTo(DashboardUrl)
  {
    DashboardPageVerdict(i, Some(u), true);
  }

  /** With no current user, a role-guarded dashboard page sends the
      navigation to the login page. */
  lemma NoUserGoesToLogin(i: nat)
    requires 1 <= i < |DashboardChildren| && DashboardChildren[i].canActivate != []
    ensures Navigate(["dashboard", DashboardChildren[i].path], None, true) == RedirectTo(LoginUrl)
  {
    DashboardPageVerdict(i, None, true);
  }

  /** The patients page admits receptionists and administrators and
      sends every other signed-in user to the dashboard. */
  lemma PatientsPageVerdict(u: User)
    ensures Navigate(["dashboard", "patients"], Some(u), true)
              == if u.role == "Receptionist" || u.role == "Admin" then Render("PatientsComponent") else RedirectTo(DashboardUrl)
  {
    var page := DashboardChildren[1];
    assert page == Page("patients", "PatientsComponent", [RoleGuardCheck], Some(["Receptionist", "Admin"]), []);
    DashboardPageVerdict(1, Some(u), true);
  }

  /** A signed-in user whose role is neither "Receptionist" nor "Admin"
      (a doctor, or a plain user) is sent from the dashboard to its
      patients page and from there back to the dashboard. */
  lemma DashboardLandingCycles(u: User)
    requires u.role != "Receptionist" && u.role != "Admin"
    ensures Navigate(["dashboard"], Some(u), true) == RedirectTo("/dashboard/patients")
    ensures Navigate(["dashboard", "patients"], Some(u), true) == RedirectTo(DashboardUrl)
  {
    DashboardRedirectsToPatients(Some(u), true);
    PatientsPageVerdict(u);
  }

  /** A doctor is admitted to the visits page and sent away from the
      activity-log page. */
  lemma DoctorVisitsNotLogs(u: User)
    requires u.role == "Doctor"
    ensures Navigate(["dashboard", "visits"], Some(u), true) == Render("VisitsComponent")
    ensures Navigate(["dashboard", "activity-logs"], Some(u), true) == RedirectTo(DashboardUrl)
  {
    DashboardPageVerdict(3, Some(u), true);
    DashboardPageVerdict(5, Some(u), true);
  }
}
