/**
 * The top-level router: paths under "/dashboard" go to the protected switch (no navbar or
 * footer), everything else to the public switch; a dashboard page is wrapped in
 * `ProtectedRoute`, which waits for the current-user query and redirects to "/signin" when
 * there is no user.
 */
module AppRouter {
  import opened Wrappers
  import opened Text
  import opened ClientState
  import Navbar
  import DashboardSidebar

  datatype Page =
    | Home | Services | Tracking | About | Contact | SignUp | SignIn
    | Dashboard | Jobs | Invoices | Requests | Profile
    | NotFound

  predicate IsDashboardPage(p: Page)
  {
    p.Dashboard? || p.Jobs? || p.Invoices? || p.Requests? || p.Profile?
  }

  /** The protected `<Switch>`: the first route whose path is the location, else NotFound. */
  function ProtectedSwitch(location: string): (p: Page)
    ensures p != NotFound ==> IsDashboardPage(p)
    ensures p != NotFound <==>
      location in {"/dashboard", "/dashboard/jobs", "/dashboard/invoices", "/dashboard/requests", "/dashboard/profile"}
  {
    if location == "/dashboard" then Dashboard
    else if location == "/dashboard/jobs" then Jobs
    else if location == "/dashboard/invoices" then Invoices
    else if location == "/dashboard/requests" then Requests
    else if location == "/dashboard/profile" then Profile
    else NotFound
  }

  /** The public `<Switch>`. */
  function PublicSwitch(location: string): (p: Page)
    ensures !IsDashboardPage(p)
    ensures p != NotFound <==>
      location in {"/", "/services", "/tracking", "/about", "/contact", "/signup", "/signin"}
  {
    if location == "/" then Home
    else if location == "/services" then Services
    else if location == "/tracking" then Tracking
    else if location == "/about" then About
    else if location == "/contact" then Contact
    else if location == "/signup" then SignUp
    else if location == "/signin" then SignIn
    else NotFound
  }

  datatype Routed = Routed(protected: bool, page: Page)

  /** `Router`: the split on `location.startsWith("/dashboard")`. */
  function Router(location: string): (r: Routed)
    ensures r.protected <==> StartsWith(location, "/dashboard")
    ensures IsDashboardPage(r.page) ==> r.protected
  {
    if StartsWith(location, "/dashboard") then Routed(true, ProtectedSwitch(location))
    else Routed(false, PublicSwitch(location))
  }

  /** A path that only shares the prefix enters the protected switch and finds no route. */
  lemma PrefixOnlyPathIsNotFound()
    ensures Router("/dashboards") == Routed(true, NotFound)
    ensures Router("/dashboard/jobs/42") == Routed(true, NotFound)
  {
    assert "/dashboards"[..10] == "/dashboard";
    assert "/dashboard/jobs/42"[..10] == "/dashboard";
  }

  /** Every sidebar link leads, behind the guard, to the page it names. */
  lemma SidebarLinksRouteToDashboardPages(i: nat)
    requires i < |DashboardSidebar.Navigation|
    ensures Router(DashboardSidebar.Navigation[i].href) ==
      Routed(true, [Dashboard, Jobs, Invoices, Requests, Profile][i])
  {
    var h := DashboardSidebar.Navigation[i].href;
    assert h[..10] == "/dashboard";
  }

  /** Every navbar link leads, without the guard, to the page it names. */
  lemma NavbarLinksRouteToPublicPages(i: nat)
    requires i < |Navbar.NavigationItems|
    ensures Router(Navbar.NavigationItems[i].href) ==
      Routed(false, [Home, Services, Tracking, About, Contact][i])
  {
  }

  /** The state of the `/api/auth/user` query: loading, failed, and whether it returned a user. */
  datatype AuthQuery = AuthQuery(isLoading: bool, hasError: bool, hasUser: bool)

  datatype View = Spinner | Blank | InLayout(page: Page) | Plain(page: Page)

  /** What `ProtectedRoute` renders, and where its effect sends the user. */
  datatype Guarded = Guarded(view: View, redirect: Option<string>)

  function ProtectedRoute(page: Page, auth: AuthQuery): (g: Guarded)
    ensures auth.isLoading ==> g == Guarded(Spinner, None)
    ensures !auth.isLoading && (auth.hasError || !auth.hasUser) ==> g == Guarded(Blank, Some("/signin"))
    ensures !auth.isLoading && !auth.hasError && auth.hasUser ==> g == Guarded(InLayout(page), None)
  {
    var redirect := if !auth.isLoading && (auth.hasError || !auth.hasUser) then Some("/signin") else None;
    if auth.isLoading then Guarded(Spinner, redirect)
    else if auth.hasError || !auth.hasUser then Guarded(Blank, redirect)
    else Guarded(InLayout(page), redirect)
  }

  /** The whole screen: whether the navbar and footer frame it, its view and any redirect. */
  datatype Screen = Screen(publicChrome: bool, view: View, redirect: Option<string>)

  function Render(location: string, auth: AuthQuery): (r: Screen)
    ensures r.publicChrome <==> !StartsWith(location, "/dashboard")
    ensures r.view.Plain? ==> r.view.page == Router(location).page && r.redirect.None?
    ensures !r.view.Plain? ==> IsDashboardPage(Router(location).page)
  {
    var routed := Router(location);
    if !routed.protected then Screen(true, Plain(routed.page), None)
    else if routed.page == NotFound then Screen(false, Plain(NotFound), None)
    else
      var g := ProtectedRoute(routed.page, auth);
      Screen(false, g.view, g.redirect)
  }

  /** Dashboard content is only ever shown, inside the dashboard layout, to a signed-in user. */
  lemma DashboardContentNeedsUser(location: string, auth: AuthQuery)
    ensures Render(location, auth).view.InLayout? ==>
      && !auth.isLoading && !auth.hasError && auth.hasUser
      && IsDashboardPage(Render(location, auth).view.page)
      && Render(location, auth).view.page == Router(location).page
    ensures Render(location, auth).view.Plain? ==> !IsDashboardPage(Render(location, auth).view.page)
  {
  }

  /** A redirect happens only on a dashboard page, once loading is over, and always to "/signin". */
  lemma RedirectOnlyFromGuard(location: string, auth: AuthQuery)
    ensures Render(location, auth).redirect.Some? <==>
      IsDashboardPage(Router(location).page) && !auth.isLoading && (auth.hasError || !auth.hasUser)
    ensures Render(location, auth).redirect.Some? ==> Render(location, auth).redirect == Some("/signin")
  {
  }

  /** `ProtectedRoute`'s effect: `setLocation("/signin")` when loading is over and there is no user. */
  method ProtectedRouteEffect(app: AppState, auth: AuthQuery)
    modifies app
    ensures app.location == (if !auth.isLoading && (auth.hasError || !auth.hasUser) then "/signin" else old(app.location))
    ensures app.queryCache == old(app.queryCache) && app.toasts == old(app.toasts)
  {
    if !auth.isLoading && (auth.hasError || !auth.hasUser) {
      app.location := "/signin";
    }
  }
}
