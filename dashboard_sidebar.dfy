/** The dashboard sidebar: which entries are highlighted, and the effects of signing out. */
module DashboardSidebar {
  import opened Text
  import opened ClientState

  datatype NavEntry = NavEntry(name: string, href: string)

  const Navigation: seq<NavEntry> := [
    NavEntry("Dashboard", "/dashboard"),
    NavEntry("Jobs", "/dashboard/jobs"),
    NavEntry("Invoice List", "/dashboard/invoices"),
    NavEntry("Send Request", "/dashboard/requests"),
    NavEntry("Profile", "/dashboard/profile")
  ]

  /** `location.startsWith(item.href)`: the location agrees with the href at each of its positions. */
  function IsActive(location: string, entry: NavEntry): (active: bool)
    ensures active <==>
      |entry.href| <= |location| && forall k :: 0 <= k < |entry.href| ==> location[k] == entry.href[k]
  {
    StartsWith(location, entry.href)
  }

  /** The names of the highlighted entries, in sidebar order. */
  function ActiveNames(location: string, entries: seq<NavEntry>): (names: seq<string>)
    ensures |names| <= |entries|
    ensures forall n :: n in names <==> exists e :: e in entries && IsActive(location, e) && e.name == n
    ensures entries != [] && IsActive(location, entries[0]) ==> names != [] && names[0] == entries[0].name
  {
    if entries == [] then []
    else
      var head := if IsActive(location, entries[0]) then [entries[0].name] else [];
      head + ActiveNames(location, entries[1..])
  }

  /** "Dashboard" is highlighted whenever any entry is, because its href prefixes all the others. */
  lemma DashboardActiveWhenAnyActive(location: string, i: nat)
    requires i < |Navigation| && IsActive(location, Navigation[i])
    ensures IsActive(location, Navigation[0])
  {
    var h := Navigation[i].href;
    assert h[..|"/dashboard"|] == "/dashboard";
    StartsWithTransitive(location, h, "/dashboard");
  }

  /** Wherever the user is, either nothing is highlighted or "Dashboard" is, at the top. */
  lemma HighlightStartsAtDashboard(location: string)
    ensures ActiveNames(location, Navigation) == [] || ActiveNames(location, Navigation)[0] == "Dashboard"
  {
    var names := ActiveNames(location, Navigation);
    if names != [] && !IsActive(location, Navigation[0]) {
      assert names[0] in names;
      var e :| e in Navigation && IsActive(location, e) && e.name == names[0];
      var i :| 0 <= i < |Navigation| && Navigation[i] == e;
      DashboardActiveWhenAnyActive(location, i);
      assert false;
    }
  }

  /** On the jobs page exactly two entries are highlighted: Dashboard and Jobs. */
  lemma TwoActiveOnJobsPage()
    ensures ActiveNames("/dashboard/jobs", Navigation) == ["Dashboard", "Jobs"]
  {
    var loc := "/dashboard/jobs";
    assert IsActive(loc, Navigation[0]) && IsActive(loc, Navigation[1]);
    assert !IsActive(loc, Navigation[2]) by { assert loc[11] != Navigation[2].href[11]; }
    assert !IsActive(loc, Navigation[3]) by { assert loc[11] != Navigation[3].href[11]; }
    assert !IsActive(loc, Navigation[4]) by { assert loc[11] != Navigation[4].href[11]; }
    assert Navigation[1..][1..][1..][1..][1..] == [];
  }

  /**
   * The sign-out mutation has settled: on success the query cache is cleared and the user is
   * sent to "/signin"; on failure only a destructive toast is added.
   */
  method SignOutSettled(app: AppState, succeeded: bool)
    modifies app
    ensures succeeded ==> app.queryCache == {} && app.location == "/signin"
    ensures succeeded ==> app.toasts == old(app.toasts) + [Toast("Signed out successfully", "You have been logged out", false)]
    ensures !succeeded ==> app.queryCache == old(app.queryCache) && app.location == old(app.location)
    ensures !succeeded ==> app.toasts == old(app.toasts) + [Toast("Sign out failed", "Please try again", true)]
  {
    if succeeded {
      app.queryCache := {};
      app.location := "/signin";
      app.toasts := app.toasts + [Toast("Signed out successfully", "You have been logged out", false)];
    } else {
      app.toasts := app.toasts + [Toast("Sign out failed", "Please try again", true)];
    }
  }
}
