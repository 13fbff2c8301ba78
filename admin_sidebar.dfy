/** The admin sidebar: a fixed table of routes, each highlighted when the
    current path starts with its href. */
module AdminSidebar {
  import opened Text

  datatype Route = Route(name: string, href: string)

  const Routes: seq<Route> := [
    Route("Dashboard", "/admin"),
    Route("Blog", "/admin/blog"),
    Route("Users", "/admin/users"),
    Route("Settings", "/admin/settings")
  ]

  /** `pathname.startsWith(route.href)`. */
  predicate IsActive(route: Route, pathname: string)
  {
    StartsWith(pathname, route.href)
  }

  /** The names of the highlighted routes, in table order. */
  function ActiveLabels(routes: seq<Route>, pathname: string): (r: seq<string>)
    ensures |r| <= |routes|
    ensures forall i :: 0 <= i < |routes| && IsActive(routes[i], pathname) ==> routes[i].name in r
    ensures forall l :: l in r ==> exists i :: 0 <= i < |routes| && routes[i].name == l && IsActive(routes[i], pathname)
  {
    if routes == [] then []
    else if IsActive(routes[0], pathname) then [routes[0].name] + ActiveLabels(routes[1..], pathname)
    else ActiveLabels(routes[1..], pathname)
  }

  /** Every href of the table starts with `/admin`. */
  lemma RoutesUnderAdmin()
    ensures forall i :: 0 <= i < |Routes| ==> StartsWith(Routes[i].href, "/admin")
  {
  }

  /** Dashboard is highlighted on every path under `/admin`. */
  lemma DashboardAlwaysActive(pathname: string)
    requires StartsWith(pathname, "/admin")
    ensures IsActive(Routes[0], pathname)
  {
  }

  /** A path outside `/admin` highlights no route. */
  lemma OutsideAdminNothingActive(pathname: string)
    requires !StartsWith(pathname, "/admin")
    ensures ActiveLabels(Routes, pathname) == []
  {
    forall i | 0 <= i < |Routes| ensures !IsActive(Routes[i], pathname) {
      StartsWithTransitive(pathname, Routes[i].href, "/admin");
    }
    NoneActive(Routes, pathname);
  }

  lemma {:induction false} NoneActive(routes: seq<Route>, pathname: string)
    requires forall i :: 0 <= i < |routes| ==> !IsActive(routes[i], pathname)
    ensures ActiveLabels(routes, pathname) == []
  {
    if routes != [] {
      NoneActive(routes[1..], pathname);
    }
  }

  /** Several routes can be highlighted at once. */
  lemma BlogCreateHighlightsTwo()
    ensures ActiveLabels(Routes, "/admin/blog/create") == ["Dashboard", "Blog"]
  {
    assert IsActive(Routes[0], "/admin/blog/create");
    assert IsActive(Routes[1], "/admin/blog/create");
    assert !IsActive(Routes[2], "/admin/blog/create") by {
      assert "/admin/blog/create"[7] != Routes[2].href[7];
    }
    assert !IsActive(Routes[3], "/admin/blog/create") by {
      assert "/admin/blog/create"[7] != Routes[3].href[7];
    }
  }
}
