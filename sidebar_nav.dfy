/**
 * The workspace sidebar (src/app/sidebar-nav.tsx): six links, and the rule
 * that marks a link active from the current pathname and the `tab` query
 * parameter.
 */
module SidebarNav {
  import opened Json
  import opened Text

  /** A link: its target, its caption, and the dashboard tab it opens (None for the plain pages). */
  datatype NavItem = NavItem(href: string, caption: string, tab: Option<string>)

  const NavItems: seq<NavItem> := [
    NavItem("/dashboard", "Dashboard", None),
    NavItem("/dashboard?tab=persona", "Persona Engine", Some("persona")),
    NavItem("/dashboard?tab=growth", "Growth Strategist", Some("growth")),
    NavItem("/dashboard?tab=sponsors", "Sponsorship Match", Some("sponsors")),
    NavItem("/dashboard?tab=network", "Creator Network", Some("network")),
    NavItem("/library", "Library", None)]

  /**
   * Whether a link is highlighted. currentTab is the `tab` query parameter,
   * None when it is absent (null or undefined).
   */
  predicate IsActive(item: NavItem, pathname: string, currentTab: Option<string>)
    ensures IsActive(item, pathname, currentTab) ==> pathname == "/dashboard" || pathname == item.href
    ensures IsActive(item, pathname, currentTab) && item.tab.Some? && StartsWith(item.href, "/dashboard") ==> currentTab == item.tab
  {
    var isDashboardRoute := StartsWith(item.href, "/dashboard");
    var isDashboard := pathname == "/dashboard";
    if isDashboardRoute then
      (if item.tab.None? then isDashboard && currentTab.None? else isDashboard && currentTab == item.tab)
    else pathname == item.href
  }

  /** The positions of the highlighted links, as the sidebar renders them. */
  function ActiveItems(pathname: string, currentTab: Option<string>): (r: set<nat>)
    ensures forall i: nat :: i in r <==> i < |NavItems| && IsActive(NavItems[i], pathname, currentTab)
  {
    set i: nat | i < |NavItems| && IsActive(NavItems[i], pathname, currentTab)
  }

  /** The first five links lead into the dashboard, each with its own tab; the sixth is the library. */
  lemma NavItemsShape()
    ensures |NavItems| == 6
    ensures forall i :: 0 <= i < 5 ==> StartsWith(NavItems[i].href, "/dashboard")
    ensures forall i, j :: 0 <= i < j < 5 ==> NavItems[i].tab != NavItems[j].tab
    ensures NavItems[0].tab.None? && NavItems[5] == NavItem("/library", "Library", None)
    ensures !StartsWith(NavItems[5].href, "/dashboard")
  {
  }

  /** A dashboard link is highlighted only on the dashboard page. */
  lemma DashboardLinksNeedDashboard(i: nat, pathname: string, currentTab: Option<string>)
    requires i < 5 && IsActive(NavItems[i], pathname, currentTab)
    ensures pathname == "/dashboard"
  {
    NavItemsShape();
  }

  /**
   * The plain Dashboard link is highlighted exactly on /dashboard without a
   * tab, a tab link exactly on /dashboard with its tab, and Library exactly
   * on /library.
   */
  lemma ActiveRule(pathname: string, currentTab: Option<string>)
    ensures IsActive(NavItems[0], pathname, currentTab) <==> pathname == "/dashboard" && currentTab.None?
    ensures forall i :: 1 <= i < 5 ==>
      (IsActive(NavItems[i], pathname, currentTab) <==> pathname == "/dashboard" && currentTab == NavItems[i].tab)
    ensures IsActive(NavItems[5], pathname, currentTab) <==> pathname == "/library"
  {
    NavItemsShape();
  }

  /** Whatever the page and the tab, at most one link is highlighted. */
  lemma AtMostOneActive(pathname: string, currentTab: Option<string>)
    ensures |ActiveItems(pathname, currentTab)| <= 1
  {
    ActiveRule(pathname, currentTab);
    var r := ActiveItems(pathname, currentTab);
    if pathname == "/dashboard" {
      if currentTab.None? {
        assert r == {0};
      } else if currentTab.value == "persona" {
        assert r == {1};
      } else if currentTab.value == "growth" {
        assert r == {2};
      } else if currentTab.value == "sponsors" {
        assert r == {3};
      } else if currentTab.value == "network" {
        assert r == {4};
      } else {
        assert r == {};
      }
    } else if pathname == "/library" {
      assert r == {5};
    } else {
      assert r == {};
    }
  }

  /** A tab no link opens (including an empty one) highlights nothing on the dashboard. */
  lemma UnknownTabHighlightsNothing(tab: string)
    requires tab !in {"persona", "growth", "sponsors", "network"}
    ensures ActiveItems("/dashboard", Some(tab)) == {}
  {
    ActiveRule("/dashboard", Some(tab));
  }

  /** On the dashboard, no tab or a known tab highlights exactly the link that opens it. */
  lemma KnownTabHighlightsItsLink(i: nat)
    requires i < 5
    ensures ActiveItems("/dashboard", NavItems[i].tab) == {i}
  {
    ActiveRule("/dashboard", NavItems[i].tab);
    NavItemsShape();
  }
}
