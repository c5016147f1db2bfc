/**
 * `SidebarNav`: which of the three navigation links is highlighted for the
 * current path. The path comes from the router and is a parameter.
 */
module SidebarNav {
  import opened Wrappers

  datatype NavItem = NavItem(href: string, caption: string)

  const NavItems: seq<NavItem> := [NavItem("/", "Home"), NavItem("/activity", "Activity"), NavItem("/companies", "Companies")]

  /** `p.startsWith(prefix)`. */
  predicate StartsWith(p: string, prefix: string)
  {
    |prefix| <= |p| && p[..|prefix|] == prefix
  }

  predicate HomeActive(p: string)
  {
    p == "/"
  }

  predicate ActivityActive(p: string)
  {
    p == "/activity" || StartsWith(p, "/activity/") || StartsWith(p, "/activity-detail")
  }

  predicate CompaniesActive(p: string)
  {
    p == "/companies" || StartsWith(p, "/companies/") || StartsWith(p, "/company")
  }

  /** `navItems[i].isActive(p)`. */
  predicate IsActive(i: int, p: string)
  {
    (i == 0 && HomeActive(p)) || (i == 1 && ActivityActive(p)) || (i == 2 && CompaniesActive(p))
  }

  /** `usePathname() || "/"`: no path, or the empty path, is the home page. */
  function ResolvePath(pathname: Option<string>): (r: string)
    ensures pathname.Some? && pathname.value != "" ==> r == pathname.value
    ensures pathname.None? || pathname.value == "" ==> r == "/"
  {
    if pathname.Some? && pathname.value != "" then pathname.value else "/"
  }

  /** `navItems.findIndex(n => n.isActive(p))`. */
  function ActiveIndex(p: string): (r: int)
    ensures -1 <= r < |NavItems|
    ensures r >= 0 ==> IsActive(r, p) && forall j :: 0 <= j < r ==> !IsActive(j, p)
    ensures r == -1 <==> forall j :: 0 <= j < |NavItems| ==> !IsActive(j, p)
  {
    if HomeActive(p) then 0 else if ActivityActive(p) then 1 else if CompaniesActive(p) then 2 else -1
  }

  /** Two prefixes of one path that differ at a position both cover cannot both match. */
  lemma PrefixesDisagree(p: string, a: string, b: string, k: int)
    requires 0 <= k < |a| && k < |b| && a[k] != b[k]
    ensures !(StartsWith(p, a) && StartsWith(p, b))
  {
  }

  /** No path highlights two links: the three predicates exclude one another. */
  lemma AtMostOneActive(p: string, i: int, j: int)
    requires IsActive(i, p) && IsActive(j, p)
    ensures i == j
  {
    if ActivityActive(p) && CompaniesActive(p) {
      var activity := ["/activity", "/activity/", "/activity-detail"];
      var companies := ["/companies", "/companies/", "/company"];
      forall a, c | a in activity && c in companies
        ensures !(StartsWith(p, a) && StartsWith(p, c))
      {
        PrefixesDisagree(p, a, c, 1);
      }
      assert p == "/activity" ==> StartsWith(p, "/activity");
      assert p == "/companies" ==> StartsWith(p, "/companies");
      PrefixesDisagree(p, "/activity", "/companies", 1);
      PrefixesDisagree(p, "/activity", "/companies/", 1);
      PrefixesDisagree(p, "/activity", "/company", 1);
      PrefixesDisagree(p, "/companies", "/activity/", 1);
      PrefixesDisagree(p, "/companies", "/activity-detail", 1);
    }
    if HomeActive(p) {
      assert !StartsWith(p, "/activity/") && !StartsWith(p, "/activity-detail");
      assert !StartsWith(p, "/companies/") && !StartsWith(p, "/company");
    }
  }

  /** `index === activeIndex`: a link is highlighted exactly when its predicate holds. */
  lemma HighlightedIffActive(p: string, i: int)
    requires 0 <= i < |NavItems|
    ensures i == ActiveIndex(p) <==> IsActive(i, p)
  {
    if IsActive(i, p) {
      AtMostOneActive(p, i, ActiveIndex(p));
    }
  }

  /** Paths under `/company` and `/activity-detail` highlight their sections; an unknown path highlights nothing. */
  lemma ActiveIndexExamples()
    ensures ActiveIndex(ResolvePath(None)) == 0
    ensures ActiveIndex(ResolvePath(Some(""))) == 0
    ensures ActiveIndex("/company/x") == 2
    ensures ActiveIndex("/companies") == 2
    ensures ActiveIndex("/activity-detail") == 1
    ensures ActiveIndex("/activity/42") == 1
    ensures ActiveIndex("/activityx") == -1
    ensures ActiveIndex("/foo") == -1
  {
    assert "/company/x"[..8] == "/company";
    assert "/activity-detail"[..16] == "/activity-detail";
    assert "/activity/42"[..10] == "/activity/";
    var x := "/activityx";
    assert StartsWith(x, x);
    PrefixesDisagree(x, x, "/activity/", 9);
    PrefixesDisagree(x, x, "/companies/", 1);
    PrefixesDisagree(x, x, "/company", 1);
    assert !ActivityActive(x) && !CompaniesActive(x);
  }
}
