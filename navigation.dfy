/** The side navigation of the dashboard layout: its table of links and the
    rule that highlights the link of the current page. */
module Navigation {

  datatype NavItem = NavItem(name: string, href: string)

  const DashboardHref := "/dashboard"

  /** The navigation table, in display order. */
  const Items: seq<NavItem> := [
    NavItem("Overview", "/dashboard"),
    NavItem("Deliveries", "/deliveries"),
    NavItem("Patients", "/patients"),
    NavItem("Dispatch Riders", "/dispatch-riders"),
    NavItem("Admin", "/admin")
  ]

  /** `isActive(href)` on the page `pathname`: the overview link only on exactly
      its own page, every other link on any page whose path starts with it
      (with no check for a path-segment boundary). */
  predicate IsActive(pathname: string, href: string)
    ensures IsActive(pathname, href) ==> href <= pathname
    ensures href == DashboardHref ==> (IsActive(pathname, href) <==> pathname == DashboardHref)
  {
    if href == DashboardHref && pathname == DashboardHref then true
    else href <= pathname && href != DashboardHref
  }

  /** The overview link is not active on its own sub-pages, while the admin
      link is active on a page that merely starts with its letters. */
  lemma PrefixExamples()
    ensures !IsActive("/dashboard/x", DashboardHref)
    ensures IsActive("/administration", "/admin")
  {
    assert "/dashboard/x" != DashboardHref by { assert |"/dashboard/x"| != |DashboardHref|; }
    assert "/admin" <= "/administration" by { assert "/administration"[..6] == "/admin"; }
  }

  /** Two prefixes of the same path are prefixes of one another. */
  lemma PrefixesAreComparable(a: string, b: string, p: string)
    requires a <= p && b <= p
    ensures a <= b || b <= a
  {
    if |a| <= |b| {
      assert a == p[..|a|] == b[..|a|];
    } else {
      assert b == p[..|b|] == a[..|b|];
    }
  }

  /** No link of the table is a prefix of another. */
  lemma NoHrefIsPrefixOfAnother(i: nat, j: nat)
    requires i < |Items| && j < |Items| && i != j
    ensures !(Items[i].href <= Items[j].href)
  {
    var a, b := Items[i].href, Items[j].href;
    assert a[1] != b[1] || a[2] != b[2] || |a| > |b| by {
      assert Items[0].href[1] == 'd' && Items[0].href[2] == 'a';
      assert Items[1].href[1] == 'd' && Items[1].href[2] == 'e';
      assert Items[2].href[1] == 'p';
      assert Items[3].href[1] == 'd' && Items[3].href[2] == 'i';
      assert Items[4].href[1] == 'a';
    }
  }

  /** At most one link is highlighted on any page. */
  lemma AtMostOneActive(pathname: string, i: nat, j: nat)
    requires i < |Items| && j < |Items|
    requires IsActive(pathname, Items[i].href) && IsActive(pathname, Items[j].href)
    ensures i == j
  {
    if i != j {
      var a, b := Items[i].href, Items[j].href;
      assert a <= pathname && b <= pathname by {
        if a == DashboardHref || b == DashboardHref {
          assert pathname == DashboardHref;
        }
      }
      PrefixesAreComparable(a, b, pathname);
      NoHrefIsPrefixOfAnother(i, j);
      NoHrefIsPrefixOfAnother(j, i);
    }
  }

  /** The root page highlights no link. */
  lemma RootActivatesNothing(i: nat)
    requires i < |Items|
    ensures !IsActive("/", Items[i].href)
  {
    assert |Items[i].href| > 1;
  }
}
