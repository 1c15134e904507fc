/**
 * The navigation bar (src/components/layout/navigation.tsx).  It keeps a
 * local copy, `isAuthenticated`, of the client-side flag and refreshes it
 * on mount and route change, on storage events for the flag's key, on the
 * `auth-state-changed` event, and every two seconds.  Listener
 * registration and the interval are the `subscribed` field; each event or
 * tick is an explicit method call.
 */
module Navigation {
  import opened Options
  import opened DevAuth
  import ServerAuth

  datatype NavLink = NavLink(name: string, href: string, locked: bool)

  /** `NAV_LINKS`: only the studio link is locked. */
  const NavLinks: seq<NavLink> := [
    NavLink("Home", "/", false),
    NavLink("Features", "/features", false),
    NavLink("Pricing", "/pricing", false),
    NavLink("Explore", "/explore", false),
    NavLink("Studio", "/studio", true)
  ]

  const DashboardLink := NavLink("Dashboard", "/dashboard", false)

  /** `links`: the fixed links, followed by the dashboard link when `showDashboard` is set. */
  function Links(showDashboard: bool): (links: seq<NavLink>)
    ensures |links| == |NavLinks| + (if showDashboard then 1 else 0)
    ensures links[..|NavLinks|] == NavLinks
    ensures showDashboard ==> links[|NavLinks|] == DashboardLink
  {
    if showDashboard then NavLinks + [DashboardLink] else NavLinks
  }

  /** `link.locked && !isAuthenticated`: whether the small "Login" badge is drawn next to a link. */
  predicate ShowsLoginBadge(link: NavLink, isAuthenticated: bool)
    ensures isAuthenticated ==> !ShowsLoginBadge(link, isAuthenticated)
  {
    link.locked && !isAuthenticated
  }

  /** `handleStorageChange` rechecks only for the flag's key, or a null key (storage cleared). */
  predicate StorageEventRechecks(key: Option<string>)
    ensures key.Some? && key.value != DevAuthStorageKey ==> !StorageEventRechecks(key)
  {
    key == None || key == Some(DevAuthStorageKey)
  }

  /** Among the displayed links, the badge appears exactly on the studio link, and only while logged out. */
  lemma LoginBadgeOnlyOnStudio(showDashboard: bool, isAuthenticated: bool, i: nat)
    requires i < |Links(showDashboard)|
    ensures ShowsLoginBadge(Links(showDashboard)[i], isAuthenticated)
      <==> Links(showDashboard)[i].href == "/studio" && !isAuthenticated
  {
    if i < |NavLinks| {
      assert Links(showDashboard)[i] == NavLinks[i];
    }
  }

  class NavBar {
    const browser: Browser
    const showDashboard: bool
    var pathname: string
    var mobileOpen: bool
    var isAuthenticated: bool
    /** The last route passed to `router.push`, if any. */
    var destination: Option<string>
    /** The effect's storage and auth-state listeners and its interval are installed. */
    var subscribed: bool

    /** The first render, before the effect has run. */
    constructor (browser: Browser, pathname: string, showDashboard: bool)
      ensures this.browser == browser && this.pathname == pathname && this.showDashboard == showDashboard
      ensures !mobileOpen && !isAuthenticated && destination == None && !subscribed
    {
      this.browser := browser;
      this.pathname := pathname;
      this.showDashboard := showDashboard;
      mobileOpen, isAuthenticated := false, false;
      destination, subscribed := None, false;
    }

    /** `checkAuth`: copy the client-side read of the flag. */
    method CheckAuth()
      modifies this`isAuthenticated
      ensures isAuthenticated == IsDevAuthActive(browser.State())
    {
      isAuthenticated := IsDevAuthActive(browser.State());
    }

    /** The effect runs after the first render: check, then install the listeners and the interval. */
    method Mount()
      requires !subscribed
      modifies this`isAuthenticated, this`subscribed
      ensures subscribed && isAuthenticated == IsDevAuthActive(browser.State())
    {
      CheckAuth();
      subscribed := true;
    }

    /**
     * The route changes.  The effect depends on `pathname`, so a new path
     * tears it down and runs it again, which checks once more; the same
     * path does not re-run it.
     */
    method ChangePathname(p: string)
      requires subscribed
      modifies this`pathname, this`isAuthenticated
      ensures pathname == p
      ensures p != old(pathname) ==> isAuthenticated == IsDevAuthActive(browser.State())
      ensures p == old(pathname) ==> isAuthenticated == old(isAuthenticated)
    {
      if p != pathname {
        pathname := p;
        CheckAuth();
      }
    }

    /** A `storage` event with the given key arrives. */
    method OnStorage(key: Option<string>)
      modifies this`isAuthenticated
      ensures subscribed && StorageEventRechecks(key) ==> isAuthenticated == IsDevAuthActive(browser.State())
      ensures !(subscribed && StorageEventRechecks(key)) ==> isAuthenticated == old(isAuthenticated)
    {
      if subscribed && StorageEventRechecks(key) {
        CheckAuth();
      }
    }

    /** An `auth-state-changed` event arrives. */
    method OnAuthStateChanged()
      modifies this`isAuthenticated
      ensures subscribed ==> isAuthenticated == IsDevAuthActive(browser.State())
      ensures !subscribed ==> isAuthenticated == old(isAuthenticated)
    {
      if subscribed {
        CheckAuth();
      }
    }

    /** The two-second interval fires. */
    method OnIntervalTick()
      modifies this`isAuthenticated
      ensures subscribed ==> isAuthenticated == IsDevAuthActive(browser.State())
      ensures !subscribed ==> isAuthenticated == old(isAuthenticated)
    {
      if subscribed {
        CheckAuth();
      }
    }

    /** The effect's cleanup: listeners removed, interval cleared; later events and ticks change nothing. */
    method Unmount()
      modifies this`subscribed
      ensures !subscribed
    {
      subscribed := false;
    }

    /** `handleNav(href)` */
    method HandleNav(href: string)
      modifies this`destination, this`mobileOpen
      ensures destination == Some(href) && !mobileOpen
    {
      destination := Some(href);
      mobileOpen := false;
    }

    /**
     * `handleLogout`.  `clearDevAuth` dispatches its event synchronously,
     * so the bar's own listener rechecks before the explicit reset.
     */
    method HandleLogout()
      modifies this`isAuthenticated, this`destination, this`mobileOpen, browser
      ensures browser.State() == AfterClearDevAuth(old(browser.State()))
      ensures !isAuthenticated && !mobileOpen && destination == Some(ServerAuth.LoginPath)
    {
      browser.ClearDevAuth();
      OnAuthStateChanged();
      isAuthenticated := false;
      destination := Some(ServerAuth.LoginPath);
      mobileOpen := false;
    }

    /** The menu button: `setMobileOpen(!mobileOpen)`. */
    method ToggleMobileMenu()
      modifies this`mobileOpen
      ensures mobileOpen == !old(mobileOpen)
    {
      mobileOpen := !mobileOpen;
    }
  }
}
