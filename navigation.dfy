/**
 * The navigation chrome (client/src/components/Navigation.jsx): the four nav items with
 * exact-path highlighting, and the logout confirmation modal that clears the session.
 */
module Navigation {
  import opened Wrappers
  import opened Browser
  import App

  datatype NavItem = NavItem(path: string, caption: string)

  const NavItems: seq<NavItem> := [
    NavItem("/dashboard", "Dashboard"),
    NavItem("/upload", "Upload"),
    NavItem("/fix-plan", "Fix Plan"),
    NavItem("/ceo-report", "CEO Report")
  ]

  /** `location.pathname === item.path`: exact equality, no prefix matching. */
  predicate IsActive(item: NavItem, pathname: string) {
    pathname == item.path
  }

  /** The nav items highlighted at `pathname`, in menu order. */
  function ActiveItems(items: seq<NavItem>, pathname: string): (r: seq<NavItem>)
    ensures forall it :: it in r ==> it in items && IsActive(it, pathname)
    ensures forall it :: it in items && IsActive(it, pathname) ==> it in r
  {
    if items == [] then []
    else (if IsActive(items[0], pathname) then [items[0]] else []) + ActiveItems(items[1..], pathname)
  }

  /** With pairwise distinct paths, at most one item is highlighted. */
  lemma {:induction false} AtMostOneActive(items: seq<NavItem>, pathname: string)
    requires forall i, j :: 0 <= i < j < |items| ==> items[i].path != items[j].path
    ensures |ActiveItems(items, pathname)| <= 1
  {
    if items != [] {
      AtMostOneActive(items[1..], pathname);
      forall it | it in items[1..]
        ensures it.path != items[0].path
      {
        var k :| 0 <= k < |items[1..]| && items[1..][k] == it;
        assert items[k + 1] == it;
      }
      var rest := ActiveItems(items[1..], pathname);
      if rest != [] {
        assert rest[0] in items[1..] && IsActive(rest[0], pathname);
      }
    }
  }

  /** The menu highlights at most one item anywhere, none at the root, and a listed path's own item. */
  lemma MenuHighlighting(pathname: string)
    ensures |ActiveItems(NavItems, pathname)| <= 1
    ensures ActiveItems(NavItems, "/") == []
    ensures forall i :: 0 <= i < |NavItems| ==> ActiveItems(NavItems, NavItems[i].path) == [NavItems[i]]
  {
    AtMostOneActive(NavItems, pathname);
    AtMostOneActive(NavItems, "/");
    forall i | 0 <= i < |NavItems|
      ensures ActiveItems(NavItems, NavItems[i].path) == [NavItems[i]]
    {
      AtMostOneActive(NavItems, NavItems[i].path);
    }
  }

  /**
   * Highlighting compares paths exactly while the router ignores letter case: at "/Dashboard"
   * a session sees the dashboard page with no menu item highlighted.
   */
  lemma CaseVariantUnhighlighted()
    ensures App.RouteElement("/Dashboard", true) == Some(App.Dashboard)
    ensures ActiveItems(NavItems, "/Dashboard") == []
  {
    App.CaseAndSlashVariants(true);
    assert forall it :: it in NavItems ==> !IsActive(it, "/Dashboard");
  }

  const LogoutMessage := "Logged out successfully"

  /** `handleLogout`: remove the token, toast, go to the root and reload, in that order. */
  method HandleLogout(browser: BrowserContext)
    modifies browser
    ensures browser.authToken.None? && browser.pathname == "/"
    ensures browser.effects == old(browser.effects) + [Effect.RemoveToken, Toast(true, LogoutMessage), NavigateTo("/"), Reload]
  {
    browser.RemoveToken();
    browser.ShowToast(true, LogoutMessage);
    browser.Navigate("/");
    browser.ReloadPage();
  }

  /** The `NavigationWithModal` component's state: whether the logout confirmation is shown. */
  class NavigationWithModal {
    var showLogoutModal: bool

    constructor ()
      ensures !showLogoutModal
    {
      showLogoutModal := false;
    }

    /** The logout button: only shows the modal; the session is untouched. */
    method RequestLogout()
      modifies this
      ensures showLogoutModal
    {
      showLogoutModal := true;
    }

    /** The modal's Cancel button: hides the modal and nothing else. */
    method Cancel()
      modifies this
      ensures !showLogoutModal
    {
      showLogoutModal := false;
    }

    /** The modal's Logout button: hides the modal, then runs `handleLogout`. */
    method Confirm(browser: BrowserContext)
      modifies this, browser
      ensures !showLogoutModal
      ensures browser.authToken.None? && browser.pathname == "/"
      ensures browser.effects == old(browser.effects) + [Effect.RemoveToken, Toast(true, LogoutMessage), NavigateTo("/"), Reload]
    {
      showLogoutModal := false;
      HandleLogout(browser);
    }

    /** `LogoutModal` renders its dialog exactly when `show` is set, and null otherwise. */
    predicate ModalRendered()
      reads this
    {
      showLogoutModal
    }
  }
}
