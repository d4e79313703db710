/**
 * The bottom navigation bar of components/bottom-nav-bar.tsx: which of its three items is
 * highlighted, following the current path or the last click, and whether the page has been
 * scrolled. The router, the links and the scroll listener's registration are not modelled.
 */
module BottomNav {

  /** The items' targets: home, the chat list, the settings. */
  const NavHrefs: seq<string> := ["/", "/chats", "/settings"]

  /**
   * The effect on `pathname`: the home path selects home, a path under "/chats" or "/chat/"
   * selects the chat list, one under "/settings" the settings; any other path keeps `current`.
   */
  function TabForPath(pathname: string, current: string): (tab: string)
    ensures tab in NavHrefs || tab == current
    ensures pathname == "/" ==> tab == "/"
  {
    if pathname == "/" then "/"
    else if "/chats" <= pathname || "/chat/" <= pathname then "/chats"
    else if "/settings" <= pathname then "/settings"
    else current
  }

  /** The chat list's page and every page under it highlight the chat list. */
  lemma ChatsPageTab(rest: string, current: string)
    ensures TabForPath("/chats" + rest, current) == "/chats"
  {
    var p := "/chats" + rest;
    assert "/chats" <= p;
    assert p != "/" by { assert p[1] == 'c'; }
  }

  /** A conversation's page highlights the chat list, whatever its id. */
  lemma ChatPageTab(id: string, current: string)
    ensures TabForPath("/chat/" + id, current) == "/chats"
  {
    assert "/chat/" <= "/chat/" + id;
  }

  /** A settings sub-page highlights the settings. */
  lemma SettingsPageTab(rest: string, current: string)
    ensures TabForPath("/settings" + rest, current) == "/settings"
  {
    var p := "/settings" + rest;
    assert "/settings" <= p;
    assert p[1] == 's';
    assert !("/chats" <= p) && !("/chat/" <= p);
  }

  /** A path under none of the three sections keeps the highlighted item. */
  lemma OtherPathKeeps(pathname: string, current: string)
    requires pathname != "/" && !("/chats" <= pathname) && !("/chat/" <= pathname) && !("/settings" <= pathname)
    ensures TabForPath(pathname, current) == current
  {
  }

  /** The three targets are different, so at most one item is highlighted. */
  lemma HrefsDistinct()
    ensures forall i, j :: 0 <= i < j < |NavHrefs| ==> NavHrefs[i] != NavHrefs[j]
  {
  }

  class NavBar {
    var activeTab: string
    var scrolled: bool

    /** The highlighted item is always one of the bar's. */
    ghost predicate Valid()
      reads this
    {
      activeTab in NavHrefs
    }

    constructor ()
      ensures Valid() && activeTab == "/" && !scrolled
    {
      activeTab := "/";
      scrolled := false;
    }

    /** Whether item `i` is drawn highlighted. */
    predicate Highlighted(i: nat)
      requires i < |NavHrefs|
      reads this
    {
      activeTab == NavHrefs[i]
    }

    /** Exactly one item is highlighted. */
    lemma OneHighlighted()
      requires Valid()
      ensures exists i :: 0 <= i < |NavHrefs| && Highlighted(i)
      ensures forall i, j :: 0 <= i < j < |NavHrefs| && Highlighted(i) ==> !Highlighted(j)
    {
      HrefsDistinct();
      var i :| 0 <= i < |NavHrefs| && NavHrefs[i] == activeTab;
      assert Highlighted(i);
    }

    /** The effect that runs when the path changes. */
    method OnPathname(pathname: string)
      requires Valid()
      modifies this
      ensures Valid() && activeTab == TabForPath(pathname, old(activeTab)) && scrolled == old(scrolled)
    {
      if pathname == "/" {
        activeTab := "/";
      } else if "/chats" <= pathname || "/chat/" <= pathname {
        activeTab := "/chats";
      } else if "/settings" <= pathname {
        activeTab := "/settings";
      }
    }

    /** `handleNavClick`: the clicked item is highlighted; clicking it again changes nothing. */
    method HandleNavClick(href: string)
      requires Valid() && href in NavHrefs
      modifies this
      ensures Valid() && activeTab == href && scrolled == old(scrolled)
      ensures old(activeTab) == href ==> unchanged(this)
    {
      if activeTab != href {
        activeTab := href;
      }
    }

    /** The scroll listener: scrolled past ten pixels (`window.scrollY` may be fractional). */
    method HandleScroll(scrollY: real)
      requires Valid()
      modifies this
      ensures Valid() && (scrolled <==> scrollY > 10.0) && activeTab == old(activeTab)
    {
      scrolled := scrollY > 10.0;
    }
  }
}
