/** The public navigation bar: which item is highlighted, and which account control is shown. */
module Navbar {
  import opened Text

  datatype NavItem = NavItem(href: string, name: string)

  const NavigationItems: seq<NavItem> := [
    NavItem("/", "Home"),
    NavItem("/services", "Services"),
    NavItem("/tracking", "Tracking"),
    NavItem("/about", "About"),
    NavItem("/contact", "Contact")
  ]

  /** `isActive(href)` at `location`: "/" only on the root itself, any other href as a prefix. */
  function IsActive(location: string, href: string): (active: bool)
    ensures href == "/" ==> (active <==> location == "/")
    ensures href != "/" ==> (active <==> |href| <= |location| && location[..|href|] == href)
  {
    if href == "/" && location == "/" then true
    else if href != "/" && StartsWith(location, href) then true
    else false
  }

  /** With no segment boundary check, "/about" is highlighted on "/aboutus". */
  lemma ActiveWithoutSegmentBoundary()
    ensures IsActive("/aboutus", "/about")
  {
    assert "/aboutus"[..|"/about"|] == "/about";
  }

  /** At most one of the five navigation items is highlighted, wherever the user is. */
  lemma AtMostOneActive(location: string, i: nat, j: nat)
    requires i < j < |NavigationItems|
    ensures !(IsActive(location, NavigationItems[i].href) && IsActive(location, NavigationItems[j].href))
  {
    var p, q := NavigationItems[i].href, NavigationItems[j].href;
    if i == 0 {
      assert |q| > 1;
    } else {
      assert p[1] != q[1];
      PrefixesDisagree(location, p, q, 1);
    }
  }

  /** What the navbar shows beside "Get Quote". */
  datatype AccountControl = NoControl | UserMenu | SignInButton

  /** `!isLoading && (isAuthenticated ? <user menu> : <sign-in link>)`, with `isAuthenticated = !!user`. */
  function AccountControlFor(isLoading: bool, isAuthenticated: bool): (c: AccountControl)
    ensures c == UserMenu <==> !isLoading && isAuthenticated
    ensures c == SignInButton <==> !isLoading && !isAuthenticated
    ensures c == NoControl <==> isLoading
  {
    if isLoading then NoControl
    else if isAuthenticated then UserMenu
    else SignInButton
  }
}
