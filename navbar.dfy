/** The navigation bar (client/src/components/Navbar.jsx): the menu items for
    the signed-in and signed-out visitor, logout, the scroll threshold and the
    mobile menu. */
module Navbar {
  import opened Wrappers

  /** A menu entry: a link to a route, or the logout button. */
  datatype NavItem = Link(name: string, to: string) | LogoutButton

  const Home: NavItem := Link("Home", "/")
  const ProjectsLink: NavItem := Link("Projects", "/all-projects")
  const LoginLink: NavItem := Link("Login", "/login")

  /** `if (token)`: a stored, non-empty token. */
  predicate SignedIn(token: Option<string>)
  {
    token.Some? && token.value != ""
  }

  /** `renderNavItems` (Navbar.jsx:58-68): Home, then Projects and Logout for a
      signed-in visitor, Login otherwise. */
  method RenderNavItems(token: Option<string>) returns (items: seq<NavItem>)
    ensures SignedIn(token) ==> items == [Home, ProjectsLink, LogoutButton]
    ensures !SignedIn(token) ==> items == [Home, LoginLink]
  {
    items := [Home];
    if SignedIn(token) {
      items := items + [ProjectsLink];
      items := items + [LogoutButton];
    } else {
      items := items + [LoginLink];
    }
  }

  /** The scroll listener's test (Navbar.jsx:35). */
  predicate ScrolledPast(scrollY: int)
  {
    scrollY > 10
  }

  /** The bar's state, with the token it is given and the browser's storage
      and location. */
  class Navbar {
    var token: Option<string>
    var storedToken: Option<string>
    var location: string
    var isScrolled: bool
    var isMenuOpen: bool

    constructor (token: Option<string>, storedToken: Option<string>, location: string)
      ensures this.token == token && this.storedToken == storedToken && this.location == location
      ensures !isScrolled && !isMenuOpen
    {
      this.token := token;
      this.storedToken := storedToken;
      this.location := location;
      isScrolled := false;
      isMenuOpen := false;
    }

    method HandleScroll(scrollY: int)
      modifies this`isScrolled
      ensures isScrolled == ScrolledPast(scrollY)
    {
      isScrolled := scrollY > 10;
    }

    /** `handleLogout` (Navbar.jsx:46-55): the stored token is removed, the
        token cleared and the visitor sent home. */
    method HandleLogout()
      modifies this`token, this`storedToken, this`location
      ensures storedToken == None && token == None && location == "/"
    {
      storedToken := None;
      token := None;
      location := "/";
    }

    /** The hamburger button (Navbar.jsx:121). */
    method ToggleMenu()
      modifies this`isMenuOpen
      ensures isMenuOpen == !old(isMenuOpen)
    {
      isMenuOpen := !isMenuOpen;
    }

    /** A click on a menu entry (Navbar.jsx:78, 86-88): a link navigates, the
        button logs out, and either way the menu closes. */
    method Select(item: NavItem)
      modifies this
      ensures !isMenuOpen && isScrolled == old(isScrolled)
      ensures item.Link? ==> location == item.to && token == old(token) && storedToken == old(storedToken)
      ensures item.LogoutButton? ==> storedToken == None && token == None && location == "/"
    {
      match item {
        case Link(_, to) =>
          location := to;
        case LogoutButton =>
          HandleLogout();
      }
      isMenuOpen := false;
    }
  }

  /** A signed-in visitor sees Logout; after using it from the open mobile
      menu the menu is closed and only Home and Login remain. */
  method LogoutFromMenu(token: string) returns (before: seq<NavItem>, after: seq<NavItem>, menuOpen: bool)
    requires token != ""
    ensures LogoutButton in before && LoginLink !in before
    ensures after == [Home, LoginLink] && !menuOpen
  {
    var bar := new Navbar(Some(token), Some(token), "/all-projects");
    before := RenderNavItems(bar.token);
    bar.ToggleMenu();
    bar.Select(LogoutButton);
    after := RenderNavItems(bar.token);
    menuOpen := bar.isMenuOpen;
  }
}
