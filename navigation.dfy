/** The top bar: which links and which user-menu entries each kind of
    visitor sees, and which one is highlighted. */
module Navigation {
  import opened Wrappers
  import opened Types

  /** A link: the page it opens and its text. */
  datatype NavItem = NavItem(page: string, text: string)

  /** The links of a signed-out visitor. */
  const GuestItems := [NavItem("home", "Home"), NavItem("browse", "Browse"), NavItem("impact", "Impact")]

  /** `getNavItems` once a profile is loaded, by the profile's role name;
      a name outside the four roles falls to the default list. */
  function NavItemsForRole(role: string): (r: seq<NavItem>)
    ensures role == "consumer" ==> r == GuestItems
    ensures role == "restaurant" ==> |r| == 2 && r[0].page == "restaurant-dashboard" && r[1].page == "restaurant-orders"
    ensures role == "charity" ==> |r| == 2 && r[0].page == "home" && r[1].page == "donations"
    ensures role == "admin" ==>
      |r| == 4 && r[0].page == "admin-dashboard" && r[1].page == "admin-users" &&
      r[2].page == "admin-meals" && r[3].page == "admin-orders"
    ensures role !in {"consumer", "restaurant", "charity", "admin"} ==>
      r == GuestItems + [NavItem("reset-password", "RESET PASSWORD")]
  {
    if role == "consumer" then GuestItems
    else if role == "restaurant" then
      [NavItem("restaurant-dashboard", "Restaurant Dashboard"), NavItem("restaurant-orders", "Orders")]
    else if role == "charity" then
      [NavItem("home", "Home"), NavItem("donations", "Donations")]
    else if role == "admin" then
      [NavItem("admin-dashboard", "Admin Dashboard"), NavItem("admin-users", "Users"),
       NavItem("admin-meals", "Meals"), NavItem("admin-orders", "Orders")]
    else GuestItems + [NavItem("reset-password", "RESET PASSWORD")]
  }

  /** The links shown: the guest list when signed out, nothing while a
      signed-in user's profile is missing, otherwise by role. */
  function NavItems(signedIn: bool, profileRole: Option<string>): (r: seq<NavItem>)
    ensures !signedIn ==> r == GuestItems
    ensures signedIn && profileRole.None? ==> r == []
    ensures signedIn && profileRole.Some? ==> r == NavItemsForRole(profileRole.value)
  {
    if !signedIn then GuestItems
    else if profileRole.None? then []
    else NavItemsForRole(profileRole.value)
  }

  /** `getUserMenuItems`, by the profile's role name; empty when signed
      out or while the profile is missing. */
  function UserMenuItems(signedIn: bool, profileRole: Option<string>): (r: seq<NavItem>)
    ensures !signedIn || profileRole.None? ==> r == []
    ensures signedIn && profileRole == Some("consumer") ==>
      |r| == 2 && r[0].page == "profile" && r[1].page == "orders"
    ensures signedIn && profileRole == Some("restaurant") ==> |r| == 1 && r[0].page == "restaurant-profile"
    ensures signedIn && profileRole == Some("charity") ==> |r| == 1 && r[0].page == "charity-profile"
    ensures signedIn && profileRole == Some("admin") ==> |r| == 1 && r[0].page == "admin-settings"
    ensures signedIn && profileRole.Some? && profileRole.value !in {"consumer", "restaurant", "charity", "admin"} ==>
      r == [NavItem("profile", "Profile")]
  {
    if !signedIn || profileRole.None? then []
    else
      var role := profileRole.value;
      if role == "consumer" then [NavItem("profile", "My Impact"), NavItem("orders", "Orders")]
      else if role == "restaurant" then [NavItem("restaurant-profile", "Profile")]
      else if role == "charity" then [NavItem("charity-profile", "Profile")]
      else if role == "admin" then [NavItem("admin-settings", "Settings")]
      else [NavItem("profile", "Profile")]
  }

  /** A link is highlighted iff it opens the current page. */
  predicate IsActive(currentPage: string, item: NavItem) {
    currentPage == item.page
  }

  predicate DistinctPages(items: seq<NavItem>) {
    forall i, j :: 0 <= i < j < |items| ==> items[i].page != items[j].page
  }

  /** Each list, for any role name, names every page at most once. */
  lemma NavListsDistinct(signedIn: bool, profileRole: Option<string>)
    ensures DistinctPages(NavItems(signedIn, profileRole))
    ensures DistinctPages(UserMenuItems(signedIn, profileRole))
  {
    if signedIn && profileRole.Some? {
      RoleItemsDistinct(profileRole.value);
    }
  }

  lemma RoleItemsDistinct(role: string)
    ensures DistinctPages(NavItemsForRole(role))
  {
    var r := NavItemsForRole(role);
    if role == "admin" {
      assert r[0].page != r[1].page && r[0].page != r[2].page && r[0].page != r[3].page;
      assert r[1].page != r[2].page && r[1].page != r[3].page && r[2].page != r[3].page;
    } else if role !in {"consumer", "restaurant", "charity"} {
      assert r[3].page == "reset-password";
    }
  }

  /** So at most one link of a list is highlighted, whatever the page. */
  lemma AtMostOneActive(items: seq<NavItem>, currentPage: string)
    requires DistinctPages(items)
    ensures forall i, j ::
      (0 <= i < |items| && 0 <= j < |items| && IsActive(currentPage, items[i]) && IsActive(currentPage, items[j])) ==>
      i == j
  {
  }

  /** A profile's role is one of the four names, so the default lists (and
      the reset-password link in them) never appear for a stored role. */
  lemma {:induction false} TypedRolesSkipDefault(role: UserRole)
    ensures NavItemsForRole(RoleName(role)) != GuestItems + [NavItem("reset-password", "RESET PASSWORD")]
    ensures forall i :: 0 <= i < |NavItemsForRole(RoleName(role))| ==>
      NavItemsForRole(RoleName(role))[i].page != "reset-password"
    ensures UserMenuItems(true, Some(RoleName(role))) != [NavItem("profile", "Profile")]
  {
    var items := NavItemsForRole(RoleName(role));
    match role {
      case Admin =>
      case Consumer =>
        assert |items| == 3;
      case Restaurant =>
      case Charity =>
    }
  }
}
