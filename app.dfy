/** The application shell: the hash router, the page dispatch, the
    reset-link bridge and the reaction to a completed sign-in. */
module App {
  import opened Wrappers
  import opened Strings
  import opened Types
  import Navigation

  /** The page named by a location hash: the hash with its first "#/"
      removed, or "home" when nothing is left. */
  function ParsePage(hash: string): (r: string)
    ensures r != ""
    ensures IndexOf(hash, "#/").None? && hash != "" ==> r == hash
    ensures hash == "" ==> r == "home"
    ensures IndexOf(hash, "#/").Some? ==>
      var i := IndexOf(hash, "#/").value;
      var rest := hash[..i] + hash[i + 2..];
      r == if rest == "" then "home" else rest
    ensures |hash| >= 2 && hash[..2] == "#/" ==> r == if |hash| == 2 then "home" else hash[2..]
  {
    var stripped := ReplaceFirst(hash, "#/", "");
    StripLeadingPattern("#/", hash);
    if stripped == "" then "home" else stripped
  }

  /** The hash `handleNavigate` leaves in the address bar. */
  function HashFor(page: string): string {
    "#/" + page
  }

  /** Navigating and then reading the hash back gives the same page, for
      every non-empty page name; the empty name reads back as "home". */
  lemma NavigateRoundTrip(page: string)
    ensures page != "" ==> ParsePage(HashFor(page)) == page
    ensures page == "" ==> ParsePage(HashFor(page)) == "home"
  {
    ReplaceLeadingPattern("#/", page);
  }

  const BridgePath := "/reset-password-bridge"

  /** The bridge redirect: the bridge path is replaced by the hash route of
      the reset page, with the query and the fragment appended unchanged. */
  function BridgeRedirect(pathname: string, search: string, hash: string): (r: Option<string>)
    ensures r.Some? <==> pathname == BridgePath
    ensures r.Some? ==> r.value == "/#/reset-password" + search + hash
  {
    if pathname == BridgePath then Some("/#/reset-password" + search + hash) else None
  }

  /** The fragment of a URL: everything from its first '#', or nothing. */
  function FragmentOf(url: string): (r: string)
    ensures IndexOf(url, "#").None? ==> r == ""
    ensures IndexOf(url, "#").Some? ==> r == url[IndexOf(url, "#").value..]
  {
    match IndexOf(url, "#")
    case None => ""
    case Some(i) => url[i..]
  }

  /** What the main area shows. */
  datatype PageView =
    | AdminDashboardView
    | AdminUsersView
    | Placeholder(title: string)
    | RestaurantProfileView
    | CharityProfileView
    | RestaurantDashboardView
    | RestaurantOrdersView
    | CharityDashboardView
    | OrdersView
    | ImpactProfileView
    | BrowseView
    | ImpactView
    | ResetPasswordView
    | HomeView

  /** The page names with a view of their own. */
  const RoutedPages: set<string> := {
    "admin-dashboard", "admin-users", "admin-meals", "admin-orders", "admin-settings",
    "restaurant-profile", "charity-profile", "restaurant-dashboard", "restaurant-orders",
    "donations", "orders", "profile", "browse", "impact", "reset-password"}

  /** `renderPage`. The three unfinished admin pages get a placeholder
      titled with the page name minus "admin-", upper-cased; every other
      name outside the routed set shows the home layout. */
  function RenderPage(page: string): (r: PageView)
    ensures r == HomeView <==> page !in RoutedPages
    ensures r.Placeholder? <==> page in {"admin-meals", "admin-orders", "admin-settings"}
    ensures r.Placeholder? ==> r.title == Upper(ReplaceFirst(page, "admin-", ""))
    ensures r == ResetPasswordView <==> page == "reset-password"
  {
    if page == "admin-dashboard" then AdminDashboardView
    else if page == "admin-users" then AdminUsersView
    else if page in {"admin-meals", "admin-orders", "admin-settings"} then
      Placeholder(Upper(ReplaceFirst(page, "admin-", "")))
    else if page == "restaurant-profile" then RestaurantProfileView
    else if page == "charity-profile" then CharityProfileView
    else if page == "restaurant-dashboard" then RestaurantDashboardView
    else if page == "restaurant-orders" then RestaurantOrdersView
    else if page == "donations" then CharityDashboardView
    else if page == "orders" then OrdersView
    else if page == "profile" then ImpactProfileView
    else if page == "browse" then BrowseView
    else if page == "impact" then ImpactView
    else if page == "reset-password" then ResetPasswordView
    else HomeView
  }

  /** A placeholder page is titled with its name after "admin-",
      upper-cased. */
  lemma PlaceholderTitle(name: string)
    requires "admin-" + name in {"admin-meals", "admin-orders", "admin-settings"}
    ensures RenderPage("admin-" + name) == Placeholder(Upper(name))
  {
    ReplaceLeadingPattern("admin-", name);
  }

  /** The bridge lands on the reset page only when the link carries neither
      a query nor a fragment: anything after the route stays in the page
      name, which is then unknown and shows the home layout. */
  lemma {:induction false} BridgeRoute(search: string, hash: string)
    ensures var page := ParsePage(FragmentOf(BridgeRedirect(BridgePath, search, hash).value));
      page == "reset-password" + search + hash &&
      (RenderPage(page) == ResetPasswordView <==> search + hash == "")
  {
    var url := "/#/reset-password" + search + hash;
    var rest := "reset-password" + search + hash;
    assert "/#/reset-password" == "/" + "#/" + "reset-password";
    assert url == "/" + ("#/" + rest) by {
      assert url == ("/" + "#/") + ("reset-password" + search + hash);
      assert "reset-password" + search + hash == rest;
    }
    assert OccursAt(url, "#", 1);
    assert !OccursAt(url, "#", 0);
    assert IndexOf(url, "#") == Some(1);
    assert FragmentOf(url) == "#/" + rest;
    ReplaceLeadingPattern("#/", rest);
    if search + hash != "" {
      assert |rest| > |"reset-password"|;
    }
  }

  /** Every link and menu entry of a stored role opens a routed page or
      home, so no navigation entry leads to an unknown page. */
  lemma {:induction false} NavTargetsAreRouted(role: UserRole)
    ensures forall item :: item in Navigation.NavItems(true, Some(RoleName(role))) ==>
      item.page == "home" || item.page in RoutedPages
    ensures forall item :: item in Navigation.UserMenuItems(true, Some(RoleName(role))) ==>
      item.page in RoutedPages
  {
  }

  /** The shell's own state. */
  class AppState {
    var hash: string
    var currentPage: string
    var showAuthModal: bool

    /** The page is read from the hash on start. */
    constructor (initialHash: string)
      ensures hash == initialHash && currentPage == ParsePage(initialHash) && !showAuthModal
    {
      hash := initialHash;
      currentPage := ParsePage(initialHash);
      showAuthModal := false;
    }

    /** The page always follows the hash. */
    predicate Routed()
      reads this
    {
      currentPage == ParsePage(hash)
    }

    /** A hash change re-reads the page. */
    method OnHashChange(newHash: string)
      modifies this`hash, this`currentPage
      ensures hash == newHash && Routed()
    {
      hash := newHash;
      currentPage := ParsePage(hash);
    }

    /** `handleNavigate`: the hash is set to the page's route, and the
        change it causes brings the page up. */
    method HandleNavigate(page: string)
      modifies this`hash, this`currentPage
      ensures hash == HashFor(page) && Routed()
      ensures page != "" ==> currentPage == page
    {
      NavigateRoundTrip(page);
      OnHashChange(HashFor(page));
    }

    method OpenAuthModal()
      modifies this`showAuthModal
      ensures showAuthModal
    {
      showAuthModal := true;
    }

    /** `handleAuthSuccess`: the dialog closes; an admin profile is taken
        to the admin dashboard, any other (or none) stays where it is. */
    method HandleAuthSuccess(profile: Option<User>)
      modifies this`hash, this`currentPage, this`showAuthModal
      ensures !showAuthModal
      ensures profile.Some? && profile.value.role == Admin ==>
        currentPage == "admin-dashboard" && hash == HashFor("admin-dashboard")
      ensures !(profile.Some? && profile.value.role == Admin) ==>
        currentPage == old(currentPage) && hash == old(hash)
    {
      showAuthModal := false;
      if profile.Some? && profile.value.role == Admin {
        HandleNavigate("admin-dashboard");
      }
    }
  }
}
