/**
 * HeaderComponent: the profile and filter menus (at most one open at a time), the search box
 * and the type and rating filters, which all navigate to the listing page.
 */
module Header {
  import opened Wrappers
  import opened Models
  import opened Browser
  import opened Shows
  import opened HttpErrors
  import opened Auth
  import opened Home

  // ---- the two drop-down menus ---------------------------------------------

  datatype MenuState = MenuState(profileOpen: bool, filterOpen: bool)

  /** At most one of the two menus is open. */
  predicate Exclusive(m: MenuState) {
    !(m.profileOpen && m.filterOpen)
  }

  datatype MenuEvent = ToggleProfile | ToggleFilter | Close | FilterChosen

  /** toggleProfileMenu and toggleFilterMenu flip their menu and close the other one when opening;
      closeMenus closes both; choosing or clearing a filter closes the filter menu. */
  function MenuStep(m: MenuState, e: MenuEvent): (r: MenuState)
    ensures Exclusive(r)
    ensures e != ToggleProfile ==> (r.profileOpen ==> m.profileOpen)
    ensures e != ToggleFilter ==> (r.filterOpen ==> m.filterOpen)
  {
    match e
    case ToggleProfile =>
      if !m.profileOpen then MenuState(true, false) else m.(profileOpen := false)
    case ToggleFilter =>
      if !m.filterOpen then MenuState(false, true) else m.(filterOpen := false)
    case Close => MenuState(false, false)
    case FilterChosen => m.(filterOpen := false)
  }

  function MenuRun(m: MenuState, events: seq<MenuEvent>): MenuState
    decreases |events|
  {
    if events == [] then m else MenuRun(MenuStep(m, events[0]), events[1..])
  }

  /** One step keeps the menus exclusive; opening a menu opens it and closes the other. */
  lemma MenuStepExclusive(m: MenuState, e: MenuEvent)
    ensures Exclusive(MenuStep(m, e))
    ensures e == ToggleProfile && !m.profileOpen ==> MenuStep(m, e) == MenuState(true, false)
    ensures e == ToggleFilter && !m.filterOpen ==> MenuStep(m, e) == MenuState(false, true)
    ensures e == ToggleProfile && m.profileOpen ==> MenuStep(m, e) == m.(profileOpen := false)
    ensures e == ToggleFilter && m.filterOpen ==> MenuStep(m, e) == m.(filterOpen := false)
  {
  }

  /** Whatever the clicks, the two menus are never open together. */
  lemma {:induction false} MenuRunExclusive(m: MenuState, events: seq<MenuEvent>)
    requires Exclusive(m) || events != []
    ensures Exclusive(MenuRun(m, events))
    decreases |events|
  {
    if events != [] {
      MenuStepExclusive(m, events[0]);
      MenuRunExclusive(MenuStep(m, events[0]), events[1..]);
    }
  }

  /** Toggling the same menu twice from the closed state closes it again, and leaves the other one closed. */
  lemma ToggleTwiceCloses(m: MenuState, e: MenuEvent)
    requires e == ToggleProfile || e == ToggleFilter
    requires Exclusive(m)
    requires e == ToggleProfile ==> !m.profileOpen
    requires e == ToggleFilter ==> !m.filterOpen
    ensures MenuRun(m, [e, e]) == MenuState(false, false)
  {
    var m1 := MenuStep(m, e);
    assert [e, e][1..] == [e];
    assert MenuRun(m, [e, e]) == MenuRun(m1, [e]);
    assert MenuRun(m1, [e]) == MenuStep(m1, e);
  }

  // ---- navigation to the listing --------------------------------------------

  /** `{ key: value || undefined }` added to a query-parameter object: the key only when the value is not empty. */
  function PutNonEmpty(m: map<string, string>, key: string, value: string): map<string, string> {
    if value != "" then m[key := value] else m
  }

  /** The query parameters of performSearch: search, type and rating, each left out when empty. */
  function SearchParams(query: string, selectedType: string, selectedRating: string): (m: map<string, string>)
    ensures m.Keys <= {"search", "type", "rating"}
    ensures "search" in m <==> query != ""
    ensures "type" in m <==> selectedType != ""
    ensures "rating" in m <==> selectedRating != ""
    ensures "search" in m ==> m["search"] == query
    ensures "type" in m ==> m["type"] == selectedType
    ensures "rating" in m ==> m["rating"] == selectedRating
  {
    PutNonEmpty(PutNonEmpty(PutNonEmpty(map[], "search", query), "type", selectedType), "rating", selectedRating)
  }

  /** The listing page reads a header search as page 1 of that search and those filters,
      with the sort back at title ascending. */
  lemma SearchLandsOnFirstPage(query: string, selectedType: string, selectedRating: string)
    ensures ParseQuery(SearchParams(query, selectedType, selectedRating))
      == ListingQuery(1, query, selectedType, selectedRating, "title", "asc")
  {
    var m := SearchParams(query, selectedType, selectedRating);
    assert "page" !in m && "sortBy" !in m && "sortOrder" !in m;
    assert PageParam(m) == 1;
    assert QueryParam(m, "search") == query;
    assert QueryParam(m, "type") == selectedType;
    assert QueryParam(m, "rating") == selectedRating;
  }

  /** The part of a router URL before its query string or fragment. */
  function UrlPath(url: string): (p: string)
    ensures |p| <= |url| && p == url[..|p|]
    ensures '?' !in p && '#' !in p
    ensures |p| == |url| || url[|p|] == '?' || url[|p|] == '#'
  {
    if url == [] || url[0] == '?' || url[0] == '#' then []
    else [url[0]] + UrlPath(url[1..])
  }

  /** The path of `path + "?" + query` is `path`. */
  lemma {:induction false} UrlPathBeforeQuery(path: string, query: string)
    requires '?' !in path && '#' !in path
    ensures UrlPath(path + "?" + query) == path
  {
    if path != [] {
      assert (path + "?" + query)[1..] == path[1..] + "?" + query;
      UrlPathBeforeQuery(path[1..], query);
    }
  }

  /** A URL with neither '?' nor '#' is all path. */
  lemma {:induction false} UrlPathOfPlainUrl(url: string)
    requires '?' !in url && '#' !in url
    ensures UrlPath(url) == url
  {
    if url != [] {
      UrlPathOfPlainUrl(url[1..]);
    }
  }

  /** The search-box subscription of setupSearch, as written: it tests the whole router URL,
      query string included, against '/home' and '/'. */
  function OnListingAsWritten(url: string): bool {
    url == "/home" || url == "/"
  }

  /** The same test on the path alone. */
  function OnListing(url: string): (b: bool)
    ensures b <==> UrlPath(url) in {"/home", "/"}
  {
    var path := UrlPath(url);
    path == "/home" || path == "/"
  }

  /** Where a search-box value leads, given the test for "already on the listing": there,
      performSearch with the selected filters; elsewhere, /home with the search alone. */
  function SearchNavigationWith(onListing: bool, query: string, selectedType: string, selectedRating: string): Navigation {
    if onListing then Navigation("/home", SearchParams(query, selectedType, selectedRating))
    else Navigation("/home", PutNonEmpty(map[], "search", query))
  }

  function SearchNavigationAsWritten(url: string, query: string, selectedType: string, selectedRating: string): Navigation {
    SearchNavigationWith(OnListingAsWritten(url), query, selectedType, selectedRating)
  }

  /** The corrected decision: typing on the listing page keeps the selected type and rating,
      whatever query string the listing URL already carries. */
  function SearchNavigation(url: string, query: string, selectedType: string, selectedRating: string): (nav: Navigation)
    ensures nav.path == "/home"
    ensures UrlPath(url) in {"/home", "/"} ==>
      ParseQuery(nav.queryParams) == ListingQuery(1, query, selectedType, selectedRating, "title", "asc")
    ensures UrlPath(url) !in {"/home", "/"} ==>
      ParseQuery(nav.queryParams) == ListingQuery(1, query, "", "", "title", "asc")
  {
    SearchLandsOnFirstPage(query, selectedType, selectedRating);
    SearchLandsOnFirstPage(query, "", "");
    SearchNavigationWith(OnListing(url), query, selectedType, selectedRating)
  }

  /** As written, once a type filter is in the URL the next keystroke in the search box drops it:
      on "/home?type=Movie" with "Movie" still selected, typing "x" lands on an unfiltered listing. */
  lemma SearchDropsFiltersAsWritten()
    ensures ParseQuery(SearchNavigationAsWritten("/home?type=Movie", "x", "Movie", "").queryParams).showType == ""
    ensures ParseQuery(SearchNavigation("/home?type=Movie", "x", "Movie", "").queryParams).showType == "Movie"
  {
    UrlPathBeforeQuery("/home", "type=Movie");
    assert "/home" + "?" + "type=Movie" == "/home?type=Movie";
  }

  /** On a URL without query string or fragment the corrected decision is the one written. */
  lemma SearchNavigationAgreesOnPlainUrls(url: string, query: string, selectedType: string, selectedRating: string)
    requires '?' !in url && '#' !in url
    ensures SearchNavigation(url, query, selectedType, selectedRating)
      == SearchNavigationAsWritten(url, query, selectedType, selectedRating)
  {
    UrlPathOfPlainUrl(url);
  }

  // ---- the component ----------------------------------------------------------

  class HeaderComponent {
    /** The signed-in user's email, or undefined. */
    var user: Option<string>
    var isProfileMenuOpen: bool
    var isFilterMenuOpen: bool
    /** The search box's value, with null read as "". */
    var searchValue: string
    var filterOptions: Option<FilterOptions>
    var selectedType: string
    var selectedRating: string
    const apiUrl: string

    function Menu(): MenuState
      reads this
    {
      MenuState(isProfileMenuOpen, isFilterMenuOpen)
    }

    constructor (apiUrl: string)
      ensures this.apiUrl == apiUrl && Menu() == MenuState(false, false)
      ensures user.None? && searchValue == "" && filterOptions.None? && selectedType == "" && selectedRating == ""
    {
      this.apiUrl := apiUrl;
      user := None;
      isProfileMenuOpen := false;
      isFilterMenuOpen := false;
      searchValue := "";
      filterOptions := None;
      selectedType := "";
      selectedRating := "";
    }

    /** The currentUser$ subscription: only the email is kept. */
    method OnCurrentUser(current: Option<User>)
      modifies this
      ensures user == (if current.Some? then Some(current.value.email) else None)
      ensures Menu() == old(Menu()) && searchValue == old(searchValue) && filterOptions == old(filterOptions)
      ensures selectedType == old(selectedType) && selectedRating == old(selectedRating)
    {
      user := if current.Some? then Some(current.value.email) else None;
    }

    /** ngOnInit: take the current user and issue loadFilterOptions' request with the stored bearer token. */
    method NgOnInit(current: Option<User>, storage: map<string, string>) returns (req: Request)
      modifies this
      ensures user == (if current.Some? then Some(current.value.email) else None)
      ensures Menu() == old(Menu()) && searchValue == old(searchValue) && filterOptions == old(filterOptions)
      ensures selectedType == old(selectedType) && selectedRating == old(selectedRating)
      ensures req == GetFilterOptions(apiUrl, StoredBearer(storage))
    {
      OnCurrentUser(current);
      req := GetFilterOptions(apiUrl, StoredBearer(storage));
    }

    /** loadFilterOptions' subscription: a failure leaves the options as they were. */
    method OnFilterOptions(outcome: Result<FilterOptions, HttpError>)
      modifies this
      ensures filterOptions == (if outcome.Success? then Some(outcome.value) else old(filterOptions))
      ensures user == old(user) && Menu() == old(Menu()) && searchValue == old(searchValue)
      ensures selectedType == old(selectedType) && selectedRating == old(selectedRating)
    {
      if outcome.Success? {
        filterOptions := Some(outcome.value);
      }
    }

    /** Typing in the search box: the control's value changes and nothing else. */
    method SetSearch(v: string)
      modifies this
      ensures searchValue == v
      ensures user == old(user) && Menu() == old(Menu()) && filterOptions == old(filterOptions)
      ensures selectedType == old(selectedType) && selectedRating == old(selectedRating)
    {
      searchValue := v;
    }

    /** The search box's value reaching the subscriber, with the router's current URL, as the code
        decides it: the whole URL, query string included, is compared with '/home' and '/'.
        Where the URL has no query string or fragment this is the corrected decision. */
    method OnSearchEmission(url: string) returns (nav: Navigation)
      ensures nav == SearchNavigationAsWritten(url, searchValue, selectedType, selectedRating)
      ensures '?' !in url && '#' !in url ==> nav == SearchNavigation(url, searchValue, selectedType, selectedRating)
    {
      if OnListingAsWritten(url) {
        nav := PerformSearch(searchValue);
      } else {
        nav := Navigation("/home", PutNonEmpty(map[], "search", searchValue));
      }
      if '?' !in url && '#' !in url {
        SearchNavigationAgreesOnPlainUrls(url, searchValue, selectedType, selectedRating);
      }
    }

    /** The same subscriber with the corrected test on the URL's path: a search typed on a
        filtered listing keeps the selected type and rating. */
    method OnSearchEmissionCorrected(url: string) returns (nav: Navigation)
      ensures nav == SearchNavigation(url, searchValue, selectedType, selectedRating)
    {
      if OnListing(url) {
        nav := PerformSearch(searchValue);
      } else {
        nav := Navigation("/home", PutNonEmpty(map[], "search", searchValue));
      }
    }

    method PerformSearch(query: string) returns (nav: Navigation)
      ensures nav == Navigation("/home", SearchParams(query, selectedType, selectedRating))
    {
      nav := Navigation("/home", SearchParams(query, selectedType, selectedRating));
    }

    method OnTypeFilter(t: string) returns (nav: Navigation)
      modifies this
      ensures selectedType == t && selectedRating == old(selectedRating) && searchValue == old(searchValue)
      ensures nav == Navigation("/home", SearchParams(searchValue, t, selectedRating))
      ensures Menu() == MenuStep(old(Menu()), FilterChosen)
      ensures user == old(user) && filterOptions == old(filterOptions)
    {
      selectedType := t;
      nav := PerformSearch(searchValue);
      isFilterMenuOpen := false;
    }

    method OnRatingFilter(r: string) returns (nav: Navigation)
      modifies this
      ensures selectedRating == r && selectedType == old(selectedType) && searchValue == old(searchValue)
      ensures nav == Navigation("/home", SearchParams(searchValue, selectedType, r))
      ensures Menu() == MenuStep(old(Menu()), FilterChosen)
      ensures user == old(user) && filterOptions == old(filterOptions)
    {
      selectedRating := r;
      nav := PerformSearch(searchValue);
      isFilterMenuOpen := false;
    }

    /** clearFilters: filters and search box emptied, and a bare /home navigation. */
    method ClearFilters() returns (nav: Navigation)
      modifies this
      ensures selectedType == "" && selectedRating == "" && searchValue == ""
      ensures nav == Navigation("/home", map[])
      ensures Menu() == MenuStep(old(Menu()), FilterChosen)
      ensures user == old(user) && filterOptions == old(filterOptions)
    {
      selectedType := "";
      selectedRating := "";
      searchValue := "";
      nav := Navigation("/home", map[]);
      isFilterMenuOpen := false;
    }

    method ToggleProfileMenu()
      modifies this
      ensures Menu() == MenuStep(old(Menu()), ToggleProfile)
      ensures user == old(user) && searchValue == old(searchValue) && filterOptions == old(filterOptions)
      ensures selectedType == old(selectedType) && selectedRating == old(selectedRating)
    {
      isProfileMenuOpen := !isProfileMenuOpen;
      if isProfileMenuOpen {
        isFilterMenuOpen := false;
      }
    }

    method ToggleFilterMenu()
      modifies this
      ensures Menu() == MenuStep(old(Menu()), ToggleFilter)
      ensures user == old(user) && searchValue == old(searchValue) && filterOptions == old(filterOptions)
      ensures selectedType == old(selectedType) && selectedRating == old(selectedRating)
    {
      isFilterMenuOpen := !isFilterMenuOpen;
      if isFilterMenuOpen {
        isProfileMenuOpen := false;
      }
    }

    method CloseMenus()
      modifies this
      ensures Menu() == MenuStep(old(Menu()), Close)
      ensures user == old(user) && searchValue == old(searchValue) && filterOptions == old(filterOptions)
      ensures selectedType == old(selectedType) && selectedRating == old(selectedRating)
    {
      isProfileMenuOpen := false;
      isFilterMenuOpen := false;
    }

    /** logout: sign out of the service, take the user it then publishes (none), and go to /auth. */
    method Logout(auth: AuthService) returns (nav: Navigation)
      modifies this, auth, auth.storage
      ensures auth.State() == SignedOut(old(auth.State()))
      ensures user.None? && nav == Navigation("/auth", map[])
      ensures Menu() == old(Menu()) && searchValue == old(searchValue) && filterOptions == old(filterOptions)
      ensures selectedType == old(selectedType) && selectedRating == old(selectedRating)
    {
      auth.Logout();
      OnCurrentUser(auth.GetCurrentUser());
      nav := Navigation("/auth", map[]);
    }

    method NavigateHome() returns (nav: Navigation)
      ensures nav == Navigation("/home", map[])
    {
      nav := Navigation("/home", map[]);
    }
  }
}
