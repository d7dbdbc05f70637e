/**
 * HomeComponent: the listing page. Its six query fields live in the URL; the component
 * parses them from the query parameters, writes them back leaving defaults out, builds
 * the list request from them, and applies the sort, page and clear-all changes.
 */
module Home {
  import opened Wrappers
  import opened Strings
  import opened Models
  import opened Browser
  import opened Shows
  import opened HttpErrors

  /** The listing query: currentPage, currentSearch, currentType, currentRating, currentSort, currentSortOrder. */
  datatype ListingQuery = ListingQuery(page: int, search: string, showType: string, rating: string, sortBy: string, sortOrder: string)

  const Defaults := ListingQuery(1, "", "", "", "title", "asc")

  /** The page size every list request asks for. */
  const PageSize := 15

  /** `params[key]`, with undefined read as "" (every use goes through `|| default`). */
  function QueryParam(params: map<string, string>, key: string): string {
    if key in params then params[key] else ""
  }

  /** `parseInt(params['page']) || 1`: NaN and 0 become 1; a negative number is kept. */
  function PageParam(params: map<string, string>): (page: int)
    ensures page != 0
    ensures "page" !in params ==> page == 1
    ensures "page" in params && (ParseInt(params["page"]).None? || ParseInt(params["page"]) == Some(0)) ==> page == 1
    ensures "page" in params && ParseInt(params["page"]).Some? && ParseInt(params["page"]).value != 0 ==>
      page == ParseInt(params["page"]).value
  {
    if "page" !in params then 1
    else match ParseInt(params["page"])
      case None => 1
      case Some(n) => if n == 0 then 1 else n
  }

  /** A non-numeric page is the first page; a numeral followed by other text is as far as its digits go. */
  lemma PageParamSamples()
    ensures PageParam(map["page" := "abc"]) == 1
    ensures PageParam(map["page" := "12abc"]) == 12
  {
    ParseIntNaN();
    ParseIntStopsAtNonDigit();
  }

  /** The query-parameter subscription of ngOnInit. */
  function ParseQuery(params: map<string, string>): (q: ListingQuery)
    ensures q.page != 0 && q.sortBy != "" && q.sortOrder != ""
  {
    ListingQuery(
      PageParam(params),
      QueryParam(params, "search"),
      QueryParam(params, "type"),
      QueryParam(params, "rating"),
      Or(QueryParam(params, "sortBy"), "title"),
      Or(QueryParam(params, "sortOrder"), "asc"))
  }

  /** A field missing from the URL, or present but empty, takes its default; a present value is taken as it is. */
  lemma ParseFillsDefaults(params: map<string, string>, key: string)
    requires key in {"search", "type", "rating", "sortBy", "sortOrder"}
    ensures var q := ParseQuery(params);
      var field := match key
        case "search" => q.search
        case "type" => q.showType
        case "rating" => q.rating
        case "sortBy" => q.sortBy
        case _ => q.sortOrder;
      var default := match key
        case "search" => ""
        case "type" => ""
        case "rating" => ""
        case "sortBy" => "title"
        case _ => "asc";
      field == if key in params && params[key] != "" then params[key] else default
  {
  }

  /** A bare listing URL is the default query. */
  lemma BareUrlIsDefaults()
    ensures ParseQuery(map[]) == Defaults
  {
  }

  /** The keys updateUrlAndLoadShows may write. */
  const UrlKeys: set<string> := {"page", "search", "type", "rating", "sortBy", "sortOrder"}

  /** `if (cond) m[key] = value`, on a map. */
  function PutIf(m: map<string, string>, cond: bool, key: string, value: string): map<string, string> {
    if cond then m[key := value] else m
  }

  /** The value updateUrlAndLoadShows writes under `key`, None when that field is at its default. */
  function UrlValue(q: ListingQuery, key: string): Option<string> {
    match key
    case "page" => if q.page > 1 then Some(IntToString(q.page)) else None
    case "search" => if !IsBlank(q.search) then Some(q.search) else None
    case "type" => if q.showType != "" then Some(q.showType) else None
    case "rating" => if q.rating != "" then Some(q.rating) else None
    case "sortBy" => if q.sortBy != "title" then Some(q.sortBy) else None
    case "sortOrder" => if q.sortOrder != "asc" then Some(q.sortOrder) else None
    case _ => None
  }

  /** updateUrlAndLoadShows: the query parameters of the navigation, each field left out at its default. */
  function UrlParams(q: ListingQuery): (m: map<string, string>)
    ensures m.Keys <= UrlKeys
  {
    map key | key in UrlKeys && UrlValue(q, key).Some? :: UrlValue(q, key).value
  }

  /** The page is in the URL exactly when it is above 1, as its numeral, which is then never "1". */
  lemma UrlParamsPage(q: ListingQuery)
    ensures var m := UrlParams(q);
      && ("page" in m <==> q.page > 1)
      && ("page" in m ==> m["page"] == IntToString(q.page) && m["page"] != "1")
  {
    assert q.page > 1 ==> IntToString(q.page) != "1" by {
      assert IntToString(1) == "1";
      if IntToString(q.page) == "1" {
        IntToStringInjective(q.page, 1);
      }
    }
  }

  /** The search is in the URL exactly when it is not blank, untrimmed. */
  lemma UrlParamsSearch(q: ListingQuery)
    ensures var m := UrlParams(q);
      && ("search" in m <==> !IsBlank(q.search))
      && ("search" in m ==> m["search"] == q.search)
  {
    assert "search" in UrlKeys;
    assert UrlValue(q, "search") == (if !IsBlank(q.search) then Some(q.search) else None);
  }

  /** Type and rating are in the URL exactly when they are not empty. */
  lemma UrlParamsFilters(q: ListingQuery)
    ensures var m := UrlParams(q);
      && ("type" in m <==> q.showType != "") && ("type" in m ==> m["type"] == q.showType)
      && ("rating" in m <==> q.rating != "") && ("rating" in m ==> m["rating"] == q.rating)
  {
    assert "type" in UrlKeys && "rating" in UrlKeys;
    assert UrlValue(q, "type") == (if q.showType != "" then Some(q.showType) else None);
    assert UrlValue(q, "rating") == (if q.rating != "" then Some(q.rating) else None);
  }

  /** The sort field and order are in the URL exactly when they differ from 'title' and 'asc'. */
  lemma UrlParamsSort(q: ListingQuery)
    ensures var m := UrlParams(q);
      && ("sortBy" in m <==> q.sortBy != "title") && ("sortBy" in m ==> m["sortBy"] == q.sortBy)
      && ("sortOrder" in m <==> q.sortOrder != "asc") && ("sortOrder" in m ==> m["sortOrder"] == q.sortOrder)
  {
    assert "sortBy" in UrlKeys && "sortOrder" in UrlKeys;
    assert UrlValue(q, "sortBy") == (if q.sortBy != "title" then Some(q.sortBy) else None);
    assert UrlValue(q, "sortOrder") == (if q.sortOrder != "asc" then Some(q.sortOrder) else None);
  }

  /** The queries the URL can carry without loss: a positive page, a non-empty sort and order,
      and a search that is empty or has a non-blank character. */
  predicate WellFormed(q: ListingQuery) {
    && q.page >= 1
    && q.sortBy != ""
    && q.sortOrder != ""
    && (q.search == "" || !IsBlank(q.search))
  }

  /** A page of at least 1 comes back from the URL unchanged; any other page comes back as 1. */
  lemma UrlPageRoundTrip(q: ListingQuery)
    ensures PageParam(UrlParams(q)) == if q.page >= 1 then q.page else 1
  {
    UrlParamsPage(q);
    if q.page > 1 {
      ParseIntOfIntToString(q.page);
    }
  }

  lemma UrlSearchRoundTrip(q: ListingQuery)
    requires q.search == "" || !IsBlank(q.search)
    ensures QueryParam(UrlParams(q), "search") == q.search
  {
    UrlParamsSearch(q);
  }

  lemma UrlFiltersRoundTrip(q: ListingQuery)
    requires q.sortBy != "" && q.sortOrder != ""
    ensures var m := UrlParams(q);
      && QueryParam(m, "type") == q.showType
      && QueryParam(m, "rating") == q.rating
      && Or(QueryParam(m, "sortBy"), "title") == q.sortBy
      && Or(QueryParam(m, "sortOrder"), "asc") == q.sortOrder
  {
    UrlParamsFilters(q);
    UrlParamsSort(q);
  }

  /** Writing a well-formed query to the URL and reading it back gives the same query. */
  lemma UrlRoundTrip(q: ListingQuery)
    requires WellFormed(q)
    ensures ParseQuery(UrlParams(q)) == q
  {
    UrlPageRoundTrip(q);
    UrlSearchRoundTrip(q);
    UrlFiltersRoundTrip(q);
  }

  /** Whatever the component holds, what survives one trip through the URL is well formed, so further trips change nothing. */
  lemma UrlTripIdempotent(q: ListingQuery)
    ensures WellFormed(ParseQuery(UrlParams(q)))
    ensures ParseQuery(UrlParams(ParseQuery(UrlParams(q)))) == ParseQuery(UrlParams(q))
  {
    var m := UrlParams(q);
    UrlParamsPage(q);
    UrlParamsSearch(q);
    if q.page > 1 {
      ParseIntOfIntToString(q.page);
    }
    var n := ParseQuery(m);
    assert n.search == "" || !IsBlank(n.search);
    UrlRoundTrip(n);
  }

  /** A query field set conditionally: `if (cond) params[key] = value`. */
  function AddIf(p: QueryObject, cond: bool, key: string, v: JsValue): (r: QueryObject)
    ensures |p| <= |r| <= |p| + 1 && r[..|p|] == p
  {
    if cond then p + [(key, v)] else p
  }

  /** The ShowsQueryParams object loadShows builds. */
  function RequestParams(q: ListingQuery): (p: QueryObject)
    ensures 2 <= |p| <= 7
    ensures p[0] == ("page", Num(q.page)) && p[1] == ("limit", Num(PageSize))
  {
    var p0 := [("page", Num(q.page)), ("limit", Num(PageSize))];
    var p1 := AddIf(p0, !IsBlank(q.search), "search", Str(Trim(q.search)));
    var p2 := AddIf(p1, q.showType != "", "type", Str(q.showType));
    var p3 := AddIf(p2, q.rating != "", "rating", Str(q.rating));
    var p4 := AddIf(p3, q.sortBy != "", "sortBy", Str(q.sortBy));
    AddIf(p4, q.sortOrder != "", "sortOrder", Str(q.sortOrder))
  }

  /** The parameters the service sends for RequestParams(q), as one map expression. */
  function ExpectedSent(q: ListingQuery): map<string, string> {
    var s0 := map["page" := IntToString(q.page), "limit" := "15"];
    var s1 := PutIf(s0, !IsBlank(q.search), "search", Trim(q.search));
    var s2 := PutIf(s1, q.showType != "", "type", q.showType);
    var s3 := PutIf(s2, q.rating != "", "rating", q.rating);
    var s4 := PutIf(s3, q.sortBy != "", "sortBy", q.sortBy);
    PutIf(s4, q.sortOrder != "", "sortOrder", q.sortOrder)
  }

  /** One conditional text field: what `AddIf` does to the object, `PutIf` does to the sent parameters. */
  lemma SentAddIf(p: QueryObject, s: map<string, string>, cond: bool, key: string, v: string)
    requires Sent(p) == s
    ensures Sent(AddIf(p, cond, key, Str(v))) == PutIf(s, cond && v != "", key, v)
  {
    if cond {
      SentSnoc(p, key, Str(v));
    }
  }

  lemma {:induction false} RequestSent(q: ListingQuery)
    ensures Sent(RequestParams(q)) == ExpectedSent(q)
  {
    var p0 := [("page", Num(q.page)), ("limit", Num(PageSize))];
    var s0 := map["page" := IntToString(q.page), "limit" := "15"];
    assert Sent(p0) == s0 by {
      assert IntToString(15) == "15";
      assert p0 == [("page", Num(q.page))] + [("limit", Num(PageSize))];
      SentSnoc([], "page", Num(q.page));
      assert [] + [("page", Num(q.page))] == [("page", Num(q.page))];
      SentSnoc([("page", Num(q.page))], "limit", Num(PageSize));
    }
    var p1 := AddIf(p0, !IsBlank(q.search), "search", Str(Trim(q.search)));
    var s1 := PutIf(s0, !IsBlank(q.search), "search", Trim(q.search));
    SentAddIf(p0, s0, !IsBlank(q.search), "search", Trim(q.search));
    var p2 := AddIf(p1, q.showType != "", "type", Str(q.showType));
    var s2 := PutIf(s1, q.showType != "", "type", q.showType);
    SentAddIf(p1, s1, q.showType != "", "type", q.showType);
    var p3 := AddIf(p2, q.rating != "", "rating", Str(q.rating));
    var s3 := PutIf(s2, q.rating != "", "rating", q.rating);
    SentAddIf(p2, s2, q.rating != "", "rating", q.rating);
    var p4 := AddIf(p3, q.sortBy != "", "sortBy", Str(q.sortBy));
    var s4 := PutIf(s3, q.sortBy != "", "sortBy", q.sortBy);
    SentAddIf(p3, s3, q.sortBy != "", "sortBy", q.sortBy);
    SentAddIf(p4, s4, q.sortOrder != "", "sortOrder", q.sortOrder);
  }

  /** What the list request carries: page and limit 15 always; the trimmed search only when it is not blank;
      type, rating, sortBy and sortOrder only when non-empty; nothing else. */
  lemma ListRequestParams(q: ListingQuery)
    ensures var s := Sent(RequestParams(q));
      && s.Keys <= UrlKeys + {"limit"}
      && "page" in s && s["page"] == IntToString(q.page)
      && "limit" in s && s["limit"] == "15"
      && ("search" in s <==> !IsBlank(q.search))
      && ("search" in s ==> s["search"] == Trim(q.search))
      && ("type" in s <==> q.showType != "") && ("type" in s ==> s["type"] == q.showType)
      && ("rating" in s <==> q.rating != "") && ("rating" in s ==> s["rating"] == q.rating)
      && ("sortBy" in s <==> q.sortBy != "") && ("sortBy" in s ==> s["sortBy"] == q.sortBy)
      && ("sortOrder" in s <==> q.sortOrder != "") && ("sortOrder" in s ==> s["sortOrder"] == q.sortOrder)
  {
    RequestSent(q);
    ExpectedSentFixed(q);
    ExpectedSentSearch(q);
    ExpectedSentFilters(q);
    ExpectedSentSort(q);
  }

  /** Setting a key conditionally adds at most that key. */
  lemma PutIfKeys(m: map<string, string>, cond: bool, key: string, value: string)
    ensures PutIf(m, cond, key, value).Keys == if cond then m.Keys + {key} else m.Keys
  {
  }

  lemma ExpectedSentKeys(q: ListingQuery)
    ensures ExpectedSent(q).Keys <= UrlKeys + {"limit"}
  {
    var s0 := map["page" := IntToString(q.page), "limit" := "15"];
    var s1 := PutIf(s0, !IsBlank(q.search), "search", Trim(q.search));
    var s2 := PutIf(s1, q.showType != "", "type", q.showType);
    var s3 := PutIf(s2, q.rating != "", "rating", q.rating);
    var s4 := PutIf(s3, q.sortBy != "", "sortBy", q.sortBy);
    PutIfKeys(s0, !IsBlank(q.search), "search", Trim(q.search));
    PutIfKeys(s1, q.showType != "", "type", q.showType);
    PutIfKeys(s2, q.rating != "", "rating", q.rating);
    PutIfKeys(s3, q.sortBy != "", "sortBy", q.sortBy);
    PutIfKeys(s4, q.sortOrder != "", "sortOrder", q.sortOrder);
    assert s0.Keys == {"page", "limit"};
    assert ExpectedSent(q).Keys <= {"page", "limit", "search", "type", "rating", "sortBy", "sortOrder"};
  }

  lemma ExpectedSentFixed(q: ListingQuery)
    ensures var s := ExpectedSent(q);
      && s.Keys <= UrlKeys + {"limit"}
      && "page" in s && s["page"] == IntToString(q.page)
      && "limit" in s && s["limit"] == "15"
  {
    ExpectedSentKeys(q);
    var s0 := map["page" := IntToString(q.page), "limit" := "15"];
    var s1 := PutIf(s0, !IsBlank(q.search), "search", Trim(q.search));
    var s2 := PutIf(s1, q.showType != "", "type", q.showType);
    var s3 := PutIf(s2, q.rating != "", "rating", q.rating);
    var s4 := PutIf(s3, q.sortBy != "", "sortBy", q.sortBy);
    assert "page" in s0 && s0["page"] == IntToString(q.page) && "limit" in s0 && s0["limit"] == "15";
    PutIfAt(s0, !IsBlank(q.search), "search", Trim(q.search), "page");
    PutIfAt(s1, q.showType != "", "type", q.showType, "page");
    PutIfAt(s2, q.rating != "", "rating", q.rating, "page");
    PutIfAt(s3, q.sortBy != "", "sortBy", q.sortBy, "page");
    PutIfAt(s4, q.sortOrder != "", "sortOrder", q.sortOrder, "page");
    PutIfAt(s0, !IsBlank(q.search), "search", Trim(q.search), "limit");
    PutIfAt(s1, q.showType != "", "type", q.showType, "limit");
    PutIfAt(s2, q.rating != "", "rating", q.rating, "limit");
    PutIfAt(s3, q.sortBy != "", "sortBy", q.sortBy, "limit");
    PutIfAt(s4, q.sortOrder != "", "sortOrder", q.sortOrder, "limit");
  }

  /** What one conditional set does to one key. */
  lemma PutIfAt(m: map<string, string>, cond: bool, key: string, value: string, k: string)
    ensures var r := PutIf(m, cond, key, value);
      && (k != key ==> (k in r <==> k in m) && (k in m ==> r[k] == m[k]))
      && (k == key ==> (k in r <==> cond || k in m) && (cond ==> r[k] == value))
  {
  }

  lemma ExpectedSentSearch(q: ListingQuery)
    ensures var s := ExpectedSent(q);
      && ("search" in s <==> !IsBlank(q.search))
      && ("search" in s ==> s["search"] == Trim(q.search))
  {
    var s0 := map["page" := IntToString(q.page), "limit" := "15"];
    var s1 := PutIf(s0, !IsBlank(q.search), "search", Trim(q.search));
    var s2 := PutIf(s1, q.showType != "", "type", q.showType);
    var s3 := PutIf(s2, q.rating != "", "rating", q.rating);
    var s4 := PutIf(s3, q.sortBy != "", "sortBy", q.sortBy);
    PutIfAt(s0, !IsBlank(q.search), "search", Trim(q.search), "search");
    PutIfAt(s1, q.showType != "", "type", q.showType, "search");
    PutIfAt(s2, q.rating != "", "rating", q.rating, "search");
    PutIfAt(s3, q.sortBy != "", "sortBy", q.sortBy, "search");
    PutIfAt(s4, q.sortOrder != "", "sortOrder", q.sortOrder, "search");
  }

  lemma ExpectedSentFilters(q: ListingQuery)
    ensures var s := ExpectedSent(q);
      && ("type" in s <==> q.showType != "") && ("type" in s ==> s["type"] == q.showType)
      && ("rating" in s <==> q.rating != "") && ("rating" in s ==> s["rating"] == q.rating)
  {
    var s0 := map["page" := IntToString(q.page), "limit" := "15"];
    var s1 := PutIf(s0, !IsBlank(q.search), "search", Trim(q.search));
    var s2 := PutIf(s1, q.showType != "", "type", q.showType);
    var s3 := PutIf(s2, q.rating != "", "rating", q.rating);
    var s4 := PutIf(s3, q.sortBy != "", "sortBy", q.sortBy);
    PutIfAt(s0, !IsBlank(q.search), "search", Trim(q.search), "type");
    PutIfAt(s1, q.showType != "", "type", q.showType, "type");
    PutIfAt(s2, q.rating != "", "rating", q.rating, "type");
    PutIfAt(s3, q.sortBy != "", "sortBy", q.sortBy, "type");
    PutIfAt(s4, q.sortOrder != "", "sortOrder", q.sortOrder, "type");
    PutIfAt(s0, !IsBlank(q.search), "search", Trim(q.search), "rating");
    PutIfAt(s1, q.showType != "", "type", q.showType, "rating");
    PutIfAt(s2, q.rating != "", "rating", q.rating, "rating");
    PutIfAt(s3, q.sortBy != "", "sortBy", q.sortBy, "rating");
    PutIfAt(s4, q.sortOrder != "", "sortOrder", q.sortOrder, "rating");
  }

  lemma ExpectedSentSort(q: ListingQuery)
    ensures var s := ExpectedSent(q);
      && ("sortBy" in s <==> q.sortBy != "") && ("sortBy" in s ==> s["sortBy"] == q.sortBy)
      && ("sortOrder" in s <==> q.sortOrder != "") && ("sortOrder" in s ==> s["sortOrder"] == q.sortOrder)
  {
    var s0 := map["page" := IntToString(q.page), "limit" := "15"];
    var s1 := PutIf(s0, !IsBlank(q.search), "search", Trim(q.search));
    var s2 := PutIf(s1, q.showType != "", "type", q.showType);
    var s3 := PutIf(s2, q.rating != "", "rating", q.rating);
    var s4 := PutIf(s3, q.sortBy != "", "sortBy", q.sortBy);
    PutIfAt(s0, !IsBlank(q.search), "search", Trim(q.search), "sortBy");
    PutIfAt(s1, q.showType != "", "type", q.showType, "sortBy");
    PutIfAt(s2, q.rating != "", "rating", q.rating, "sortBy");
    PutIfAt(s3, q.sortBy != "", "sortBy", q.sortBy, "sortBy");
    PutIfAt(s4, q.sortOrder != "", "sortOrder", q.sortOrder, "sortBy");
    PutIfAt(s0, !IsBlank(q.search), "search", Trim(q.search), "sortOrder");
    PutIfAt(s1, q.showType != "", "type", q.showType, "sortOrder");
    PutIfAt(s2, q.rating != "", "rating", q.rating, "sortOrder");
    PutIfAt(s3, q.sortBy != "", "sortBy", q.sortBy, "sortOrder");
    PutIfAt(s4, q.sortOrder != "", "sortOrder", q.sortOrder, "sortOrder");
  }

  /** The three filters the listing's badge counts. */
  datatype Filter = SearchFilter | TypeFilter | RatingFilter

  /** The filters in force, given which of the three are. */
  function FiltersInForce(search: bool, showType: bool, rating: bool): (s: set<Filter>)
    ensures SearchFilter in s <==> search
    ensures TypeFilter in s <==> showType
    ensures RatingFilter in s <==> rating
  {
    (if search then {SearchFilter} else {})
      + (if showType then {TypeFilter} else {})
      + (if rating then {RatingFilter} else {})
  }

  function Max(a: int, b: int): int { if a >= b then a else b }
  function Min(a: int, b: int): int { if a <= b then a else b }

  /** The listing component's state. */
  class HomeComponent {
    var shows: seq<Show>
    var isLoading: bool
    var error: string

    var currentPage: int
    var totalPages: int
    var totalCount: int
    var hasNextPage: bool
    var hasPrevPage: bool

    var currentSearch: string
    var currentType: string
    var currentRating: string
    var currentSort: string
    var currentSortOrder: string

    var filterOptions: Option<FilterOptions>

    /** `environment.apiUrl`. */
    const apiUrl: string

    constructor (apiUrl: string)
      ensures this.apiUrl == apiUrl
      ensures Query() == Defaults
      ensures shows == [] && isLoading && error == ""
      ensures totalPages == 1 && totalCount == 0 && !hasNextPage && !hasPrevPage
      ensures filterOptions.None?
    {
      this.apiUrl := apiUrl;
      shows := [];
      isLoading := true;
      error := "";
      currentPage := 1;
      totalPages := 1;
      totalCount := 0;
      hasNextPage := false;
      hasPrevPage := false;
      currentSearch := "";
      currentType := "";
      currentRating := "";
      currentSort := "title";
      currentSortOrder := "asc";
      filterOptions := None;
    }

    /** The six query fields as one value. */
    function Query(): ListingQuery
      reads this
    {
      ListingQuery(currentPage, currentSearch, currentType, currentRating, currentSort, currentSortOrder)
    }

    /** What the last response left: the shows and the four other pagination fields. */
    function Results(): (seq<Show>, int, int, bool, bool)
      reads this
    {
      (shows, totalPages, totalCount, hasNextPage, hasPrevPage)
    }

    /** loadShows up to the HTTP call: the request it sends, with the token from `localStorage`. */
    method LoadShows(storage: map<string, string>) returns (req: Request)
      modifies this
      ensures isLoading && error == ""
      ensures Query() == old(Query()) && Results() == old(Results()) && filterOptions == old(filterOptions)
      ensures req.url == BaseUrl(apiUrl)
      ensures req.params == Sent(RequestParams(Query()))
      ensures req.headers == AuthHeaders(StoredBearer(storage))
    {
      isLoading := true;
      error := "";
      var authToken := StoredBearer(storage);
      req := GetShows(apiUrl, Some(RequestParams(Query())), authToken);
    }

    /** The ngOnInit subscription: a new set of query parameters replaces all six fields, then a load starts. */
    method OnQueryParams(params: map<string, string>, storage: map<string, string>) returns (req: Request)
      modifies this
      ensures Query() == ParseQuery(params)
      ensures isLoading && error == ""
      ensures Results() == old(Results()) && filterOptions == old(filterOptions)
      ensures req.params == Sent(RequestParams(Query()))
      ensures req.headers == AuthHeaders(StoredBearer(storage))
    {
      SetQuery(ParseQuery(params));
      req := LoadShows(storage);
    }

    /** Replaces the six query fields. */
    method SetQuery(q: ListingQuery)
      modifies this
      ensures Query() == q
      ensures isLoading == old(isLoading) && error == old(error)
      ensures Results() == old(Results()) && filterOptions == old(filterOptions)
    {
      currentPage := q.page;
      currentSearch := q.search;
      currentType := q.showType;
      currentRating := q.rating;
      currentSort := q.sortBy;
      currentSortOrder := q.sortOrder;
    }

    /** The `next` handler: shows and every pagination field come from the response. */
    method OnShowsLoaded(response: ShowsResponse)
      modifies this
      ensures shows == response.shows
      ensures currentPage == response.pagination.currentPage
      ensures totalPages == response.pagination.totalPages
      ensures totalCount == response.pagination.totalCount
      ensures hasNextPage == response.pagination.hasNextPage
      ensures hasPrevPage == response.pagination.hasPrevPage
      ensures !isLoading && error == old(error)
      ensures currentSearch == old(currentSearch) && currentType == old(currentType) && currentRating == old(currentRating)
      ensures currentSort == old(currentSort) && currentSortOrder == old(currentSortOrder) && filterOptions == old(filterOptions)
    {
      shows := response.shows;
      currentPage := response.pagination.currentPage;
      totalPages := response.pagination.totalPages;
      totalCount := response.pagination.totalCount;
      hasNextPage := response.pagination.hasNextPage;
      hasPrevPage := response.pagination.hasPrevPage;
      isLoading := false;
    }

    /** The `error` handler: the normalised message is shown, the previous shows and pagination stay. */
    method OnShowsFailed(e: HttpError)
      modifies this
      ensures error == ErrorMessage(e) && !isLoading
      ensures Query() == old(Query()) && Results() == old(Results()) && filterOptions == old(filterOptions)
    {
      error := ErrorMessage(e);
      isLoading := false;
    }

    /** loadFilterOptions: a success stores the options; a failure is only logged. */
    method OnFilterOptions(outcome: Result<FilterOptions, HttpError>)
      modifies this
      ensures filterOptions == if outcome.Success? then Some(outcome.value) else old(filterOptions)
      ensures Query() == old(Query()) && Results() == old(Results())
      ensures isLoading == old(isLoading) && error == old(error)
    {
      if outcome.Success? {
        filterOptions := Some(outcome.value);
      }
    }

    /** updateUrlAndLoadShows: navigate to /home with the non-default fields (loading follows from the URL change). */
    method UpdateUrlAndLoadShows() returns (nav: Navigation)
      ensures nav == Navigation("/home", UrlParams(Query()))
    {
      nav := Navigation("/home", UrlParams(Query()));
    }

    /** onSortChange: new sort field and order, back to page 1; search, type and rating stay. */
    method OnSortChange(sortBy: string, sortOrder: string := "asc") returns (nav: Navigation)
      modifies this
      ensures Query() == old(Query()).(sortBy := sortBy, sortOrder := sortOrder, page := 1)
      ensures Results() == old(Results()) && isLoading == old(isLoading) && error == old(error)
      ensures filterOptions == old(filterOptions)
      ensures nav == Navigation("/home", UrlParams(Query()))
    {
      currentSort := sortBy;
      currentSortOrder := sortOrder;
      currentPage := 1;
      nav := UpdateUrlAndLoadShows();
    }

    /** onPageChange: only the page changes. */
    method OnPageChange(page: int) returns (nav: Navigation)
      modifies this
      ensures Query() == old(Query()).(page := page)
      ensures Results() == old(Results()) && isLoading == old(isLoading) && error == old(error)
      ensures filterOptions == old(filterOptions)
      ensures nav == Navigation("/home", UrlParams(Query()))
    {
      currentPage := page;
      nav := UpdateUrlAndLoadShows();
    }

    /** clearAllFilters: every query field back to its default, and a bare /home navigation. */
    method ClearAllFilters() returns (nav: Navigation)
      modifies this
      ensures Query() == Defaults
      ensures Results() == old(Results()) && isLoading == old(isLoading) && error == old(error)
      ensures filterOptions == old(filterOptions)
      ensures nav == Navigation("/home", map[])
    {
      currentSearch := "";
      currentType := "";
      currentRating := "";
      currentSort := "title";
      currentSortOrder := "asc";
      currentPage := 1;
      nav := Navigation("/home", map[]);
    }

    /** getPageNumbers: consecutive pages from max(1, c-2) to min(totalPages, c+2). */
    method GetPageNumbers() returns (pages: seq<int>)
      ensures var start := Max(1, currentPage - 2);
        && |pages| == Max(0, Min(totalPages, currentPage + 2) - start + 1)
        && forall k :: 0 <= k < |pages| ==> pages[k] == start + k
      ensures |pages| <= 5
      ensures forall k :: 0 <= k < |pages| ==> 1 <= pages[k] <= totalPages
      ensures currentPage in pages <==> 1 <= currentPage <= totalPages
    {
      pages := [];
      var startPage := Max(1, currentPage - 2);
      var endPage := Min(totalPages, currentPage + 2);
      var i := startPage;
      while i <= endPage
        invariant startPage <= i <= Max(startPage, endPage + 1)
        invariant |pages| == i - startPage
        invariant forall k :: 0 <= k < |pages| ==> pages[k] == startPage + k
      {
        pages := pages + [i];
        i := i + 1;
      }
      if 1 <= currentPage <= totalPages {
        assert pages[currentPage - startPage] == currentPage;
      }
    }

    /** getActiveFiltersCount: one for each of a non-blank search, a type and a rating. */
    /** The names of the filters in force: the search when it is not blank, the type and the
        rating when chosen. */
    function ActiveFilters(): (s: set<Filter>)
      reads this
      ensures SearchFilter in s <==> !IsBlank(currentSearch)
      ensures TypeFilter in s <==> currentType != ""
      ensures RatingFilter in s <==> currentRating != ""
    {
      FiltersInForce(!IsBlank(currentSearch), currentType != "", currentRating != "")
    }

    /** getActiveFiltersCount: one for each filter in force. */
    function GetActiveFiltersCount(): (n: nat)
      reads this
      ensures n == |ActiveFilters()|
      ensures n <= 3
      ensures n == 0 <==> IsBlank(currentSearch) && currentType == "" && currentRating == ""
    {
      var c0 := 0;
      var c1 := if !IsBlank(currentSearch) then c0 + 1 else c0;
      var c2 := if currentType != "" then c1 + 1 else c1;
      var n := if currentRating != "" then c2 + 1 else c2;
      n
    }

    function HasActiveFilters(): (b: bool)
      reads this
      ensures b <==> !IsBlank(currentSearch) || currentType != "" || currentRating != ""
    {
      GetActiveFiltersCount() > 0
    }
  }

  /** After a sort change the URL the handler writes, read back by the query-parameter subscription,
      gives exactly the state the handler set -- provided the previous state was well formed and the
      new sort field and order are not empty. */
  lemma SortChangeSurvivesNavigation(q: ListingQuery, sortBy: string, sortOrder: string)
    requires WellFormed(q) && sortBy != "" && sortOrder != ""
    ensures var q' := q.(sortBy := sortBy, sortOrder := sortOrder, page := 1);
      ParseQuery(UrlParams(q')) == q' && ParseQuery(UrlParams(q')).page == 1
  {
    UrlRoundTrip(q.(sortBy := sortBy, sortOrder := sortOrder, page := 1));
  }

  /** A page change survives the trip through the URL exactly when the page is at least 1;
      any other page comes back as page 1. */
  lemma PageChangeSurvivesNavigation(q: ListingQuery, page: int)
    requires WellFormed(q)
    ensures ParseQuery(UrlParams(q.(page := page))) == q.(page := if page >= 1 then page else 1)
  {
    var q' := q.(page := page);
    UrlPageRoundTrip(q');
    UrlSearchRoundTrip(q');
    UrlFiltersRoundTrip(q');
  }
}
