/**
 * MovieDetailsComponent: the detail page. The display getters are pure functions of the
 * component's `show` field (None before a load has succeeded); the load handlers update
 * `show`, `isLoading` and `error`.
 */
module MovieDetails {
  import opened Wrappers
  import opened Strings
  import opened Models
  import opened Browser
  import opened Shows
  import opened HttpErrors

  /** `field.split(',').map(x => x.trim())`, or [] when the field is falsy. */
  function SplitList(field: string): (r: seq<string>)
    ensures field == "" ==> r == []
    ensures field != "" ==> |r| == Count(field, ',') + 1
    ensures field != "" ==> forall i :: 0 <= i < |r| ==> r[i] == Trim(Split(field, ',')[i])
    ensures forall i :: 0 <= i < |r| ==> IsTrimmed(r[i]) && ',' !in r[i]
  {
    if field == "" then []
    else
      var parts := Split(field, ',');
      var r := seq(|parts|, i requires 0 <= i < |parts| => Trim(parts[i]));
      assert forall i :: 0 <= i < |r| ==> ',' !in r[i] by {
        forall i | 0 <= i < |r| ensures ',' !in r[i] {
          TrimKeepsOnlyOwnChars(parts[i]);
        }
      }
      r
  }

  /** getGenres. */
  function Genres(show: Option<Show>): (r: seq<string>)
    ensures show.None? || show.value.listedIn == "" ==> r == []
    ensures show.Some? && show.value.listedIn != "" ==> |r| == Count(show.value.listedIn, ',') + 1
    ensures show.Some? && show.value.listedIn != "" ==>
      forall i :: 0 <= i < |r| ==> r[i] == Trim(Split(show.value.listedIn, ',')[i])
    ensures forall i :: 0 <= i < |r| ==> IsTrimmed(r[i]) && ',' !in r[i]
  {
    if show.None? then [] else SplitList(show.value.listedIn)
  }

  /** getDirectors. */
  function Directors(show: Option<Show>): (r: seq<string>)
    ensures show.None? || show.value.director == "" ==> r == []
    ensures show.Some? && show.value.director != "" ==> |r| == Count(show.value.director, ',') + 1
    ensures show.Some? && show.value.director != "" ==>
      forall i :: 0 <= i < |r| ==> r[i] == Trim(Split(show.value.director, ',')[i])
    ensures forall i :: 0 <= i < |r| ==> IsTrimmed(r[i]) && ',' !in r[i]
  {
    if show.None? then [] else SplitList(show.value.director)
  }

  /** getCountries. */
  function Countries(show: Option<Show>): (r: seq<string>)
    ensures show.None? || show.value.country == "" ==> r == []
    ensures show.Some? && show.value.country != "" ==> |r| == Count(show.value.country, ',') + 1
    ensures show.Some? && show.value.country != "" ==>
      forall i :: 0 <= i < |r| ==> r[i] == Trim(Split(show.value.country, ',')[i])
    ensures forall i :: 0 <= i < |r| ==> IsTrimmed(r[i]) && ',' !in r[i]
  {
    if show.None? then [] else SplitList(show.value.country)
  }

  /** getCast: the first ten names at most. */
  function Cast(show: Option<Show>): (r: seq<string>)
    ensures var all := if show.None? then [] else SplitList(show.value.cast);
      |r| == (if |all| < 10 then |all| else 10) && r == all[..|r|]
  {
    var all := if show.None? then [] else SplitList(show.value.cast);
    if |all| <= 10 then all else all[..10]
  }

  /** Genres, directors and countries: missing or empty gives []; otherwise one trimmed entry per comma-separated
      segment, in order, empty segments included, and joining the untrimmed segments gives the field back. */
  lemma ListGettersSplitOnCommas(show: Option<Show>)
    ensures show.None? ==> Genres(show) == [] && Directors(show) == [] && Countries(show) == []
    ensures show.Some? && show.value.listedIn != "" ==>
      |Genres(show)| == Count(show.value.listedIn, ',') + 1 &&
      Join(Split(show.value.listedIn, ','), ',') == show.value.listedIn &&
      forall i :: 0 <= i < |Genres(show)| ==> Genres(show)[i] == Trim(Split(show.value.listedIn, ',')[i])
    ensures show.Some? && show.value.director != "" ==>
      |Directors(show)| == Count(show.value.director, ',') + 1 &&
      Join(Split(show.value.director, ','), ',') == show.value.director &&
      forall i :: 0 <= i < |Directors(show)| ==> Directors(show)[i] == Trim(Split(show.value.director, ',')[i])
    ensures show.Some? && show.value.country != "" ==>
      |Countries(show)| == Count(show.value.country, ',') + 1 &&
      Join(Split(show.value.country, ','), ',') == show.value.country &&
      forall i :: 0 <= i < |Countries(show)| ==> Countries(show)[i] == Trim(Split(show.value.country, ',')[i])
  {
    if show.Some? {
      SplitJoin(show.value.listedIn, ',');
      SplitJoin(show.value.director, ',');
      SplitJoin(show.value.country, ',');
    }
  }

  /** "a,,b" gives three genres: the empty segment is kept. */
  lemma EmptySegmentKept()
    ensures |SplitList("a,,b")| == 3
  {
    assert Count("a,,b", ',') == 2 by {
      assert "a,,b"[1..] == ",,b";
      assert ",,b"[1..] == ",b";
      assert ",b"[1..] == "b";
      assert "b"[1..] == "";
    }
  }

  // ---- ratings ------------------------------------------------------------

  const GreenRatings: set<string> := {"G", "TV-G", "TV-Y"}
  const BlueRatings: set<string> := {"PG", "TV-PG", "TV-Y7"}
  const YellowRatings: set<string> := {"PG-13", "TV-14"}
  const RedRatings: set<string> := {"R", "TV-MA", "NC-17"}

  /** `this.show?.rating`, with a missing show or rating as "". */
  function Rating(show: Option<Show>): string {
    if show.None? then "" else show.value.rating
  }

  /** getRatingColor: the badge class for the rating's group, gray when missing or unknown. */
  function RatingColor(show: Option<Show>): (c: string)
    ensures c == "bg-green-600" <==> Rating(show) in GreenRatings
    ensures c == "bg-blue-600" <==> Rating(show) in BlueRatings
    ensures c == "bg-yellow-600" <==> Rating(show) in YellowRatings
    ensures c == "bg-red-600" <==> Rating(show) in RedRatings
    ensures c == "bg-gray-600" <==> Rating(show) !in GreenRatings + BlueRatings + YellowRatings + RedRatings
  {
    var rating := Rating(show);
    if rating == "" then "bg-gray-600"
    else if rating in GreenRatings then "bg-green-600"
    else if rating in BlueRatings then "bg-blue-600"
    else if rating in YellowRatings then "bg-yellow-600"
    else if rating in RedRatings then "bg-red-600"
    else "bg-gray-600"
  }

  /** The four colour groups share no code. */
  lemma RatingGroupsDisjoint()
    ensures GreenRatings !! BlueRatings && GreenRatings !! YellowRatings && GreenRatings !! RedRatings
    ensures BlueRatings !! YellowRatings && BlueRatings !! RedRatings && YellowRatings !! RedRatings
  {
  }

  const Descriptions: map<string, string> := map[
    "G" := "General Audiences - All ages admitted",
    "PG" := "Parental Guidance Suggested",
    "PG-13" := "Parents Strongly Cautioned - Ages 13+",
    "R" := "Restricted - Ages 17+",
    "NC-17" := "No One 17 and Under Admitted",
    "TV-Y" := "Suitable for all children",
    "TV-Y7" := "Suitable for ages 7 and up",
    "TV-G" := "General audience",
    "TV-PG" := "Parental guidance suggested",
    "TV-14" := "Parents strongly cautioned - Ages 14+",
    "TV-MA" := "Mature audience - Ages 17+"]

  /** getRatingDescription: 'Not Rated' when missing, the fixed text of a listed code, and an unknown code as it is. */
  function RatingDescription(show: Option<Show>): (d: string)
    ensures Rating(show) == "" ==> d == "Not Rated"
    ensures Rating(show) in Descriptions ==> d == Descriptions[Rating(show)]
    ensures Rating(show) != "" && Rating(show) !in Descriptions ==> d == Rating(show)
  {
    var rating := Rating(show);
    if rating == "" then "Not Rated"
    else if rating in Descriptions && Descriptions[rating] != "" then Descriptions[rating]
    else rating
  }

  /** Every code with a colour has its own description. */
  lemma ColouredCodesAreDescribed(rating: string)
    requires rating in GreenRatings + BlueRatings + YellowRatings + RedRatings
    ensures rating in Descriptions
  {
  }

  // ---- the component --------------------------------------------------------

  class MovieDetailsComponent {
    var show: Option<Show>
    var isLoading: bool
    var error: string
    var imageError: bool
    const apiUrl: string

    constructor (apiUrl: string)
      ensures this.apiUrl == apiUrl && show.None? && isLoading && error == "" && !imageError
    {
      this.apiUrl := apiUrl;
      show := None;
      isLoading := true;
      error := "";
      imageError := false;
    }

    /** The route-parameter subscription of ngOnInit: a load only when the `id` parameter is present and non-empty. */
    method OnRouteParams(params: map<string, string>, storage: map<string, string>) returns (req: Option<Request>)
      modifies this
      ensures req.Some? <==> "id" in params && params["id"] != ""
      ensures req.Some? ==> req.value == GetShowById(apiUrl, params["id"], StoredBearer(storage)) && isLoading && error == ""
      ensures req.None? ==> isLoading == old(isLoading) && error == old(error)
      ensures show == old(show) && imageError == old(imageError)
    {
      if "id" in params && params["id"] != "" {
        var r := LoadShow(params["id"], storage);
        req := Some(r);
      } else {
        req := None;
      }
    }

    /** loadShow up to the HTTP call. */
    method LoadShow(id: string, storage: map<string, string>) returns (req: Request)
      modifies this
      ensures isLoading && error == "" && show == old(show) && imageError == old(imageError)
      ensures req == GetShowById(apiUrl, id, StoredBearer(storage))
    {
      isLoading := true;
      error := "";
      req := GetShowById(apiUrl, id, StoredBearer(storage));
    }

    method OnShowLoaded(loaded: Show)
      modifies this
      ensures show == Some(loaded) && !isLoading && error == old(error) && imageError == old(imageError)
    {
      show := Some(loaded);
      isLoading := false;
    }

    /** A failed load shows the normalised message and keeps whatever show was displayed. */
    method OnShowFailed(e: HttpError)
      modifies this
      ensures error == ErrorMessage(e) && !isLoading && show == old(show) && imageError == old(imageError)
    {
      error := ErrorMessage(e);
      isLoading := false;
    }

    method OnImageError()
      modifies this
      ensures imageError && show == old(show) && isLoading == old(isLoading) && error == old(error)
    {
      imageError := true;
    }

    /** goBack: to the listing, without its query. */
    method GoBack() returns (nav: Navigation)
      ensures nav == Navigation("/home", map[])
    {
      nav := Navigation("/home", map[]);
    }
  }
}
