# fletnix front end: a Dafny model

FletNix is an Angular front end to a catalog of Netflix shows. This project models the rules its
components and services follow, and proves properties of that model:

- **Listing page** (`Home`). The six query fields are read from the URL with defaults and written back
  with the defaults left out. They become the list request's parameters. The sort, page and clear-all
  handlers change them, and `getPageNumbers` computes the pager window. Proved: the URL round trip,
  idempotence after one trip, that sort and page changes survive the navigation, the exact parameter set
  of the list request, and the pager's bounds.
- **Catalog service** (`Shows`). Its `forEach` loop copies into the `HttpParams` only values that are not
  undefined, null or `''`. A bearer header is set only for a non-empty token. Proved against a
  specification function `Sent` for the loop.
- **Error normalisation** (`HttpErrors`). The `handleError` priority chain, which both services share.
- **Session store** (`Auth`). `fletnix_token`, `fletnix_user` and the token, user and authenticated
  subjects form a state machine over `localStorage`. Proved: `authenticated == (token != null)`, storage
  backing and key pairing are kept by every sequence of logins, registrations, logouts and profile fetches.
- **Detail page** (`MovieDetails`). The comma-split-and-trim lists, the ten-name cast, the rating colour
  and the rating description.
- **Header** (`Header`). The two menus are never open together. Searches and filters navigate to the
  listing, and the listing reads such a navigation as page 1 with title/ascending sort.
- **Login / register form** (`AuthForm`). Angular's required, email, minLength, min and max validators on
  the three controls, and the age validators per mode. Submission is gated on validity, and the field error
  message follows a priority order.

JavaScript semantics that matter are written out in `Strings`:

- the truthiness of `x || d`;
- `trim` over JavaScript's white-space set;
- `split(',')`, which keeps empty segments;
- integer `toString`;
- `length`, which counts UTF-16 code units;
- `parseInt` without a radix: leading white space, a sign, a `0x` prefix, the digit prefix, and NaN.

`localStorage` is a class over a string map (`Browser.LocalStorage`). A router navigation is a value
(`Browser.Navigation`). An HTTP call is the `Shows.Request` value it would send, and its outcome is an
input to the handler that receives it. `JSON.parse`, `JSON.stringify` and the email validator's pattern
are function-valued parameters.

## Model

| member | source | states |
|---|---|---|
| Strings.Trim | src/app/components/home/home.component.ts:82-83 | `trim` gives the slice of `s` between a white-space prefix and a white-space suffix (`StripsTo`), with no white space at either end, never longer, and "" exactly for all-white-space input |
| Strings.BlankIffAllSpace | src/app/components/home/home.component.ts:82 | `s.trim()` is falsy exactly when every character of `s` is white space |
| Strings.TrimKeepsOnlyOwnChars | src/app/components/movie-details/movie-details.component.ts:73 | a trimmed entry holds no character the field lacks, so no entry gains a comma |
| Strings.IntToString | src/app/components/home/home.component.ts:154 | `toString` of an integer is non-empty and starts with '-' exactly for a negative one |
| Strings.ParseInt | src/app/components/home/home.component.ts:53 | NaN for an all-white-space string; a negative result only after a leading '-'; a decimal digit not followed by 'x' gives a number of at least 0 |
| Strings.Split | src/app/components/movie-details/movie-details.component.ts:73 | `split(',')` gives one segment per comma plus one, no segment holding a comma |
| Strings.SplitJoin | src/app/components/movie-details/movie-details.component.ts:73 | joining the segments with ',' gives the field back, so no text is lost or reordered |
| Strings.ParseIntOfIntToString | src/app/components/home/home.component.ts:53 | `parseInt` reads back every integer's `toString` (the page written to the URL) |
| Strings.IntToStringInjective | src/app/components/home/home.component.ts:154 | different pages have different numerals |
| Strings.ParseIntStopsAtNonDigit | src/app/components/home/home.component.ts:53 | `parseInt("12abc")` is 12 |
| Strings.ParseIntNaN | src/app/components/home/home.component.ts:53 | `parseInt("abc")` is NaN |
| Strings.Utf16Length | src/app/components/auth/auth.component.ts:29 | JavaScript's `length` lies between the character count and twice it, and equals the character count exactly when no character is outside the Basic Multilingual Plane |
| Strings.ThreeEmojiAreSixUnits | src/app/components/auth/auth.component.ts:29 | three emoji are six code units, enough for `minLength(6)` |
| Browser.LocalStorage.GetItem | src/app/services/auth.service.ts:25-26 | `getItem` is null exactly when the key is absent, else the stored string |
| Browser.LocalStorage.SetItem | src/app/services/auth.service.ts:81-82 | `setItem` overwrites one key |
| Browser.LocalStorage.RemoveItem | src/app/services/auth.service.ts:89-90 | `removeItem` deletes one key |
| Browser.StoredBearer | src/app/components/home/home.component.ts:80 | `getItem("authToken") \|\| undefined` is a token exactly when one is stored and non-empty |
| HttpErrors.ErrorMessage | src/app/services/shows.service.ts:78-88 | client-side errors give the event's message; otherwise the body's `error`, else its `message`, else the transport message |
| HttpErrors.ErrorMessageIsACandidate | src/app/services/auth.service.ts:93-103 | the message is one of the three candidates and is empty only when all are |
| Shows.SentSnoc | src/app/services/shows.service.ts:36-38 | one pass of the loop body sets the key to `value.toString()` exactly when the value is sendable |
| Shows.SentExactly | src/app/services/shows.service.ts:33-40 | a key is sent exactly when the object holds it with a value other than undefined, null and `''`, and it carries that value's text |
| Shows.BuildHttpParams | src/app/services/shows.service.ts:26-40 | the loop leaves exactly `Sent(params)`, and nothing without params |
| Shows.AuthHeaders | src/app/services/shows.service.ts:29-31 | `Authorization: Bearer <token>` is the only possible header and is present exactly for a non-empty token |
| Shows.GetShows | src/app/services/shows.service.ts:25-46 | the list request: `/shows`, the filtered parameters, the bearer header |
| Shows.GetShowById | src/app/services/shows.service.ts:48-56 | a request below `/shows/` whose last segment is the id, with no parameters and the bearer header |
| Shows.GetFilterOptions | src/app/services/shows.service.ts:58-66 | a request below `/shows/`, not the stats one, with no parameters and the bearer header |
| Shows.GetShowsStats | src/app/services/shows.service.ts:68-76 | a request below `/shows/` with no parameters and the bearer header |
| Shows.AuthorizationAlike | src/app/services/shows.service.ts:48-76 | by-id, filter-options and stats requests carry the same header as the list request |
| Shows.ZeroIsSent | src/app/services/shows.service.ts:36 | a numeric 0 is sent as "0" while `''` and null are dropped |
| Home.PageParam | src/app/components/home/home.component.ts:53 | `parseInt(page) \|\| 1` is 1 when the parameter is missing, NaN or 0, and otherwise the parsed number, so never 0 |
| Home.PageParamSamples | src/app/components/home/home.component.ts:53 | page "abc" reads as 1 and page "12abc" as 12 |
| Home.ParseQuery | src/app/components/home/home.component.ts:53-58 | the parsed page is never 0, and the sort field and order are never empty |
| Home.ParseFillsDefaults | src/app/components/home/home.component.ts:54-58 | a missing or empty field takes its default ('', '', '', 'title', 'asc'); a present value is kept |
| Home.BareUrlIsDefaults | src/app/components/home/home.component.ts:53-58 | a URL without query is the default query |
| Home.UrlParams | src/app/components/home/home.component.ts:151-164 | the URL holds no key besides the six query fields |
| Home.UrlParamsPage | src/app/components/home/home.component.ts:154 | the page is in the URL exactly when it is above 1, as its numeral, which is then never "1" |
| Home.UrlParamsSearch | src/app/components/home/home.component.ts:155 | the search is in the URL exactly when it is not blank, and untrimmed |
| Home.UrlParamsFilters | src/app/components/home/home.component.ts:156-157 | type and rating are in the URL exactly when non-empty, with their values |
| Home.UrlParamsSort | src/app/components/home/home.component.ts:158-159 | the sort field and order are in the URL exactly when they differ from 'title' and 'asc', with their values |
| Home.UrlPageRoundTrip | src/app/components/home/home.component.ts:53 | a page of at least 1 written to the URL reads back unchanged, any other page as 1 |
| Home.UrlSearchRoundTrip | src/app/components/home/home.component.ts:155 | a search that is empty or not blank reads back unchanged |
| Home.UrlFiltersRoundTrip | src/app/components/home/home.component.ts:156-159 | type, rating and a non-empty sort field and order read back unchanged |
| Home.UrlRoundTrip | src/app/components/home/home.component.ts:151-164 | writing a well-formed query to the URL and parsing it gives the same query |
| Home.UrlTripIdempotent | src/app/components/home/home.component.ts:53-58 | whatever the state, one trip through the URL gives a well-formed query that further trips keep |
| Home.ExpectedSent | src/app/components/home/home.component.ts:75-96 | the parameters the list request should carry, as one map value |
| Home.RequestParams | src/app/components/home/home.component.ts:75-96 | the object always starts with page and limit 15, and holds at most the five optional fields besides |
| Home.SentAddIf | src/app/components/home/home.component.ts:82-96 | each `if (cond) params.key = value` adds the key to the sent parameters exactly when cond holds and the value is non-empty |
| Home.RequestSent | src/app/components/home/home.component.ts:75-98 | the service sends exactly `ExpectedSent` for the object `loadShows` builds |
| Home.ExpectedSentKeys | src/app/components/home/home.component.ts:75-96 | the list request has no key besides page, limit and the five filter and sort fields |
| Home.ExpectedSentFixed | src/app/components/home/home.component.ts:75-78 | page and limit "15" are always sent |
| Home.ExpectedSentSearch | src/app/components/home/home.component.ts:82-84 | the search is sent, trimmed, exactly when it is not blank |
| Home.ExpectedSentFilters | src/app/components/home/home.component.ts:85-90 | type and rating are sent exactly when non-empty |
| Home.ExpectedSentSort | src/app/components/home/home.component.ts:91-96 | sortBy and sortOrder are sent exactly when non-empty |
| Home.ListRequestParams | src/app/components/home/home.component.ts:75-96 | page and limit 15 always; the trimmed search only when non-blank; type, rating, sortBy and sortOrder only when non-empty; no other key |
| Home.HomeComponent.constructor | src/app/components/home/home.component.ts:20-39 | the initial fields: default query, no shows, loading, one page |
| Home.HomeComponent.LoadShows | src/app/components/home/home.component.ts:71-98 | sets loading, clears the error and sends the list request for the current query with the stored token |
| Home.HomeComponent.SetQuery | src/app/components/home/home.component.ts:53-58 | the six query fields become the given query; loading, error, results and filter options stay |
| Home.HomeComponent.OnQueryParams | src/app/components/home/home.component.ts:49-61 | all six fields come from the parsed URL, then a load starts |
| Home.HomeComponent.OnShowsLoaded | src/app/components/home/home.component.ts:101-109 | shows and every pagination field come from the response; the filters stay |
| Home.HomeComponent.OnShowsFailed | src/app/components/home/home.component.ts:110-113 | the normalised message is shown, loading stops, shows and pagination stay |
| Home.HomeComponent.OnFilterOptions | src/app/components/home/home.component.ts:117-126 | a success stores the options; a failure changes nothing |
| Home.HomeComponent.UpdateUrlAndLoadShows | src/app/components/home/home.component.ts:151-164 | navigates to /home with `UrlParams` of the current query |
| Home.HomeComponent.OnSortChange | src/app/components/home/home.component.ts:128-133 | new sort field and order (default 'asc'), page 1, search, type and rating kept, nothing else changed |
| Home.HomeComponent.OnPageChange | src/app/components/home/home.component.ts:135-139 | only the page changes |
| Home.HomeComponent.ClearAllFilters | src/app/components/home/home.component.ts:141-149 | all six fields back at their defaults and a bare /home navigation |
| Home.HomeComponent.GetPageNumbers | src/app/components/home/home.component.ts:166-176 | consecutive ascending pages from max(1,c-2) to min(total,c+2), at most 5, all within [1,total], holding c exactly when 1 <= c <= total |
| Home.FiltersInForce | src/app/components/home/home.component.ts:189-195 | the set of filters in force holds each of search, type and rating exactly when that one is in force |
| Home.HomeComponent.ActiveFilters | src/app/components/home/home.component.ts:189-195 | the search is in force when not blank, the type and rating when chosen |
| Home.HomeComponent.GetActiveFiltersCount | src/app/components/home/home.component.ts:189-195 | the number of filters in force (`ActiveFilters`), so at most 3, and 0 exactly when the search is blank and type and rating are empty |
| Home.HomeComponent.HasActiveFilters | src/app/components/home/home.component.ts:197-199 | true exactly when the search is not blank or a type or rating is chosen |
| Home.SortChangeSurvivesNavigation | src/app/components/home/home.component.ts:128-133 | the URL a sort change writes parses back to exactly the state it set, on page 1 |
| Home.PageChangeSurvivesNavigation | src/app/components/home/home.component.ts:135-139 | a page change survives the URL for pages >= 1; any other page comes back as 1 |
| Auth.RestoreCases | src/app/services/auth.service.ts:24-39 | both keys and a parseable user restore the session; an unparseable user removes both keys; a missing key changes nothing |
| Auth.Restore | src/app/services/auth.service.ts:24-39 | from an unauthenticated consistent state the restored session is consistent and backed by storage; key pairing is kept; a session becomes authenticated only with both keys present and storage unchanged |
| Auth.SignedIn | src/app/services/auth.service.ts:80-86 | after auth success the session is authenticated, consistent, backed by storage and paired |
| Auth.SignedOut | src/app/services/auth.service.ts:65-70 | after logout the session is unauthenticated, consistent and paired, and storage has lost exactly the two session keys |
| Auth.SignedInWritesBothKeys | src/app/services/auth.service.ts:80-86 | auth success writes both keys, sets token, user and authenticated, and leaves other keys alone |
| Auth.SignedOutRemovesOnlySessionKeys | src/app/services/auth.service.ts:65-70 | logout removes exactly the two session keys and nulls the subjects; `authToken` and every other key stay |
| Auth.ProfileLoaded | src/app/services/auth.service.ts:57-63 | a profile fetch replaces only the user |
| Auth.StepPreserves | src/app/services/auth.service.ts:57-91 | every event keeps `authenticated == (token != null)`, storage backing and key pairing |
| Auth.RunPreserves | src/app/services/auth.service.ts:41-91 | the same over any sequence of events |
| Auth.SessionInvariants | src/app/services/auth.service.ts:12-39 | from start-up on, whatever storage held, the invariants hold after every event sequence |
| Auth.AuthService.constructor | src/app/services/auth.service.ts:20-22 | the service starts as `loadStoredAuth` of the initial state, and valid |
| Auth.AuthService.LoadStoredAuth | src/app/services/auth.service.ts:24-39 | the state becomes `Restore` of the previous one |
| Auth.AuthService.HandleAuthSuccess | src/app/services/auth.service.ts:80-86 | the state becomes `SignedIn`, and the invariants hold |
| Auth.AuthService.ClearStoredAuth | src/app/services/auth.service.ts:88-91 | storage loses exactly the two session keys |
| Auth.AuthService.Logout | src/app/services/auth.service.ts:65-70 | the state becomes `SignedOut`, and the invariants hold |
| Auth.AuthService.CompleteAuth | src/app/services/auth.service.ts:41-55 | a success signs in and is passed on; a failure changes nothing and gives the normalised message |
| Auth.AuthService.CompleteProfile | src/app/services/auth.service.ts:57-63 | a success replaces only the user; a failure changes nothing |
| Auth.AuthService.GetToken | src/app/services/auth.service.ts:72-74 | a token exactly when authenticated, and it is the stored one |
| Auth.AuthService.GetCurrentUser | src/app/services/auth.service.ts:76-78 | the current user subject's value, which is the session's user |
| MovieDetails.Genres | src/app/components/movie-details/movie-details.component.ts:71-74 | [] without a show or with an empty `listed_in`, else comma count + 1 entries, entry i being the i-th comma-separated segment trimmed, none holding a comma |
| MovieDetails.Directors | src/app/components/movie-details/movie-details.component.ts:81-84 | [] without a show or with an empty `director`, else comma count + 1 entries, entry i being the i-th comma-separated segment trimmed, none holding a comma |
| MovieDetails.Countries | src/app/components/movie-details/movie-details.component.ts:86-89 | [] without a show or with an empty `country`, else comma count + 1 entries, entry i being the i-th comma-separated segment trimmed, none holding a comma |
| MovieDetails.SplitList | src/app/components/movie-details/movie-details.component.ts:72-73 | [] for an empty field, else one trimmed, comma-free entry per segment, in order |
| MovieDetails.ListGettersSplitOnCommas | src/app/components/movie-details/movie-details.component.ts:71-89 | genres, directors and countries: [] when missing; else comma count + 1 entries, entry i being segment i trimmed, and the untrimmed segments join back to the field |
| MovieDetails.EmptySegmentKept | src/app/components/movie-details/movie-details.component.ts:73 | "a,,b" gives three genres |
| MovieDetails.Cast | src/app/components/movie-details/movie-details.component.ts:76-79 | the cast is the prefix of at most 10 of the split-and-trimmed list |
| MovieDetails.RatingColor | src/app/components/movie-details/movie-details.component.ts:91-100 | green, blue, yellow or red exactly for the codes of that group, gray for missing and unknown codes |
| MovieDetails.RatingGroupsDisjoint | src/app/components/movie-details/movie-details.component.ts:95-98 | no code is in two colour groups |
| MovieDetails.RatingDescription | src/app/components/movie-details/movie-details.component.ts:102-121 | 'Not Rated' when missing, the fixed text for the 11 listed codes, an unknown code unchanged |
| MovieDetails.ColouredCodesAreDescribed | src/app/components/movie-details/movie-details.component.ts:106-118 | every code with a colour has a description |
| MovieDetails.MovieDetailsComponent.constructor | src/app/components/movie-details/movie-details.component.ts:14-17 | no show, loading, no error, no image error |
| MovieDetails.MovieDetailsComponent.OnRouteParams | src/app/components/movie-details/movie-details.component.ts:28-35 | a load starts exactly when the `id` parameter is present and non-empty |
| MovieDetails.MovieDetailsComponent.LoadShow | src/app/components/movie-details/movie-details.component.ts:43-49 | sets loading, clears the error, and requests the show by id with the stored token |
| MovieDetails.MovieDetailsComponent.OnShowLoaded | src/app/components/movie-details/movie-details.component.ts:52-55 | the show is the response's, loading stops |
| MovieDetails.MovieDetailsComponent.OnShowFailed | src/app/components/movie-details/movie-details.component.ts:56-59 | the normalised message is shown, loading stops, the show stays |
| MovieDetails.MovieDetailsComponent.OnImageError | src/app/components/movie-details/movie-details.component.ts:63-65 | only the image-error flag is set |
| MovieDetails.MovieDetailsComponent.GoBack | src/app/components/movie-details/movie-details.component.ts:67-69 | a bare /home navigation |
| Header.MenuStep | src/app/components/header/header.component.ts:117-134 | every click leaves at most one menu open, and a menu opens only on its own toggle |
| Header.MenuStepExclusive | src/app/components/header/header.component.ts:117-134 | each toggle, close or filter choice leaves at most one menu open; opening one closes the other |
| Header.MenuRunExclusive | src/app/components/header/header.component.ts:24-25 | after any sequence of clicks the two menus are not both open |
| Header.ToggleTwiceCloses | src/app/components/header/header.component.ts:117-129 | toggling a closed menu twice leaves both menus closed |
| Header.SearchParams | src/app/components/header/header.component.ts:87-95 | search, type and rating, each present exactly when non-empty and with its value |
| Header.SearchLandsOnFirstPage | src/app/components/header/header.component.ts:87-95 | the listing reads a header search as page 1, that search and those filters, title ascending |
| Header.UrlPath | src/app/components/header/header.component.ts:66 | the path is the URL up to its first '?' or '#' |
| Header.UrlPathBeforeQuery | src/app/components/header/header.component.ts:66 | the path of `p?q` is `p` |
| Header.UrlPathOfPlainUrl | src/app/components/header/header.component.ts:66 | a URL without '?' or '#' is all path |
| Header.OnListingAsWritten | src/app/components/header/header.component.ts:66 | the whole URL compared with '/home' and '/' |
| Header.OnListing | src/app/components/header/header.component.ts:66 | the path compared with '/home' and '/' |
| Header.SearchNavigationAsWritten | src/app/components/header/header.component.ts:65-73 | the search-box decision as written |
| Header.SearchNavigation | src/app/components/header/header.component.ts:65-73 | typing on the listing keeps type and rating whatever query the URL holds; elsewhere only the search is kept; always page 1 |
| Header.SearchDropsFiltersAsWritten | src/app/components/header/header.component.ts:66-72 | on "/home?type=Movie" with "Movie" selected, the written code loses the type and the corrected one keeps it |
| Header.SearchNavigationAgreesOnPlainUrls | src/app/components/header/header.component.ts:66 | without a query string or fragment both decisions agree |
| Header.HeaderComponent.constructor | src/app/components/header/header.component.ts:23-29 | menus closed, nothing selected, no user |
| Header.HeaderComponent.OnCurrentUser | src/app/components/header/header.component.ts:45-47 | only the email of the current user is kept, none without a user |
| Header.HeaderComponent.NgOnInit | src/app/components/header/header.component.ts:39-51 | takes the current user and issues the filter-options request with the stored token |
| Header.HeaderComponent.OnFilterOptions | src/app/components/header/header.component.ts:79-84 | a success stores the options; a failure changes nothing |
| Header.HeaderComponent.SetSearch | src/app/components/header/header.component.ts:26 | typing in the search box changes only its value |
| Header.HeaderComponent.OnSearchEmission | src/app/components/header/header.component.ts:65-73 | navigates with the box's value as the code decides (`SearchNavigationAsWritten`), which is the corrected decision on URLs without a query string or fragment |
| Header.HeaderComponent.OnSearchEmissionCorrected | src/app/components/header/header.component.ts:65-73 | the corrected subscriber: navigates with the box's value as `SearchNavigation` decides, keeping the filters on a filtered listing |
| Header.HeaderComponent.PerformSearch | src/app/components/header/header.component.ts:87-95 | /home with `SearchParams` of the query and the selections |
| Header.HeaderComponent.OnTypeFilter | src/app/components/header/header.component.ts:97-101 | sets only the type, searches with the box's value, closes the filter menu |
| Header.HeaderComponent.OnRatingFilter | src/app/components/header/header.component.ts:103-107 | sets only the rating, searches with the box's value, closes the filter menu |
| Header.HeaderComponent.ClearFilters | src/app/components/header/header.component.ts:109-115 | empties both selections and the box, navigates to bare /home, closes the filter menu |
| Header.HeaderComponent.ToggleProfileMenu | src/app/components/header/header.component.ts:117-122 | one `MenuStep` of a profile toggle |
| Header.HeaderComponent.ToggleFilterMenu | src/app/components/header/header.component.ts:124-129 | one `MenuStep` of a filter toggle |
| Header.HeaderComponent.CloseMenus | src/app/components/header/header.component.ts:131-134 | both menus closed |
| Header.HeaderComponent.Logout | src/app/components/header/header.component.ts:136-139 | the service signs out, the header drops the user, navigation to /auth |
| Header.HeaderComponent.NavigateHome | src/app/components/header/header.component.ts:141-143 | a bare /home navigation |
| AuthForm.ControlErrors | src/app/components/auth/auth.component.ts:27-31 | a failed minlength, min or max check implies that validator is on the control; minlength counts UTF-16 code units |
| AuthForm.Find | src/app/components/auth/auth.component.ts:113 | `authForm.get(name)` is a control of that name, null exactly when there is none |
| AuthForm.HasFieldError | src/app/components/auth/auth.component.ts:134-137 | true only for a present, touched control with an error, so never on an untouched form |
| AuthForm.GetFieldError | src/app/components/auth/auth.component.ts:112-132 | non-empty exactly when `hasFieldError`; the message of the first failing check in the order required, email, minlength, min, max |
| AuthForm.PasswordLengthMessage | src/app/components/auth/auth.component.ts:121-123 | a touched password of 1 to 5 UTF-16 code units reads "password must be at least 6 characters" |
| AuthForm.AgeBelowMessage | src/app/components/auth/auth.component.ts:124-126 | a touched register-mode age below 1 reads "Age must be at least 1" |
| AuthForm.AgeAboveMessage | src/app/components/auth/auth.component.ts:127-129 | a touched register-mode age above 120 reads "Age must be at most 120" |
| AuthForm.SubmitRequest | src/app/components/auth/auth.component.ts:56-89 | nothing is sent exactly when the form is invalid, a login exactly on a valid login form; a login body is the form's email and password and a register body the form's email, password and (when the age control carries its validators) age; the email is valid and non-empty, the password at least 6 code units, the age within 1..120 |
| AuthForm.LoginIgnoresAge | src/app/components/auth/auth.component.ts:37-40 | on the login form the age value cannot change validity |
| AuthForm.AllTouched | src/app/components/auth/auth.component.ts:105-110 | every control touched, nothing else changed |
| AuthForm.TouchedShowsEveryError | src/app/components/auth/auth.component.ts:56-60 | after an invalid submit exactly the controls with errors report them, and validity is unchanged |
| AuthForm.FindTouched | src/app/components/auth/auth.component.ts:105-110 | looking up a control after touching all is the looked-up control, touched |
| AuthForm.ResetAll | src/app/components/auth/auth.component.ts:46 | `reset()` nulls every value and untouches every control |
| AuthForm.Toggled | src/app/components/auth/auth.component.ts:43-54 | mode flipped, error cleared, every control reset with its name kept, email and password validators kept, the age validators those of the new mode |
| AuthForm.ToggledForm | src/app/components/auth/auth.component.ts:43-54 | toggling flips the mode, clears the error, resets the form, gives age the new mode's validators, and the reset form is invalid |
| AuthForm.ToggleTwice | src/app/components/auth/auth.component.ts:43-54 | toggling twice restores the mode, and the reset form it reaches is stable |
| AuthForm.SignInStoresBearer | src/app/components/auth/auth.component.ts:72-75 | after a login with a non-empty token, `authToken` and `fletnix_token` hold the same token |
| AuthForm.LogoutKeepsCatalogBearer | src/app/services/auth.service.ts:88-91 | logout leaves the bearer token the catalog requests send |
| AuthForm.AuthComponent.constructor | src/app/components/auth/auth.component.ts:15-31 | login mode, '/home', and the three controls with their validators and initial values |
| AuthForm.AuthComponent.NgOnInit | src/app/components/auth/auth.component.ts:34-41 | `returnUrl` is the query parameter when present and non-empty, else '/home'; on login the age loses its validators |
| AuthForm.AuthComponent.SetValue | src/app/components/auth/auth.component.ts:27-31 | entering a value changes only that control's value |
| AuthForm.AuthComponent.ToggleMode | src/app/components/auth/auth.component.ts:43-54 | the form becomes `Toggled` of the previous one |
| AuthForm.AuthComponent.MarkFormGroupTouched | src/app/components/auth/auth.component.ts:105-110 | the loop leaves `AllTouched` of the controls |
| AuthForm.AuthComponent.OnSubmit | src/app/components/auth/auth.component.ts:56-103 | sends `SubmitRequest` of the form, so a register body carries the form's age, within 1..120; an invalid form is only touched, a valid one sets loading and clears the error; the register form keeps the age validators |
| AuthForm.AuthComponent.OnAuthOutcome | src/app/components/auth/auth.component.ts:72-82 | success stores a non-empty token under `authToken` and navigates to `returnUrl`; failure shows the message and stops loading |

## Left out

- HTTP calls, Observables, subscriptions and `takeUntil` teardown: each handler takes the response or error as an argument.
- `debounceTime(300)` and `distinctUntilChanged` in `setupSearch` are timing behaviour. An emission is the subscriber applied to the box's current value (`OnSearchEmission` after `SetSearch`); which values reach it, including the one `clearFilters`' `setValue('')` may cause, is not modelled.
- Responses arriving out of order: the code does not sequence its requests, and nothing is claimed about overlapping loads.
- `formatDate`, `shareShow`, `window.scrollTo` and console logging: locale formatting and browser APIs.
- `getSortDisplayName` and `trackByShowId` in the listing component: template helpers.
- The `environment.apiUrl` constant: the environment file is not part of this model, so the API URL is a constructor argument.
- The auth service's HTTP paths (`/auth/login`, `/auth/register`, `/auth/profile`) and request bodies on the wire. Only the bodies the form builds and the effects of the outcome are modelled.
- The email validator's regular expression: the model takes it as an abstract `validEmail` predicate.
- `JSON.parse` and `JSON.stringify` are abstract functions. A stored user that parses to something other than a user object is folded into `parse`.
- app.component.ts, app.module.ts, app-routing.module.ts and the route guard they name: these are Angular configuration and subscription plumbing, and the guard is not part of this model.
- movie-card.component.ts: a trivial getter and a flag.
- The header's placeholder user in `ngOnInit`: the current-user subscription overwrites it at once.
- Home.PageParam: `parseInt` is modelled on unbounded integers. Float rounding of very long numerals and the `-0` result are not modelled.
- Repeated query keys, which Angular delivers as arrays: the URL is a map from key to one string.
- MovieDetails.RatingDescription: a lookup of an inherited object key such as `constructor`, which JavaScript would answer with a function, is not modelled. The table is a plain map.
- AuthForm.Shaped: the email and password controls hold text and the age control a number, as their inputs deliver. So `min`/`max` on text values and `Validators.email` on numbers are not modelled.
- Number inputs holding fractions: the age is an integer.
- The `{ user }` wrapper of the profile response and the `{ show }` wrapper of the by-id response: the handlers take the inner record.
- Home.HomeComponent.OnShowsLoaded: the server's `currentPage` is taken as it is. What the next URL write does when it is below 1 follows from `UrlParams` and is not stated separately.

## Findings

| source | as written | input that shows it | evidently intended | confidence | as-written member | corrected member |
|---|---|---|---|---|---|---|
| src/app/components/header/header.component.ts:66 | the search box tests `router.url`, query string included, against '/home' and '/' | on "/home?type=Movie" with type "Movie" still selected, typing "x" navigates to /home?search=x and the listing loses the type filter | test the URL's path, so a search on the listing keeps the selected type and rating | medium, not executed | Header.SearchDropsFiltersAsWritten | Header.SearchNavigation |
