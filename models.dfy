/** The records the remote API returns and accepts (show.model.ts and user.model.ts); they hold no logic. */
module Models {
  import opened Wrappers

  datatype ShowType = Movie | TVShow

  /** One catalog entry. `director`, `cast`, `country` and `listedIn` (the genres) are comma-separated free text;
      a field the server sends as null is the empty string here, since every reader treats both as falsy. */
  datatype Show = Show(
    id: string,
    showId: string,
    showType: ShowType,
    title: string,
    director: string,
    cast: string,
    country: string,
    dateAdded: string,
    releaseYear: int,
    rating: string,
    duration: string,
    listedIn: string,
    description: string,
    createdAt: Option<string>,
    updatedAt: Option<string>)

  /** The paging metadata of a list response. */
  datatype Pagination = Pagination(
    currentPage: int,
    totalPages: int,
    totalCount: int,
    hasNextPage: bool,
    hasPrevPage: bool,
    limit: int)

  /** The filter values the server reports it applied. */
  datatype AppliedFilters = AppliedFilters(search: string, showType: string, rating: string, sortBy: string, sortOrder: string)

  datatype ShowsResponse = ShowsResponse(shows: seq<Show>, pagination: Pagination, filters: AppliedFilters)

  datatype FilterOptions = FilterOptions(types: seq<string>, ratings: seq<string>, genres: seq<string>)

  datatype User = User(
    id: string,
    email: string,
    age: int,
    isAdult: bool,
    createdAt: Option<string>,
    updatedAt: Option<string>,
    roles: Option<seq<string>>,
    avatarUrl: Option<string>)

  datatype AuthResponse = AuthResponse(message: string, token: string, user: User)

  datatype LoginRequest = LoginRequest(email: string, password: string)

  datatype RegisterRequest = RegisterRequest(email: string, password: string, age: int)
}
