/**
 * ShowsService: how a catalog request is put together. The HTTP call itself is not
 * modelled; each operation yields the `Request` it would send.
 */
module Shows {
  import opened Wrappers
  import opened Strings

  /** A JavaScript value as it can appear in a `ShowsQueryParams` object. */
  datatype JsValue = Undefined | Null | Str(s: string) | Num(n: int)

  /** A plain object, as its `Object.keys` order lists it: (key, value) pairs. */
  type QueryObject = seq<(string, JsValue)>

  /** A JavaScript object never holds the same key twice. */
  predicate DistinctKeys(p: QueryObject) {
    forall i, j :: 0 <= i < j < |p| ==> p[i].0 != p[j].0
  }

  /** `value !== undefined && value !== null && value !== ''`: a numeric 0 passes. */
  predicate IsSent(v: JsValue) {
    !(v.Undefined? || v.Null? || v == Str(""))
  }

  /** `value.toString()`. */
  function ParamText(v: JsValue): string
    requires IsSent(v)
  {
    match v
    case Str(s) => s
    case Num(n) => IntToString(n)
  }

  /** The `HttpParams` left after setting every sendable key of `p`, in key order. */
  function Sent(p: QueryObject): map<string, string> {
    if p == [] then map[]
    else
      var prev := Sent(p[..|p| - 1]);
      var (k, v) := p[|p| - 1];
      if IsSent(v) then prev[k := ParamText(v)] else prev
  }

  /** Setting one more key: what the loop body does to the accumulated parameters. */
  lemma SentSnoc(p: QueryObject, k: string, v: JsValue)
    ensures Sent(p + [(k, v)]) == if IsSent(v) then Sent(p)[k := ParamText(v)] else Sent(p)
  {
    assert (p + [(k, v)])[..|p|] == p;
  }

  /** A key reaches the wire exactly when the object holds it with a sendable value, and it carries that value's text. */
  lemma {:induction false} SentExactly(p: QueryObject)
    requires DistinctKeys(p)
    ensures forall k :: k in Sent(p) <==> exists i :: 0 <= i < |p| && p[i].0 == k && IsSent(p[i].1)
    ensures forall i :: 0 <= i < |p| && IsSent(p[i].1) ==> p[i].0 in Sent(p) && Sent(p)[p[i].0] == ParamText(p[i].1)
  {
    if p != [] {
      var q := p[..|p| - 1];
      assert DistinctKeys(q);
      SentExactly(q);
      forall k ensures k in Sent(p) <==> exists i :: 0 <= i < |p| && p[i].0 == k && IsSent(p[i].1) {
        if k in Sent(p) && k != p[|p| - 1].0 {
          assert k in Sent(q);
          var i :| 0 <= i < |q| && q[i].0 == k && IsSent(q[i].1);
          assert p[i] == q[i];
        }
        if (exists i :: 0 <= i < |p| && p[i].0 == k && IsSent(p[i].1)) && k != p[|p| - 1].0 {
          var i :| 0 <= i < |p| && p[i].0 == k && IsSent(p[i].1);
          assert q[i] == p[i];
        }
      }
      forall i | 0 <= i < |p| && IsSent(p[i].1)
        ensures p[i].0 in Sent(p) && Sent(p)[p[i].0] == ParamText(p[i].1)
      {
        if i < |p| - 1 {
          assert q[i] == p[i];
        }
      }
    }
  }

  /** Object.keys(params).forEach(...): `httpParams = httpParams.set(key, value.toString())` for each sendable value. */
  method BuildHttpParams(params: Option<QueryObject>) returns (httpParams: map<string, string>)
    ensures params.None? ==> httpParams == map[]
    ensures params.Some? ==> httpParams == Sent(params.value)
  {
    httpParams := map[];
    if params.Some? {
      var p := params.value;
      var i := 0;
      while i < |p|
        invariant 0 <= i <= |p|
        invariant httpParams == Sent(p[..i])
      {
        assert p[..i + 1][..i] == p[..i];
        var (key, value) := p[i];
        if IsSent(value) {
          httpParams := httpParams[key := ParamText(value)];
        }
        i := i + 1;
      }
      assert p[..|p|] == p;
    }
  }

  /** `headers.set('Authorization', 'Bearer ' + authToken)` when the token is truthy. */
  function AuthHeaders(authToken: Option<string>): (h: map<string, string>)
    ensures "Authorization" in h <==> authToken.Some? && authToken.value != ""
    ensures h.Keys <= {"Authorization"}
    ensures "Authorization" in h ==> h["Authorization"] == "Bearer " + authToken.value
  {
    if authToken.Some? && authToken.value != "" then map["Authorization" := "Bearer " + authToken.value] else map[]
  }

  /** A GET request: the URL, its query parameters and its headers. */
  datatype Request = Request(url: string, params: map<string, string>, headers: map<string, string>)

  /** `${environment.apiUrl}/shows`; the environment file is not part of this model, so the API URL is a parameter. */
  function BaseUrl(apiUrl: string): string {
    apiUrl + "/shows"
  }

  /** getShows: the list request. */
  method GetShows(apiUrl: string, params: Option<QueryObject>, authToken: Option<string>) returns (req: Request)
    ensures req.url == BaseUrl(apiUrl)
    ensures req.headers == AuthHeaders(authToken)
    ensures params.None? ==> req.params == map[]
    ensures params.Some? ==> req.params == Sent(params.value)
  {
    var headers := AuthHeaders(authToken);
    var httpParams := BuildHttpParams(params);
    req := Request(BaseUrl(apiUrl), httpParams, headers);
  }

  /** getShowById. */
  function GetShowById(apiUrl: string, id: string, authToken: Option<string>): (r: Request)
    ensures r.params == map[] && r.headers == AuthHeaders(authToken)
    ensures BaseUrl(apiUrl) + "/" <= r.url && r.url[|BaseUrl(apiUrl)| + 1..] == id
  {
    Request(BaseUrl(apiUrl) + "/" + id, map[], AuthHeaders(authToken))
  }

  /** getFilterOptions. */
  function GetFilterOptions(apiUrl: string, authToken: Option<string>): (r: Request)
    ensures r.params == map[] && r.headers == AuthHeaders(authToken)
    ensures BaseUrl(apiUrl) + "/" <= r.url && r.url != GetShowsStats(apiUrl, authToken).url
  {
    Request(BaseUrl(apiUrl) + "/filters/options", map[], AuthHeaders(authToken))
  }

  /** getShowsStats. */
  function GetShowsStats(apiUrl: string, authToken: Option<string>): (r: Request)
    ensures r.params == map[] && r.headers == AuthHeaders(authToken)
    ensures BaseUrl(apiUrl) + "/" <= r.url
  {
    Request(BaseUrl(apiUrl) + "/stats/overview", map[], AuthHeaders(authToken))
  }

  /** The three parameterless requests carry the same Authorization header as the list request,
      present exactly when the token is non-empty. */
  lemma AuthorizationAlike(apiUrl: string, id: string, authToken: Option<string>)
    ensures var h := AuthHeaders(authToken);
      && GetShowById(apiUrl, id, authToken).headers == h
      && GetFilterOptions(apiUrl, authToken).headers == h
      && GetShowsStats(apiUrl, authToken).headers == h
    ensures ("Authorization" in GetShowById(apiUrl, id, authToken).headers) <==> authToken.Some? && authToken.value != ""
  {
  }

  /** Only Undefined, Null and the empty string are dropped; the number 0 is sent as "0". */
  lemma ZeroIsSent()
    ensures Sent([("page", Num(0)), ("search", Str("")), ("type", Null)]) == map["page" := "0"]
  {
    var p := [("page", Num(0)), ("search", Str("")), ("type", Null)];
    assert p[..1][..0] == [];
    assert IntToString(0) == "0";
    assert Sent(p[..1]) == map["page" := "0"];
    assert p[..2][..1] == p[..1];
    assert Sent(p[..2]) == map["page" := "0"];
    assert p[..|p| - 1] == p[..2];
  }
}
