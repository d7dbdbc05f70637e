/** The two browser facilities the components touch: `localStorage` and the router's `navigate`. */
module Browser {
  import opened Wrappers

  /** A call `router.navigate([path], { queryParams })`; keys whose value was undefined are already dropped. */
  datatype Navigation = Navigation(path: string, queryParams: map<string, string>)

  /** The key under which the login form keeps the bearer token that the catalog requests send. */
  const AuthTokenKey := "authToken"

  /** `localStorage`, as a plain string-to-string map. */
  class LocalStorage {
    var items: map<string, string>

    constructor (items: map<string, string>)
      ensures this.items == items
    {
      this.items := items;
    }

    /** `getItem`: null (None) exactly when the key is absent. */
    function GetItem(key: string): (r: Option<string>)
      reads this
      ensures r.Some? <==> key in items
      ensures r.Some? ==> r.value == items[key]
    {
      if key in items then Some(items[key]) else None
    }

    method SetItem(key: string, value: string)
      modifies this
      ensures items == old(items)[key := value]
    {
      items := items[key := value];
    }

    method RemoveItem(key: string)
      modifies this
      ensures items == old(items) - {key}
    {
      items := items - {key};
    }
  }

  /** `localStorage.getItem("authToken") || undefined`: a token only when one is stored and it is not empty. */
  function StoredBearer(items: map<string, string>): (r: Option<string>)
    ensures r.Some? <==> AuthTokenKey in items && items[AuthTokenKey] != ""
    ensures r.Some? ==> r.value == items[AuthTokenKey]
  {
    if AuthTokenKey in items && items[AuthTokenKey] != "" then Some(items[AuthTokenKey]) else None
  }
}
