/**
 * The web client's API layer in mock mode (the mode switch is on): the
 * access token is cached in a module variable backed by the "access_token"
 * local-storage entry, `authenticate`, `refreshToken`, `updateUserType` and
 * `logout` take their mock branches, and `apiRequest` retries a request that
 * came back 401 once, after a successful refresh.
 */
module ApiClient {
  import opened Wrappers
  import opened JsBuiltins
  import opened SessionTypes

  const AccessTokenKey: string := "access_token"

  /** A JavaScript string or null, as a condition: neither null nor "". */
  predicate Truthy(t: Option<string>) {
    t.Some? && t.value != ""
  }

  /** `localStorage.getItem("access_token")`. */
  function StoredToken(storage: map<string, Value>): Option<string> {
    if AccessTokenKey in storage && storage[AccessTokenKey].Text? then Some(storage[AccessTokenKey].s) else None
  }

  /** The storage after `localStorage.setItem("access_token", t)` when a window exists. */
  function StoreToken(storage: map<string, Value>, t: string, inBrowser: bool): (r: map<string, Value>)
    ensures inBrowser ==> StoredToken(r) == Some(t)
    ensures forall k :: k != AccessTokenKey ==> (k in r <==> k in storage) && (k in r ==> r[k] == storage[k])
  {
    if inBrowser then storage[AccessTokenKey := Text(t)] else storage
  }

  /** The storage after `localStorage.removeItem("access_token")` when a window exists. */
  function RemoveToken(storage: map<string, Value>, inBrowser: bool): (r: map<string, Value>)
    ensures inBrowser ==> StoredToken(r) == None
    ensures forall k :: k != AccessTokenKey ==> (k in r <==> k in storage) && (k in r ==> r[k] == storage[k])
  {
    if inBrowser then storage - {AccessTokenKey} else storage
  }

  /** What `getAccessTokenCache` returns and leaves in the cache: a falsy cache
      is refilled from storage when a window exists. */
  function ReadToken(cache: Option<string>, storage: map<string, Value>, inBrowser: bool): Option<string> {
    if !Truthy(cache) && inBrowser then StoredToken(storage) else cache
  }

  /** `get` never replaces a non-empty cached token. */
  lemma ReadKeepsCachedToken(cache: Option<string>, storage: map<string, Value>, inBrowser: bool)
    requires Truthy(cache)
    ensures ReadToken(cache, storage, inBrowser) == cache
  {
  }

  /** After `setAccessTokenCache(t)`, `get` returns `t`, the empty token included. */
  lemma ReadAfterStore(t: string, storage: map<string, Value>, inBrowser: bool)
    ensures ReadToken(Some(t), StoreToken(storage, t, inBrowser), inBrowser) == Some(t)
  {
  }

  /** After `clearAccessTokenCache()`, `get` returns null. */
  lemma ReadAfterRemove(storage: map<string, Value>, inBrowser: bool)
    ensures ReadToken(None, RemoveToken(storage, inBrowser), inBrowser) == None
  {
  }

  /** A second `get` finds what the first one left. */
  lemma ReadIsStable(cache: Option<string>, storage: map<string, Value>, inBrowser: bool)
    ensures ReadToken(ReadToken(cache, storage, inBrowser), storage, inBrowser) == ReadToken(cache, storage, inBrowser)
  {
  }

  const MockTokenPrefix: string := "mock-access-token-"

  /** `"mock-access-token-" + Date.now()`. */
  function MockAccessToken(now: int): string {
    MockTokenPrefix + IntToString(now)
  }

  /** Two sign-ins at different times get different mock tokens. */
  lemma MockTokensDistinct(a: int, b: int)
    requires a != b
    ensures MockAccessToken(a) != MockAccessToken(b)
  {
    if MockAccessToken(a) == MockAccessToken(b) {
      var n := |MockTokenPrefix|;
      assert MockAccessToken(a)[n..] == IntToString(a);
      assert MockAccessToken(b)[n..] == IntToString(b);
      ParseIntOfIntToString(a);
      ParseIntOfIntToString(b);
      assert false;
    }
  }

  /** The user the mock `authenticate` returns. */
  datatype MockUser = MockUser(id: string, name: string, userType: Option<UserType>)

  datatype AuthResult = AuthResult(accessToken: string, refreshToken: string, user: MockUser)

  /** A step `apiRequest` takes. `Fetch` carries its Authorization header. */
  datatype Step = Fetch(authorization: Option<string>) | Refresh | Redirect(to: string)

  /**
   * The steps of `apiRequest` and the status it resolves with, given the
   * cached token, the first response's status, what `refreshToken` returned
   * (its access token, or null) and the retried response's status.
   */
  function RequestPlan(token: Option<string>, firstStatus: int, refreshed: Option<string>,
                       retryStatus: int, inBrowser: bool): (seq<Step>, int)
  {
    var first := Fetch(if Truthy(token) then Some("Bearer " + token.value) else None);
    if firstStatus != 401 then ([first], firstStatus)
    else match refreshed
      case Some(t) => ([first, Refresh, Fetch(Some("Bearer " + t))], retryStatus)
      case None => ([first, Refresh] + (if inBrowser then [Redirect("/auth")] else []), firstStatus)
  }

  function CountRefreshes(steps: seq<Step>): nat {
    if steps == [] then 0 else (if steps[0] == Refresh then 1 else 0) + CountRefreshes(steps[1..])
  }

  function CountFetches(steps: seq<Step>): nat {
    if steps == [] then 0 else (if steps[0].Fetch? then 1 else 0) + CountFetches(steps[1..])
  }

  /** The request goes out once with the cached token (when it is non-empty);
      only a 401 triggers a refresh, at most one; the request is re-issued at
      most once, only when the refresh returned a token, and then with that
      token; a failed refresh sends the browser to the sign-in page. */
  lemma {:induction false} RequestPlanRetriesOnce(token: Option<string>, firstStatus: int, refreshed: Option<string>,
                                                  retryStatus: int, inBrowser: bool)
    ensures var (steps, status) := RequestPlan(token, firstStatus, refreshed, retryStatus, inBrowser);
      && steps[0] == Fetch(if Truthy(token) then Some("Bearer " + token.value) else None)
      && CountRefreshes(steps) == (if firstStatus == 401 then 1 else 0)
      && CountFetches(steps) == (if firstStatus == 401 && refreshed.Some? then 2 else 1)
      && (firstStatus == 401 && refreshed.Some? ==> steps[|steps| - 1] == Fetch(Some("Bearer " + refreshed.value)) && status == retryStatus)
      && (!(firstStatus == 401 && refreshed.Some?) ==> status == firstStatus)
      && (Redirect("/auth") in steps <==> firstStatus == 401 && refreshed.None? && inBrowser)
  {
    var (steps, status) := RequestPlan(token, firstStatus, refreshed, retryStatus, inBrowser);
    var first := Fetch(if Truthy(token) then Some("Bearer " + token.value) else None);
    assert CountFetches([]) == 0 && CountRefreshes([]) == 0;
    assert CountFetches([first]) == 1 && CountRefreshes([first]) == 0;
    if firstStatus == 401 {
      match refreshed
      case Some(t) =>
        var retry := Fetch(Some("Bearer " + t));
        assert [first, Refresh, retry][1..] == [Refresh, retry];
        assert [Refresh, retry][1..] == [retry];
        assert [retry][1..] == [];
        assert CountRefreshes([retry]) == 0 && CountFetches([retry]) == 1;
        assert CountRefreshes([Refresh, retry]) == 1 && CountFetches([Refresh, retry]) == 1;
      case None =>
        if inBrowser {
          assert [first, Refresh, Redirect("/auth")][1..] == [Refresh, Redirect("/auth")];
          assert [Refresh, Redirect("/auth")][1..] == [Redirect("/auth")];
          assert [Redirect("/auth")][1..] == [];
          assert CountRefreshes([Redirect("/auth")]) == 0 && CountFetches([Redirect("/auth")]) == 0;
          assert CountRefreshes([Refresh, Redirect("/auth")]) == 1 && CountFetches([Refresh, Redirect("/auth")]) == 0;
        } else {
          assert [first, Refresh] + [] == [first, Refresh];
          assert [first, Refresh][1..] == [Refresh];
          assert [Refresh][1..] == [];
        }
    }
  }

  /** The page's API-client state: the module variable, local storage, the
      shared mock user's type and the last navigation. */
  class Client {
    /** `typeof window !== "undefined"`. */
    const inBrowser: bool
    var storage: map<string, Value>
    var accessTokenCache: Option<string>
    var mockUserType: Option<UserType>
    var location: Option<string>

    /** The token entry, when present, is a plain string. */
    ghost predicate Valid()
      reads this
    {
      AccessTokenKey in storage ==> storage[AccessTokenKey].Text?
    }

    /** Module load: the cache starts from the stored token when a window exists. */
    constructor (inBrowser: bool, storage: map<string, Value>)
      requires AccessTokenKey in storage ==> storage[AccessTokenKey].Text?
      ensures Valid()
      ensures this.inBrowser == inBrowser && this.storage == storage
      ensures accessTokenCache == (if inBrowser then StoredToken(storage) else None)
      ensures mockUserType == None && location == None
    {
      this.inBrowser := inBrowser;
      this.storage := storage;
      accessTokenCache := if inBrowser then StoredToken(storage) else None;
      mockUserType := None;
      location := None;
    }

    /** `setAccessTokenCache`. */
    method SetAccessTokenCache(token: string)
      requires Valid()
      modifies this
      ensures Valid()
      ensures accessTokenCache == Some(token)
      ensures storage == StoreToken(old(storage), token, inBrowser)
      ensures mockUserType == old(mockUserType) && location == old(location)
    {
      accessTokenCache := Some(token);
      if inBrowser {
        storage := storage[AccessTokenKey := Text(token)];
      }
    }

    /** `getAccessTokenCache`: the cache, refilled from storage when it is falsy. */
    method GetAccessTokenCache() returns (r: Option<string>)
      requires Valid()
      modifies this
      ensures Valid()
      ensures r == ReadToken(old(accessTokenCache), storage, inBrowser)
      ensures accessTokenCache == r
      ensures storage == old(storage) && mockUserType == old(mockUserType) && location == old(location)
    {
      if !Truthy(accessTokenCache) && inBrowser {
        accessTokenCache := StoredToken(storage);
      }
      r := accessTokenCache;
    }

    /** `clearAccessTokenCache`. */
    method ClearAccessTokenCache()
      requires Valid()
      modifies this
      ensures Valid()
      ensures accessTokenCache == None
      ensures storage == RemoveToken(old(storage), inBrowser)
      ensures mockUserType == old(mockUserType) && location == old(location)
    {
      accessTokenCache := None;
      if inBrowser {
        storage := storage - {AccessTokenKey};
      }
    }

    /** The mock branch of `authenticate`, at time `now`: caches exactly the
        access token it returns. */
    method Authenticate(now: int) returns (r: AuthResult)
      requires Valid()
      modifies this
      ensures Valid()
      ensures r.accessToken == MockAccessToken(now) && r.refreshToken == "mock-refresh-token"
      ensures r.user == MockUser("mock-user-123", "Demo User", mockUserType)
      ensures accessTokenCache == Some(r.accessToken)
      ensures storage == StoreToken(old(storage), r.accessToken, inBrowser)
      ensures mockUserType == old(mockUserType) && location == old(location)
    {
      var token := MockAccessToken(now);
      SetAccessTokenCache(token);
      r := AuthResult(token, "mock-refresh-token", MockUser("mock-user-123", "Demo User", mockUserType));
    }

    /** The mock branch of `refreshToken`: no token, nothing changes. */
    method RefreshToken() returns (r: Option<string>)
      ensures r == None
    {
      r := None;
    }

    /** The mock branch of `updateUserType`: the shared mock user takes the type. */
    method UpdateUserType(userType: UserType)
      requires Valid()
      modifies this
      ensures Valid()
      ensures mockUserType == Some(userType)
      ensures storage == old(storage) && accessTokenCache == old(accessTokenCache) && location == old(location)
    {
      mockUserType := Some(userType);
    }

    /** The mock branch of `logout`: clears both token layers. */
    method Logout()
      requires Valid()
      modifies this
      ensures Valid()
      ensures accessTokenCache == None
      ensures storage == RemoveToken(old(storage), inBrowser)
      ensures mockUserType == old(mockUserType) && location == old(location)
    {
      ClearAccessTokenCache();
    }

    /** `apiRequest`, with the server's answers as parameters: `firstStatus`
        for the first fetch and `retryStatus` for a retry. */
    method ApiRequest(firstStatus: int, retryStatus: int) returns (steps: seq<Step>, status: int)
      requires Valid()
      modifies this
      ensures Valid()
      ensures var token := ReadToken(old(accessTokenCache), old(storage), inBrowser);
        (steps, status) == RequestPlan(token, firstStatus, None, retryStatus, inBrowser)
      ensures accessTokenCache == ReadToken(old(accessTokenCache), old(storage), inBrowser)
      ensures storage == old(storage) && mockUserType == old(mockUserType)
      ensures location == if firstStatus == 401 && inBrowser then Some("/auth") else old(location)
    {
      var token := GetAccessTokenCache();
      var refreshed: Option<string> := None;
      if firstStatus == 401 {
        refreshed := RefreshToken();
      }
      var plan := RequestPlan(token, firstStatus, refreshed, retryStatus, inBrowser);
      steps, status := plan.0, plan.1;
      if firstStatus == 401 && refreshed.None? && inBrowser {
        location := Some("/auth");
      }
    }
  }
}
