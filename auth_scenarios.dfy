/** Call sequences against a fresh token cache, each starting from the
  * server's initial state (`authToken` and `tokenExpiry` both `null`).
  * They show what a caller of `getAuthToken` can rely on over time:
  * reuse within the hour, refresh at the exact expiry instant, a failed
  * refresh that keeps the old cache, and a falsy token that never hits. */
module AuthScenarios {
  import opened Wrappers
  import opened AuthServer

  /** After a successful authentication whose call returned at `t1`, every
    * later call whose clock reads before `t1 + 3600000` gets the same token
    * and makes no further authentication call, whatever that call would have
    * answered. */
  method TokenReusedWithinLifetime(t0: int, t1: int, d: AuthData, t: int,
                                   unused: Result<AuthBody, Failure>)
    returns (first: Result<AuthBody, Failure>, second: Result<AuthBody, Failure>, ghost requests: nat)
    requires t1 + TokenLifetimeMs != 0  // a zero expiry is falsy and never hits
    requires t < t1 + TokenLifetimeMs
    ensures first == Ok(Some(d)) && second == Ok(Some(d))
    ensures requests == 1
  {
    var cache := new AuthTokenCache();
    first := cache.GetAuthToken(t0, t1, Ok(Some(d)));
    second := cache.GetAuthToken(t, t, unused);
    requests := cache.authRequests;
  }

  /** The expiry test is strict: a call whose clock reads exactly the
    * recorded expiry authenticates again and returns the new token. */
  method RefreshAtExactExpiry(t0: int, t1: int, d: AuthData, t2: int, renewed: AuthData)
    returns (first: Result<AuthBody, Failure>, second: Result<AuthBody, Failure>,
             expiry: Option<int>, ghost requests: nat)
    ensures first == Ok(Some(d)) && second == Ok(Some(renewed))
    ensures expiry == Some(t2 + TokenLifetimeMs)
    ensures requests == 2
  {
    var cache := new AuthTokenCache();
    first := cache.GetAuthToken(t0, t1, Ok(Some(d)));
    second := cache.GetAuthToken(t1 + TokenLifetimeMs, t2, Ok(Some(renewed)));
    expiry := cache.expiry;
    requests := cache.authRequests;
  }

  /** Once the hour is over a failed authentication is rethrown as it is,
    * and the expired token and its expiry stay in the cache. */
  method FailedRefreshKeepsCache(t0: int, t1: int, d: AuthData, t: int, t2: int, e: Failure)
    returns (second: Result<AuthBody, Failure>, cached: AuthBody, expiry: Option<int>)
    requires t1 + TokenLifetimeMs <= t
    ensures second == Err(e)
    ensures cached == Some(d) && expiry == Some(t1 + TokenLifetimeMs)
  {
    var cache := new AuthTokenCache();
    var first := cache.GetAuthToken(t0, t1, Ok(Some(d)));
    second := cache.GetAuthToken(t, t2, Err(e));
    cached := cache.token;
    expiry := cache.expiry;
  }

  /** A falsy authentication body is stored and returned, and records an
    * expiry; but a missing token never satisfies the cache-hit test, so the
    * next call authenticates again, at any time, even well within the hour. */
  method FalsyTokenForcesRefresh(t0: int, t1: int, t: int, t2: int, next: Result<AuthBody, Failure>)
    returns (first: Result<AuthBody, Failure>, stored: AuthBody, recorded: Option<int>,
             second: Result<AuthBody, Failure>, ghost requests: nat)
    ensures first == Ok(None)
    ensures stored == None && recorded == Some(t1 + TokenLifetimeMs)
    ensures second == next
    ensures requests == 2
  {
    var cache := new AuthTokenCache();
    first := cache.GetAuthToken(t0, t1, Ok(None));
    stored, recorded := cache.token, cache.expiry;
    second := cache.GetAuthToken(t, t2, next);
    requests := cache.authRequests;
  }

  /** A GET that follows a cache hit is sent with the Authorization header
    * of the cached credential, `token_type`, a space, then `access_token`. */
  method CachedTokenSignsRequests(t0: int, t1: int, d: AuthData, t: int, url: string,
                                  unused: Result<AuthBody, Failure>,
                                  get: (string, string) -> Result<Json, Failure>)
    returns (r: Result<Json, Failure>)
    requires t1 + TokenLifetimeMs != 0  // a zero expiry is falsy and never hits
    requires t < t1 + TokenLifetimeMs
    ensures r == ReceivedData(get(url, Interpolate(d.tokenType) + " " + Interpolate(d.accessToken)))
  {
    var cache := new AuthTokenCache();
    var first := cache.GetAuthToken(t0, t1, Ok(Some(d)));
    r := cache.FetchData(url, t, t, unused, get);
  }
}
