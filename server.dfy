/** The proxy server (server.js): the cached upstream credential, the
  * Authorization header, the empty-body check of `fetchData`, and the way the
  * three routes turn a fetch result into an HTTP response.
  *
  * HTTP calls and the clock are parameters: an authentication call is given
  * by its outcome, a GET by a function from (url, Authorization header) to
  * its outcome, and each `Date.now()` reading by an integer (milliseconds). */
module AuthServer {
  import opened Wrappers

  // ---------------------------------------------------------------------
  // JSON values and JavaScript truthiness
  // ---------------------------------------------------------------------

  /** A parsed JSON body as axios hands it over. Numbers are integers here;
    * `JNull` also stands for `undefined`. */
  datatype Json =
    | JNull
    | JBool(b: bool)
    | JNumber(n: int)
    | JString(s: string)
    | JArray(items: seq<Json>)
    | JObject(fields: map<string, Json>)

  /** JavaScript truthiness of a JSON value: `null`, `false`, `0` and `""`
    * are falsy; every array and object, even an empty one, is truthy. */
  predicate Truthy(j: Json)
  {
    match j
    case JNull => false
    case JBool(b) => b
    case JNumber(n) => n != 0
    case JString(s) => s != ""
    case JArray(_) => true
    case JObject(_) => true
  }

  /** An HTTP response carried by an axios error (`error.response`). */
  datatype HttpResponse = HttpResponse(status: int, data: Json)

  /** A thrown error: its `message`, and `response` when axios received one
    * from the server (an error thrown by the code itself has none). */
  datatype Failure = Failure(message: string, response: Option<HttpResponse>)

  // ---------------------------------------------------------------------
  // The credential and the Authorization header
  // ---------------------------------------------------------------------

  /** The body of a successful authentication call; either field may be
    * missing from the upstream payload. */
  datatype AuthData = AuthData(tokenType: Option<string>, accessToken: Option<string>)

  /** What the authentication call hands back: `None` is a falsy body (an
    * empty response), which the cache stores like any other. */
  type AuthBody = Option<AuthData>

  /** Lifetime given to a freshly obtained token: one hour, in milliseconds. */
  const TokenLifetimeMs: int := 3600000

  /** How a template literal renders a property that may be `undefined`. */
  function Interpolate(v: Option<string>): string
  {
    match v
    case Some(s) => s
    case None => "undefined"
  }

  /** Reading `token_type` and `access_token` off the cached body: on a falsy
    * (empty-string) body both read as `undefined`. */
  function FieldsOf(t: AuthBody): AuthData
  {
    match t
    case Some(d) => d
    case None => AuthData(None, None)
  }

  /** The `Authorization` header value sent with every upstream GET: the
    * token type, one space, then the access token. */
  function AuthorizationHeader(d: AuthData): (h: string)
    ensures |h| == |Interpolate(d.tokenType)| + 1 + |Interpolate(d.accessToken)|
    ensures h[..|Interpolate(d.tokenType)|] == Interpolate(d.tokenType)
    ensures h[|Interpolate(d.tokenType)|] == ' '
    ensures h[|Interpolate(d.tokenType)| + 1..] == Interpolate(d.accessToken)
  {
    Interpolate(d.tokenType) + " " + Interpolate(d.accessToken)
  }

  /** Splits a header value at its first space into scheme and credentials:
    * the reading that recovers the two parts. */
  function SplitAtFirstSpace(h: string): (parts: (string, string))
    ensures ' ' !in parts.0
    ensures (parts.0 == h && parts.1 == "") || h == parts.0 + " " + parts.1
  {
    if h == [] then ("", "")
    else if h[0] == ' ' then ("", h[1..])
    else
      var rest := SplitAtFirstSpace(h[1..]);
      assert h == [h[0]] + h[1..];
      ([h[0]] + rest.0, rest.1)
  }

  /** Splitting `w + " " + rest` at the first space gives back `w` and `rest`
    * whenever `w` itself holds no space. */
  lemma {:induction false} SplitAfterWord(w: string, rest: string)
    requires ' ' !in w
    ensures SplitAtFirstSpace(w + " " + rest) == (w, rest)
  {
    if w == [] {
      assert w + " " + rest == [' '] + rest;
    } else {
      var h := w + " " + rest;
      assert h[0] == w[0] && w[0] != ' ';
      assert h[1..] == w[1..] + " " + rest;
      SplitAfterWord(w[1..], rest);
      assert [w[0]] + w[1..] == w;
    }
  }

  /** The header carries the token type and the access token, in that order,
    * separated by one space: reading it back recovers both. */
  lemma HeaderRoundTrip(d: AuthData)
    requires ' ' !in Interpolate(d.tokenType)
    ensures SplitAtFirstSpace(AuthorizationHeader(d))
            == (Interpolate(d.tokenType), Interpolate(d.accessToken))
  {
    SplitAfterWord(Interpolate(d.tokenType), Interpolate(d.accessToken));
  }

  // ---------------------------------------------------------------------
  // The token cache (`authToken`, `tokenExpiry`, `getAuthToken`)
  // ---------------------------------------------------------------------

  /** The module-level token cache. `token` is `authToken` (`None` is its
    * initial `null`, and also a falsy body stored after an authentication
    * call); `expiry` is `tokenExpiry`. `authRequests` counts the
    * authentication calls made so far. */
  class AuthTokenCache {
    var token: AuthBody
    var expiry: Option<int>
    ghost var authRequests: nat

    /** Both cache variables start out `null`. */
    constructor ()
      ensures token == None && expiry == None && authRequests == 0
    {
      token := None;
      expiry := None;
      authRequests := 0;
    }

    /** The cache-hit test `authToken && tokenExpiry && Date.now() < tokenExpiry`:
      * a truthy token, a truthy (non-zero) expiry, and a strictly earlier
      * clock reading. */
    predicate HoldsValidToken(now: int)
      reads this
    {
      token.Some? && expiry.Some? && expiry.value != 0 && now < expiry.value
    }

    /** A token that is valid at some instant stays valid at every earlier
      * clock reading and at every later one before the expiry, and is
      * never valid from the expiry on. */
    lemma ValidUntilExpiry(now: int, other: int)
      requires HoldsValidToken(now)
      ensures other < expiry.value ==> HoldsValidToken(other)
      ensures expiry.value <= other ==> !HoldsValidToken(other)
    {
    }

    /** `getAuthToken`. `now` is the clock reading of the cache-hit test,
      * `auth` the outcome the authentication call would have, and
      * `completedAt` the clock reading taken once that call has returned.
      * A hit returns the cached token and touches nothing; a miss makes one
      * authentication call, and only a successful one overwrites the cache.
      * A failed call is rethrown unchanged. */
    method GetAuthToken(now: int, completedAt: int, auth: Result<AuthBody, Failure>)
      returns (r: Result<AuthBody, Failure>)
      modifies this
      ensures old(HoldsValidToken(now)) ==>
                r == Ok(old(token)) && token == old(token) && expiry == old(expiry)
                && authRequests == old(authRequests)
      ensures !old(HoldsValidToken(now)) ==> r == auth && authRequests == old(authRequests) + 1
      ensures !old(HoldsValidToken(now)) && auth.Ok? ==>
                token == auth.value && expiry == Some(completedAt + TokenLifetimeMs)
      ensures !old(HoldsValidToken(now)) && auth.Err? ==>
                token == old(token) && expiry == old(expiry)
    {
      if HoldsValidToken(now) {
        return Ok(token);
      }
      authRequests := authRequests + 1;
      match auth
      case Err(e) =>
        r := Err(e);
      case Ok(body) =>
        token := body;
        expiry := Some(completedAt + TokenLifetimeMs);
        r := Ok(token);
    }

    /** `fetchData(url)`: obtain a token as `getAuthToken` does, issue the GET
      * with the Authorization header built from it (`get` is the upstream's
      * answer to that url and header), and reject a falsy body. Every error
      * on the way is rethrown as it is. */
    method FetchData(url: string, now: int, completedAt: int, auth: Result<AuthBody, Failure>,
                     get: (string, string) -> Result<Json, Failure>)
      returns (r: Result<Json, Failure>)
      modifies this
      ensures old(HoldsValidToken(now)) ==>
                token == old(token) && expiry == old(expiry) && authRequests == old(authRequests)
                && r == ReceivedData(get(url, AuthorizationHeader(FieldsOf(old(token)))))
      ensures !old(HoldsValidToken(now)) ==> authRequests == old(authRequests) + 1
      ensures !old(HoldsValidToken(now)) && auth.Err? ==>
                token == old(token) && expiry == old(expiry) && r == Err(auth.error)
      ensures !old(HoldsValidToken(now)) && auth.Ok? ==>
                token == auth.value && expiry == Some(completedAt + TokenLifetimeMs)
                && r == ReceivedData(get(url, AuthorizationHeader(FieldsOf(auth.value))))
    {
      var authData := GetAuthToken(now, completedAt, auth);
      if authData.Err? {
        return Err(authData.error);
      }
      var response := get(url, AuthorizationHeader(FieldsOf(authData.value)));
      r := ReceivedData(response);
    }
  }

  // ---------------------------------------------------------------------
  // Checking the upstream body
  // ---------------------------------------------------------------------

  const NoDataMessage: string := "No data received from external API"

  /** The check after the GET in `fetchData`: a falsy body becomes an error
    * without a response; a truthy body and a failed GET pass through. */
  function ReceivedData(response: Result<Json, Failure>): (r: Result<Json, Failure>)
    ensures r.Ok? <==> response.Ok? && Truthy(response.value)
    ensures r.Ok? ==> r.value == response.value
    ensures response.Err? ==> r == response
    ensures response.Ok? && !Truthy(response.value) ==> r == Err(Failure(NoDataMessage, None))
  {
    match response
    case Err(e) => Err(e)
    case Ok(data) => if Truthy(data) then Ok(data) else Err(Failure(NoDataMessage, None))
  }

  // ---------------------------------------------------------------------
  // Route handlers: from a fetch result to an HTTP response
  // ---------------------------------------------------------------------

  /** What Express sends: a status code and a JSON body. */
  datatype Response = Response(status: int, body: Json)

  const UsersErrorMessage: string := "Failed to fetch users"
  const UserPostsErrorMessage: string := "Failed to fetch user posts"
  const PostCommentsErrorMessage: string := "Failed to fetch post comments"
  const NotArrayMessage: string := "Expected array of users but received different data type"

  /** `error.response?.status || 500`: the upstream status when there was a
    * response with a non-zero status, and 500 otherwise. */
  function ErrorStatus(e: Failure): (status: int)
    ensures status != 0
    ensures e.response.Some? && e.response.value.status != 0 ==> status == e.response.value.status
    ensures e.response.None? || e.response.value.status == 0 ==> status == 500
  {
    if e.response.Some? && e.response.value.status != 0 then e.response.value.status else 500
  }

  /** `error.response?.data || error.message`: a truthy upstream error body,
    * or else the error's message. */
  function ErrorDetails(e: Failure): (details: Json)
    ensures Truthy(details) || details == JString("")
    ensures e.response.Some? && Truthy(e.response.value.data) ==> details == e.response.value.data
    ensures !(e.response.Some? && Truthy(e.response.value.data)) ==> details == JString(e.message)
  {
    if e.response.Some? && Truthy(e.response.value.data) then e.response.value.data
    else JString(e.message)
  }

  /** The JSON error body `{ error, details }` shared by the three routes:
    * an object with exactly those two keys. */
  function ErrorBody(what: string, e: Failure): (body: Json)
    ensures body.JObject? && body.fields.Keys == {"error", "details"}
    ensures body.fields["error"] == JString(what)
    ensures body.fields["details"] == ErrorDetails(e)
  {
    JObject(map["error" := JString(what), "details" := ErrorDetails(e)])
  }

  /** `GET /users`: forward the fetched data when it is an array; a non-array
    * is turned into a thrown error (no upstream response, so status 500);
    * a failed fetch answers with its upstream status or 500. */
  function UsersRoute(fetched: Result<Json, Failure>): (resp: Response)
    ensures resp.status == 200 <==> (fetched.Ok? && fetched.value.JArray?)
                                     || (fetched.Err? && ErrorStatus(fetched.error) == 200)
    ensures fetched.Ok? && fetched.value.JArray? ==> resp.body == fetched.value
    ensures fetched.Ok? && !fetched.value.JArray? ==>
              resp == Response(500, ErrorBody(UsersErrorMessage, Failure(NotArrayMessage, None)))
    ensures fetched.Err? ==>
              resp == Response(ErrorStatus(fetched.error), ErrorBody(UsersErrorMessage, fetched.error))
  {
    match fetched
    case Ok(data) =>
      if data.JArray? then Response(200, data)
      else
        var e := Failure(NotArrayMessage, None);
        Response(ErrorStatus(e), ErrorBody(UsersErrorMessage, e))
    case Err(e) => Response(ErrorStatus(e), ErrorBody(UsersErrorMessage, e))
  }

  /** `GET /users/:userId/posts`: forward whatever was fetched; a failed
    * fetch answers with its upstream status or 500. */
  function UserPostsRoute(fetched: Result<Json, Failure>): (resp: Response)
    ensures fetched.Ok? ==> resp == Response(200, fetched.value)
    ensures fetched.Err? ==>
              resp == Response(ErrorStatus(fetched.error), ErrorBody(UserPostsErrorMessage, fetched.error))
  {
    match fetched
    case Ok(data) => Response(200, data)
    case Err(e) => Response(ErrorStatus(e), ErrorBody(UserPostsErrorMessage, e))
  }

  /** `GET /posts/:postId/comments`: forward whatever was fetched; a failed
    * fetch answers with its upstream status or 500. */
  function PostCommentsRoute(fetched: Result<Json, Failure>): (resp: Response)
    ensures fetched.Ok? ==> resp == Response(200, fetched.value)
    ensures fetched.Err? ==>
              resp == Response(ErrorStatus(fetched.error), ErrorBody(PostCommentsErrorMessage, fetched.error))
  {
    match fetched
    case Ok(data) => Response(200, data)
    case Err(e) => Response(ErrorStatus(e), ErrorBody(PostCommentsErrorMessage, e))
  }

  /** After the empty-body check of `fetchData`: a successful fetch is
    * answered with 200 by the posts and comments routes, and by /users
    * exactly when it is an array; every failure, including the empty-body
    * one, is reported with the same status on all three routes, and the
    * empty-body failure, having no upstream response, with 500. */
  lemma RoutesReportFailureStatus(response: Result<Json, Failure>)
    ensures var fetched := ReceivedData(response);
            fetched.Err? ==>
              UsersRoute(fetched).status == UserPostsRoute(fetched).status
              == PostCommentsRoute(fetched).status == ErrorStatus(fetched.error)
    ensures var fetched := ReceivedData(response);
            fetched.Ok? ==>
              UserPostsRoute(fetched).status == 200 && PostCommentsRoute(fetched).status == 200
              && (UsersRoute(fetched).status == 200 <==> fetched.value.JArray?)
    ensures response.Ok? && !Truthy(response.value) ==>
              UserPostsRoute(ReceivedData(response)).status == 500
  {
  }
}
