# Social-media analytics proxy: token cache and trending posts

This project models, in Dafny, the two pieces of logic in the analytics
proxy and its React client that are more than plumbing.

- **The proxy server** (`server.js`, module `AuthServer` in `server.dfy`).
  The server keeps one upstream credential in two module-level variables,
  `authToken` and `tokenExpiry`. They are modelled as the fields `token` and
  `expiry` of the class `AuthTokenCache`. `getAuthToken` returns the cached
  token while the clock reads strictly before the expiry. Otherwise it makes
  one authentication call. A successful call stores the body and sets the
  expiry to the clock plus 3600000 ms. A failed call is rethrown and the
  cache is left as it was. `fetchData` signs each GET with the header
  `token_type + " " + access_token` and rejects a falsy body. The three
  routes answer with the upstream status, or 500 when there is none;
  `/users` also rejects a body that is not an array.
  `auth_scenarios.dfy` (module `AuthScenarios`) states what a caller sees
  over call sequences that start from a fresh cache: reuse within the hour,
  refresh at the exact expiry instant, a failed refresh, and a falsy token.
- **The trending-posts view** (`client/src/components/TrendingPosts.js`,
  module `TrendingPosts` in `trending.dfy`). The view gathers every user's
  posts, tagged with the user's name, and counts each post's comments (0
  when that request fails). It sorts the posts by count in place and keeps
  the posts whose count equals the first, largest one.

HTTP requests, the clock and the environment are parameters. An
authentication call is given by its outcome (`Result<AuthBody, Failure>`).
A GET is a function from (url, Authorization header) to its outcome. Each
`Date.now()` reading is an integer. The client's three kinds of request are
input data: the `/users` answer, and total functions from a user id to its
posts and from a post id to its comments, with `None` for a request that
threw.

Modelling decisions:

- `getAuthToken` reads the clock twice: once for the cache-hit test
  (server.js:45) and once after the authentication call has returned
  (server.js:59). The method takes both readings, `now` and `completedAt`.
- The ghost field `authRequests` counts authentication calls. It states
  "no authentication call was made".
- JavaScript truthiness is written out. A falsy authentication body (an
  empty response) is stored as the token `None`, with an expiry beside it.
  A missing token never passes the cache-hit test. An expiry of 0 is falsy
  and never passes it either. A field missing from the body reads as
  `undefined` in the header template literal.
- `Array.prototype.sort` is stable. The sort at TrendingPosts.js:70 is an
  in-place insertion sort on an `array`. Its contract says that the result
  is in non-increasing count order and that, for every count, the posts with
  that count keep their relative order (`SameCountClasses`). So filtering
  the sorted array by the maximum count gives the same list as filtering
  the unsorted list, in gathering order.

## Model

| member | source | states |
|---|---|---|
| AuthServer.AuthTokenCache.constructor | server.js:38-40 | the cache starts with no token, no expiry and no authentication call made |
| AuthServer.AuthTokenCache.ValidUntilExpiry | server.js:45 | the cache-hit test, once true, holds at every clock reading before the expiry and at none from the expiry on |
| AuthServer.AuthTokenCache.GetAuthToken | server.js:43-70 | on a truthy token with a truthy expiry later than `now`: returns the cached token, makes no authentication call and changes nothing; otherwise makes exactly one call and returns its outcome; success stores the body and sets expiry to `completedAt + 3600000`; failure is rethrown as it is and leaves token and expiry unchanged |
| AuthServer.AuthTokenCache.FetchData | server.js:73-118 | the cache moves as in `getAuthToken`; an authentication failure is rethrown; otherwise the GET is sent with the header built from the issued token, and its outcome goes through the empty-body check |
| AuthServer.AuthorizationHeader | server.js:85 | the header is the token type (or `undefined`), one space, then the access token (or `undefined`) |
| AuthServer.HeaderRoundTrip | server.js:85 | the Authorization header is the token type, one space, then the access token: splitting it at its first space gives both back |
| AuthServer.SplitAtFirstSpace | server.js:85 | the part before the first space holds no space, and the header is that part, a space and the rest (or has no space at all) |
| AuthServer.ReceivedData | server.js:90-93 | a falsy body becomes the error "No data received from external API" with no response; a truthy body passes unchanged; a failed GET is rethrown unchanged |
| AuthServer.ErrorStatus | server.js:135 | the upstream status when a response with a non-zero status exists, 500 otherwise; never 0 |
| AuthServer.ErrorDetails | server.js:137 | a truthy upstream body when there is a response; otherwise, with no response or a falsy body, the error message |
| AuthServer.ErrorBody | server.js:135-139 | the error body is an object with exactly the keys `error` (the route's message) and `details` |
| AuthServer.UsersRoute | server.js:121-141 | status 200 with the data exactly when the fetched data is an array (or the upstream status of a failure is 200); a non-array becomes status 500 with "Expected array of users but received different data type"; a failure answers with its fallback status and "Failed to fetch users" |
| AuthServer.UserPostsRoute | server.js:144-158 | fetched data is forwarded with 200; a failure answers with its fallback status and "Failed to fetch user posts" |
| AuthServer.PostCommentsRoute | server.js:161-175 | fetched data is forwarded with 200; a failure answers with its fallback status and "Failed to fetch post comments" |
| AuthServer.RoutesReportFailureStatus | server.js:133-139 | after the empty-body check, every failure is answered with the same status on all three routes, and an empty body with 500 |
| AuthScenarios.TokenReusedWithinLifetime | server.js:45-59 | after a successful refresh that returned at t1, a call at any t < t1 + 3600000 returns the same token, and only one authentication call is made in all |
| AuthScenarios.RefreshAtExactExpiry | server.js:45 | the expiry test is strict: a call at exactly the expiry instant authenticates again and returns the new token with a new expiry |
| AuthScenarios.FailedRefreshKeepsCache | server.js:54-69 | after expiry, a failed authentication is rethrown unchanged, and the old token and expiry remain in the cache |
| AuthScenarios.FalsyTokenForcesRefresh | server.js:45-60 | a falsy authentication body is returned and stored as a missing token with the expiry `t1 + 3600000` recorded beside it, yet the next call, at any time, authenticates again |
| AuthScenarios.CachedTokenSignsRequests | server.js:75-88 | a GET made on a cache hit carries `token_type + " " + access_token` of the cached credential |
| TrendingPosts.TagPosts | client/src/components/TrendingPosts.js:30-33 | each post keeps its position and fields and gets the user's name |
| TrendingPosts.AllPosts | client/src/components/TrendingPosts.js:26-35 | gathering succeeds exactly when every user's posts were fetched |
| TrendingPosts.AllPostsAppend | client/src/components/TrendingPosts.js:26-35 | gathering over consecutive groups of users is the concatenation of their gatherings, so posts appear in user order |
| TrendingPosts.AllPostsOfOneUser | client/src/components/TrendingPosts.js:29-34 | a single user contributes exactly its posts tagged with its name, or fails |
| TrendingPosts.AllPostsFromTheirUsers | client/src/components/TrendingPosts.js:28-34 | every gathered post is a post of some user, carrying that user's name |
| TrendingPosts.AllPostsComplete | client/src/components/TrendingPosts.js:28-34 | every post of every user appears in the gathered list, tagged with its user's name |
| TrendingPosts.FetchAllPosts | client/src/components/TrendingPosts.js:22-41 | the loop returns the concatenation, in user order, of every user's tagged posts; a failed users request or any failed posts request gives "Failed to fetch posts" and no partial list |
| TrendingPosts.CommentCount | client/src/components/TrendingPosts.js:43-51 | the number of comments on success, 0 when the request fails |
| TrendingPosts.WithCommentCounts | client/src/components/TrendingPosts.js:62-67 | same length and order as the posts; each post unchanged apart from its added comment count |
| TrendingPosts.MaxCount | client/src/components/TrendingPosts.js:70-71 | the maximum bounds every count and is reached by some post when there is one; 0 for none |
| TrendingPosts.MaxCountUnique | client/src/components/TrendingPosts.js:70-71 | a bound that some post reaches is the maximum |
| TrendingPosts.WithCount | client/src/components/TrendingPosts.js:72 | the filter keeps a sublist in which every post has the given count |
| TrendingPosts.Trending | client/src/components/TrendingPosts.js:70-72 | every trending post has the maximum count, and no post has more comments than a trending post |
| TrendingPosts.WithCountMultiplicity | client/src/components/TrendingPosts.js:72 | filtering by a count keeps every post with that count as often as it occurs, and nothing else |
| TrendingPosts.TrendingExactly | client/src/components/TrendingPosts.js:70-72 | a post is trending if and only if it is among the posts and its count is the maximum |
| TrendingPosts.TrendingIsSubMultiset | client/src/components/TrendingPosts.js:70-72 | the trending posts are a sub-multiset of the posts: no post added or duplicated, each maximal post kept as often as it occurs |
| TrendingPosts.TrendingEmptyIff | client/src/components/TrendingPosts.js:70-72 | there is no trending post if and only if there is no post |
| TrendingPosts.SwapKeepsCountClasses | client/src/components/TrendingPosts.js:70 | swapping neighbours with different counts keeps, for every count, the posts with that count in the same order |
| TrendingPosts.SameCountClassesPermutation | client/src/components/TrendingPosts.js:70 | a reordering that keeps every count class is a permutation |
| TrendingPosts.SortByCountDescending | client/src/components/TrendingPosts.js:70 | in place: the array ends in non-increasing count order, and for every count the posts with that count keep their relative order |
| TrendingPosts.SortedHeadIsMax | client/src/components/TrendingPosts.js:70-71 | after the sort, the first post's count is the maximum count of the unsorted posts |
| TrendingPosts.FetchTrendingPosts | client/src/components/TrendingPosts.js:53-81 | fails with "Failed to fetch trending posts" exactly when gathering fails; otherwise returns the posts whose comment count is the maximum, in gathering order |

## Left out

- HTTP itself (axios), `Date.now()`, dotenv and the credentials in the environment are parameters or absent. Console logging is not modelled.
- Express wiring, CORS, the logging middleware, the generic error middleware and `listen` (server.js:1-23, 177-194) are not modelled. The route functions take the result of `fetchData`; building each url from `BASE_URL` and the path is not modelled.
- The `stack` field that `/users` adds to its error body when `NODE_ENV` is `development` (server.js:138) is not modelled.
- A literal `null` authentication body is not modelled: `fetchData` would throw a TypeError reading `token_type` off it. A falsy body is modelled as an empty response, whose fields read as `undefined`.
- JSON numbers are integers, so `NaN`, `-0` and fractional values are not modelled.
- Concurrency: `Promise.all` at TrendingPosts.js:62 is a sequential map. The cache has no in-flight refresh guard, so concurrent refreshes are not modelled.
- Upstream posts and comments are typed records. A comments body that is not an array (whose `length` is `undefined`) is not modelled. A posts body that is not an array makes `.map` throw, and is folded into a failed posts request.
- Spreading `{ ...post, userName }` and `{ ...post, commentCount }` is modelled as wrapping records. An upstream post that already has a `userName` or `commentCount` field, which the spread would overwrite, is not distinguished.
- The React state updates of `fetchTrendingPosts` (`setLoading`, `setError`, `setPosts`) become its return value. Rendering, polling and the other views (Feed.js, TopUsers.js, App.js) are not modelled.
- The code has no safety margin on the expiry and ignores `expires_in`. It has no retries or backoff, no response-shape normalisation, no pending-refresh guard, no top-user ranking and no 502 status. None of these is modelled.
- check-external-api.js, a one-shot diagnostic script, and client/src/api/config.js, whose interceptor only logs and rethrows, are not modelled.
