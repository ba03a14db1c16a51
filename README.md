# Session store and authenticated request gateway

This project is a Dafny model of the session logic of a single-page web
front-end. It has two parts.

- **The session store** (`src/redux/ducks/User.js`). A session record has
  `id`, `accessToken`, `expiresIn`, `expirationSeconds`, `loggedIn`,
  `loading` and `error`. A reducer moves it through four actions:
  `LOGIN_START`, `LOGIN_SUCCESS`, `LOGIN_FAILURE` and `LOGOUT`. While it
  reduces, it writes the three token fields to the browser's
  `localStorage` or removes them. The file also has the action creators and
  the login saga, which turns the token endpoint's answer into a success or
  failure action.
- **The request gateway** (`src/utils/requestHelper.js`). Every API call
  goes through it. It decides whether the stored token has expired, allowing
  a 300-second buffer. It refreshes the token before the call when needed,
  then builds the request with a bearer token and JSON:API headers. After a
  401 it refreshes and retries. After a 403 it sends the browser to "/". When
  a refresh fails it logs out, which writes "undefined" into the three keys
  and sends the browser to "/login". Two lookup helpers are included: a
  JSON:API error-pointer lookup ("Error Objects", `source.pointer`, of
  JSON:API v1.0) and a query-string parameter scan.

Files:

- `wrappers.dfy`: `Option`.
- `storage.dfy`, module `Storage`: the store as a `map<string, string>` and
  the `LocalStorage` class that changes it key by key. It also has the
  JavaScript conversions between integers and stored text. `setItem` writes
  a number as its decimal text (`IntToString`). Arithmetic on a stored string
  reads it back with `Number(...)` (`ToNumber`), which gives NaN for text
  such as "undefined".
- `request_helper.dfy`, module `RequestHelper`: the gateway's decision logic
  as functions. The whole flow (`createRequestPromise`, `refreshToken`,
  `createRequest`) is a set of functions over a `World` value. The class
  `Client` runs the same flow imperatively and is proved to agree with those
  functions.
- `user.dfy`, module `User`: the session record and the reducer.
  `Step` is the reducer as a function of (state, store, now, action) to
  (state', store'). `Reducer` is the same reducer as a method that writes to
  a `LocalStorage` object through `SaveToLocal`, which loops over the items,
  and `PurgeLocal`, which calls the loop `RemoveFromLocal`. The module also holds the action creators, the saga's mapping,
  and lemmas about single actions and whole sequences of actions.

Inputs and outputs of the outside world:

- The HTTP client is not modelled. The server's replies are a script,
  `replies`, consumed in order. A call made after the script runs out gets
  "no response". Every request issued is appended to `sent`.
- `window.location` is the field `location`. It holds the last value
  assigned, or `None` if nothing was assigned.
- The clock (`getCurrentDateTimeInSeconds`) is the integer parameter `now`.
- `process.env.REACT_APP_API_URL` is the parameter or field `base`.
- `resolve` and `catchError` become two flags saying whether the caller
  supplied them. `createRequest` returns the callback that was reached.

In these places the code does less than a session design would usually
promise; the model follows the code:

- A failed login does not clear the session's token fields. It only removes
  them from the store (`User.LoginFailureEffect`).
- Being logged in does not imply a non-empty token. Any string is accepted.
- A failed refresh does not clear the store. It writes the text "undefined"
  into the three keys. From then on the expiry reads as NaN, so the token is
  not considered expired until a login or a refresh writes the keys again,
  and requests carry "bearer undefined" (`RequestHelper.ForcedLogoutDisablesExpiry`).
- After a 401, the retried request's result reaches neither `resolve` nor
  `catchError` (`RequestHelper.UnauthorizedRetriesOnce`).
- After a proactive refresh fails, `resolve` is called with null, because
  the refresh promise is fulfilled with null rather than rejected
  (`RequestHelper.RefreshOutcome`).
- With no stored expiry, `null - 300` is -300, so the token counts as
  expired (`RequestHelper.IsTokenExpiredWhenAbsent`).

## Model

| member | source | states |
|---|---|---|
| `Storage.SaveAll` | src/redux/ducks/User.js:86-88 | the store after the `setItem` calls holds the old keys plus the items' keys, and every key no item names keeps its value |
| `Storage.SaveAllLastWins` | src/redux/ducks/User.js:86-88 | for a key written by several items, the store keeps the value of the last of them |
| `Storage.RemoveAll` | src/redux/ducks/User.js:90-92 | removing the listed keys leaves exactly the other keys, each with its old value; `User.RemoveFromLocal` is proved to reach this store |
| `Storage.IntToString` | src/redux/ducks/User.js:86-88 | `setItem` of a number stores non-empty decimal text; `Storage.ToNumberIntToString` shows that `Number(...)` reads it back as the same number |
| `Storage.ToNumber` | src/utils/requestHelper.js:101-104 | `Number(...)` on a stored item: null and "" are 0 (`Storage.EmptyIsZero`), a decimal integer is itself (`Storage.ToNumberIntToString`), and text such as "undefined" is NaN (`RequestHelper.ForcedLogoutDisablesExpiry`) |
| `Storage.EmptyIsZero` | src/utils/requestHelper.js:101-104 | `Number(...)` of null and of the empty string is 0 |
| `Storage.ToNumberIntToString` | src/utils/requestHelper.js:100-104 | a number written with `setItem` reads back through `Number(...)` as the same number |
| `Storage.ParseNatToString` | src/utils/requestHelper.js:100-104 | parsing the decimal text of a natural number gives that number back |
| `User.SaveToLocal` | src/redux/ducks/User.js:86-88 | the loop of `setItem` calls leaves the store equal to `SaveAll` of the old store and the items |
| `User.RemoveFromLocal` | src/redux/ducks/User.js:90-92 | the loop of `removeItem` calls removes exactly the listed keys and nothing else |
| `User.PurgeLocal` | src/redux/ducks/User.js:94-100 | `purgeLocal` removes the three token keys from the store |
| `User.PurgeExactlyTokens` | src/redux/ducks/User.js:94-100 | purging removes exactly `accessToken`, `expiresIn` and `expirationSeconds`, keeps every other key, and purging twice equals purging once |
| `User.Step` | src/redux/ducks/User.js:25-82 | the reducer as a function of state, store, time and action; what each action does is stated by `User.LoginStartEffect`, `User.LoginSuccessEffect`, `User.LoginFailureEffect`, `User.LogoutEffect` and `User.OtherActionEffect`, and what a whole sequence does by `User.RunFromInitial` |
| `User.Reducer` | src/redux/ducks/User.js:25-82 | the reducer, run on a `LocalStorage` object, returns the session `Step` computes and leaves the store as `Step` says; an absent state counts as the initial state |
| `User.InitialStateAnonymous` | src/redux/ducks/User.js:13-21 | the initial session has `id` "0", all three flags false and no token fields, so no store mirrors it |
| `User.LoginStartEffect` | src/redux/ducks/User.js:29-32 | `LOGIN_START` sets `loading` and leaves every other field and the whole store unchanged |
| `User.LoginSuccessEffect` | src/redux/ducks/User.js:34-54 | `LOGIN_SUCCESS` sets the token and `expiresIn` from the payload and `expirationSeconds` to expires_in + now; it sets `loggedIn` and clears `loading` and `error`; it keeps `id`; afterwards the store holds exactly the same three token values, and every other key is unchanged |
| `User.LoginFailureEffect` | src/redux/ducks/User.js:56-64 | `LOGIN_FAILURE` clears `loggedIn` and `loading` and sets `error`; it keeps the token fields in the session and removes exactly the three keys from the store, so a session that had a token no longer matches the store |
| `User.LogoutEffect` | src/redux/ducks/User.js:66-77 | `LOGOUT` clears the three token fields and the three flags, keeps `id`, and removes exactly the three keys |
| `User.OtherActionEffect` | src/redux/ducks/User.js:79-80 | an action of any other type returns the session unchanged and leaves the store alone |
| `User.RunFromInitial` | src/redux/ducks/User.js:25-82 | along any sequence of actions from the initial state, `loggedIn` holds exactly when the last of success, failure and logout was `LOGIN_SUCCESS`; in that case the session holds that action's token and expires_in + now, and the store mirrors the session. `error` holds exactly when that last action was `LOGIN_FAILURE`. `loading` holds exactly when the last session action was `LOGIN_START`. The id stays "0" |
| `User.LoginAction` | src/redux/ducks/User.js:104-109 | `login` builds an action of type `LOGIN_START` carrying the email and password |
| `User.ForceLoginAction` | src/redux/ducks/User.js:111-113 | `forceLogin` builds an action of type `LOGIN_SUCCESS` carrying the token and expires_in |
| `User.LogoutAction` | src/redux/ducks/User.js:115-117 | `logout` builds an action of type `LOGOUT` |
| `User.ForceLoginLogsIn` | src/redux/ducks/User.js:111-113 | dispatching `forceLogin` from any state logs in with that token, and the store mirrors the session |
| `User.LoginRequest` | src/redux/ducks/User.js:121-137 | the login call is a POST to base + "/api/oauth/token" with JSON headers and the grant type "password", the username and the password |
| `User.LoginRequestSharesTokenEndpoint` | src/redux/ducks/User.js:121-137 | the login call has the URL, method, headers and query of the gateway's refresh call; it differs in the grant type, "password" against "refresh_token" |
| `User.LoginOutcome` | src/redux/ducks/User.js:148-157 | the saga dispatches `LOGIN_SUCCESS` with the granted token and expiry exactly when the login call succeeded, and `LOGIN_FAILURE` with the error for any failure |
| `User.LoginAttempt` | src/redux/ducks/User.js:148-157 | after `LOGIN_START` and the saga's answer, the session is not loading; it is logged in with the granted token, mirrored in the store, exactly when a token was granted; otherwise it shows an error and the three keys are gone |
| `RequestHelper.IsTokenExpired` | src/utils/requestHelper.js:100-106 | whether the stored expiry minus 300 s has been reached; stated by `RequestHelper.IsTokenExpiredAt`, `RequestHelper.IsTokenExpiredWhenAbsent` and, for the "undefined" a forced logout leaves, `RequestHelper.ForcedLogoutDisablesExpiry` |
| `RequestHelper.IsTokenExpiredAt` | src/utils/requestHelper.js:100-106 | with a stored integer expiry e, the token is expired exactly when now >= e - 300, the boundary included |
| `RequestHelper.IsTokenExpiredWhenAbsent` | src/utils/requestHelper.js:100-106 | with no stored expiry, the token is expired exactly when now >= -300 |
| `RequestHelper.Contains` | src/utils/requestHelper.js:26 | `route.includes("users")`; `RequestHelper.ContainsAt` and `RequestHelper.ContainsHasIndex` show it holds exactly when "users" occurs at some index |
| `RequestHelper.ContainsAt` | src/utils/requestHelper.js:26 | a route that has "users" at some index counts as containing it |
| `RequestHelper.ContainsHasIndex` | src/utils/requestHelper.js:26 | a route that contains "users" has it at some index |
| `RequestHelper.ShouldRefresh` | src/utils/requestHelper.js:24-27 | refresh first exactly when the token is expired, the route does not contain "users" and the method is not POST; `RequestHelper.ProactiveRefreshIff` shows that the flow takes this branch exactly then |
| `RequestHelper.ProactiveRefreshIff` | src/utils/requestHelper.js:24-29 | the first request issued is the token request exactly when the token is expired, the route does not contain "users" and the method is not POST; otherwise it is the resource request itself |
| `RequestHelper.Idempotent` | src/utils/requestHelper.js:59-61 | POST, PATCH and PUT; `RequestHelper.BuildRequest` adds `Content-Type` exactly for them |
| `RequestHelper.BuildRequest` | src/utils/requestHelper.js:30-45 | the URL is base + "/api/v1/" + route, and the method, data and query pass through. `Authorization` is "bearer " followed by the stored token, or by "null" when none is stored. `Accept` is the JSON:API type. `Content-Type` is present, with the JSON:API type, exactly when the method is POST, PATCH or PUT |
| `RequestHelper.RefreshRequest` | src/utils/requestHelper.js:64-75 | the refresh call is a POST to base + "/api/oauth/token" with JSON headers, the grant type "refresh_token" and the stored token (JSON null when there is none) |
| `RequestHelper.Classify` | src/utils/requestHelper.js:11-19 | a 401 asks for a refresh, a 403 for the redirect home, and any other status or no response for the caller's handler |
| `RequestHelper.GrantStore` | src/utils/requestHelper.js:76-82 | a successful refresh writes the three keys: the token, expires_in, and expires_in + now. Every other key is unchanged. A reply whose body is null fails before anything is written |
| `RequestHelper.LogoutStore` | src/utils/requestHelper.js:88-91 | the gateway's logout writes the text "undefined" into the three keys, and does not remove them, keeping every other key |
| `RequestHelper.ForcedLogoutDisablesExpiry` | src/utils/requestHelper.js:88-106 | with the store as the gateway's logout leaves it, the token counts as expired at no time, until a login or a refresh writes the keys again, so no proactive refresh happens, and the next request carries "bearer undefined" |
| `RequestHelper.Exchange` | src/utils/requestHelper.js:47 | one HTTP call appends the request to the log and takes the next scripted reply; with no reply left it fails without a response |
| `RequestHelper.ForcedLogout` | src/utils/requestHelper.js:88-94 | the gateway's logout: the store becomes `RequestHelper.LogoutStore` of the old one and the location "/login"; `RequestHelper.RefreshFailureLogsOut` shows where the flow reaches it |
| `RequestHelper.RequestOutcome` | src/utils/requestHelper.js:23-49 | `createRequestPromise` over the browser's state; stated by `RequestHelper.DirectRequest`, `RequestHelper.ProactiveRefreshIff`, `RequestHelper.ExpiredTokenRefreshesOnce` and `RequestHelper.RequestOutcomeLogs` |
| `RequestHelper.CreateRequestOutcome` | src/utils/requestHelper.js:3-21 | `createRequest` over the browser's state; stated by `RequestHelper.FulfilledResolves`, `RequestHelper.SuccessResolves`, `RequestHelper.UnauthorizedRetriesOnce`, `RequestHelper.ForbiddenRedirectsHome` and `RequestHelper.OtherErrorHandedOver` |
| `RequestHelper.RefreshOutcome` | src/utils/requestHelper.js:63-86 | the promise of a refresh is never rejected |
| `RequestHelper.RequestOutcomeLogs` | src/utils/requestHelper.js:23-49 | a request only appends to the log of sent requests, at most 2 * fuel + 1 of them |
| `RequestHelper.RefreshOutcomeLogs` | src/utils/requestHelper.js:63-86 | a refresh sends at least its token request, only appends to the log, and sends at most 2 * fuel + 2 requests |
| `RequestHelper.DirectRequest` | src/utils/requestHelper.js:29-48 | a request that needs no refresh is exactly one HTTP call with the built request. It is fulfilled with the reply or rejected with the error, and the store and location are unchanged |
| `RequestHelper.RefreshFailureLogsOut` | src/utils/requestHelper.js:85-93 | a failed token request ends in the gateway's logout. The location becomes "/login", the promise is fulfilled with null, and nothing is reissued |
| `RequestHelper.RefreshThenReissue` | src/utils/requestHelper.js:76-85 | a successful refresh with a grant longer than 300 s stores the grant and reissues the original request once. That request's reply is the result. If the reissue fails, the gateway logs out and no second refresh is attempted |
| `RequestHelper.ShortGrantRefreshesAgain` | src/utils/requestHelper.js:76-83 | a grant of at most 300 s counts as expired as soon as it is stored, so the reissued request refreshes again when the guard allows |
| `RequestHelper.ExpiredTokenRefreshesOnce` | src/utils/requestHelper.js:24-28 | with an expired token, exactly one token request is sent and then exactly one resource request; a failure of that request ends at "/login" |
| `RequestHelper.ForbiddenRedirectsHome` | src/utils/requestHelper.js:15-16 | a 403 sets the location to "/", with no refresh, no callback and no change to the store |
| `RequestHelper.OtherErrorHandedOver` | src/utils/requestHelper.js:17-19 | any other error, or no response, goes to `catchError` when it is supplied; when it is not, nothing changes |
| `RequestHelper.FulfilledResolves` | src/utils/requestHelper.js:4-7 | on every path, when the request promise is fulfilled, its value is passed to `resolve` when that is supplied, and nothing else happens |
| `RequestHelper.SuccessResolves` | src/utils/requestHelper.js:5-7 | a direct request's successful reply is passed to `resolve` when it is supplied |
| `RequestHelper.UnauthorizedRetriesOnce` | src/utils/requestHelper.js:13-14 | a 401 leads to one token request and one retry, and the retry's result reaches no callback. When the retry fails as well, the gateway logs out instead of refreshing again |
| `RequestHelper.FindPointer` | src/utils/requestHelper.js:117-121 | the index found is the first error object whose `source.pointer` is the target; none is found only when no error object has that pointer |
| `RequestHelper.GetErrorFromPointer` | src/utils/requestHelper.js:114-127 | with no `errors` list the result is none. Otherwise a result is the `detail` of the first error whose pointer is "/data/attributes/" + pointer |
| `RequestHelper.GetErrorFromPointerFirst` | src/utils/requestHelper.js:117-125 | when the first matching error is at index i, the result is that error's `detail`, whatever later errors say |
| `RequestHelper.GetErrorFromPointerNone` | src/utils/requestHelper.js:114-127 | when no error matches the pointer, the result is none |
| `RequestHelper.FindParam` | src/utils/requestHelper.js:109 | the index found is the leftmost one where `?param=` or `&param=` begins; none is found only when there is no such index |
| `RequestHelper.ValueEnd` | src/utils/requestHelper.js:109 | the value runs to the first `&` after its start, or to the end of the string |
| `RequestHelper.GetQueryParam` | src/utils/requestHelper.js:108-112 | the result is none exactly when the search string contains no `?param=` or `&param=`. Otherwise it is the text after the leftmost such occurrence, up to the next `&` or the end, and it contains no `&` |
| `RequestHelper.Client.Axios` | src/utils/requestHelper.js:47 | an HTTP call logs the request and takes the next scripted reply |
| `RequestHelper.Client.Logout` | src/utils/requestHelper.js:88-94 | three `setItem` calls write "undefined" into the keys, and the location is set to "/login" |
| `RequestHelper.Client.SaveGrant` | src/utils/requestHelper.js:76-82 | the `setItem` calls after a refresh leave the store as `GrantStore` says, or unchanged when the reply's body is null |
| `RequestHelper.Client.CreateRequestPromise` | src/utils/requestHelper.js:23-49 | run on the browser's state, including the in-place addition of `Content-Type`, it gives the result and the new state that `RequestOutcome` computes |
| `RequestHelper.Client.RefreshToken` | src/utils/requestHelper.js:63-86 | run on the browser's state, it gives the result and the new state that `RefreshOutcome` computes |
| `RequestHelper.Client.CreateRequest` | src/utils/requestHelper.js:3-21 | run on the browser's state, it reaches the callback and the new state that `CreateRequestOutcome` computes |

## Left out

- The latest-wins cancellation of `loginSaga` (`takeLatest`). This is
  concurrency semantics owned by the saga library. Only the mapping from
  the login call's outcome to the dispatched action is modelled.
- The HTTP client, promise chaining and `console.error` logging. Replies
  are inputs, callbacks and redirects are outputs, and logging has no
  observable effect.
- Concurrent requests, and the race between two refreshes started at the
  same time. Each flow is modelled on its own.
- `asyncGet`. It is a wrapper that swallows errors.
- `fetchCurrentUser` in `User.js`. Nothing in the core calls it, and it is
  one gateway request for the route "me".
- The wall clock. `now` is one integer parameter for a whole flow, so time
  does not move between the HTTP calls of one flow.
- `src/index.js` and `src/redux/configureStore.js` (rendering, store wiring,
  hot reload, service worker). These are framework glue and are not part of
  this model.
- `RequestHelper.RequestOutcome`: the chain of refresh, reissue and refresh
  again need not end when every new grant is 300 s or shorter. A `fuel`
  bound limits the number of proactive refreshes, and a flow that runs out
  of fuel is reported as a promise that has not settled (`Pending`).
- `Storage.ToNumber`: only null, the empty string and an optional minus
  sign followed by decimal digits are read as numbers. Everything else
  reads as NaN. JavaScript also accepts surrounding whitespace, a leading
  "+", hexadecimal, fractions, exponents and "Infinity"; these are not
  modelled. Integers are unbounded, so 64-bit floating point and the
  exponent form of very large numbers are not modelled either.
- `RequestHelper.CreateRequestOutcome`: `resolve` is taken not to throw.
  In the code the `.catch` is chained after the `.then` that calls `resolve`,
  so an exception thrown by `resolve` reaches the same handler. A plain
  exception has no `response`, so `catchError` runs after `resolve`; a thrown
  object whose `response.status` is 401 or 403 would start a refresh or the
  redirect to "/". One way to reach this: after a failed proactive refresh,
  `resolve(null)` is called, and a `resolve` that reads `response.data`
  throws. `Callback` names a single callback, so this sequence is not
  modelled.
- `User.LoginOutcome`: a successful login reply is taken to carry an
  access token and an integer expires_in. Other reply bodies are not
  modelled.
- `RequestHelper.GetQueryParam`: the regular expression is modelled as an
  explicit scan, so `param` is taken to contain no regular-expression
  metacharacters.
- `User.Step`: `LOGIN_SUCCESS` reads the clock twice, once for the store
  and once for the session. The model uses one `now` for both, so it does
  not capture the two expiries differing by a second.
- The action `Other` stands for every action type other than the four
  session types. The datatype does not stop `Other` from carrying one of those four
  type strings, and such a value models nothing.
- Request bodies and query objects are flat maps, and the model passes them
  through unchanged. Nested JSON is not modelled.
