/**
 * The authenticated request gateway: every call to the resource API goes
 * through it. It attaches the stored bearer token, refreshes the token
 * first when it is about to expire, refreshes it after a 401, sends the
 * user home after a 403, and forces a logout when a refresh fails.
 *
 * The HTTP client, the wall clock and `window.location` are not modelled
 * as such: the replies the server gives are a script consumed in order,
 * the current time `now` (in epoch seconds) is a parameter, and the last
 * assignment to `window.location` is a field of the state.
 *
 * The first part defines the decision logic and the whole request flow as
 * functions over a `World` value; `Client` at the end runs the same flow
 * imperatively, with `localStorage` updated key by key, and is proved to
 * agree with those functions.
 */
module RequestHelper {
  import opened Wrappers
  import opened Storage

  /** Seconds before the stored expiry at which a token already counts as expired. */
  const TokenBuffer := 300
  const JsonApiType := "application/vnd.api+json"
  const JsonType := "application/json"
  const ApiPrefix := "/api/v1/"
  const TokenPath := "/api/oauth/token"
  /** Where a failed refresh sends the browser. */
  const LoginPath := "/login"
  /** Where a 403 sends the browser. */
  const HomePath := "/"
  /** Routes containing this are never refreshed proactively. */
  const UsersRoute := "users"
  /** What `setItem` stores for the JavaScript value `undefined`. */
  const UndefinedText := "undefined"

  // ---------------------------------------------------------------------
  // Requests and replies

  /** A JSON value inside a request body, flattened to one level. */
  datatype Value = Text(s: string) | Null
  type Body = map<string, Value>

  /** What a caller asks for: `{ method, route, data, query }`. */
  datatype RequestParams = RequestParams(
    httpMethod: string,
    route: string,
    data: Option<Body>,
    query: Option<map<string, string>>)

  /** The request record handed to the HTTP client. */
  datatype Request = Request(
    httpMethod: string,
    url: string,
    headers: map<string, string>,
    data: Option<Body>,
    params: Option<map<string, string>>)

  /** A JSON:API error object: `{ source: { pointer }, detail }`. */
  datatype ErrorSource = ErrorSource(pointer: Option<string>)
  datatype ErrorObject = ErrorObject(source: Option<ErrorSource>, detail: Option<string>)

  /**
   * The body of a reply: a token grant from the token endpoint, a JSON:API
   * document (possibly with an `errors` list), or a body that is null, so
   * that reading a field of it throws.
   */
  datatype Data =
    | Grant(accessToken: string, expiresIn: int)
    | Document(errors: Option<seq<ErrorObject>>)
    | NoData

  datatype Response = Response(status: int, data: Data)

  /** A rejected HTTP call; `response` is absent when no reply arrived. */
  datatype HttpError = HttpError(response: Option<Response>)

  /** How one HTTP call ends. */
  datatype HttpOutcome = Ok(reply: Response) | Err(error: HttpError)

  // ---------------------------------------------------------------------
  // Token expiry and the proactive-refresh guard

  /**
   * `isTokenExpired()`: the stored expiry minus the buffer has been reached.
   * The stored text is coerced to a number; when it is not a number (NaN)
   * the comparison is false and the token does not count as expired.
   */
  function IsTokenExpired(now: int, store: Store): bool {
    match ToNumber(Get(store, ExpirationKey))
    case Num(e) => now >= e - TokenBuffer
    case NaN => false
  }

  /** Expired exactly when `now >= expirationSeconds - 300` for a stored integer; the boundary counts. */
  lemma IsTokenExpiredAt(now: int, store: Store, e: int)
    requires ExpirationKey in store && store[ExpirationKey] == IntToString(e)
    ensures IsTokenExpired(now, store) <==> now >= e - 300
  {
    ToNumberIntToString(e);
  }

  /** With no stored expiry, null coerces to 0 and the token is expired from time -300 on. */
  lemma IsTokenExpiredWhenAbsent(now: int, store: Store)
    requires ExpirationKey !in store
    ensures IsTokenExpired(now, store) <==> now >= -300
  {
  }

  /** `s.includes(t)`. */
  predicate Contains(s: string, t: string)
    decreases |s|
  {
    t <= s || (|s| > 0 && Contains(s[1..], t))
  }

  /** A substring found at index `i` is contained. */
  lemma {:induction false} ContainsAt(s: string, t: string, i: nat)
    requires i + |t| <= |s| && s[i..i + |t|] == t
    ensures Contains(s, t)
    decreases i
  {
    if i == 0 {
      assert s[..|t|] == t;
    } else {
      assert s[1..][i - 1..i - 1 + |t|] == s[i..i + |t|];
      ContainsAt(s[1..], t, i - 1);
    }
  }

  /** A contained string occurs at some index. */
  lemma {:induction false} ContainsHasIndex(s: string, t: string) returns (i: nat)
    requires Contains(s, t)
    ensures i + |t| <= |s| && s[i..i + |t|] == t
    decreases |s|
  {
    if t <= s {
      i := 0;
    } else {
      var j := ContainsHasIndex(s[1..], t);
      assert s[1..][j..j + |t|] == s[j + 1..j + 1 + |t|];
      i := j + 1;
    }
  }

  /** The guard of `createRequestPromise`: refresh first, or issue the request directly. */
  predicate ShouldRefresh(expired: bool, p: RequestParams) {
    expired && !Contains(p.route, UsersRoute) && p.httpMethod != "POST"
  }

  // ---------------------------------------------------------------------
  // Building requests

  /** `idempotent(method)`: the methods that carry a JSON:API body (despite the name). */
  predicate Idempotent(httpMethod: string) {
    httpMethod == "POST" || httpMethod == "PATCH" || httpMethod == "PUT"
  }

  /** A stored item interpolated into a template literal: null prints as "null". */
  function Interpolated(store: Store, key: string): string {
    Get(store, key).GetOr("null")
  }

  /** The request `createRequestPromise` issues for the caller's parameters. */
  function BuildRequest(base: string, p: RequestParams, store: Store): (r: Request)
    ensures r.httpMethod == p.httpMethod && r.data == p.data && r.params == p.query
    ensures r.url == base + ApiPrefix + p.route
    ensures r.headers.Keys == {"Authorization", "Accept"} + (if Idempotent(p.httpMethod) then {"Content-Type"} else {})
    ensures AccessTokenKey in store ==> r.headers["Authorization"] == "bearer " + store[AccessTokenKey]
    ensures AccessTokenKey !in store ==> r.headers["Authorization"] == "bearer null"
    ensures r.headers["Accept"] == JsonApiType
    ensures "Content-Type" in r.headers ==> r.headers["Content-Type"] == JsonApiType
  {
    var headers := map["Authorization" := "bearer " + Interpolated(store, AccessTokenKey), "Accept" := JsonApiType];
    Request(
      p.httpMethod,
      base + ApiPrefix + p.route,
      if Idempotent(p.httpMethod) then headers["Content-Type" := JsonApiType] else headers,
      p.data,
      p.query)
  }

  /** The token-endpoint call of `refreshToken`, carrying the stored (possibly expired) token. */
  function RefreshRequest(base: string, store: Store): (r: Request)
    ensures r.httpMethod == "POST" && r.url == base + TokenPath && r.params == None
    ensures r.headers == map["Accept" := JsonType, "Content-Type" := JsonType]
    ensures r.data.Some? && r.data.value.Keys == {"grant_type", "token"}
    ensures r.data.value["grant_type"] == Text("refresh_token")
    ensures r.data.value["token"] == if AccessTokenKey in store then Text(store[AccessTokenKey]) else Null
  {
    var token := match Get(store, AccessTokenKey) case Some(t) => Text(t) case None => Null;
    Request(
      "POST",
      base + TokenPath,
      map["Accept" := JsonType, "Content-Type" := JsonType],
      Some(map["grant_type" := Text("refresh_token"), "token" := token]),
      None)
  }

  // ---------------------------------------------------------------------
  // Classifying a failed call

  /** `error.response ? error.response.status : undefined`. */
  function Status(e: HttpError): Option<int> {
    match e.response
    case Some(r) => Some(r.status)
    case None => None
  }

  /** What `createRequest` does about a rejected call. */
  datatype Recovery = RefreshAndRetry | RedirectHome | HandOver

  function Classify(status: Option<int>): (r: Recovery)
    ensures r == RefreshAndRetry <==> status == Some(401)
    ensures r == RedirectHome <==> status == Some(403)
    ensures r == HandOver <==> status != Some(401) && status != Some(403)
  {
    if status == Some(401) then RefreshAndRetry
    else if status == Some(403) then RedirectHome
    else HandOver
  }

  // ---------------------------------------------------------------------
  // Storage effects of the refresh flow

  /**
   * The three `setItem` calls after a successful refresh, or None when the
   * reply's body is null and reading `response.data.access_token` throws.
   * A body without the grant fields stores "undefined" twice and the NaN
   * that `parseInt(undefined) + now` gives.
   */
  function GrantStore(m: Store, data: Data, now: int): (r: Option<Store>)
    ensures r.None? <==> data.NoData?
    ensures r.Some? ==> r.value.Keys == m.Keys + TokenKeys
    ensures r.Some? ==> forall k :: k in m && k !in TokenKeys ==> r.value[k] == m[k]
    ensures data.Grant? ==>
      && r.Some?
      && r.value[AccessTokenKey] == data.accessToken
      && r.value[ExpiresInKey] == IntToString(data.expiresIn)
      && r.value[ExpirationKey] == IntToString(data.expiresIn + now)
  {
    match data
    case Grant(token, expiresIn) =>
      Some(m[AccessTokenKey := token][ExpiresInKey := IntToString(expiresIn)][ExpirationKey := IntToString(expiresIn + now)])
    case Document(_) =>
      Some(m[AccessTokenKey := UndefinedText][ExpiresInKey := UndefinedText][ExpirationKey := "NaN"])
    case NoData => None
  }

  /** The store after the gateway's `logout()`: the three keys hold the text "undefined". */
  function LogoutStore(m: Store): (r: Store)
    ensures r.Keys == m.Keys + TokenKeys
    ensures forall k :: k in TokenKeys ==> r[k] == UndefinedText
    ensures forall k :: k in m && k !in TokenKeys ==> r[k] == m[k]
  {
    m[AccessTokenKey := UndefinedText][ExpiresInKey := UndefinedText][ExpirationKey := UndefinedText]
  }

  /**
   * After a forced logout the keys are still present: the expiry reads as
   * NaN, so the token never counts as expired again, and the next request
   * carries the header "bearer undefined".
   */
  lemma ForcedLogoutDisablesExpiry(now: int, base: string, p: RequestParams, m: Store)
    ensures !IsTokenExpired(now, LogoutStore(m))
    ensures !ShouldRefresh(IsTokenExpired(now, LogoutStore(m)), p)
    ensures BuildRequest(base, p, LogoutStore(m)).headers["Authorization"] == "bearer undefined"
  {
  }

  // ---------------------------------------------------------------------
  // The request flow, as functions over the state it touches

  /**
   * Everything the flow reads or changes: the store, the last value
   * assigned to `window.location`, the requests issued so far and the
   * replies the server has still to give.
   */
  datatype World = World(
    storage: Store,
    location: Option<string>,
    sent: seq<Request>,
    replies: seq<HttpOutcome>)

  /** How a promise of the flow ends: fulfilled (null is None), rejected, or not settled within the fuel. */
  datatype Settled = Fulfilled(value: Option<Response>) | Rejected(error: HttpError) | Pending

  /** Which of `createRequest`'s callbacks ends up being called. */
  datatype Callback = Resolved(value: Option<Response>) | Caught(error: HttpError) | Silent | Unsettled

  /** One HTTP call: the request is logged and the next scripted reply answers it. */
  function Exchange(w: World, req: Request): (r: (HttpOutcome, World))
    ensures r.1 == w.(sent := w.sent + [req], replies := if w.replies == [] then [] else w.replies[1..])
    ensures r.0 == if w.replies == [] then Err(HttpError(None)) else w.replies[0]
  {
    if w.replies == [] then (Err(HttpError(None)), w.(sent := w.sent + [req]))
    else (w.replies[0], w.(sent := w.sent + [req], replies := w.replies[1..]))
  }

  /** The gateway's `logout()`: "undefined" into the three keys and the browser to the login page. */
  function ForcedLogout(w: World): World {
    w.(storage := LogoutStore(w.storage), location := Some(LoginPath))
  }

  /**
   * `createRequestPromise(params)`. `fuel` bounds how many proactive
   * refreshes may follow one another; when it runs out the promise is
   * reported as not settled.
   */
  function RequestOutcome(w: World, base: string, p: RequestParams, now: int, fuel: nat): (r: (Settled, World))
    decreases fuel, 0
  {
    if ShouldRefresh(IsTokenExpired(now, w.storage), p) then
      if fuel == 0 then (Pending, w) else RefreshOutcome(w, base, p, now, fuel - 1)
    else
      var (o, w') := Exchange(w, BuildRequest(base, p, w.storage));
      match o
      case Ok(resp) => (Fulfilled(Some(resp)), w')
      case Err(e) => (Rejected(e), w')
  }

  /**
   * `refreshToken(params)`: ask for a new token, store it and reissue the
   * request; any failure on the way, including of the reissued request,
   * ends in the forced logout and a promise fulfilled with null.
   */
  function RefreshOutcome(w: World, base: string, p: RequestParams, now: int, fuel: nat): (r: (Settled, World))
    ensures !r.0.Rejected?
    decreases fuel, 1
  {
    var (o, w1) := Exchange(w, RefreshRequest(base, w.storage));
    match o
    case Err(_) => (Fulfilled(None), ForcedLogout(w1))
    case Ok(resp) =>
      match GrantStore(w1.storage, resp.data, now)
      case None => (Fulfilled(None), ForcedLogout(w1))
      case Some(stored) =>
        var (s, w2) := RequestOutcome(w1.(storage := stored), base, p, now, fuel);
        if s.Rejected? then (Fulfilled(None), ForcedLogout(w2)) else (s, w2)
  }

  /**
   * `createRequest(params, resolve, catchError)`; `hasResolve` and
   * `hasCatch` say which callbacks the caller supplied. After a 401 the
   * refresh runs but its result reaches neither callback.
   */
  function CreateRequestOutcome(w: World, base: string, p: RequestParams, now: int, fuel: nat, hasResolve: bool, hasCatch: bool): (Callback, World) {
    var (s, w1) := RequestOutcome(w, base, p, now, fuel);
    match s
    case Pending => (Unsettled, w1)
    case Fulfilled(v) => (if hasResolve then Resolved(v) else Silent, w1)
    case Rejected(e) =>
      match Classify(Status(e))
      case RefreshAndRetry =>
        var (_, w2) := RefreshOutcome(w1, base, p, now, fuel);
        (Silent, w2)
      case RedirectHome => (Silent, w1.(location := Some(HomePath)))
      case HandOver => (if hasCatch then Caught(e) else Silent, w1)
  }

  // ---------------------------------------------------------------------
  // Properties of the flow

  /** The flow only appends to the request log and consumes replies from the front. */
  lemma {:induction false} RequestOutcomeLogs(w: World, base: string, p: RequestParams, now: int, fuel: nat)
    ensures var w' := RequestOutcome(w, base, p, now, fuel).1;
      |w.sent| <= |w'.sent| <= |w.sent| + 2 * fuel + 1 && w'.sent[..|w.sent|] == w.sent
    decreases fuel, 0
  {
    if ShouldRefresh(IsTokenExpired(now, w.storage), p) && fuel > 0 {
      RefreshOutcomeLogs(w, base, p, now, fuel - 1);
    }
  }

  lemma {:induction false} RefreshOutcomeLogs(w: World, base: string, p: RequestParams, now: int, fuel: nat)
    ensures var w' := RefreshOutcome(w, base, p, now, fuel).1;
      |w.sent| < |w'.sent| <= |w.sent| + 2 * fuel + 2 && w'.sent[..|w.sent|] == w.sent
    decreases fuel, 1
  {
    var (o, w1) := Exchange(w, RefreshRequest(base, w.storage));
    if o.Ok? && GrantStore(w1.storage, o.reply.data, now).Some? {
      var w1' := w1.(storage := GrantStore(w1.storage, o.reply.data, now).value);
      RequestOutcomeLogs(w1', base, p, now, fuel);
      var w2 := RequestOutcome(w1', base, p, now, fuel).1;
      assert w2.sent[..|w.sent|] == w2.sent[..|w1'.sent|][..|w.sent|];
    }
  }

  /** A request that needs no refresh is one HTTP call with the built request; storage and location stay. */
  lemma DirectRequest(w: World, base: string, p: RequestParams, now: int, fuel: nat)
    requires !ShouldRefresh(IsTokenExpired(now, w.storage), p)
    ensures var (s, w') := RequestOutcome(w, base, p, now, fuel);
      && w'.sent == w.sent + [BuildRequest(base, p, w.storage)]
      && w'.storage == w.storage && w'.location == w.location
      && (w.replies != [] && w.replies[0].Ok? ==> s == Fulfilled(Some(w.replies[0].reply)))
      && (w.replies != [] && w.replies[0].Err? ==> s == Rejected(w.replies[0].error))
      && (w.replies == [] ==> s == Rejected(HttpError(None)))
  {
  }

  /** The proactive refresh happens exactly when the guard holds: the first request is then the token request. */
  lemma ProactiveRefreshIff(w: World, base: string, p: RequestParams, now: int, fuel: nat)
    requires fuel > 0
    ensures var w' := RequestOutcome(w, base, p, now, fuel).1;
      |w'.sent| > |w.sent| &&
      w'.sent[|w.sent|] == (if ShouldRefresh(IsTokenExpired(now, w.storage), p)
                            then RefreshRequest(base, w.storage)
                            else BuildRequest(base, p, w.storage))
  {
    if ShouldRefresh(IsTokenExpired(now, w.storage), p) {
      RefreshOutcomeLogs(w, base, p, now, fuel - 1);
      var (o, w1) := Exchange(w, RefreshRequest(base, w.storage));
      if o.Ok? && GrantStore(w1.storage, o.reply.data, now).Some? {
        var w1' := w1.(storage := GrantStore(w1.storage, o.reply.data, now).value);
        RequestOutcomeLogs(w1', base, p, now, fuel - 1);
        var w2 := RequestOutcome(w1', base, p, now, fuel - 1).1;
        assert w2.sent[..|w1'.sent|][|w.sent|] == w2.sent[|w.sent|];
      }
    }
  }

  /** A failed token request: the forced logout, a promise fulfilled with null, and nothing reissued. */
  lemma RefreshFailureLogsOut(w: World, base: string, p: RequestParams, now: int, fuel: nat)
    requires w.replies == [] || w.replies[0].Err? || w.replies[0].reply.data.NoData?
    ensures var (s, w') := RefreshOutcome(w, base, p, now, fuel);
      && s == Fulfilled(None)
      && w'.sent == w.sent + [RefreshRequest(base, w.storage)]
      && w'.storage == LogoutStore(w.storage)
      && w'.location == Some(LoginPath)
  {
  }

  /**
   * A successful refresh with a grant longer than the buffer stores the
   * grant (expiry = expires_in + now) and reissues the original request
   * exactly once; a failure of that reissue ends in the forced logout.
   */
  lemma RefreshThenReissue(w: World, base: string, p: RequestParams, now: int, fuel: nat, status: int, token: string, expiresIn: int)
    requires |w.replies| >= 2 && w.replies[0] == Ok(Response(status, Grant(token, expiresIn)))
    requires expiresIn > TokenBuffer
    ensures var stored := w.storage[AccessTokenKey := token][ExpiresInKey := IntToString(expiresIn)]
                                   [ExpirationKey := IntToString(expiresIn + now)];
      var (s, w') := RefreshOutcome(w, base, p, now, fuel);
      && w'.sent == w.sent + [RefreshRequest(base, w.storage), BuildRequest(base, p, stored)]
      && w'.replies == w.replies[2..]
      && (w.replies[1].Ok? ==> s == Fulfilled(Some(w.replies[1].reply)) && w'.storage == stored && w'.location == w.location)
      && (w.replies[1].Err? ==> s == Fulfilled(None) && w'.storage == LogoutStore(stored) && w'.location == Some(LoginPath))
  {
    var stored := w.storage[AccessTokenKey := token][ExpiresInKey := IntToString(expiresIn)]
                           [ExpirationKey := IntToString(expiresIn + now)];
    IsTokenExpiredAt(now, stored, expiresIn + now);
  }

  /**
   * A grant of at most the buffer is already expired when it is stored:
   * the reissued request refreshes again if the guard lets it, which is
   * why the chain of refreshes needs a bound.
   */
  lemma ShortGrantRefreshesAgain(w: World, base: string, p: RequestParams, now: int, fuel: nat, status: int, token: string, expiresIn: int)
    requires w.replies != [] && w.replies[0] == Ok(Response(status, Grant(token, expiresIn)))
    requires expiresIn <= TokenBuffer
    requires !Contains(p.route, UsersRoute) && p.httpMethod != "POST"
    requires fuel > 0
    ensures var stored := w.storage[AccessTokenKey := token][ExpiresInKey := IntToString(expiresIn)]
                                   [ExpirationKey := IntToString(expiresIn + now)];
      var w' := RefreshOutcome(w, base, p, now, fuel).1;
      |w'.sent| >= |w.sent| + 2 && w'.sent[|w.sent| + 1] == RefreshRequest(base, stored)
  {
    var stored := w.storage[AccessTokenKey := token][ExpiresInKey := IntToString(expiresIn)]
                           [ExpirationKey := IntToString(expiresIn + now)];
    IsTokenExpiredAt(now, stored, expiresIn + now);
    var w1 := Exchange(w, RefreshRequest(base, w.storage)).1.(storage := stored);
    ProactiveRefreshIff(w1, base, p, now, fuel);
    RequestOutcomeLogs(w1, base, p, now, fuel);
    var w2 := RequestOutcome(w1, base, p, now, fuel).1;
    assert w2.sent[..|w1.sent|][|w.sent|] == w2.sent[|w.sent|];
  }

  /** An expired token: one token request, then the original request once, then its reply. */
  lemma ExpiredTokenRefreshesOnce(w: World, base: string, p: RequestParams, now: int, fuel: nat, status: int, token: string, expiresIn: int)
    requires ShouldRefresh(IsTokenExpired(now, w.storage), p) && fuel > 0
    requires |w.replies| >= 2 && w.replies[0] == Ok(Response(status, Grant(token, expiresIn)))
    requires expiresIn > TokenBuffer
    ensures var stored := w.storage[AccessTokenKey := token][ExpiresInKey := IntToString(expiresIn)]
                                   [ExpirationKey := IntToString(expiresIn + now)];
      var (s, w') := RequestOutcome(w, base, p, now, fuel);
      && w'.sent == w.sent + [RefreshRequest(base, w.storage), BuildRequest(base, p, stored)]
      && (w.replies[1].Ok? ==> s == Fulfilled(Some(w.replies[1].reply)))
      && (w.replies[1].Err? ==> s == Fulfilled(None) && w'.location == Some(LoginPath))
  {
    RefreshThenReissue(w, base, p, now, fuel - 1, status, token, expiresIn);
  }

  /** A 403 sends the browser to "/" with no refresh and no callback. */
  lemma ForbiddenRedirectsHome(w: World, base: string, p: RequestParams, now: int, fuel: nat, hasResolve: bool, hasCatch: bool)
    requires !ShouldRefresh(IsTokenExpired(now, w.storage), p)
    requires w.replies != [] && w.replies[0].Err? && Status(w.replies[0].error) == Some(403)
    ensures var (c, w') := CreateRequestOutcome(w, base, p, now, fuel, hasResolve, hasCatch);
      && c == Silent
      && w'.sent == w.sent + [BuildRequest(base, p, w.storage)]
      && w'.storage == w.storage
      && w'.location == Some(HomePath)
  {
  }

  /** Any other failure goes to `catchError` when supplied, and otherwise changes nothing but the log. */
  lemma OtherErrorHandedOver(w: World, base: string, p: RequestParams, now: int, fuel: nat, hasResolve: bool, hasCatch: bool)
    requires !ShouldRefresh(IsTokenExpired(now, w.storage), p)
    requires w.replies == [] || (w.replies[0].Err? && Status(w.replies[0].error) != Some(401) && Status(w.replies[0].error) != Some(403))
    ensures var e := if w.replies == [] then HttpError(None) else w.replies[0].error;
      var (c, w') := CreateRequestOutcome(w, base, p, now, fuel, hasResolve, hasCatch);
      && c == (if hasCatch then Caught(e) else Silent)
      && w'.sent == w.sent + [BuildRequest(base, p, w.storage)]
      && w'.storage == w.storage
      && w'.location == w.location
  {
  }

  /** On every path, a fulfilled promise hands its value to `resolve` when supplied and changes nothing more. */
  lemma FulfilledResolves(w: World, base: string, p: RequestParams, now: int, fuel: nat, hasResolve: bool, hasCatch: bool)
    requires RequestOutcome(w, base, p, now, fuel).0.Fulfilled?
    ensures var (s, w1) := RequestOutcome(w, base, p, now, fuel);
      CreateRequestOutcome(w, base, p, now, fuel, hasResolve, hasCatch) == (if hasResolve then Resolved(s.value) else Silent, w1)
  {
  }

  /** A direct request's successful reply reaches `resolve` when supplied. */
  lemma SuccessResolves(w: World, base: string, p: RequestParams, now: int, fuel: nat, hasResolve: bool, hasCatch: bool)
    requires !ShouldRefresh(IsTokenExpired(now, w.storage), p)
    requires w.replies != [] && w.replies[0].Ok?
    ensures var (c, w') := CreateRequestOutcome(w, base, p, now, fuel, hasResolve, hasCatch);
      && c == (if hasResolve then Resolved(Some(w.replies[0].reply)) else Silent)
      && w'.sent == w.sent + [BuildRequest(base, p, w.storage)]
      && w'.storage == w.storage
  {
  }

  /**
   * A 401 leads to one refresh and one retry, whose result reaches no
   * callback; a second 401 on the retry ends in the forced logout rather
   * than another refresh.
   */
  lemma UnauthorizedRetriesOnce(w: World, base: string, p: RequestParams, now: int, fuel: nat, hasResolve: bool, hasCatch: bool,
                                status: int, token: string, expiresIn: int)
    requires !ShouldRefresh(IsTokenExpired(now, w.storage), p)
    requires |w.replies| >= 3 && w.replies[0].Err? && Status(w.replies[0].error) == Some(401)
    requires w.replies[1] == Ok(Response(status, Grant(token, expiresIn))) && expiresIn > TokenBuffer
    ensures var stored := w.storage[AccessTokenKey := token][ExpiresInKey := IntToString(expiresIn)]
                                   [ExpirationKey := IntToString(expiresIn + now)];
      var (c, w') := CreateRequestOutcome(w, base, p, now, fuel, hasResolve, hasCatch);
      && c == Silent
      && w'.sent == w.sent + [BuildRequest(base, p, w.storage), RefreshRequest(base, w.storage), BuildRequest(base, p, stored)]
      && w'.replies == w.replies[3..]
      && (w.replies[2].Ok? ==> w'.storage == stored)
      && (w.replies[2].Err? ==> w'.storage == LogoutStore(stored) && w'.location == Some(LoginPath))
  {
    DirectRequest(w, base, p, now, fuel);
    var w1 := RequestOutcome(w, base, p, now, fuel).1;
    assert w1.replies == w.replies[1..];
    RefreshThenReissue(w1, base, p, now, fuel, status, token, expiresIn);
  }

  // ---------------------------------------------------------------------
  // JSON:API error pointers and query parameters

  /** Index of the first error whose `source.pointer` is `target`. */
  function FindPointer(errors: seq<ErrorObject>, target: string, from: nat): (r: Option<nat>)
    requires from <= |errors|
    ensures r.Some? ==> from <= r.value < |errors| && PointsAt(errors[r.value], target)
    ensures r.Some? ==> forall j | from <= j < r.value :: !PointsAt(errors[j], target)
    ensures r.None? ==> forall j | from <= j < |errors| :: !PointsAt(errors[j], target)
    decreases |errors| - from
  {
    if from == |errors| then None
    else if PointsAt(errors[from], target) then Some(from)
    else FindPointer(errors, target, from + 1)
  }

  predicate PointsAt(e: ErrorObject, target: string) {
    e.source.Some? && e.source.value.pointer == Some(target)
  }

  /** The `errors` list of a failed call's reply, when it has one. */
  function ErrorsOf(e: HttpError): Option<seq<ErrorObject>> {
    match e.response
    case Some(Response(_, Document(Some(errors)))) => Some(errors)
    case _ => None
  }

  /**
   * `getErrorFromPointer(error, pointer)`: the `detail` of the first error
   * object whose `source.pointer` is "/data/attributes/" + pointer.
   */
  function GetErrorFromPointer(e: HttpError, pointer: string): (r: Option<string>)
    ensures ErrorsOf(e).None? ==> r.None?
    ensures ErrorsOf(e).Some? && r.Some? ==>
      exists i | 0 <= i < |ErrorsOf(e).value| ::
        PointsAt(ErrorsOf(e).value[i], "/data/attributes/" + pointer)
        && ErrorsOf(e).value[i].detail == r
        && forall j | 0 <= j < i :: !PointsAt(ErrorsOf(e).value[j], "/data/attributes/" + pointer)
  {
    match ErrorsOf(e)
    case None => None
    case Some(errors) =>
      match FindPointer(errors, "/data/attributes/" + pointer, 0)
      case Some(i) => errors[i].detail
      case None => None
  }

  /** The first error for the field is the answer, whatever later errors say. */
  lemma GetErrorFromPointerFirst(e: HttpError, pointer: string, errors: seq<ErrorObject>, i: nat)
    requires ErrorsOf(e) == Some(errors) && i < |errors|
    requires PointsAt(errors[i], "/data/attributes/" + pointer)
    requires forall j | 0 <= j < i :: !PointsAt(errors[j], "/data/attributes/" + pointer)
    ensures GetErrorFromPointer(e, pointer) == errors[i].detail
  {
  }

  /** No error for the field: no message. */
  lemma GetErrorFromPointerNone(e: HttpError, pointer: string)
    requires ErrorsOf(e).Some?
    requires forall j | 0 <= j < |ErrorsOf(e).value| :: !PointsAt(ErrorsOf(e).value[j], "/data/attributes/" + pointer)
    ensures GetErrorFromPointer(e, pointer) == None
  {
  }

  /** `[?&]param=` begins at index `i` of the search string. */
  predicate ParamAt(search: string, param: string, i: nat) {
    i + |param| + 2 <= |search|
    && (search[i] == '?' || search[i] == '&')
    && search[i + 1..i + 1 + |param|] == param
    && search[i + 1 + |param|] == '='
  }

  /** Index of the first `&` at or after `k`, or the end of the string. */
  function ValueEnd(s: string, k: nat): (r: nat)
    requires k <= |s|
    ensures k <= r <= |s|
    ensures forall j | k <= j < r :: s[j] != '&'
    ensures r < |s| ==> s[r] == '&'
    decreases |s| - k
  {
    if k == |s| || s[k] == '&' then k else ValueEnd(s, k + 1)
  }

  /** The leftmost index at or after `from` where `[?&]param=` begins. */
  function FindParam(search: string, param: string, from: nat): (r: Option<nat>)
    ensures r.Some? ==> from <= r.value && ParamAt(search, param, r.value)
    ensures r.Some? ==> forall j | from <= j < r.value :: !ParamAt(search, param, j)
    ensures r.None? ==> forall j | from <= j :: !ParamAt(search, param, j)
    decreases |search| - from
  {
    if from + |param| + 2 > |search| then None
    else if ParamAt(search, param, from) then Some(from)
    else FindParam(search, param, from + 1)
  }

  /**
   * `getQueryParam(history, param)` on `history.location.search`: the text
   * after the leftmost `?param=` or `&param=`, up to the next `&` or the end.
   */
  function GetQueryParam(search: string, param: string): (r: Option<string>)
    ensures r.None? <==> forall i: nat :: !ParamAt(search, param, i)
    ensures r.Some? ==> forall j | 0 <= j < |r.value| :: r.value[j] != '&'
    ensures r.Some? ==>
      exists i: nat ::
        && ParamAt(search, param, i)
        && (forall j | 0 <= j < i :: !ParamAt(search, param, j))
        && r.value == search[i + |param| + 2..ValueEnd(search, i + |param| + 2)]
  {
    match FindParam(search, param, 0)
    case None => None
    case Some(i) =>
      var k := i + |param| + 2;
      assert ParamAt(search, param, i) && forall j | 0 <= j < i :: !ParamAt(search, param, j);
      Some(search[k..ValueEnd(search, k)])
  }

  // ---------------------------------------------------------------------
  // The same flow, run imperatively on the browser's state

  class Client {
    /** `process.env.REACT_APP_API_URL`. */
    const base: string
    const localStorage: LocalStorage
    var location: Option<string>
    var sent: seq<Request>
    var replies: seq<HttpOutcome>

    function Snapshot(): World
      reads this, localStorage
    {
      World(localStorage.items, location, sent, replies)
    }

    constructor (base: string, localStorage: LocalStorage, replies: seq<HttpOutcome>)
      ensures this.base == base && this.localStorage == localStorage
      ensures Snapshot() == World(localStorage.items, None, [], replies)
    {
      this.base := base;
      this.localStorage := localStorage;
      this.location := None;
      this.sent := [];
      this.replies := replies;
    }

    /** `axios(request)`. */
    method Axios(request: Request) returns (o: HttpOutcome)
      modifies this
      ensures (o, Snapshot()) == Exchange(old(Snapshot()), request)
    {
      sent := sent + [request];
      if replies == [] {
        o := Err(HttpError(None));
      } else {
        o := replies[0];
        replies := replies[1..];
      }
    }

    /** `logout()` of the gateway. */
    method Logout()
      modifies this, localStorage
      ensures Snapshot() == ForcedLogout(old(Snapshot()))
    {
      localStorage.SetItem(AccessTokenKey, UndefinedText);
      localStorage.SetItem(ExpiresInKey, UndefinedText);
      localStorage.SetItem(ExpirationKey, UndefinedText);
      location := Some(LoginPath);
    }

    /** The `setItem` calls after a successful token request; false when reading the body throws. */
    method SaveGrant(data: Data, now: int) returns (ok: bool)
      modifies localStorage
      ensures ok <==> GrantStore(old(localStorage.items), data, now).Some?
      ensures ok ==> localStorage.items == GrantStore(old(localStorage.items), data, now).value
      ensures !ok ==> localStorage.items == old(localStorage.items)
    {
      match data
      case Grant(token, expiresIn) =>
        localStorage.SetItem(AccessTokenKey, token);
        localStorage.SetItem(ExpiresInKey, IntToString(expiresIn));
        localStorage.SetItem(ExpirationKey, IntToString(expiresIn + now));
        ok := true;
      case Document(_) =>
        localStorage.SetItem(AccessTokenKey, UndefinedText);
        localStorage.SetItem(ExpiresInKey, UndefinedText);
        localStorage.SetItem(ExpirationKey, "NaN");
        ok := true;
      case NoData =>
        ok := false;
    }

    /** `createRequestPromise(params)`. */
    method CreateRequestPromise(p: RequestParams, now: int, fuel: nat) returns (r: Settled)
      modifies this, localStorage
      ensures (r, Snapshot()) == RequestOutcome(old(Snapshot()), base, p, now, fuel)
      decreases fuel, 0
    {
      if ShouldRefresh(IsTokenExpired(now, localStorage.items), p) {
        if fuel == 0 {
          r := Pending;
        } else {
          r := RefreshToken(p, now, fuel - 1);
        }
      } else {
        var token := localStorage.GetItem(AccessTokenKey);
        var request := Request(
          p.httpMethod,
          base + ApiPrefix + p.route,
          map["Authorization" := "bearer " + token.GetOr("null"), "Accept" := JsonApiType],
          p.data,
          p.query);
        if Idempotent(p.httpMethod) {
          request := request.(headers := request.headers["Content-Type" := JsonApiType]);
        }
        assert request == BuildRequest(base, p, localStorage.items);
        var o := Axios(request);
        r := match o case Ok(resp) => Fulfilled(Some(resp)) case Err(e) => Rejected(e);
      }
    }

    /** `refreshToken(params)`. */
    method RefreshToken(p: RequestParams, now: int, fuel: nat) returns (r: Settled)
      modifies this, localStorage
      ensures (r, Snapshot()) == RefreshOutcome(old(Snapshot()), base, p, now, fuel)
      decreases fuel, 1
    {
      var token := localStorage.GetItem(AccessTokenKey);
      var request := Request(
        "POST",
        base + TokenPath,
        map["Accept" := JsonType, "Content-Type" := JsonType],
        Some(map["grant_type" := Text("refresh_token"), "token" := match token case Some(t) => Text(t) case None => Null]),
        None);
      assert request == RefreshRequest(base, localStorage.items);
      var o := Axios(request);
      if o.Err? {
        Logout();
        r := Fulfilled(None);
        return;
      }
      var ok := SaveGrant(o.reply.data, now);
      if !ok {
        Logout();
        r := Fulfilled(None);
        return;
      }
      r := CreateRequestPromise(p, now, fuel);
      if r.Rejected? {
        Logout();
        r := Fulfilled(None);
      }
    }

    /** `createRequest(params, resolve, catchError)`; the returned value names the callback reached. */
    method CreateRequest(p: RequestParams, now: int, fuel: nat, hasResolve: bool, hasCatch: bool) returns (c: Callback)
      modifies this, localStorage
      ensures (c, Snapshot()) == CreateRequestOutcome(old(Snapshot()), base, p, now, fuel, hasResolve, hasCatch)
    {
      var s := CreateRequestPromise(p, now, fuel);
      match s
      case Pending =>
        c := Unsettled;
      case Fulfilled(v) =>
        c := if hasResolve then Resolved(v) else Silent;
      case Rejected(e) =>
        var status := Status(e);
        if status == Some(401) {
          var _ := RefreshToken(p, now, fuel);
          c := Silent;
        } else if status == Some(403) {
          location := Some(HomePath);
          c := Silent;
        } else {
          c := if hasCatch then Caught(e) else Silent;
        }
    }
  }
}
