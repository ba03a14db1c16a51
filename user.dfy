/**
 * The session store: the record of the current login, the reducer that
 * moves it through the four session actions (and writes the token fields
 * to `localStorage` as it goes), the action creators and the login saga's
 * mapping from the token endpoint's answer to the action it dispatches.
 *
 * The reducer accepts every action in every state; nothing is guarded.
 */
module User {
  import opened Wrappers
  import opened Storage
  import RequestHelper

  /** The session record. */
  datatype Session = Session(
    id: string,
    accessToken: Option<string>,
    expiresIn: Option<int>,
    expirationSeconds: Option<int>,
    loggedIn: bool,
    loading: bool,
    error: bool)

  const InitialState := Session("0", None, None, None, false, false, false)

  /** The actions the reducer sees. `Other` is any action whose type is none of the four. */
  datatype Action =
    | LoginStart(email: string, password: string)
    | LoginSuccess(accessToken: string, expiresIn: int)
    | LoginFailure(reason: RequestHelper.HttpError)
    | Logout
    | Other(kind: string)

  /** The `type` string of an action. */
  function TypeOf(a: Action): string {
    match a
    case LoginStart(_, _) => "LOGIN_START"
    case LoginSuccess(_, _) => "LOGIN_SUCCESS"
    case LoginFailure(_) => "LOGIN_FAILURE"
    case Logout => "LOGOUT"
    case Other(kind) => kind
  }

  /** The records `LOGIN_SUCCESS` hands to `saveToLocal`, in order. */
  function SuccessItems(accessToken: string, expiresIn: int, now: int): seq<Item> {
    [Item(AccessTokenKey, accessToken),
     Item(ExpiresInKey, IntToString(expiresIn)),
     Item(ExpirationKey, IntToString(expiresIn + now))]
  }

  /** The keys `purgeLocal` removes, in order. */
  const PurgeKeys := [AccessTokenKey, ExpiresInKey, ExpirationKey]

  /**
   * One reduction: the next session and the store after the reducer's
   * writes. `now` is the current time in epoch seconds.
   */
  function Step(s: Session, m: Store, now: int, a: Action): (Session, Store) {
    match a
    case LoginStart(_, _) =>
      (s.(loading := true), m)
    case LoginSuccess(token, expiresIn) =>
      (s.(accessToken := Some(token), expiresIn := Some(expiresIn), expirationSeconds := Some(expiresIn + now),
          loading := false, loggedIn := true, error := false),
       SaveAll(m, SuccessItems(token, expiresIn, now)))
    case LoginFailure(_) =>
      (s.(loading := false, loggedIn := false, error := true), RemoveAll(m, PurgeKeys))
    case Logout =>
      (s.(accessToken := None, expiresIn := None, expirationSeconds := None,
          loading := false, loggedIn := false, error := false),
       RemoveAll(m, PurgeKeys))
    case Other(_) =>
      (s, m)
  }

  /** The store holds exactly the session's three token values. */
  predicate Mirrors(s: Session, m: Store) {
    && s.accessToken.Some? && s.expiresIn.Some? && s.expirationSeconds.Some?
    && Get(m, AccessTokenKey) == Some(s.accessToken.value)
    && Get(m, ExpiresInKey) == Some(IntToString(s.expiresIn.value))
    && Get(m, ExpirationKey) == Some(IntToString(s.expirationSeconds.value))
  }

  // ---------------------------------------------------------------------
  // The reducer as the source runs it, writing to localStorage key by key

  /** `saveToLocal(items)`. */
  method SaveToLocal(storage: LocalStorage, items: seq<Item>)
    modifies storage
    ensures storage.items == SaveAll(old(storage.items), items)
  {
    for i := 0 to |items|
      invariant storage.items == SaveAll(old(storage.items), items[..i])
    {
      assert items[..i + 1][..i] == items[..i];
      storage.SetItem(items[i].key, items[i].value);
    }
    assert items[..|items|] == items;
  }

  /** `removeFromLocal(items)`, given the keys of the records. */
  method RemoveFromLocal(storage: LocalStorage, keys: seq<string>)
    modifies storage
    ensures storage.items == RemoveAll(old(storage.items), keys)
  {
    for i := 0 to |keys|
      invariant storage.items == RemoveAll(old(storage.items), keys[..i])
    {
      assert keys[..i + 1] == keys[..i] + [keys[i]];
      assert KeySet(keys[..i + 1]) == KeySet(keys[..i]) + {keys[i]};
      storage.RemoveItem(keys[i]);
    }
    assert keys[..|keys|] == keys;
  }

  /** `purgeLocal()`. */
  method PurgeLocal(storage: LocalStorage)
    modifies storage
    ensures storage.items == RemoveAll(old(storage.items), PurgeKeys)
  {
    RemoveFromLocal(storage, PurgeKeys);
  }

  /** `reducer(state = initialState, action)`; an absent state is the initial one. */
  method Reducer(state: Option<Session>, storage: LocalStorage, now: int, action: Action) returns (next: Session)
    modifies storage
    ensures (next, storage.items) == Step(state.GetOr(InitialState), old(storage.items), now, action)
  {
    var s := state.GetOr(InitialState);
    match action
    case LoginStart(_, _) =>
      next := s.(loading := true);
    case LoginSuccess(token, expiresIn) =>
      SaveToLocal(storage, SuccessItems(token, expiresIn, now));
      next := s.(accessToken := Some(token), expiresIn := Some(expiresIn), expirationSeconds := Some(expiresIn + now),
                 loading := false, loggedIn := true, error := false);
    case LoginFailure(_) =>
      PurgeLocal(storage);
      next := s.(loading := false, loggedIn := false, error := true);
    case Logout =>
      PurgeLocal(storage);
      next := s.(accessToken := None, expiresIn := None, expirationSeconds := None,
                 loading := false, loggedIn := false, error := false);
    case Other(_) =>
      next := s;
  }

  // ---------------------------------------------------------------------
  // What each action does

  /** The initial session is anonymous, idle, without error and without tokens, with id "0". */
  lemma InitialStateAnonymous()
    ensures InitialState.id == "0"
    ensures !InitialState.loggedIn && !InitialState.loading && !InitialState.error
    ensures InitialState.accessToken.None? && InitialState.expiresIn.None? && InitialState.expirationSeconds.None?
    ensures forall m: Store :: !Mirrors(InitialState, m)
  {
  }

  /** `LOGIN_START` only raises `loading`; the store is not touched. */
  lemma LoginStartEffect(s: Session, m: Store, now: int, email: string, password: string)
    ensures var (s', m') := Step(s, m, now, LoginStart(email, password));
      && s'.loading
      && s'.id == s.id && s'.loggedIn == s.loggedIn && s'.error == s.error
      && s'.accessToken == s.accessToken && s'.expiresIn == s.expiresIn && s'.expirationSeconds == s.expirationSeconds
      && m' == m
  {
  }

  /**
   * `LOGIN_SUCCESS` stores the grant in the session, with the expiry
   * `expires_in + now`, logs in, and leaves the store holding the same
   * three token values; every other key and the id are left alone.
   */
  lemma LoginSuccessEffect(s: Session, m: Store, now: int, token: string, expiresIn: int)
    ensures var (s', m') := Step(s, m, now, LoginSuccess(token, expiresIn));
      && s'.accessToken == Some(token) && s'.expiresIn == Some(expiresIn)
      && s'.expirationSeconds == Some(expiresIn + now)
      && s'.loggedIn && !s'.loading && !s'.error && s'.id == s.id
      && Mirrors(s', m')
      && m'.Keys == m.Keys + TokenKeys
      && (forall k :: k in m && k !in TokenKeys ==> m'[k] == m[k])
  {
    var items := SuccessItems(token, expiresIn, now);
    assert KeysOf(items) == TokenKeys by {
      assert items[0].key == AccessTokenKey && items[1].key == ExpiresInKey && items[2].key == ExpirationKey;
    }
    SaveAllLastWins(m, items, 0);
    SaveAllLastWins(m, items, 1);
    SaveAllLastWins(m, items, 2);
  }

  /**
   * `LOGIN_FAILURE` logs out with an error and removes exactly the three
   * keys from the store, but keeps the session's token fields: a session
   * that held a token no longer matches the store.
   */
  lemma LoginFailureEffect(s: Session, m: Store, now: int, reason: RequestHelper.HttpError)
    ensures var (s', m') := Step(s, m, now, LoginFailure(reason));
      && !s'.loggedIn && !s'.loading && s'.error && s'.id == s.id
      && s'.accessToken == s.accessToken && s'.expiresIn == s.expiresIn && s'.expirationSeconds == s.expirationSeconds
      && m' == m - TokenKeys
      && (s.accessToken.Some? ==> !Mirrors(s', m'))
  {
  }

  /** `LOGOUT` clears the three token fields and the three flags, and removes exactly the three keys. */
  lemma LogoutEffect(s: Session, m: Store, now: int)
    ensures var (s', m') := Step(s, m, now, Logout);
      && s' == InitialState.(id := s.id)
      && m' == m - TokenKeys
  {
  }

  /** An action of any other type changes neither the session nor the store. */
  lemma OtherActionEffect(s: Session, m: Store, now: int, kind: string)
    ensures Step(s, m, now, Other(kind)) == (s, m)
  {
  }

  /** `purgeLocal` removes exactly the three token keys, and purging twice is purging once. */
  lemma PurgeExactlyTokens(m: Store)
    ensures RemoveAll(m, PurgeKeys) == m - TokenKeys
    ensures RemoveAll(RemoveAll(m, PurgeKeys), PurgeKeys) == RemoveAll(m, PurgeKeys)
    ensures forall k :: k in m && k !in TokenKeys ==> k in RemoveAll(m, PurgeKeys)
  {
  }

  // ---------------------------------------------------------------------
  // Sequences of actions

  /** One action dispatched at time `now`. */
  datatype Event = Event(now: int, action: Action)

  /** The session and store after dispatching `events` in order. */
  function Run(s: Session, m: Store, events: seq<Event>): (Session, Store)
    decreases |events|
  {
    if events == [] then (s, m)
    else
      var (s', m') := Run(s, m, events[..|events| - 1]);
      Step(s', m', events[|events| - 1].now, events[|events| - 1].action)
  }

  predicate DecidesLogin(a: Action) {
    a.LoginSuccess? || a.LoginFailure? || a.Logout?
  }

  /** The last event among `LOGIN_SUCCESS`, `LOGIN_FAILURE` and `LOGOUT`. */
  function LastDecision(events: seq<Event>): (r: Option<Event>)
    ensures r.Some? ==> DecidesLogin(r.value.action)
    decreases |events|
  {
    if events == [] then None
    else if DecidesLogin(events[|events| - 1].action) then Some(events[|events| - 1])
    else LastDecision(events[..|events| - 1])
  }

  /** The last event of one of the four session types. */
  function LastSessionEvent(events: seq<Event>): (r: Option<Event>)
    ensures r.Some? ==> !r.value.action.Other?
    decreases |events|
  {
    if events == [] then None
    else if !events[|events| - 1].action.Other? then Some(events[|events| - 1])
    else LastSessionEvent(events[..|events| - 1])
  }

  /**
   * Along any sequence of actions from the initial state: logged in exactly
   * when the last deciding action was `LOGIN_SUCCESS`, and then the session
   * holds that action's token and expiry and the store mirrors them; in an
   * error exactly when it was `LOGIN_FAILURE`; loading exactly when the last
   * session action was `LOGIN_START`.
   */
  lemma {:induction false} RunFromInitial(m: Store, events: seq<Event>)
    ensures var (s, m') := Run(InitialState, m, events);
      var d := LastDecision(events);
      && s.id == "0"
      && (s.loggedIn <==> d.Some? && d.value.action.LoginSuccess?)
      && (s.error <==> d.Some? && d.value.action.LoginFailure?)
      && (s.loading <==> LastSessionEvent(events).Some? && LastSessionEvent(events).value.action.LoginStart?)
      && (s.loggedIn ==>
            && s.accessToken == Some(d.value.action.accessToken)
            && s.expirationSeconds == Some(d.value.action.expiresIn + d.value.now)
            && Mirrors(s, m'))
    decreases |events|
  {
    if events != [] {
      var init := events[..|events| - 1];
      var last := events[|events| - 1];
      RunFromInitial(m, init);
      var (s0, m0) := Run(InitialState, m, init);
      if last.action.LoginSuccess? {
        LoginSuccessEffect(s0, m0, last.now, last.action.accessToken, last.action.expiresIn);
      }
    }
  }

  // ---------------------------------------------------------------------
  // Action creators

  /** `login(email, password)`. */
  function LoginAction(email: string, password: string): (a: Action)
    ensures TypeOf(a) == "LOGIN_START" && a.LoginStart? && a.email == email && a.password == password
  {
    LoginStart(email, password)
  }

  /** `forceLogin(access_token, expires_in)`. */
  function ForceLoginAction(accessToken: string, expiresIn: int): (a: Action)
    ensures TypeOf(a) == "LOGIN_SUCCESS" && a.LoginSuccess? && a.accessToken == accessToken && a.expiresIn == expiresIn
  {
    LoginSuccess(accessToken, expiresIn)
  }

  /** `logout()` of the session store. */
  function LogoutAction(): (a: Action)
    ensures TypeOf(a) == "LOGOUT" && a.Logout?
  {
    Logout
  }

  /** Dispatching `forceLogin` logs in with the given token from any state. */
  lemma ForceLoginLogsIn(s: Session, m: Store, now: int, token: string, expiresIn: int)
    ensures var (s', m') := Step(s, m, now, ForceLoginAction(token, expiresIn));
      s'.loggedIn && s'.accessToken == Some(token) && Mirrors(s', m')
  {
    LoginSuccessEffect(s, m, now, token, expiresIn);
  }

  // ---------------------------------------------------------------------
  // The login saga

  /** How the token endpoint answered the login call. */
  datatype LoginReply = Granted(accessToken: string, expiresIn: int) | Failed(error: RequestHelper.HttpError)

  /** The call `postLogin(email, password)` makes, taking the credentials from a `LOGIN_START` payload. */
  function LoginRequest(base: string, a: Action): (r: RequestHelper.Request)
    requires a.LoginStart?
    ensures r.httpMethod == "POST" && r.url == base + RequestHelper.TokenPath && r.params == None
    ensures r.headers == map["Accept" := RequestHelper.JsonType, "Content-Type" := RequestHelper.JsonType]
    ensures r.data == Some(map["grant_type" := RequestHelper.Text("password"),
                               "username" := RequestHelper.Text(a.email),
                               "password" := RequestHelper.Text(a.password)])
  {
    RequestHelper.Request(
      "POST",
      base + RequestHelper.TokenPath,
      map["Accept" := RequestHelper.JsonType, "Content-Type" := RequestHelper.JsonType],
      Some(map["grant_type" := RequestHelper.Text("password"),
               "username" := RequestHelper.Text(a.email),
               "password" := RequestHelper.Text(a.password)]),
      None)
  }

  /**
   * The login call goes to the same endpoint as the gateway's refresh, with
   * the same method and headers; only the grant in the body differs.
   */
  lemma LoginRequestSharesTokenEndpoint(base: string, a: Action, m: Store)
    requires a.LoginStart?
    ensures var (login, refresh) := (LoginRequest(base, a), RequestHelper.RefreshRequest(base, m));
      && login.httpMethod == refresh.httpMethod && login.url == refresh.url
      && login.headers == refresh.headers && login.params == refresh.params
      && login.data.value["grant_type"] == RequestHelper.Text("password")
      && refresh.data.value["grant_type"] == RequestHelper.Text("refresh_token")
  {
  }

  /** The action `loginStart` dispatches once the login call has settled. */
  function LoginOutcome(reply: LoginReply): (a: Action)
    ensures a.LoginSuccess? <==> reply.Granted?
    ensures a.LoginFailure? <==> reply.Failed?
    ensures reply.Granted? ==> a.accessToken == reply.accessToken && a.expiresIn == reply.expiresIn
    ensures reply.Failed? ==> a.reason == reply.error
  {
    match reply
    case Granted(token, expiresIn) => LoginSuccess(token, expiresIn)
    case Failed(error) => LoginFailure(error)
  }

  /**
   * A login attempt, from `LOGIN_START` to the action the saga dispatches
   * for the endpoint's answer, ends not loading; logged in with the granted
   * token exactly when the endpoint granted one, in an error otherwise.
   */
  lemma LoginAttempt(s: Session, m: Store, start: int, now: int, email: string, password: string, reply: LoginReply)
    ensures var (s1, m1) := Step(s, m, start, LoginAction(email, password));
      var (s2, m2) := Step(s1, m1, now, LoginOutcome(reply));
      && !s2.loading
      && (s2.loggedIn <==> reply.Granted?)
      && (s2.error <==> reply.Failed?)
      && (reply.Granted? ==> s2.accessToken == Some(reply.accessToken) && Mirrors(s2, m2))
      && (reply.Failed? ==> m2 == m - TokenKeys)
  {
    if reply.Granted? {
      LoginSuccessEffect(s.(loading := true), m, now, reply.accessToken, reply.expiresIn);
    } else {
      LoginFailureEffect(s.(loading := true), m, now, reply.error);
    }
  }
}
