/**
 * The session store (`AuthProvider` and its context): the current user, the
 * bearer token and the authenticated flag, kept in step with two keys of the
 * browser's durable storage and with the client's default Authorization header.
 *
 * The transitions are first given as functions on an `AuthState` value, about
 * which the lemmas are proved; the class `SessionStore` performs them step by
 * step on its fields and promises to end in the state those functions give.
 */
module Auth {
  import opened Wrappers
  import opened Api

  datatype User = User(id: string, username: string, email: string)

  /** The body of a successful `POST /auth/login` response. */
  datatype LoginData = LoginData(accessToken: string, user: User)

  /** The durable storage keys. */
  const TokenKey := "token"
  const UserKey := "user"

  const LoginEndpoint := "/auth/login"
  const RegisterEndpoint := "/auth/register"

  /** The header value of a bearer credential, section 2.1 of RFC 6750. */
  function Bearer(token: string): (h: string)
    ensures |h| == 7 + |token|
    ensures h[..7] == "Bearer " && h[7..] == token
  {
    "Bearer " + token
  }

  /** The value the provider hands to every consumer of the context. */
  datatype Context = Context(user: Option<User>, token: Option<string>, isAuthenticated: bool)

  /** The provider's state together with the two pieces of global state it writes. */
  datatype AuthState = AuthState(
    user: Option<User>,
    token: Option<string>,
    isAuthenticated: bool,
    loading: bool,
    storage: map<string, string>,   // localStorage
    headers: map<string, string>)   // the client's default headers

  function ContextOf(s: AuthState): (c: Context)
    ensures c.isAuthenticated == s.isAuthenticated && c.user == s.user && c.token == s.token
  {
    Context(s.user, s.token, s.isAuthenticated)
  }

  /** `localStorage.getItem(key)` is truthy: the key is present and not the empty string. */
  predicate Stored(storage: map<string, string>, key: string)
  {
    key in storage && storage[key] != ""
  }

  /** What restoring needs: both keys stored and non-empty. */
  predicate HasStoredSession(storage: map<string, string>)
  {
    Stored(storage, TokenKey) && Stored(storage, UserKey)
  }

  /** The provider as it mounts: nothing known yet, and the restore still to run. */
  function Initial(storage: map<string, string>, headers: map<string, string>): (s: AuthState)
    ensures !s.isAuthenticated && s.user.None? && s.token.None? && s.loading
    ensures s.storage == storage && s.headers == headers
  {
    AuthState(None, None, false, true, storage, headers)
  }

  /**
   * The session invariant: authenticated exactly when both a user and a token
   * are held, and then the token is the one in durable storage and the one the
   * client sends.
   */
  predicate Consistent(s: AuthState)
  {
    && (s.isAuthenticated <==> s.user.Some? && s.token.Some?)
    && (s.isAuthenticated ==> Authorization(s.headers) == Some(Bearer(s.token.value)))
    && (s.isAuthenticated ==> TokenKey in s.storage && s.storage[TokenKey] == s.token.value)
    && (s.isAuthenticated ==> UserKey in s.storage)
  }

  /** `m` and `m'` agree on every key other than `k1` and `k2`. */
  predicate SameExcept(m: map<string, string>, m': map<string, string>, k1: string, k2: string)
  {
    m - {k1, k2} == m' - {k1, k2}
  }

  /** The mount effect: adopt the stored session if both keys are stored, then stop loading. */
  function Restored(s: AuthState, decode: string -> User): (r: AuthState)
    ensures !r.loading && r.storage == s.storage
    ensures HasStoredSession(s.storage) ==>
      && r.isAuthenticated
      && r.token == Some(s.storage[TokenKey])
      && r.user == Some(decode(s.storage[UserKey]))
      && Authorization(r.headers) == Some(Bearer(s.storage[TokenKey]))
      && SameExcept(r.headers, s.headers, AuthorizationHeader, AuthorizationHeader)
    ensures !HasStoredSession(s.storage) ==> r == s.(loading := false)
  {
    if HasStoredSession(s.storage) then
      var stored := s.storage[TokenKey];
      s.(token := Some(stored), user := Some(decode(s.storage[UserKey])), isAuthenticated := true,
         headers := s.headers[AuthorizationHeader := Bearer(stored)], loading := false)
    else
      s.(loading := false)
  }

  /**
   * `login` after its request has settled. Every write follows the await, so a
   * rejected request leaves everything as it was.
   */
  function LoggedIn(s: AuthState, response: Response<LoginData>, encode: User -> string): (r: AuthState)
    ensures response.Err? ==> r == s
    ensures response.Ok? ==>
      && r.isAuthenticated
      && r.token == Some(response.data.accessToken)
      && r.user == Some(response.data.user)
      && Authorization(r.headers) == Some(Bearer(response.data.accessToken))
      && TokenKey in r.storage && r.storage[TokenKey] == response.data.accessToken
      && UserKey in r.storage && r.storage[UserKey] == encode(response.data.user)
    ensures SameExcept(r.storage, s.storage, TokenKey, UserKey)
    ensures SameExcept(r.headers, s.headers, AuthorizationHeader, AuthorizationHeader)
    ensures r.loading == s.loading
  {
    match response
    case Err(_) => s
    case Ok(data) =>
      s.(storage := s.storage[TokenKey := data.accessToken][UserKey := encode(data.user)],
         token := Some(data.accessToken), user := Some(data.user), isAuthenticated := true,
         headers := s.headers[AuthorizationHeader := Bearer(data.accessToken)])
  }

  /** `logout`: forget the session in memory, in storage and in the client. */
  function LoggedOut(s: AuthState): (r: AuthState)
    ensures !r.isAuthenticated && r.user.None? && r.token.None?
    ensures TokenKey !in r.storage && UserKey !in r.storage
    ensures SameExcept(r.storage, s.storage, TokenKey, UserKey)
    ensures Authorization(r.headers).None?
    ensures SameExcept(r.headers, s.headers, AuthorizationHeader, AuthorizationHeader)
    ensures r.loading == s.loading
  {
    s.(storage := s.storage - {TokenKey, UserKey}, token := None, user := None, isAuthenticated := false,
       headers := s.headers - {AuthorizationHeader})
  }

  /** Restoring at mount yields either the whole stored session or no session at all. */
  lemma RestoreOnMount(storage: map<string, string>, headers: map<string, string>, decode: string -> User)
    ensures var r := Restored(Initial(storage, headers), decode);
      && (r.isAuthenticated <==> HasStoredSession(storage))
      && (!r.isAuthenticated ==> r.user.None? && r.token.None? && r.headers == headers)
      && (r.isAuthenticated ==> r.token == Some(storage[TokenKey])
                                && Authorization(r.headers) == Some(Bearer(storage[TokenKey])))
  {
  }

  /** Every operation of the store keeps the session invariant. */
  lemma OperationsKeepConsistent(s: AuthState, response: Response<LoginData>,
                                 encode: User -> string, decode: string -> User)
    requires Consistent(s)
    ensures Consistent(Restored(s, decode))
    ensures Consistent(LoggedIn(s, response, encode))
    ensures Consistent(LoggedOut(s))
  {
  }

  /** The store starts out consistent, whatever storage and headers it finds. */
  lemma InitialConsistent(storage: map<string, string>, headers: map<string, string>)
    ensures Consistent(Initial(storage, headers))
  {
  }

  /** Logging out twice leaves the same state as logging out once. */
  lemma LogoutIdempotent(s: AuthState)
    ensures LoggedOut(LoggedOut(s)) == LoggedOut(s)
  {
  }

  /**
   * A successful login survives a reload: a fresh provider that restores from
   * the storage the login wrote holds the same user and token, provided the
   * token is not empty and the user record parses back to itself.
   */
  lemma LoginSurvivesReload(s: AuthState, data: LoginData, encode: User -> string,
                            decode: string -> User, defaults: map<string, string>)
    requires data.accessToken != "" && encode(data.user) != ""
    requires decode(encode(data.user)) == data.user
    ensures var r := Restored(Initial(LoggedIn(s, Ok(data), encode).storage, defaults), decode);
      && r.isAuthenticated
      && r.user == Some(data.user)
      && r.token == Some(data.accessToken)
      && Authorization(r.headers) == Some(Bearer(data.accessToken))
  {
  }

  /**
   * A login whose token is the empty string counts as a session until the next
   * reload, and is dropped by the restore, which treats "" as absent.
   */
  lemma EmptyTokenLostOnReload(s: AuthState, data: LoginData, encode: User -> string,
                               decode: string -> User, defaults: map<string, string>)
    requires data.accessToken == ""
    ensures LoggedIn(s, Ok(data), encode).isAuthenticated
    ensures !Restored(Initial(LoggedIn(s, Ok(data), encode).storage, defaults), decode).isAuthenticated
  {
  }

  /** After a logout, a reload restores no session. */
  lemma LogoutSurvivesReload(s: AuthState, decode: string -> User, defaults: map<string, string>)
    ensures !Restored(Initial(LoggedOut(s).storage, defaults), decode).isAuthenticated
  {
  }

  class SessionStore {
    const api: Client
    /** `JSON.stringify` applied to a user record. */
    const encode: User -> string
    /** `JSON.parse` applied to a stored user record. */
    const decode: string -> User

    var user: Option<User>
    var token: Option<string>
    var isAuthenticated: bool
    var loading: bool
    /** `localStorage` */
    var storage: map<string, string>

    function State(): (s: AuthState)
      reads this, api
    {
      AuthState(user, token, isAuthenticated, loading, storage, api.headers)
    }

    /** The context value consumers read. */
    function Value(): (c: Context)
      reads this, api
      ensures c.isAuthenticated == isAuthenticated && c.user == user && c.token == token
    {
      ContextOf(State())
    }

    ghost predicate Valid()
      reads this, api
    {
      Consistent(State())
    }

    /** The provider as it mounts, over the storage and client it finds. */
    constructor (storage: map<string, string>, api: Client, encode: User -> string, decode: string -> User)
      ensures this.api == api && this.encode == encode && this.decode == decode
      ensures State() == Initial(storage, api.headers)
      ensures Valid()
    {
      this.api := api;
      this.encode := encode;
      this.decode := decode;
      user, token, isAuthenticated, loading := None, None, false, true;
      this.storage := storage;
    }

    /** The mount effect that restores a stored session. */
    method Restore()
      requires Valid()
      modifies this, api
      ensures Valid()
      ensures State() == Restored(old(State()), decode)
      ensures api.sent == old(api.sent)
    {
      var storedToken := if TokenKey in storage then Some(storage[TokenKey]) else None;
      var storedUser := if UserKey in storage then Some(storage[UserKey]) else None;
      if storedToken.Some? && storedToken.value != "" && storedUser.Some? && storedUser.value != "" {
        token := storedToken;
        user := Some(decode(storedUser.value));
        isAuthenticated := true;
        api.headers := api.headers[AuthorizationHeader := Bearer(storedToken.value)];
      }
      loading := false;
      OperationsKeepConsistent(old(State()), Err(None), encode, decode);
    }

    /** `login(email, password)`; `response` is how its request settles. */
    method Login(email: string, password: string, response: Response<LoginData>)
      requires Valid()
      modifies this, api
      ensures Valid()
      ensures State() == LoggedIn(old(State()), response, encode)
      ensures api.sent == old(api.sent) + [Request(POST, LoginEndpoint, Credentials(email, password), Authorization(old(api.headers)))]
    {
      api.Send(POST, LoginEndpoint, Credentials(email, password));
      if response.Err? {
        return;
      }
      var data := response.data;
      storage := storage[TokenKey := data.accessToken];
      storage := storage[UserKey := encode(data.user)];
      token := Some(data.accessToken);
      user := Some(data.user);
      isAuthenticated := true;
      api.headers := api.headers[AuthorizationHeader := Bearer(data.accessToken)];
      OperationsKeepConsistent(old(State()), response, encode, decode);
    }

    /**
     * `register(username, email, password)`: only sends its request. How it
     * settles goes back to the caller unchanged; the session is not touched.
     */
    method Register(username: string, email: string, password: string)
      requires Valid()
      modifies api
      ensures Valid()
      ensures State() == old(State())
      ensures api.sent == old(api.sent) + [Request(POST, RegisterEndpoint, NewUser(username, email, password), Authorization(old(api.headers)))]
    {
      api.Send(POST, RegisterEndpoint, NewUser(username, email, password));
    }

    /** `logout()` */
    method Logout()
      requires Valid()
      modifies this, api
      ensures Valid()
      ensures State() == LoggedOut(old(State()))
      ensures api.sent == old(api.sent)
    {
      storage := storage - {TokenKey};
      storage := storage - {UserKey};
      token := None;
      user := None;
      isAuthenticated := false;
      api.headers := api.headers - {AuthorizationHeader};
      assert storage == old(storage) - {TokenKey, UserKey};
    }
  }
}
