/**
 * The client's session store: the state `{isAuthenticated, user, token, error}` kept in a
 * Svelte writable, persisted in two cookies, and the transitions login, logout,
 * fetchWithAuth and updateUser. JSON.parse, JSON.stringify, String() and the network are
 * parameters; the code runs in a browser (the `window` tests always pass).
 */
module AuthStore {
  import opened Wrappers

  /** A JavaScript value, as far as the store looks into one. */
  datatype JsValue =
    | JUndefined
    | JNull
    | JBool(b: bool)
    | JNumber(n: int)
    | JString(s: string)
    | JArray(items: seq<JsValue>)
    | JObject(fields: map<string, JsValue>)

  /** JavaScript truthiness (NaN is not modelled). */
  predicate Truthy(v: JsValue) {
    match v
    case JUndefined => false
    case JNull => false
    case JBool(b) => b
    case JNumber(n) => n != 0
    case JString(s) => s != ""
    case JArray(_) => true
    case JObject(_) => true
  }

  /** `a || b` */
  function Or(a: JsValue, b: JsValue): (r: JsValue)
    ensures Truthy(a) ==> r == a
    ensures !Truthy(a) ==> r == b
  {
    if Truthy(a) then a else b
  }

  /** V8's message for reading a property of null or undefined. */
  function NullPropertyMessage(v: JsValue, key: string): string {
    "Cannot read properties of " + (if v.JNull? then "null" else "undefined") + " (reading '" + key + "')"
  }

  /** `v.key`: a TypeError on null and undefined, undefined for a missing key or a primitive. */
  function Member(v: JsValue, key: string): (r: Result<JsValue, string>)
    ensures r.Err? <==> v.JNull? || v.JUndefined?
    ensures v.JObject? && key in v.fields ==> r == Ok(v.fields[key])
    ensures r.Ok? && !(v.JObject? && key in v.fields) ==> r.value == JUndefined
  {
    match v
    case JNull => Err(NullPropertyMessage(v, key))
    case JUndefined => Err(NullPropertyMessage(v, key))
    case JObject(f) => if key in f then Ok(f[key]) else Ok(JUndefined)
    case _ => Ok(JUndefined)
  }

  /** The own properties an object spread copies: an object's fields, nothing for null or undefined. */
  function Own(v: JsValue): map<string, JsValue> {
    if v.JObject? then v.fields else map[]
  }

  /** `{ ...a, ...b }` over objects: every key of either, b's value winning. */
  function Merge(a: map<string, JsValue>, b: map<string, JsValue>): (r: map<string, JsValue>)
    ensures r.Keys == a.Keys + b.Keys
    ensures forall k :: k in b ==> r[k] == b[k]
    ensures forall k :: k in a && k !in b ==> r[k] == a[k]
  {
    a + b
  }

  /** Merging the same update twice is merging it once. */
  lemma MergeIdempotent(a: map<string, JsValue>, b: map<string, JsValue>)
    ensures Merge(Merge(a, b), b) == Merge(a, b)
  {
  }

  const UserKey := "auth_user"
  const TokenKey := "auth_token"

  /** The store's value; a missing `error` key reads as undefined. */
  datatype AuthState = AuthState(isAuthenticated: bool, user: JsValue, token: JsValue, error: JsValue)

  /** `Cookies.get(key)`: the cookie's text, or undefined. */
  function CookieValue(cookies: map<string, string>, key: string): JsValue {
    if key in cookies then JString(cookies[key]) else JUndefined
  }

  /**
   * loadInitialState: the user cookie, when non-empty, is parsed first; a parse failure
   * removes both cookies and leaves user and token null. The token is the non-empty token
   * cookie, and the state is authenticated exactly when there is one.
   * Returned with the cookie jar as it is afterwards.
   */
  function LoadInitialState(cookies: map<string, string>, parse: string -> Result<JsValue, string>)
    : (r: (AuthState, map<string, string>))
    ensures r.0.isAuthenticated <==> Truthy(r.0.token)
    ensures r.0.error == JUndefined
    ensures var parseFails := UserKey in cookies && cookies[UserKey] != "" && parse(cookies[UserKey]).Err?;
      && (parseFails ==> r == (AuthState(false, JNull, JNull, JUndefined), cookies - {UserKey, TokenKey}))
      && (!parseFails ==> r.1 == cookies)
      && (!parseFails && TokenKey in cookies && cookies[TokenKey] != "" ==> r.0.token == JString(cookies[TokenKey]))
      && (!parseFails && !(TokenKey in cookies && cookies[TokenKey] != "") ==> r.0.token == JNull)
      && (!parseFails && UserKey in cookies && cookies[UserKey] != "" ==> r.0.user == parse(cookies[UserKey]).value)
      && (!(UserKey in cookies && cookies[UserKey] != "") ==> r.0.user == JNull)
  {
    var userString := CookieValue(cookies, UserKey);
    var tokenString := CookieValue(cookies, TokenKey);
    if Truthy(userString) && parse(userString.s).Err? then
      (AuthState(false, JNull, JNull, JUndefined), cookies - {UserKey, TokenKey})
    else
      var user := if Truthy(userString) then parse(userString.s).value else JNull;
      var token := if Truthy(tokenString) then tokenString else JNull;
      (AuthState(Truthy(token), user, token, JUndefined), cookies)
  }

  /** What fetch('/api/auth/login') gives: a rejection with its message, or a response and its parsed body. */
  datatype LoginReply =
    | NetworkFailure(message: string)
    | Response(ok: bool, body: Result<JsValue, string>)

  /** The object login resolves to; `user` and `token` are undefined on failure. */
  datatype LoginResult = LoginResult(success: bool, message: JsValue, user: JsValue, token: JsValue)

  /** The state, cookie jar and result after login when the attempt fails with `error` stored and `message` returned. */
  function Rejected(cookies: map<string, string>, parse: string -> Result<JsValue, string>, error: JsValue, message: JsValue)
    : (r: (AuthState, map<string, string>, LoginResult))
  {
    var initial := LoadInitialState(cookies, parse);
    (initial.0.(error := error), initial.1, LoginResult(false, message, JUndefined, JUndefined))
  }

  /** The user object login builds from the response: exactly id, username, email, roles and type. */
  function ReceivedUser(data: JsValue): (u: JsValue)
    requires !data.JNull? && !data.JUndefined?
    ensures u.JObject? && u.fields.Keys == {"id", "username", "email", "roles", "type"}
    ensures forall k :: k in u.fields ==> u.fields[k] == Member(data, k).value
  {
    JObject(map["id" := Member(data, "id").value,
                "username" := Member(data, "username").value,
                "email" := Member(data, "email").value,
                "roles" := Member(data, "roles").value,
                "type" := Member(data, "type").value])
  }

  /** The catch block: the thrown error's message, or fixed texts when it is empty. */
  function Caught(cookies: map<string, string>, parse: string -> Result<JsValue, string>, m: string)
    : (r: (AuthState, map<string, string>, LoginResult))
  {
    Rejected(cookies, parse, Or(JString(m), JString("An unexpected network error occurred.")),
             Or(JString(m), JString("An unexpected network error occurred during login.")))
  }

  /**
   * The whole login transition. Every failure resets the state to what the cookies say, plus
   * an error; only a response that is ok and carries a truthy token authenticates, storing
   * the received user and token in the state and in both cookies.
   */
  function LoginTransition(cookies: map<string, string>, reply: LoginReply, parse: string -> Result<JsValue, string>,
                           stringify: JsValue -> string, asString: JsValue -> string)
    : (r: (AuthState, map<string, string>, LoginResult))
    ensures r.2.success <==> reply.Response? && reply.ok && reply.body.Ok? && Member(reply.body.value, "token").Ok?
                             && Truthy(Member(reply.body.value, "token").value)
    ensures r.2.success ==>
      var data := reply.body.value;
      var token := Member(data, "token").value;
      && r.0 == AuthState(true, ReceivedUser(data), token, JNull)
      && r.1 == cookies[UserKey := stringify(ReceivedUser(data))][TokenKey := asString(token)]
      && r.2.user == ReceivedUser(data) && r.2.token == token
    ensures !r.2.success ==>
      var initial := LoadInitialState(cookies, parse);
      r.0 == initial.0.(error := r.0.error) && r.1 == initial.1 && Truthy(r.0.error)
    ensures reply.Response? && !reply.ok && reply.body.Ok? && reply.body.value.JObject?
            && "message" in reply.body.value.fields && Truthy(reply.body.value.fields["message"]) ==>
      r.0.error == reply.body.value.fields["message"] && r.2.message == reply.body.value.fields["message"]
    ensures reply.Response? && reply.ok && reply.body.Ok? && Member(reply.body.value, "token").Ok?
            && !Truthy(Member(reply.body.value, "token").value) ==>
      r.0.error == JString("Login response missing token.")
      && r.2.message == JString("Login failed: Server did not provide a token.")
  {
    match reply
    case NetworkFailure(m) => Caught(cookies, parse, m)
    case Response(ok, body) =>
      if !ok then
        var errorData := if body.Ok? then body.value else JObject(map["message" := JString("Unknown error from server")]);
        match Member(errorData, "message")
        case Err(m) => Caught(cookies, parse, m)
        case Ok(message) =>
          Rejected(cookies, parse, Or(message, JString("Login failed: Invalid credentials.")),
                   Or(message, JString("Login failed: Invalid credentials or server error.")))
      else
        match body
        case Err(m) => Caught(cookies, parse, m)
        case Ok(data) =>
          match Member(data, "token")
          case Err(m) => Caught(cookies, parse, m)
          case Ok(token) =>
            var user := ReceivedUser(data);
            if !Truthy(token) then
              Rejected(cookies, parse, JString("Login response missing token."),
                       JString("Login failed: Server did not provide a token."))
            else
              (AuthState(true, user, token, JNull),
               cookies[UserKey := stringify(user)][TokenKey := asString(token)],
               LoginResult(true, Or(Member(data, "message").value, JString("Logged in successfully!")), user, token))
  }

  /** After a successful login the cookies alone restore the session: a reload is authenticated with the same user and token. */
  lemma ReloadAfterLogin(cookies: map<string, string>, reply: LoginReply, parse: string -> Result<JsValue, string>,
                         stringify: JsValue -> string, asString: JsValue -> string)
    requires LoginTransition(cookies, reply, parse, stringify, asString).2.success
    requires var after := LoginTransition(cookies, reply, parse, stringify, asString).0;
      && stringify(after.user) != "" && parse(stringify(after.user)) == Ok(after.user)
      && after.token.JString? && asString(after.token) == after.token.s
    ensures var after := LoginTransition(cookies, reply, parse, stringify, asString);
      var reloaded := LoadInitialState(after.1, parse).0;
      reloaded.isAuthenticated && reloaded.user == after.0.user && reloaded.token == after.0.token
  {
    var after := LoginTransition(cookies, reply, parse, stringify, asString);
    var user := after.0.user;
    assert after.1[UserKey] == stringify(user);
    assert after.1[TokenKey] == after.0.token.s && after.0.token.s != "";
  }

  /** What logout leaves: not authenticated, and user, token and error null. */
  const LoggedOut := AuthState(false, JNull, JNull, JNull)

  /** The headers fetchWithAuth sends: the caller's, with Authorization replaced by the bearer token. */
  function AuthHeaders(headers: map<string, string>, tokenText: string): (r: map<string, string>)
    ensures r.Keys == headers.Keys + {"Authorization"}
    ensures r["Authorization"] == "Bearer " + tokenText
    ensures forall k :: k in headers && k != "Authorization" ==> r[k] == headers[k]
  {
    headers["Authorization" := "Bearer " + tokenText]
  }

  /** What fetch(url, …) gives fetchWithAuth: a rejection with its error, or a response with its status. */
  datatype FetchReply = FetchFailure(message: string) | FetchResponse(status: int)

  /** The store object: its current value and the browser's cookie jar. */
  class Session {
    var state: AuthState
    var cookies: map<string, string>

    /** The module's initialisation, `writable(loadInitialState())`. */
    constructor (jar: map<string, string>, parse: string -> Result<JsValue, string>)
      ensures (state, cookies) == LoadInitialState(jar, parse)
    {
      var initial := LoadInitialState(jar, parse);
      state := initial.0;
      cookies := initial.1;
    }

    method Login(reply: LoginReply, parse: string -> Result<JsValue, string>,
                 stringify: JsValue -> string, asString: JsValue -> string) returns (result: LoginResult)
      modifies this
      ensures (state, cookies, result) == LoginTransition(old(cookies), reply, parse, stringify, asString)
    {
      var r := LoginTransition(cookies, reply, parse, stringify, asString);
      state, cookies, result := r.0, r.1, r.2;
    }

    /** logout: both cookies removed and the logged-out state, whatever came before; so twice is once. */
    method Logout()
      modifies this
      ensures state == LoggedOut
      ensures cookies == old(cookies) - {UserKey, TokenKey}
    {
      cookies := cookies - {UserKey, TokenKey};
      state := LoggedOut;
    }

    /**
     * fetchWithAuth: without a truthy token, logout and "Not authenticated." before any
     * request; otherwise one request with the bearer header; a 401 or 403 logs out and
     * throws; a rejected fetch rethrows its error with the state untouched.
     */
    method FetchWithAuth(headers: map<string, string>, asString: JsValue -> string,
                         send: map<string, string> -> FetchReply)
      returns (r: Result<int, string>, sent: Option<map<string, string>>)
      modifies this
      ensures !Truthy(old(state.token)) ==>
        r == Err("Not authenticated.") && sent == None && state == LoggedOut
        && cookies == old(cookies) - {UserKey, TokenKey}
      ensures Truthy(old(state.token)) ==> sent == Some(AuthHeaders(headers, asString(old(state.token))))
      ensures Truthy(old(state.token)) && send(sent.value).FetchFailure? ==>
        r == Err(send(sent.value).message) && state == old(state) && cookies == old(cookies)
      ensures Truthy(old(state.token)) && send(sent.value).FetchResponse? ==>
        var status := send(sent.value).status;
        if status == 401 || status == 403 then
          r == Err("Session expired or unauthorized.") && state == LoggedOut
          && cookies == old(cookies) - {UserKey, TokenKey}
        else
          r == Ok(status) && state == old(state) && cookies == old(cookies)
    {
      var currentToken := state.token;
      if !Truthy(currentToken) {
        Logout();
        return Err("Not authenticated."), None;
      }
      var authHeaders := AuthHeaders(headers, asString(currentToken));
      sent := Some(authHeaders);
      var response := send(authHeaders);
      match response
      case FetchFailure(m) =>
        r := Err(m);
      case FetchResponse(status) =>
        if status == 401 || status == 403 {
          Logout();
          r := Err("Session expired or unauthorized.");
        } else {
          r := Ok(status);
        }
    }

    /** updateUser: the profile is merged into the user, new fields winning, and the user cookie rewritten. */
    method UpdateUser(newUserProfile: JsValue, stringify: JsValue -> string)
      modifies this
      ensures state == old(state).(user := JObject(Merge(Own(old(state.user)), Own(newUserProfile))))
      ensures cookies == old(cookies)[UserKey := stringify(state.user)]
    {
      var updatedUser := JObject(Merge(Own(state.user), Own(newUserProfile)));
      cookies := cookies[UserKey := stringify(updatedUser)];
      state := state.(user := updatedUser);
    }
  }
}
