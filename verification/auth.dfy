/** The session lifecycle of src/context/AuthContext.jsx: a state machine
    over the two storage keys, the current user and the loading flag. Each
    operation goes through the API client (`Api.Call`), so the interceptors'
    effects are part of every transition. */
module Auth {
  import opened Wrappers
  import opened Json
  import opened Api

  /** How `localStorage.setItem` turns what is written into strings: `text`
      is the string conversion applied to the token, `json` is
      `JSON.stringify` applied to the user. Both are left uninterpreted. */
  datatype Codec = Codec(text: Value -> string, json: Value -> string)

  /** The string conversion gives a string token back verbatim */
  ghost predicate KeepsStrings(codec: Codec) {
    forall s :: codec.text(Str(s)) == s
  }

  /** The provider's state: browser environment, `currentUser`, `loading` */
  datatype AuthState = AuthState(env: Env, currentUser: Value, loading: bool)

  /** What `login` and `register` resolve to */
  datatype AuthResult = Succeeded | Failed(message: Value)

  datatype Outcome = Outcome(state: AuthState, result: AuthResult)

  const LoginFailed: string := "Login failed"
  const RegistrationFailed: string := "Registration failed"

  /** State on mount (lines 12-13): no user, still loading */
  function Initial(env: Env): (s: AuthState)
    ensures s.loading && s.currentUser == Null && s.env == env
  {
    AuthState(env, Null, true)
  }

  /** `error.response?.data?.message || fallback` */
  function FailureMessage(err: HttpError, fallback: string): (r: Value)
    ensures err.response.Some? && Truthy(Get(err.response.value.data, "message")) ==>
      r == Get(err.response.value.data, "message")
    ensures !(err.response.Some? && Truthy(Get(err.response.value.data, "message"))) ==>
      r == Str(fallback)
    ensures fallback != "" ==> Truthy(r)
  {
    match err.response
    case Some(resp) => Or(Get(resp.data, "message"), Str(fallback))
    case None => Str(fallback)
  }

  /** The body of `login`/`register` once the call has settled. Destructuring
      a null or undefined body throws, which lands in the catch block with no
      `response`, hence the fallback message. */
  function Authenticate(s: AuthState, received: Exchange, codec: Codec, fallback: string): (r: Outcome)
    ensures r.state.loading == s.loading
    ensures r.state.env.location == received.env.location
    ensures r.result.Succeeded? <==> received.reply.Ok? && !received.reply.response.data.Nullish()
    ensures r.result.Succeeded? ==>
      var data := received.reply.response.data;
      && r.state.currentUser == Get(data, "user")
      && r.state.env.store == received.env.store[TokenKey := codec.text(Get(data, "token"))][UserKey := codec.json(Get(data, "user"))]
    ensures r.result.Failed? ==>
      && r.state == s.(env := received.env)
      && (received.reply.Err? ==> r.result.message == FailureMessage(received.reply.error, fallback))
      && (received.reply.Ok? ==> r.result.message == Str(fallback))
  {
    match received.reply
    case Ok(resp) =>
      if resp.data.Nullish() then
        Outcome(s.(env := received.env), Failed(Str(fallback)))
      else
        var token := Get(resp.data, "token");
        var user := Get(resp.data, "user");
        var store := received.env.store[TokenKey := codec.text(token)][UserKey := codec.json(user)];
        Outcome(AuthState(Env(store, received.env.location), user, s.loading), Succeeded)
    case Err(e) =>
      Outcome(s.(env := received.env), Failed(FailureMessage(e, fallback)))
  }

  /** `login(credentials)` (lines 36-52). On success both keys are written
      and the user is current; on failure storage and user stay as they were,
      except that a 401 has already torn the session down in the client. */
  function Login(s: AuthState, codec: Codec, credentials: Value, transport: RequestConfig -> Reply): (r: Outcome)
    ensures var raw := transport(AttachToken(LoginRequest(credentials), s.env.store));
      && (raw.Ok? && !raw.response.data.Nullish() ==>
            var data := raw.response.data;
            && r.result == Succeeded
            && r.state == AuthState(
                 Env(s.env.store[TokenKey := codec.text(Get(data, "token"))][UserKey := codec.json(Get(data, "user"))],
                     s.env.location),
                 Get(data, "user"), s.loading))
      && (raw.Ok? && raw.response.data.Nullish() ==> r == Outcome(s, Failed(Str(LoginFailed))))
      && (raw.Err? ==> r.result == Failed(FailureMessage(raw.error, LoginFailed)))
      && (raw.Err? && !Unauthorized(raw.error) ==> r.state == s)
      && (raw.Err? && Unauthorized(raw.error) ==> r.state == s.(env := Teardown(s.env)))
  {
    var raw := transport(AttachToken(LoginRequest(credentials), s.env.store));
    var data := if raw.Ok? then raw.response.data else Null;
    NormalizeKeepsPlainField(data, "token");
    NormalizeKeepsPlainField(data, "user");
    Authenticate(s, Call(s.env, LoginRequest(credentials), transport), codec, LoginFailed)
  }

  /** `register(userData)` (lines 54-77): the same transition as login, with
      its own endpoint and fallback message. */
  function Register(s: AuthState, codec: Codec, userData: Value, transport: RequestConfig -> Reply): (r: Outcome)
    ensures var raw := transport(AttachToken(RegisterRequest(userData), s.env.store));
      && (raw.Ok? && !raw.response.data.Nullish() ==>
            var data := raw.response.data;
            && r.result == Succeeded
            && r.state == AuthState(
                 Env(s.env.store[TokenKey := codec.text(Get(data, "token"))][UserKey := codec.json(Get(data, "user"))],
                     s.env.location),
                 Get(data, "user"), s.loading))
      && (raw.Ok? && raw.response.data.Nullish() ==> r == Outcome(s, Failed(Str(RegistrationFailed))))
      && (raw.Err? ==> r.result == Failed(FailureMessage(raw.error, RegistrationFailed)))
      && (raw.Err? && !Unauthorized(raw.error) ==> r.state == s)
      && (raw.Err? && Unauthorized(raw.error) ==> r.state == s.(env := Teardown(s.env)))
  {
    var raw := transport(AttachToken(RegisterRequest(userData), s.env.store));
    var data := if raw.Ok? then raw.response.data else Null;
    NormalizeKeepsPlainField(data, "token");
    NormalizeKeepsPlainField(data, "user");
    Authenticate(s, Call(s.env, RegisterRequest(userData), transport), codec, RegistrationFailed)
  }

  /** `logout()` (lines 79-83): both keys go, the user becomes null */
  function Logout(s: AuthState): (r: AuthState)
    ensures GetItem(r.env.store, TokenKey) == None && GetItem(r.env.store, UserKey) == None
    ensures r.currentUser == Null
    ensures r.loading == s.loading && r.env.location == s.env.location
    ensures forall k :: k != TokenKey && k != UserKey ==>
      (k in r.env.store <==> k in s.env.store) && (k in s.env.store ==> r.env.store[k] == s.env.store[k])
  {
    AuthState(Env(s.env.store - {TokenKey, UserKey}, s.env.location), Null, s.loading)
  }

  /** Logging out twice is the same as logging out once */
  lemma LogoutIdempotent(s: AuthState)
    ensures Logout(Logout(s)) == Logout(s)
  {
  }

  /** The result of the startup check: whether `/auth/user` was requested,
      and the state afterwards */
  datatype Startup = Startup(requested: bool, state: AuthState)

  /** The mount effect (lines 15-34). Without a token nothing is requested;
      with one, `/auth/user` decides: its body becomes the current user, or
      a failure removes both keys. Loading ends in every case. */
  function StartupCheck(s: AuthState, transport: RequestConfig -> Reply): (r: Startup)
    ensures !r.state.loading
    ensures r.requested <==> HasToken(s.env.store)
    ensures !HasToken(s.env.store) ==> r.state == s.(loading := false)
    ensures HasToken(s.env.store) ==>
      var raw := transport(AttachToken(CurrentUserRequest(), s.env.store));
      && (raw.Ok? ==> r.state == AuthState(s.env, NormalizeBody(raw.response.data), false))
      && (raw.Err? ==>
            && GetItem(r.state.env.store, TokenKey) == None
            && GetItem(r.state.env.store, UserKey) == None
            && r.state.env.store == s.env.store - {TokenKey, UserKey}
            && r.state.currentUser == s.currentUser
            && r.state.env.location == (if Unauthorized(raw.error) then LoginPath else s.env.location))
  {
    if HasToken(s.env.store) then
      var ex := Call(s.env, CurrentUserRequest(), transport);
      match ex.reply
      case Ok(resp) => Startup(true, AuthState(ex.env, resp.data, false))
      case Err(_) =>
        Startup(true, AuthState(Env(ex.env.store - {TokenKey, UserKey}, ex.env.location), s.currentUser, false))
    else
      Startup(false, s.(loading := false))
  }

  /** The render gate (line 95): children appear only once loading is over */
  predicate RendersChildren(s: AuthState) {
    !s.loading
  }

  /** Nothing is rendered on mount; after the startup check, whatever it
      found, the children are rendered. */
  lemma StartupOpensGate(env: Env, transport: RequestConfig -> Reply)
    ensures !RendersChildren(Initial(env))
    ensures RendersChildren(StartupCheck(Initial(env), transport).state)
  {
  }

  /** After a successful login that returned a non-empty string token, every
      later request carries that token as a bearer credential; after logout
      requests go out unchanged. */
  lemma LoginThenRequestsCarryToken(s: AuthState, codec: Codec, credentials: Value,
                                    transport: RequestConfig -> Reply, token: string, config: RequestConfig)
    requires KeepsStrings(codec)
    requires token != ""
    requires var raw := transport(AttachToken(LoginRequest(credentials), s.env.store));
      raw.Ok? && raw.response.data.Obj? && "token" in raw.response.data.fields &&
      raw.response.data.fields["token"] == Str(token)
    ensures var after := Login(s, codec, credentials, transport).state;
      && AttachToken(config, after.env.store).headers == config.headers["Authorization" := "Bearer " + token]
      && AttachToken(config, Logout(after).env.store) == config
  {
    var after := Login(s, codec, credentials, transport).state;
    assert after.env.store[TokenKey] == codec.text(Str(token)) == token;
  }

  /** A login exchange, as the code behaves: the body
      `{token:"t1", user:{_id:"u1"}}` stores token "t1", and the stored and
      current profile is the nested user with its `_id` still in place. */
  lemma LoginScenario(s: AuthState, codec: Codec, credentials: Value, transport: RequestConfig -> Reply)
    requires KeepsStrings(codec)
    requires transport(AttachToken(LoginRequest(credentials), s.env.store)) ==
      Ok(HttpResponse(200, Obj(map["token" := Str("t1"), "user" := Obj(map["_id" := Str("u1")])])))
    ensures var r := Login(s, codec, credentials, transport);
      && r.result == Succeeded
      && r.state.env.store[TokenKey] == "t1"
      && r.state.currentUser == Obj(map["_id" := Str("u1")])
      && r.state.env.store[UserKey] == codec.json(Obj(map["_id" := Str("u1")]))
  {
    var data := Obj(map["token" := Str("t1"), "user" := Obj(map["_id" := Str("u1")])]);
    assert Get(data, "token") == Str("t1");
    assert Get(data, "user") == Obj(map["_id" := Str("u1")]);
  }
}
