/** The API gateway client of src/services/api.jsx: the request interceptor
    that attaches the bearer token, the response interceptor that normalises
    identifiers and dates, and the error interceptor that tears the session
    down on 401. The transport (axios and the backend) is a parameter. */
module Api {
  import opened Wrappers
  import opened Json

  /** Browser storage (`localStorage`): string keys to string values */
  type Store = map<string, string>

  const TokenKey: string := "authToken"
  const UserKey: string := "user"
  const LoginPath: string := "/login"

  /** The part of the browser the client touches: storage and the location */
  datatype Env = Env(store: Store, location: string)

  /** `localStorage.getItem(key)`: the stored string, or null */
  function GetItem(store: Store, key: string): (r: Option<string>)
    ensures key in store <==> r.Some?
    ensures key in store ==> r.value == store[key]
  {
    if key in store then Some(store[key]) else None
  }

  /** The stored token is truthy: present and non-empty */
  predicate HasToken(store: Store) {
    TokenKey in store && store[TokenKey] != ""
  }

  /** An outgoing request as the client code builds it. `headers` holds only
      the headers the client code sets; axios's own defaults are not part of
      the model. */
  datatype RequestConfig = RequestConfig(
    verb: string,
    url: string,
    headers: map<string, string>,
    body: Value)

  /** A response the server sent */
  datatype HttpResponse = HttpResponse(status: int, data: Value)

  /** A rejected call: `response` is None for a network failure or timeout */
  datatype HttpError = HttpError(response: Option<HttpResponse>)

  /** What a call resolves to, or what it is rejected with */
  datatype Reply = Ok(response: HttpResponse) | Err(error: HttpError)

  // ---------------------------------------------------------------------
  // Request interceptor (src/services/api.jsx:13-24)
  // ---------------------------------------------------------------------

  /** Adds `Authorization: Bearer <token>` when a truthy token is stored;
      otherwise the request goes out unauthenticated and unchanged. */
  function AttachToken(config: RequestConfig, store: Store): (r: RequestConfig)
    ensures HasToken(store) ==>
      r == config.(headers := config.headers["Authorization" := "Bearer " + store[TokenKey]])
    ensures !HasToken(store) ==> r == config
    ensures r.verb == config.verb && r.url == config.url && r.body == config.body
    ensures forall h :: h != "Authorization" ==>
      (h in r.headers <==> h in config.headers) &&
      (h in config.headers ==> r.headers[h] == config.headers[h])
  {
    match GetItem(store, TokenKey)
    case Some(token) =>
      if token != "" then
        config.(headers := config.headers["Authorization" := "Bearer " + token])
      else config
    case None => config
  }

  // ---------------------------------------------------------------------
  // Response interceptor, success path (src/services/api.jsx:27-61)
  // ---------------------------------------------------------------------

  /** The four date fields `transformId` converts, in its order */
  const DateKeys: seq<string> := ["createdAt", "updatedAt", "date", "due_date"]

  /** `new Date(v)`. A Date built from a Date copies its time value, so
      parsing a value that is already a Date gives back an equal Date. */
  function ParseDate(v: Value): (r: Value)
    ensures r.Date?
    ensures Truthy(r)
    ensures v.Date? ==> r == v
  {
    if v.Date? then v else Date(v)
  }

  /** The field is present and truthy: `obj && obj[key]` */
  predicate TruthyField(m: map<string, Value>, key: string) {
    key in m && Truthy(m[key])
  }

  /** Lines 32-35: a truthy `_id` moves to `id` (overwriting it) and is deleted */
  function RenameId(m: map<string, Value>): (r: map<string, Value>)
    ensures TruthyField(m, "_id") ==>
      "id" in r && r["id"] == m["_id"] && "_id" !in r && r.Keys == m.Keys - {"_id"} + {"id"}
    ensures !TruthyField(m, "_id") ==> r == m
    ensures forall k :: k != "id" && k != "_id" ==>
      (k in r <==> k in m) && (k in m ==> r[k] == m[k])
  {
    if TruthyField(m, "_id") then (m - {"_id"})["id" := m["_id"]] else m
  }

  /** One date field: a truthy value becomes `new Date(value)` */
  function ConvertDate(m: map<string, Value>, key: string): (r: map<string, Value>)
    ensures r.Keys == m.Keys
    ensures TruthyField(m, key) ==> r[key] == ParseDate(m[key])
    ensures forall k :: k in m && (k != key || !TruthyField(m, key)) ==> r[k] == m[k]
  {
    if TruthyField(m, key) then m[key := ParseDate(m[key])] else m
  }

  /** Lines 38-49: each date key in turn, in the source's order */
  function ConvertDates(m: map<string, Value>, keys: seq<string>): (r: map<string, Value>)
    ensures r.Keys == m.Keys
    ensures forall k :: k in keys && TruthyField(m, k) ==> r[k] == ParseDate(m[k])
    ensures forall k :: k in m && (k !in keys || !TruthyField(m, k)) ==> r[k] == m[k]
  {
    if keys == [] then m else ConvertDates(ConvertDate(m, keys[0]), keys[1..])
  }

  /** The keys `transformId` may touch */
  predicate Rewritable(key: string) {
    key == "_id" || key == "id" || key in DateKeys
  }

  /** The key is present in `b` exactly when in `a`, with the same value */
  predicate SameField(a: map<string, Value>, b: map<string, Value>, key: string) {
    (key in a <==> key in b) && (key in a ==> a[key] == b[key])
  }

  /** `transformId`: a shallow rewrite of one record. A truthy `_id` moves
      to `id`; each truthy date field is parsed; no other key is added,
      removed or changed, so nested objects keep their own `_id`. Values
      that are not plain objects (null, scalars, arrays, dates) pass through. */
  function TransformRecord(v: Value): (r: Value)
    ensures !v.Obj? ==> r == v
    ensures v.Obj? ==> r.Obj?
    ensures v.Obj? && TruthyField(v.fields, "_id") ==>
      && "id" in r.fields && r.fields["id"] == v.fields["_id"]
      && "_id" !in r.fields
      && r.fields.Keys == v.fields.Keys - {"_id"} + {"id"}
    ensures v.Obj? && !TruthyField(v.fields, "_id") ==>
      && SameField(r.fields, v.fields, "id")
      && SameField(r.fields, v.fields, "_id")
      && r.fields.Keys == v.fields.Keys
    ensures v.Obj? ==> forall k :: k in DateKeys && TruthyField(v.fields, k) ==>
      k in r.fields && r.fields[k] == ParseDate(v.fields[k])
    ensures v.Obj? ==> forall k :: k in DateKeys && !TruthyField(v.fields, k) ==>
      SameField(r.fields, v.fields, k)
    ensures v.Obj? ==> forall k :: !Rewritable(k) ==> SameField(r.fields, v.fields, k)
  {
    match v
    case Obj(m) => Obj(ConvertDates(RenameId(m), DateKeys))
    case _ => v
  }

  /** `response.data` after the interceptor: an array is mapped element by
      element, a plain object is transformed, anything else is untouched. */
  function NormalizeBody(data: Value): (r: Value)
    ensures data.Arr? ==>
      && r.Arr?
      && |r.items| == |data.items|
      && (forall i :: 0 <= i < |data.items| ==> r.items[i] == TransformRecord(data.items[i]))
    ensures data.Obj? ==> r == TransformRecord(data)
    ensures !data.Arr? && !data.Obj? ==> r == data
  {
    match data
    case Arr(items) => Arr(seq(|items|, i requires 0 <= i < |items| => TransformRecord(items[i])))
    case Obj(_) => TransformRecord(data)
    case _ => data
  }

  /** The success interceptor: only the body changes */
  function OnResponse(resp: HttpResponse): (r: HttpResponse)
    ensures r.status == resp.status
    ensures r.data == NormalizeBody(resp.data)
  {
    resp.(data := NormalizeBody(resp.data))
  }

  // ---------------------------------------------------------------------
  // Response interceptor, failure path (src/services/api.jsx:62-70)
  // ---------------------------------------------------------------------

  /** The environment after a rejected call together with the error the
      caller receives */
  datatype Rejection = Rejection(env: Env, error: HttpError)

  /** The rejected call's status is 401 (`error.response?.status === 401`) */
  predicate Unauthorized(err: HttpError) {
    err.response.Some? && err.response.value.status == 401
  }

  /** Session teardown: both keys removed, location sent to the login page */
  function Teardown(env: Env): (r: Env)
    ensures TokenKey !in r.store && UserKey !in r.store
    ensures r.location == LoginPath
    ensures forall k :: k != TokenKey && k != UserKey ==>
      (k in r.store <==> k in env.store) && (k in env.store ==> r.store[k] == env.store[k])
  {
    Env(env.store - {TokenKey, UserKey}, LoginPath)
  }

  /** A 401 tears the session down; every other failure leaves the
      environment alone. The error is always passed on unchanged. */
  function OnError(env: Env, err: HttpError): (r: Rejection)
    ensures r.error == err
    ensures Unauthorized(err) ==> r.env == Teardown(env)
    ensures !Unauthorized(err) ==> r.env == env
  {
    if Unauthorized(err) then Rejection(Teardown(env), err) else Rejection(env, err)
  }

  // ---------------------------------------------------------------------
  // One call through the client
  // ---------------------------------------------------------------------

  /** What a call leaves behind: the environment and what the caller receives */
  datatype Exchange = Exchange(env: Env, reply: Reply)

  /** One call: the request interceptor, the transport, then the response
      interceptors. `transport` stands for axios and the backend. */
  function Call(env: Env, config: RequestConfig, transport: RequestConfig -> Reply): (r: Exchange)
    ensures var raw := transport(AttachToken(config, env.store));
      && (raw.Ok? ==> r == Exchange(env, Ok(OnResponse(raw.response))))
      && (raw.Err? ==> r.reply == Err(raw.error))
      && (raw.Err? && Unauthorized(raw.error) ==> r.env == Teardown(env))
      && (raw.Err? && !Unauthorized(raw.error) ==> r.env == env)
  {
    match transport(AttachToken(config, env.store))
    case Ok(resp) => Exchange(env, Ok(OnResponse(resp)))
    case Err(err) =>
      var rej := OnError(env, err);
      Exchange(rej.env, Err(rej.error))
  }

  /** The three auth endpoints the session code calls (src/services/api.jsx:74-78).
      None sets headers of its own at the call site; the interceptor adds
      the bearer token. */
  function LoginRequest(credentials: Value): (r: RequestConfig)
    ensures r.verb == "POST" && r.url == "/auth/login"
    ensures r.body == credentials && r.headers == map[]
  {
    RequestConfig("POST", "/auth/login", map[], credentials)
  }

  function RegisterRequest(userData: Value): (r: RequestConfig)
    ensures r.verb == "POST" && r.url == "/auth/register"
    ensures r.body == userData && r.headers == map[]
  {
    RequestConfig("POST", "/auth/register", map[], userData)
  }

  function CurrentUserRequest(): (r: RequestConfig)
    ensures r.verb == "GET" && r.url == "/auth/user"
    ensures r.body == Undefined && r.headers == map[]
  {
    RequestConfig("GET", "/auth/user", map[], Undefined)
  }

  /** The three auth requests reach three different endpoints, and with a
      token stored the client adds no header other than `Authorization` to
      their call-site headers */
  lemma AuthRequestsDistinct(credentials: Value, userData: Value, store: Store)
    ensures LoginRequest(credentials).url != RegisterRequest(userData).url
    ensures LoginRequest(credentials).url != CurrentUserRequest().url
    ensures RegisterRequest(userData).url != CurrentUserRequest().url
    ensures HasToken(store) ==>
      && AttachToken(LoginRequest(credentials), store).headers.Keys == {"Authorization"}
      && AttachToken(RegisterRequest(userData), store).headers.Keys == {"Authorization"}
      && AttachToken(CurrentUserRequest(), store).headers.Keys == {"Authorization"}
  {
  }

  // ---------------------------------------------------------------------
  // Properties of the normalisation
  // ---------------------------------------------------------------------

  /** Renaming the identifier twice is the same as renaming it once */
  lemma RenameIdIdempotent(m: map<string, Value>)
    ensures RenameId(RenameId(m)) == RenameId(m)
  {
    if TruthyField(m, "_id") {
      assert !TruthyField(RenameId(m), "_id");
    }
  }

  /** `transformId` is idempotent: a second pass finds no truthy `_id` and
      only dates among the truthy date fields. */
  lemma TransformRecordIdempotent(v: Value)
    ensures TransformRecord(TransformRecord(v)) == TransformRecord(v)
  {
    if v.Obj? {
      var r := TransformRecord(v).fields;
      var rr := TransformRecord(TransformRecord(v)).fields;
      assert !TruthyField(r, "_id");
      assert rr.Keys == r.Keys;
      forall k | k in r ensures rr[k] == r[k] {
        if k in DateKeys && TruthyField(v.fields, k) {
          assert r[k] == ParseDate(v.fields[k]);
        }
      }
    }
  }

  /** The whole response normalisation is idempotent */
  lemma NormalizeBodyIdempotent(data: Value)
    ensures NormalizeBody(NormalizeBody(data)) == NormalizeBody(data)
  {
    match data
    case Arr(items) =>
      var once := NormalizeBody(data).items;
      var twice := NormalizeBody(NormalizeBody(data)).items;
      forall i | 0 <= i < |items| ensures twice[i] == once[i] {
        TransformRecordIdempotent(items[i]);
      }
    case Obj(_) =>
      TransformRecordIdempotent(data);
    case _ =>
  }

  /** The moved `_id` of a customer record */
  lemma CustomerRenameScenario(id: string, name: string, date: string)
    requires id != ""
    ensures RenameId(map["_id" := Str(id), "name" := Str(name), "date" := Str(date)])
      == map["id" := Str(id), "name" := Str(name), "date" := Str(date)]
  {
    var raw := map["_id" := Str(id), "name" := Str(name), "date" := Str(date)];
    assert TruthyField(raw, "_id");
  }

  /** A customer record `{_id: "a1", name: "X", date: "2023-11-01"}`
      becomes `{id: "a1", name: "X", date: Date}`; stated for any non-empty
      id and date strings */
  lemma CustomerRecordScenario(id: string, name: string, date: string)
    requires id != "" && date != ""
    ensures
      var raw := map["_id" := Str(id), "name" := Str(name), "date" := Str(date)];
      TransformRecord(Obj(raw)) == Obj(map["id" := Str(id), "name" := Str(name), "date" := Date(Str(date))])
  {
    var renamed := map["id" := Str(id), "name" := Str(name), "date" := Str(date)];
    CustomerRenameScenario(id, name, date);
    assert DateKeys[2] == "date" && TruthyField(renamed, "date");
    assert "id" !in DateKeys && "name" !in DateKeys;
  }

  /** The list of such records is normalised element by element */
  lemma CustomerListScenario(id: string, name: string, date: string)
    requires id != "" && date != ""
    ensures
      var raw := Obj(map["_id" := Str(id), "name" := Str(name), "date" := Str(date)]);
      NormalizeBody(Arr([raw])) ==
        Arr([Obj(map["id" := Str(id), "name" := Str(name), "date" := Date(Str(date))])])
  {
    CustomerRecordScenario(id, name, date);
  }

  /** The rewrite is shallow: a login body `{token, user: {_id}}` keeps the
      user's `_id`, because only top-level keys of the body are rewritten. */
  lemma NestedRecordKeepsNativeId(token: Value, uid: Value)
    requires Truthy(uid)
    ensures
      var user := Obj(map["_id" := uid]);
      var body := NormalizeBody(Obj(map["token" := token, "user" := user]));
      body.Obj? && "user" in body.fields && body.fields["user"] == user
  {
    assert !Rewritable("user");
  }

  /** Tearing the session down twice is the same as tearing it down once */
  lemma TeardownIdempotent(env: Env)
    ensures Teardown(Teardown(env)) == Teardown(env)
  {
  }

  /** Whatever call group issued it, a 401 leaves no session keys behind and
      sends the browser to the login page; the caller still sees the error. */
  lemma UnauthorizedCallEndsSession(env: Env, config: RequestConfig, transport: RequestConfig -> Reply)
    requires transport(AttachToken(config, env.store)).Err?
    requires Unauthorized(transport(AttachToken(config, env.store)).error)
    ensures var r := Call(env, config, transport);
      && !HasToken(r.env.store)
      && GetItem(r.env.store, TokenKey) == None
      && GetItem(r.env.store, UserKey) == None
      && r.env.location == LoginPath
      && r.reply == transport(AttachToken(config, env.store))
  {
  }

  /** A value carries no truthy `_id` of its own. Only an object can:
      every other value reads `_id` as `undefined`. */
  predicate NoNativeId(v: Value) {
    !Truthy(Get(v, "_id"))
  }

  /** Every top-level record the client hands on has had its `_id` moved:
      the body itself when it is an object, each element when it is an
      array. A record nested deeper, such as a list under a key, is not
      reached. */
  lemma NormalizedRecordsHaveNoNativeId(data: Value)
    ensures data.Obj? ==> NoNativeId(NormalizeBody(data))
    ensures data.Arr? ==> forall i :: 0 <= i < |NormalizeBody(data).items| ==>
      NoNativeId(NormalizeBody(data).items[i])
  {
  }

  /** Keys the normaliser never touches read the same before and after it,
      and a body is null or undefined after it exactly when it was before */
  lemma NormalizeKeepsPlainField(data: Value, key: string)
    requires !Rewritable(key)
    ensures Get(NormalizeBody(data), key) == Get(data, key)
    ensures NormalizeBody(data).Nullish() <==> data.Nullish()
  {
    if data.Obj? {
      assert SameField(NormalizeBody(data).fields, data.fields, key);
    }
  }
}
