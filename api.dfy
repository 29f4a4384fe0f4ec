/** The HTTP client of src/lib/api-simple.ts and src/lib/api.ts. Both files
    declare the same `ApiClient` (token field mirrored into localStorage,
    one `request` that adds the JSON and Bearer headers and turns a non-ok
    response into an error, `login`, `logout`); they differ in their
    convenience calls and in how `getFeedbacks` builds its URL, and both
    variants are modelled here. The network is not: every request is given
    the outcome of its awaited `fetch`. */
module Api {
  import opened Wrappers
  import opened Text
  import opened Lists
  import opened Storage
  import opened Url

  const DefaultBaseUrl: string := "http://localhost:3001/api/v1"

  /** `import.meta.env.VITE_API_URL || 'http://localhost:3001/api/v1'` */
  function ResolveBaseUrl(env: Option<string>): string {
    if env.Some? && env.value != "" then env.value else DefaultBaseUrl
  }

  /** A JSON value, as handed to `JSON.stringify` for a request body. */
  datatype Json =
    | JNull
    | JBool(b: bool)
    | JNumber(n: int)
    | JString(s: string)
    | JArray(items: seq<Json>)
    | JObject(fields: seq<(string, Json)>)

  datatype HttpMethod = Get | Post | Patch | Delete

  /** The members of `RequestInit` this client passes to `request`;
      `None` is an absent member. */
  datatype RequestOptions = RequestOptions(verb: Option<HttpMethod>, body: Option<Json>, headers: Option<map<string, string>>)

  const NoOptions: RequestOptions := RequestOptions(None, None, None)

  /** What `fetch` is called with. */
  datatype HttpRequest = HttpRequest(url: string, verb: HttpMethod, headers: map<string, string>, body: Option<Json>)

  /** The body of a non-ok response: not JSON, which `.catch(() => ({}))`
      turns into `{}`, or the parsed JSON value, which may be any value,
      `null` included. */
  datatype ErrorBody = Unparsable | JsonBody(value: Json)

  /** What `request` rejects with: the `Error` it throws for a non-ok
      response, the `TypeError` raised when the error body is `null` and
      `error.message` is read from it, or whatever `fetch` rejected with. */
  datatype RequestError =
    | HttpError(message: string)
    | NullBodyTypeError
    | FetchFailure(reason: string)

  /** What the awaited `fetch` produced. */
  datatype HttpOutcome<T> =
    | Ok(body: T)
    | NotOk(status: int, errorBody: ErrorBody)
    | NetworkFailure(reason: string)

  /** JavaScript truthiness of a `string | null`. */
  predicate IsTruthy(s: Option<string>) {
    s.Some? && s.value != ""
  }

  const ContentType: string := "Content-Type"
  const Authorization: string := "Authorization"
  const JsonMediaType: string := "application/json"

  /** The `headers` of the config built in `request`. The defaults are the
      JSON content type and, for a truthy token only, the Bearer header;
      because `...options` is spread after `headers`, caller-supplied headers
      replace that whole object rather than being merged into it. */
  function ComposeHeaders(token: Option<string>, options: RequestOptions): (h: map<string, string>)
    ensures options.headers.Some? ==> h == options.headers.value
    ensures options.headers.None? ==> h.Keys <= {ContentType, Authorization}
    ensures options.headers.None? ==> ContentType in h && h[ContentType] == JsonMediaType
    ensures options.headers.None? ==> (Authorization in h <==> IsTruthy(token))
    ensures options.headers.None? && IsTruthy(token) ==> h[Authorization] == "Bearer " + token.value
  {
    if options.headers.Some? then options.headers.value
    else
      var defaults := map[ContentType := JsonMediaType];
      if IsTruthy(token) then defaults[Authorization := "Bearer " + token.value] else defaults
  }

  const HttpErrorPrefix: string := "HTTP Error: "

  /** The value of member `key` of a JSON object, the last one when the
      key is repeated (as `JSON.parse` keeps the last). */
  function Member(fields: seq<(string, Json)>, key: string): (v: Option<Json>)
    ensures v.Some? ==> exists i :: 0 <= i < |fields| && fields[i] == (key, v.value)
    ensures v.None? <==> forall i :: 0 <= i < |fields| ==> fields[i].0 != key
  {
    if fields == [] then None
    else if fields[|fields| - 1].0 == key then Some(fields[|fields| - 1].1)
    else Member(fields[..|fields| - 1], key)
  }

  /** `error.message` of a parsed body that is not `null`: only an object
      has the member; on any other value it is `undefined`. */
  function MessageOf(value: Json): Option<Json> {
    if value.JObject? then Member(value.fields, "message") else None
  }

  /** JavaScript truthiness of a JSON value. */
  predicate JsonTruthy(v: Json) {
    match v
    case JNull => false
    case JBool(b) => b
    case JNumber(n) => n != 0
    case JString(s) => s != ""
    case JArray(_) => true
    case JObject(_) => true
  }

  /** `String(v)`, which `new Error(v)` applies to its argument: a string is
      itself, a number its decimal, an object `[object Object]`, and an array
      its elements joined with commas, `null` ones as empty text. */
  function JsonToString(v: Json): string
    decreases v
  {
    match v
    case JNull => "null"
    case JBool(b) => if b then "true" else "false"
    case JNumber(n) => IntToDecimal(n)
    case JString(s) => s
    case JArray(items) => JoinElements(items)
    case JObject(_) => "[object Object]"
  }

  /** `Array.prototype.join(',')` over the elements of an array. */
  function JoinElements(items: seq<Json>): string
    decreases items
  {
    if items == [] then ""
    else
      var first := if items[0].JNull? then "" else JsonToString(items[0]);
      if |items| == 1 then first else first + "," + JoinElements(items[1..])
  }

  /** What `request` throws for a non-ok response:
      `new Error(error.message || \`HTTP Error: ${response.status}\`)`,
      where an unparsable body counts as `{}` and a `null` body makes the
      member access itself throw. */
  function ThrownError(status: int, body: ErrorBody): (e: RequestError)
    ensures e.FetchFailure? == false
    ensures e.NullBodyTypeError? <==> body == JsonBody(JNull)
    ensures body.JsonBody? && MessageOf(body.value).Some? && JsonTruthy(MessageOf(body.value).value)
      ==> e == HttpError(JsonToString(MessageOf(body.value).value))
  {
    match body
    case Unparsable => HttpError(HttpErrorPrefix + IntToDecimal(status))
    case JsonBody(value) =>
      if value.JNull? then NullBodyTypeError
      else
        var m := MessageOf(value);
        if m.Some? && JsonTruthy(m.value) then HttpError(JsonToString(m.value))
        else HttpError(HttpErrorPrefix + IntToDecimal(status))
  }

  /** A body with no usable message: unparsable, or parsed and not `null`
      but without a truthy `message` member. */
  predicate NoUsableMessage(body: ErrorBody) {
    body.Unparsable?
    || (body.value != JNull && !(MessageOf(body.value).Some? && JsonTruthy(MessageOf(body.value).value)))
  }

  /** A non-empty string message is thrown as it is, a truthy number as its
      decimal and an object as `[object Object]`; a `null` body is a
      `TypeError`; an unparsable body acts as `{}`; any other body gives the
      generic message, from which the status can be read back. */
  lemma ErrorMessageCarriesStatus(status: int, body: ErrorBody)
    ensures body.JsonBody? && MessageOf(body.value).Some? ==>
      var m := MessageOf(body.value).value;
      && (m.JString? && m.s != "" ==> ThrownError(status, body) == HttpError(m.s))
      && (m.JNumber? && m.n != 0 ==> ThrownError(status, body) == HttpError(IntToDecimal(m.n)))
      && (m.JObject? ==> ThrownError(status, body) == HttpError("[object Object]"))
    ensures ThrownError(status, Unparsable) == ThrownError(status, JsonBody(JObject([])))
    ensures NoUsableMessage(body) ==>
      ThrownError(status, body).HttpError?
      && |ThrownError(status, body).message| > |HttpErrorPrefix|
      && ThrownError(status, body).message[..|HttpErrorPrefix|] == HttpErrorPrefix
      && ParseDecimal(ThrownError(status, body).message[|HttpErrorPrefix|..]) == Some(status)
  {
    if NoUsableMessage(body) {
      var m := ThrownError(status, body).message;
      assert m[|HttpErrorPrefix|..] == IntToDecimal(status);
      DecimalRoundTrip(status);
    }
  }

  /** What `request` resolves to or rejects with, given the outcome of `fetch`. */
  function RequestResult<T>(outcome: HttpOutcome<T>): (r: Result<T, RequestError>)
    ensures r.Success? <==> outcome.Ok?
    ensures outcome.Ok? ==> r.value == outcome.body
    ensures outcome.NotOk? ==> r.error == ThrownError(outcome.status, outcome.errorBody)
    ensures outcome.NetworkFailure? ==> r.error == FetchFailure(outcome.reason)
  {
    match outcome
    case Ok(body) => Success(body)
    case NotOk(status, errorBody) => Failure(ThrownError(status, errorBody))
    case NetworkFailure(reason) => Failure(FetchFailure(reason))
  }

  /** The body of `POST /auth/login`. */
  function CredentialsJson(email: string, password: string): Json {
    JObject([("email", JString(email)), ("password", JString(password))])
  }

  /** `{ user, token }` as returned by the login endpoint. */
  datatype AuthResponse = AuthResponse(user: Json, token: Option<string>)

  class ApiClient {
    const baseURL: string
    const storage: LocalStorage
    var token: Option<string>

    /** The in-memory token and the stored `auth_token` agree: both absent,
        or both the same string. */
    ghost predicate Synced()
      reads this, storage
    {
      token == storage.GetItem(AuthTokenKey)
    }

    /** The request `request(endpoint, options)` hands to `fetch`. */
    function Prepared(endpoint: string, options: RequestOptions): HttpRequest
      reads this
    {
      HttpRequest(baseURL + endpoint, options.verb.GetOr(Get), ComposeHeaders(token, options), options.body)
    }

    /** `new ApiClient()`: the token is whatever the store holds under
        `auth_token`, or null. */
    constructor (env: Option<string>, storage: LocalStorage)
      ensures this.storage == storage && baseURL == ResolveBaseUrl(env)
      ensures token.Some? <==> AuthTokenKey in storage.items
      ensures token.Some? ==> token.value == storage.items[AuthTokenKey]
      ensures Synced()
    {
      this.baseURL := ResolveBaseUrl(env);
      this.storage := storage;
      this.token := storage.GetItem(AuthTokenKey);
    }

    method SetToken(t: string)
      modifies this, storage
      ensures token == Some(t)
      ensures storage.items == old(storage.items)[AuthTokenKey := t]
      ensures Synced()
    {
      token := Some(t);
      storage.SetItem(AuthTokenKey, t);
    }

    method ClearToken()
      modifies this, storage
      ensures token == None
      ensures storage.items == old(storage.items) - {AuthTokenKey}
      ensures Synced()
    {
      token := None;
      storage.RemoveItem(AuthTokenKey);
    }

    /** `request(endpoint, options)`: the URL is the base URL followed by the
        endpoint, the method defaults to GET, and the result is the body of
        an ok response or the error of ThrownError. */
    method Request<T>(endpoint: string, options: RequestOptions, outcome: HttpOutcome<T>)
      returns (req: HttpRequest, r: Result<T, RequestError>)
      ensures req.url == baseURL + endpoint
      ensures req.verb == options.verb.GetOr(Get) && req.body == options.body
      ensures req.headers == ComposeHeaders(token, options)
      ensures r == RequestResult(outcome)
    {
      req := Prepared(endpoint, options);
      r := RequestResult(outcome);
    }

    /** `login(credentials)`: POST the credentials; a truthy token in the
        response is stored with SetToken; the response, or the error, goes
        back to the caller unchanged. */
    method Login(email: string, password: string, outcome: HttpOutcome<AuthResponse>)
      returns (req: HttpRequest, r: Result<AuthResponse, RequestError>)
      modifies this, storage
      ensures req == old(Prepared("/auth/login", RequestOptions(Some(Post), Some(CredentialsJson(email, password)), None)))
      ensures r == RequestResult(outcome)
      ensures r.Success? && IsTruthy(r.value.token) ==>
        token == r.value.token && storage.items == old(storage.items)[AuthTokenKey := r.value.token.value]
      ensures !(r.Success? && IsTruthy(r.value.token)) ==>
        token == old(token) && storage.items == old(storage.items)
      ensures old(Synced()) ==> Synced()
    {
      req, r := Request("/auth/login", RequestOptions(Some(Post), Some(CredentialsJson(email, password)), None), outcome);
      if r.Success? && IsTruthy(r.value.token) {
        SetToken(r.value.token.value);
      }
    }

    /** `logout()`: DELETE the session; the `finally` clears the token
        whether or not the request failed, and a failure still propagates. */
    method Logout(outcome: HttpOutcome<Json>) returns (req: HttpRequest, r: Result<(), RequestError>)
      modifies this, storage
      ensures req == old(Prepared("/auth/logout", RequestOptions(Some(Delete), None, None)))
      ensures r.Success? <==> outcome.Ok?
      ensures r.Failure? ==> r.error == RequestResult(outcome).error
      ensures token == None && storage.items == old(storage.items) - {AuthTokenKey}
      ensures Synced()
    {
      var res;
      req, res := Request("/auth/logout", RequestOptions(Some(Delete), None, None), outcome);
      ClearToken();
      r := if res.Success? then Success(()) else Failure(res.error);
    }

    /** `get(endpoint)`: no options, so `fetch` uses GET and sends no body. */
    method GetJson<T>(endpoint: string, outcome: HttpOutcome<T>) returns (req: HttpRequest, r: Result<T, RequestError>)
      ensures req == Prepared(endpoint, NoOptions) && req.verb == Get && req.body == None
      ensures r == RequestResult(outcome)
    {
      req, r := Request(endpoint, NoOptions, outcome);
    }

    /** `post(endpoint, data)`; an absent `data` is an absent body. */
    method PostJson<T>(endpoint: string, data: Option<Json>, outcome: HttpOutcome<T>) returns (req: HttpRequest, r: Result<T, RequestError>)
      ensures req == Prepared(endpoint, RequestOptions(Some(Post), data, None)) && req.verb == Post && req.body == data
      ensures r == RequestResult(outcome)
    {
      req, r := Request(endpoint, RequestOptions(Some(Post), data, None), outcome);
    }

    /** `patch(endpoint, data)`; an absent `data` is an absent body. */
    method PatchJson<T>(endpoint: string, data: Option<Json>, outcome: HttpOutcome<T>) returns (req: HttpRequest, r: Result<T, RequestError>)
      ensures req == Prepared(endpoint, RequestOptions(Some(Patch), data, None)) && req.verb == Patch && req.body == data
      ensures r == RequestResult(outcome)
    {
      req, r := Request(endpoint, RequestOptions(Some(Patch), data, None), outcome);
    }

    /** `delete(endpoint)`. */
    method DeleteJson<T>(endpoint: string, outcome: HttpOutcome<T>) returns (req: HttpRequest, r: Result<T, RequestError>)
      ensures req == Prepared(endpoint, RequestOptions(Some(Delete), None, None)) && req.verb == Delete && req.body == None
      ensures r == RequestResult(outcome)
    {
      req, r := Request(endpoint, RequestOptions(Some(Delete), None, None), outcome);
    }

    /** One of the endpoint helpers of src/lib/api.ts, sent through `request`. */
    method Call<T>(call: ApiCall, outcome: HttpOutcome<T>) returns (req: HttpRequest, r: Result<T, RequestError>)
      ensures req == Prepared(RouteOf(call).path, RouteOf(call).options)
      ensures r == RequestResult(outcome)
    {
      req, r := Request(RouteOf(call).path, RouteOf(call).options, outcome);
    }

    /** `getFeedbacks` of src/lib/api-simple.ts. */
    method GetFeedbacksSimple<T>(feedbackType: Option<string>, perPage: Option<int>, outcome: HttpOutcome<T>)
      returns (req: HttpRequest, r: Result<T, RequestError>)
      ensures req.url == baseURL + SimpleFeedbacksEndpoint(feedbackType, perPage)
      ensures req == Prepared(SimpleFeedbacksEndpoint(feedbackType, perPage), NoOptions)
      ensures r == RequestResult(outcome)
    {
      var endpoint := BuildSimpleFeedbacksEndpoint(feedbackType, perPage);
      req, r := Request(endpoint, NoOptions, outcome);
    }

    /** `getFeedbacks` of src/lib/api.ts. */
    method GetFeedbacks<T>(params: seq<FeedbackParam>, outcome: HttpOutcome<T>)
      returns (req: HttpRequest, r: Result<T, RequestError>)
      requires DistinctKeys(params)
      ensures req == Prepared(FeedbacksPath(params) + QuerySuffix(DefinedPairs(params)), NoOptions)
      ensures r == RequestResult(outcome)
    {
      var pairs := BuildSearchParams(params);
      var endpoint := if TypeOf(params).Some? then "/feedbacks/" + BoxName(TypeOf(params).value) else "/feedbacks";
      req, r := Request(endpoint + QuerySuffix(pairs), NoOptions, outcome);
    }
  }

  /** Clearing the token twice leaves the same state as clearing it once. */
  method ClearTokenTwice(client: ApiClient)
    modifies client, client.storage
    ensures client.token == None
    ensures client.storage.items == old(client.storage.items) - {AuthTokenKey}
  {
    client.ClearToken();
    client.ClearToken();
  }

  /** `?query` when the query is non-empty, nothing otherwise. */
  function QuerySuffix(pairs: seq<(string, string)>): (s: string)
    ensures s == "" <==> pairs == []
    ensures pairs != [] ==> s == "?" + SerializeQuery(pairs)
  {
    var q := SerializeQuery(pairs);
    if q != "" then "?" + q else ""
  }

  /** The pairs src/lib/api-simple.ts appends: `type` when it is a non-empty
      string, then `per_page` when it is a non-zero number. */
  function SimplePairs(feedbackType: Option<string>, perPage: Option<int>): seq<(string, string)> {
    (if IsTruthy(feedbackType) then [("type", feedbackType.value)] else [])
    + (if perPage.Some? && perPage.value != 0 then [("per_page", IntToDecimal(perPage.value))] else [])
  }

  function SimpleFeedbacksEndpoint(feedbackType: Option<string>, perPage: Option<int>): string {
    "/feedbacks" + QuerySuffix(SimplePairs(feedbackType, perPage))
  }

  /** The appends of src/lib/api-simple.ts `getFeedbacks`, one after the other. */
  method BuildSimpleFeedbacksEndpoint(feedbackType: Option<string>, perPage: Option<int>) returns (endpoint: string)
    ensures endpoint == SimpleFeedbacksEndpoint(feedbackType, perPage)
    ensures endpoint == "/feedbacks" <==> !IsTruthy(feedbackType) && (perPage.None? || perPage.value == 0)
  {
    var query: seq<(string, string)> := [];
    if IsTruthy(feedbackType) {
      query := query + [("type", feedbackType.value)];
    }
    if perPage.Some? && perPage.value != 0 {
      query := query + [("per_page", IntToDecimal(perPage.value))];
    }
    var qs := SerializeQuery(query);
    endpoint := "/feedbacks" + (if qs != "" then "?" + qs else "");
    assert endpoint == "/feedbacks" <==> query == [] by {
      if endpoint == "/feedbacks" {
        assert |"/feedbacks" + (if qs != "" then "?" + qs else "")| == |"/feedbacks"|;
      }
    }
  }

  /** The api-simple query: `type` precedes `per_page`, a zero `per_page` is
      left out, and the pairs can be read back from the query string. */
  lemma SimpleFeedbacksQuery(feedbackType: Option<string>, perPage: Option<int>)
    ensures IsTruthy(feedbackType) && perPage.Some? && perPage.value != 0 ==>
      var q := SimpleFeedbacksEndpoint(feedbackType, perPage)[|"/feedbacks?"|..];
      Split(q, '&') == [EncodePair(("type", feedbackType.value)), EncodePair(("per_page", IntToDecimal(perPage.value)))]
  {
    if IsTruthy(feedbackType) && perPage.Some? && perPage.value != 0 {
      var pairs := [("type", feedbackType.value), ("per_page", IntToDecimal(perPage.value))];
      assert SimplePairs(feedbackType, perPage) == pairs;
      TwoPairQuery(pairs[0], pairs[1]);
    }
  }

  lemma TwoPairQuery(x: (string, string), y: (string, string))
    ensures ("/feedbacks" + QuerySuffix([x, y]))[|"/feedbacks?"|..] == SerializeQuery([x, y])
    ensures Split(SerializeQuery([x, y]), '&') == [EncodePair(x), EncodePair(y)]
  {
    var q := SerializeQuery([x, y]);
    assert ("/feedbacks" + QuerySuffix([x, y])) == "/feedbacks?" + q;
    assert [x, y][1..] == [y];
    assert SerializeQuery([y]) == EncodePair(y);
    assert q == EncodePair(x) + "&" + SerializeQuery([y]);
    var parts := [EncodePair(x), EncodePair(y)];
    assert parts[1..] == [EncodePair(y)];
    assert q == Join(parts, '&');
    EncodePairNoAmpersand(x);
    EncodePairNoAmpersand(y);
    SplitJoin(parts, '&');
  }

  lemma SimpleFeedbacksZeroPerPage(feedbackType: Option<string>)
    ensures SimpleFeedbacksEndpoint(feedbackType, Some(0)) == SimpleFeedbacksEndpoint(feedbackType, None)
  {
  }

  /** The two feedback boxes of `getFeedbacks({ type })` in src/lib/api.ts. */
  datatype FeedbackBox = Sent | Received

  function BoxName(b: FeedbackBox): string {
    match b
    case Sent => "sent"
    case Received => "received"
  }

  /** One own property of the `params` object of src/lib/api.ts
      `getFeedbacks`, in the order the caller wrote it; `None` is a property
      whose value is `undefined`. */
  datatype FeedbackParam =
    | Page(page: Option<int>)
    | PerPage(perPage: Option<int>)
    | Type(box: Option<FeedbackBox>)

  function ParamKey(p: FeedbackParam): string {
    match p
    case Page(_) => "page"
    case PerPage(_) => "per_page"
    case Type(_) => "type"
  }

  predicate IsDefined(p: FeedbackParam) {
    match p
    case Page(v) => v.Some?
    case PerPage(v) => v.Some?
    case Type(v) => v.Some?
  }

  /** `value.toString()` of a defined property. */
  function ParamValue(p: FeedbackParam): string
    requires IsDefined(p)
  {
    match p
    case Page(v) => IntToDecimal(v.value)
    case PerPage(v) => IntToDecimal(v.value)
    case Type(v) => BoxName(v.value)
  }

  /** An object has each property at most once. */
  ghost predicate DistinctKeys(params: seq<FeedbackParam>) {
    forall i, j :: 0 <= i < j < |params| ==> ParamKey(params[i]) != ParamKey(params[j])
  }

  /** The pairs appended to `searchParams`: every defined property, in
      entry order, zero included. */
  function DefinedPairs(params: seq<FeedbackParam>): (pairs: seq<(string, string)>)
    ensures |pairs| == Count(params, IsDefined)
  {
    var defined := Filter(params, IsDefined);
    FilterLength(params, IsDefined);
    seq(|defined|, i requires 0 <= i < |defined| => (ParamKey(defined[i]), ParamValue(defined[i])))
  }

  lemma DefinedPairsAppend(params: seq<FeedbackParam>, p: FeedbackParam)
    ensures DefinedPairs(params + [p]) == DefinedPairs(params) + (if IsDefined(p) then [(ParamKey(p), ParamValue(p))] else [])
  {
    FilterAppend(params, [p], IsDefined);
    assert Filter([p], IsDefined) == if IsDefined(p) then [p] else [];
  }

  /** The `forEach` over `Object.entries(params)` that appends each
      property whose value is not `undefined`. */
  method BuildSearchParams(params: seq<FeedbackParam>) returns (pairs: seq<(string, string)>)
    ensures pairs == DefinedPairs(params)
  {
    pairs := [];
    var i := 0;
    while i < |params|
      invariant 0 <= i <= |params|
      invariant pairs == DefinedPairs(params[..i])
    {
      var p := params[i];
      DefinedPairsAppend(params[..i], p);
      assert params[..i + 1] == params[..i] + [p];
      if IsDefined(p) {
        pairs := pairs + [(ParamKey(p), ParamValue(p))];
      }
      i := i + 1;
    }
    assert params[..i] == params;
  }

  /** `params.type`: the value of the `type` property, if any. */
  function TypeOf(params: seq<FeedbackParam>): Option<FeedbackBox> {
    if params == [] then None
    else if params[0].Type? && params[0].box.Some? then params[0].box
    else TypeOf(params[1..])
  }

  /** `/feedbacks/<type>` when `type` is given, `/feedbacks` otherwise. */
  function FeedbacksPath(params: seq<FeedbackParam>): string {
    if TypeOf(params).Some? then "/feedbacks/" + BoxName(TypeOf(params).value) else "/feedbacks"
  }

  /** The api.ts query lists every defined parameter, `type` included, in
      entry order (page 0 stays in), and any defined one makes the `?`
      appear. */
  lemma {:induction false} FeedbacksQueryContents(params: seq<FeedbackParam>, i: nat)
    requires i < |params| && IsDefined(params[i])
    ensures (ParamKey(params[i]), ParamValue(params[i])) in DefinedPairs(params)
    ensures QuerySuffix(DefinedPairs(params)) != ""
  {
    var defined := Filter(params, IsDefined);
    assert params[i] in defined;
    var k :| 0 <= k < |defined| && defined[k] == params[i];
    assert DefinedPairs(params)[k] == (ParamKey(params[i]), ParamValue(params[i]));
  }

  /** The `?` is left out exactly when no parameter is defined: an object
      whose properties are all undefined gives the bare path. */
  lemma FeedbacksQueryEmptyIff(params: seq<FeedbackParam>)
    ensures QuerySuffix(DefinedPairs(params)) == "" <==> forall i :: 0 <= i < |params| ==> !IsDefined(params[i])
  {
    CountZeroIff(params, IsDefined);
  }

  lemma {:induction false} FeedbacksTypeInPath(params: seq<FeedbackParam>, b: FeedbackBox)
    requires DistinctKeys(params)
    requires Type(Some(b)) in params
    ensures FeedbacksPath(params) == "/feedbacks/" + BoxName(b)
  {
    if params[0] != Type(Some(b)) {
      assert !params[0].Type? by {
        var j :| 0 <= j < |params| && params[j] == Type(Some(b));
        assert ParamKey(params[0]) != ParamKey(params[j]);
      }
      assert DistinctKeys(params[1..]) by {
        forall i, j | 0 <= i < j < |params| - 1
          ensures ParamKey(params[1..][i]) != ParamKey(params[1..][j])
        {
          assert params[1..][i] == params[i + 1] && params[1..][j] == params[j + 1];
        }
      }
      FeedbacksTypeInPath(params[1..], b);
    }
  }

  // ---- the endpoint helpers of src/lib/api.ts ----

  datatype ReactionType = Thanks | Like | Celebrate

  function ReactionName(t: ReactionType): string {
    match t
    case Thanks => "thanks"
    case Like => "like"
    case Celebrate => "celebrate"
  }

  /** Every call of src/lib/api.ts that goes to a fixed route. */
  datatype ApiCall =
    | GetCurrentUser
    | CreateFeedback(data: Json)
    | UpdateFeedback(id: int, data: Json)
    | DeleteFeedback(id: int)
    | MarkFeedbackAsRead(id: int)
    | AddReaction(feedbackId: int, reactionType: ReactionType)
    | RemoveReaction(feedbackId: int)
    | GetUsers
    | GetUser(id: int)
    | UpdateUser(id: int, data: Json)
    | GetUserStats(id: int, period: Option<string>)
    | GetOrganization
    | GetOrganizationUsers
    | HealthCheck

  datatype Route = Route(path: string, options: RequestOptions)

  /** A path with no id, or a fixed prefix, a decimal id and a suffix that is
      empty or starts with `/`. */
  datatype PathShape = Fixed(p: string) | WithId(prefix: string, id: int, suffix: string)

  function Render(shape: PathShape): string {
    match shape
    case Fixed(p) => p
    case WithId(prefix, id, suffix) => prefix + IntToDecimal(id) + suffix
  }

  function ShapeOf(call: ApiCall): PathShape {
    match call
    case GetCurrentUser => Fixed("/auth/me")
    case CreateFeedback(_) => Fixed("/feedbacks")
    case UpdateFeedback(id, _) => WithId("/feedbacks/", id, "")
    case DeleteFeedback(id) => WithId("/feedbacks/", id, "")
    case MarkFeedbackAsRead(id) => WithId("/feedbacks/", id, "/read")
    case AddReaction(id, _) => WithId("/feedbacks/", id, "/reaction")
    case RemoveReaction(id) => WithId("/feedbacks/", id, "/reaction")
    case GetUsers => Fixed("/users")
    case GetUser(id) => WithId("/users/", id, "")
    case UpdateUser(id, _) => WithId("/users/", id, "")
    case GetUserStats(id, period) => WithId("/users/", id, "/stats?period=" + period.GetOr("30"))
    case GetOrganization => Fixed("/organization")
    case GetOrganizationUsers => Fixed("/organization/users")
    case HealthCheck => Fixed("/health")
  }

  /** The path and options each helper passes to `request`. */
  function RouteOf(call: ApiCall): (r: Route)
    ensures r.path == Render(ShapeOf(call))
  {
    var path := Render(ShapeOf(call));
    match call
    case GetCurrentUser => Route(path, NoOptions)
    case CreateFeedback(data) => Route(path, RequestOptions(Some(Post), Some(JObject([("feedback", data)])), None))
    case UpdateFeedback(_, data) => Route(path, RequestOptions(Some(Patch), Some(JObject([("feedback", data)])), None))
    case DeleteFeedback(_) => Route(path, RequestOptions(Some(Delete), None, None))
    case MarkFeedbackAsRead(_) => Route(path, RequestOptions(Some(Patch), None, None))
    case AddReaction(_, t) =>
      Route(path, RequestOptions(Some(Post), Some(JObject([("reaction", JObject([("reaction_type", JString(ReactionName(t)))]))])), None))
    case RemoveReaction(_) => Route(path, RequestOptions(Some(Delete), None, None))
    case GetUsers => Route(path, NoOptions)
    case GetUser(_) => Route(path, NoOptions)
    case UpdateUser(_, data) => Route(path, RequestOptions(Some(Patch), Some(JObject([("user", data)])), None))
    case GetUserStats(_, _) => Route(path, NoOptions)
    case GetOrganization => Route(path, NoOptions)
    case GetOrganizationUsers => Route(path, NoOptions)
    case HealthCheck => Route(path, NoOptions)
  }

  /** `markFeedbackAsRead(id)` is PATCH `/feedbacks/<id>/read` with no body;
      `getUserStats(id)` without a period asks for period 30. */
  lemma NamedRoutes(id: int)
    ensures RouteOf(MarkFeedbackAsRead(id)) == Route("/feedbacks/" + IntToDecimal(id) + "/read", RequestOptions(Some(Patch), None, None))
    ensures RouteOf(GetUserStats(id, None)) == RouteOf(GetUserStats(id, Some("30")))
    ensures RouteOf(GetUserStats(id, None)).path == "/users/" + IntToDecimal(id) + "/stats?period=30"
  {
  }

  lemma {:induction false} DecimalThen(a: int, b: int, s: string, t: string)
    requires IntToDecimal(a) + s == IntToDecimal(b) + t
    requires s == [] || s[0] == '/'
    requires t == [] || t[0] == '/'
    ensures a == b && s == t
  {
    var da, db := IntToDecimal(a), IntToDecimal(b);
    RunOfDecimal(da, s);
    RunOfDecimal(db, t);
    assert da == (da + s)[..|da|] && db == (db + t)[..|db|];
    DecimalInjective(a, b);
    assert s == (da + s)[|da|..] && t == (db + t)[|db|..];
  }

  /** The length of the leading run of digits and minus signs. */
  function DigitRun(x: string): nat {
    if x == [] || !(IsDigit(x[0]) || x[0] == '-') then 0 else 1 + DigitRun(x[1..])
  }

  lemma {:induction false} RunOfDecimal(d: string, s: string)
    requires forall k :: 0 <= k < |d| ==> IsDigit(d[k]) || d[k] == '-'
    requires s == [] || s[0] == '/'
    ensures DigitRun(d + s) == |d|
  {
    if d == [] {
      assert d + s == s;
    } else {
      assert (d + s)[1..] == d[1..] + s;
      RunOfDecimal(d[1..], s);
    }
  }

  lemma PrefixCancel(p: string, x: string, y: string)
    requires p + x == p + y
    ensures x == y
  {
    assert x == (p + x)[|p|..] && y == (p + y)[|p|..];
  }

  predicate WellShaped(shape: PathShape) {
    match shape
    case Fixed(p) => p in {"/auth/me", "/feedbacks", "/users", "/organization", "/organization/users", "/health"}
    case WithId(prefix, _, suffix) => prefix in {"/feedbacks/", "/users/"} && (suffix == [] || suffix[0] == '/')
  }

  lemma ShapeInjective(x: PathShape, y: PathShape)
    requires WellShaped(x) && WellShaped(y)
    requires Render(x) == Render(y)
    ensures x == y
  {
    var rx := Render(x);
    if x.WithId? && y.WithId? {
      assert rx[1] == x.prefix[1] && rx[1] == y.prefix[1];
      assert x.prefix == y.prefix;
      assert rx == x.prefix + (IntToDecimal(x.id) + x.suffix);
      assert rx == y.prefix + (IntToDecimal(y.id) + y.suffix);
      PrefixCancel(x.prefix, IntToDecimal(x.id) + x.suffix, IntToDecimal(y.id) + y.suffix);
      DecimalThen(x.id, y.id, x.suffix, y.suffix);
    } else if x.WithId? {
      WithIdIsNotFixed(x, y.p);
    } else if y.WithId? {
      WithIdIsNotFixed(y, x.p);
    }
  }

  lemma WithIdIsNotFixed(x: PathShape, p: string)
    requires x.WithId? && WellShaped(x) && WellShaped(Fixed(p))
    ensures Render(x) != p
  {
    var r := Render(x);
    assert |r| > |x.prefix|;
    if x.prefix == "/users/" {
      assert r[1] == 'u';
    } else {
      assert r[1] == 'f' && |r| > 11;
    }
  }

  /** Distinct helper calls send distinct requests: path, method and body
      together determine the call, except that `getUserStats` without a
      period and with period `'30'` are the same request. */
  lemma RouteInjective(a: ApiCall, b: ApiCall)
    requires RouteOf(a) == RouteOf(b)
    ensures a == b || (a.GetUserStats? && b.GetUserStats? && a.id == b.id && a.period.GetOr("30") == b.period.GetOr("30"))
  {
    ShapeOfWellShaped(a);
    ShapeOfWellShaped(b);
    ShapeInjective(ShapeOf(a), ShapeOf(b));
    SameShape(a, b);
  }

  lemma ShapeOfWellShaped(c: ApiCall)
    ensures WellShaped(ShapeOf(c))
  {
    if c.GetUserStats? {
      assert ("/stats?period=" + c.period.GetOr("30"))[0] == '/';
    }
  }

  /** Calls with the same path shape and the same options are the same
      call, up to the default period of `getUserStats`. */
  lemma SameShape(a: ApiCall, b: ApiCall)
    requires ShapeOf(a) == ShapeOf(b)
    requires RouteOf(a).options == RouteOf(b).options
    ensures a == b || (a.GetUserStats? && b.GetUserStats? && a.id == b.id && a.period.GetOr("30") == b.period.GetOr("30"))
  {
    if ShapeOf(a).Fixed? {
      SameFixedShape(a, b);
    } else if ShapeOf(a).prefix == "/feedbacks/" {
      SameFeedbackShape(a, b);
    } else {
      SameUserShape(a, b);
    }
  }

  lemma SameFixedShape(a: ApiCall, b: ApiCall)
    requires ShapeOf(a) == ShapeOf(b) && ShapeOf(a).Fixed?
    requires RouteOf(a).options == RouteOf(b).options
    ensures a == b
  {
  }

  lemma SameFeedbackShape(a: ApiCall, b: ApiCall)
    requires ShapeOf(a) == ShapeOf(b) && ShapeOf(a).WithId? && ShapeOf(a).prefix == "/feedbacks/"
    requires RouteOf(a).options == RouteOf(b).options
    ensures a == b
  {
  }

  lemma SameUserShape(a: ApiCall, b: ApiCall)
    requires ShapeOf(a) == ShapeOf(b) && ShapeOf(a).WithId? && ShapeOf(a).prefix == "/users/"
    requires RouteOf(a).options == RouteOf(b).options
    ensures a == b || (a.GetUserStats? && b.GetUserStats? && a.id == b.id && a.period.GetOr("30") == b.period.GetOr("30"))
  {
    if a.GetUserStats? && b.GetUserStats? {
      PrefixCancel("/stats?period=", a.period.GetOr("30"), b.period.GetOr("30"));
    }
  }
}
