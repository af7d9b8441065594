/**
 * The decision logic of the Meet.bot API client: configuration checking,
 * the headers every request carries, validate-then-call for each endpoint,
 * the response interceptor's error rewriting, and the health-check
 * classification.  HTTP is an oracle (`Api.send`) that answers a request
 * with what axios would resolve or reject with before the interceptor runs.
 */
module Client {
  import opened Wrappers
  import opened Js
  import opened Schemas

  const BaseUrl := "https://meet.bot"
  const RequestTimeout := 30000
  const HealthCheckTimeout := 5000
  const PagesPath := "/v1/pages"
  const InfoPath := "/v1/info"
  const SlotsPath := "/v1/slots"
  const BookPath := "/v1/book"

  datatype Verb = GET | POST

  /** One HTTP request as the axios instance issues it. */
  datatype Request = Request(
    verb: Verb,
    baseUrl: string,
    path: string,
    params: Json,                    // query parameters, `undefined` when none
    body: Json,                      // request body, `undefined` when none
    headers: map<string, string>,
    timeout: nat)

  datatype HttpResponse = HttpResponse(status: int, data: Json)

  /** The errors an operation can reject with. */
  datatype Thrown =
    | ZodError(issues: seq<Issue>)                              // a schema's parse failed
    | AxiosError(response: Option<HttpResponse>, message: string) // no response: a network error
    | PlainError(message: string)                               // `new Error(message)`

  /** How an awaited call settles: its value, or the error it rejects with. */
  datatype Outcome = Returned(data: Json) | Threw(error: Thrown)

  /** What an operation did: the request it issued, if any, and how it settled. */
  datatype Exchange = Exchange(issued: Option<Request>, outcome: Outcome)

  /** The foreign parts: the network, and `JSON.stringify`. */
  datatype Api = Api(send: Request -> Outcome, stringify: Json -> string)

  /** `error.message` of a thrown error. */
  function Message(z: Zod, e: Thrown): string
  {
    match e
    case ZodError(issues) => z.message(issues)
    case AxiosError(_, message) => message
    case PlainError(message) => message
  }

  // ---------------------------------------------------------------- construction

  /** A constructed client holds the parsed copy of its configuration. */
  datatype MeetbotClient = MeetbotClient(config: Json)

  /** What `MeetbotConfigSchema.parse` can return: only an optional string `authToken`. */
  predicate ValidConfig(config: Json)
  {
    && config.Obj?
    && config.fields.Keys <= {"authToken"}
    && (Get(config, "authToken") == Undefined || Get(config, "authToken").Str?)
  }

  lemma ConfigKeys()
    ensures Keys(ShapeOf(MeetbotConfigSchema)) == {"authToken"}
  {
    assert MeetbotConfigShape.fields[0].key == "authToken";
  }

  /**
   * `new MeetbotClient(config)`: throws the schema's error unless `config`
   * is an object whose `authToken`, if present, is a string; otherwise keeps
   * `authToken` (if the input had that key) and drops every other key.
   */
  function NewClient(z: Zod, config: Json): (r: Result<MeetbotClient, Thrown>)
    ensures r.Ok? <==> Accepts(z, MeetbotConfigSchema, config)
    ensures r.Err? ==> r.error.ZodError? && |r.error.issues| > 0
    ensures r.Ok? ==> ValidConfig(r.value.config)
    ensures r.Ok? ==> Get(r.value.config, "authToken") == Get(config, "authToken")
    ensures r.Ok? ==> ("authToken" in r.value.config.fields <==> "authToken" in config.fields)
  {
    ConfigKeys();
    MeetbotConfigAccepts(z, config);
    match Parse(z, MeetbotConfigSchema, config)
    case Err(issues) => Err(ZodError(issues))
    case Ok(parsed) => Ok(MeetbotClient(parsed))
  }

  /** `getConfig()`: a shallow copy of the stored configuration (equal by value). */
  function GetConfig(c: MeetbotClient): (r: Json)
    requires ValidConfig(c.config)
    ensures ValidConfig(r)
    ensures r == c.config
  {
    Obj(map k | k in c.config.fields :: c.config.fields[k])
  }

  /**
   * Configuring a new client from the copy `getConfig` returns gives back the
   * same client: the stored configuration already is a parse result.
   */
  lemma ConfigRoundTrip(z: Zod, config: Json)
    requires NewClient(z, config).Ok?
    ensures var c := NewClient(z, config).value;
      NewClient(z, GetConfig(c)) == Ok(c)
  {
    var c := NewClient(z, config).value;
    var copy := GetConfig(c);
    assert copy == c.config;
    MeetbotConfigAccepts(z, copy);
    ConfigKeys();
    assert Parse(z, MeetbotConfigSchema, copy).value.fields == c.config.fields;
  }

  /** An `authToken` that is any string, the empty one included, is accepted. */
  lemma TokenConfigures(z: Zod, token: string)
    ensures NewClient(z, Single("authToken", token)).Ok?
    ensures Get(NewClient(z, Single("authToken", token)).value.config, "authToken") == Str(token)
  {
    MeetbotConfigAccepts(z, Single("authToken", token));
  }

  // ---------------------------------------------------------------- headers

  /**
   * The headers of every request: JSON content type and accept, and
   * `Authorization: Bearer <token>` exactly when the token is truthy.
   */
  function Headers(c: MeetbotClient): (r: map<string, string>)
    requires ValidConfig(c.config)
    ensures "Content-Type" in r && r["Content-Type"] == "application/json"
    ensures "Accept" in r && r["Accept"] == "application/json"
    ensures "Authorization" in r <==> Truthy(Get(c.config, "authToken"))
    ensures "Authorization" in r ==> r["Authorization"] == "Bearer " + Get(c.config, "authToken").s
    ensures r.Keys <= {"Content-Type", "Accept", "Authorization"}
  {
    var base := map["Content-Type" := "application/json", "Accept" := "application/json"];
    var token := Get(c.config, "authToken");
    if Truthy(token) then base["Authorization" := "Bearer " + token.s] else base
  }

  /** An empty or absent token sends no `Authorization` header at all. */
  lemma NoTokenNoHeader(z: Zod, config: Json)
    requires NewClient(z, config).Ok?
    requires Get(config, "authToken") in {Undefined, Str("")}
    ensures "Authorization" !in Headers(NewClient(z, config).value)
  {
  }

  // ---------------------------------------------------------------- the response interceptor

  /** A failure whose response carries a truthy body. */
  predicate HasBody(e: Thrown)
  {
    e.AxiosError? && e.response.Some? && Truthy(e.response.value.data)
  }

  /**
   * The response interceptor: successes pass through; an error whose
   * response has a truthy body is replaced by a plain
   * `Error("API Error: " + JSON.stringify(body))`; any other error is
   * rethrown as it is.
   */
  function Intercept(api: Api, raw: Outcome): (r: Outcome)
    ensures raw.Returned? ==> r == raw
    ensures raw.Threw? && HasBody(raw.error) ==>
      r == Threw(PlainError("API Error: " + api.stringify(raw.error.response.value.data)))
    ensures raw.Threw? && !HasBody(raw.error) ==> r == raw
    ensures r.Threw? ==> !HasBody(r.error)
  {
    match raw
    case Returned(_) => raw
    case Threw(e) =>
      if e.AxiosError? && e.response.Some? && Truthy(e.response.value.data) then
        Threw(PlainError("API Error: " + api.stringify(e.response.value.data)))
      else raw
  }

  /** Running the interceptor twice changes nothing more than running it once. */
  lemma InterceptIdempotent(api: Api, raw: Outcome)
    ensures Intercept(api, Intercept(api, raw)) == Intercept(api, raw)
  {
  }

  /** Issue a request through the interceptor. */
  function Send(api: Api, q: Request): (r: Exchange)
    ensures r.issued == Some(q)
    ensures r.outcome == Intercept(api, api.send(q))
  {
    Exchange(Some(q), Intercept(api, api.send(q)))
  }

  // ---------------------------------------------------------------- endpoints

  /** The request carries, as `payload`, the parsed copy of `input` under schema `s`. */
  predicate Carries(s: Schema, input: Json, payload: Json)
  {
    && input.Obj? && payload.Obj?
    && payload.fields.Keys == input.fields.Keys * Keys(ShapeOf(s))
    && forall k :: k in Keys(ShapeOf(s)) ==> Get(payload, k) == Get(input, k)
  }

  /**
   * Validate-then-call: nothing is issued exactly when `input` fails schema
   * `s`, and then the operation rejects with the schema's error.
   */
  predicate ValidatesFirst(z: Zod, s: Schema, input: Json, r: Exchange)
  {
    && (r.issued.None? <==> !Accepts(z, s, input))
    && (r.issued.None? ==> r.outcome.Threw? && r.outcome.error.ZodError? && |r.outcome.error.issues| > 0)
  }

  /** `getPages()`: GET /v1/pages with no parameters; never validates anything. */
  function GetPages(api: Api, c: MeetbotClient): (r: Exchange)
    requires ValidConfig(c.config)
    ensures r.issued.Some?
    ensures var q := r.issued.value;
      q.verb == GET && q.baseUrl == BaseUrl && q.path == PagesPath &&
      q.params == Undefined && q.body == Undefined &&
      q.headers == Headers(c) && q.timeout == RequestTimeout
    ensures r.outcome == Intercept(api, api.send(r.issued.value))
  {
    Send(api, Request(GET, BaseUrl, PagesPath, Undefined, Undefined, Headers(c), RequestTimeout))
  }

  /** `getPageInfo(params)`: validate, then GET /v1/info with the parsed params. */
  function GetPageInfo(z: Zod, api: Api, c: MeetbotClient, params: Json): (r: Exchange)
    requires ValidConfig(c.config)
    ensures ValidatesFirst(z, GetInfoParamsSchema, params, r)
    ensures r.issued.Some? ==> var q := r.issued.value;
      q.verb == GET && q.baseUrl == BaseUrl && q.path == InfoPath &&
      Carries(GetInfoParamsSchema, params, q.params) && q.body == Undefined &&
      q.headers == Headers(c) && q.timeout == RequestTimeout &&
      r.outcome == Intercept(api, api.send(q))
  {
    match Parse(z, GetInfoParamsSchema, params)
    case Err(issues) => Exchange(None, Threw(ZodError(issues)))
    case Ok(parsed) => Send(api, Request(GET, BaseUrl, InfoPath, parsed, Undefined, Headers(c), RequestTimeout))
  }

  /** `getSlots(params)`: validate, then GET /v1/slots with the parsed params. */
  function GetSlots(z: Zod, api: Api, c: MeetbotClient, params: Json): (r: Exchange)
    requires ValidConfig(c.config)
    ensures ValidatesFirst(z, GetSlotsParamsSchema, params, r)
    ensures r.issued.Some? ==> var q := r.issued.value;
      q.verb == GET && q.baseUrl == BaseUrl && q.path == SlotsPath &&
      Carries(GetSlotsParamsSchema, params, q.params) && q.body == Undefined &&
      q.headers == Headers(c) && q.timeout == RequestTimeout &&
      r.outcome == Intercept(api, api.send(q))
  {
    match Parse(z, GetSlotsParamsSchema, params)
    case Err(issues) => Exchange(None, Threw(ZodError(issues)))
    case Ok(parsed) => Send(api, Request(GET, BaseUrl, SlotsPath, parsed, Undefined, Headers(c), RequestTimeout))
  }

  /** `bookSlot(request)`: validate, then POST /v1/book with the parsed request as body. */
  function BookSlot(z: Zod, api: Api, c: MeetbotClient, request: Json): (r: Exchange)
    requires ValidConfig(c.config)
    ensures ValidatesFirst(z, BookSlotRequestSchema, request, r)
    ensures r.issued.Some? ==> var q := r.issued.value;
      q.verb == POST && q.baseUrl == BaseUrl && q.path == BookPath &&
      q.params == Undefined && Carries(BookSlotRequestSchema, request, q.body) &&
      q.headers == Headers(c) && q.timeout == RequestTimeout &&
      r.outcome == Intercept(api, api.send(q))
  {
    match Parse(z, BookSlotRequestSchema, request)
    case Err(issues) => Exchange(None, Threw(ZodError(issues)))
    case Ok(parsed) => Send(api, Request(POST, BaseUrl, BookPath, Undefined, parsed, Headers(c), RequestTimeout))
  }

  /** A page that is not a URL is refused before any request goes out. */
  lemma InvalidPageSendsNothing(z: Zod, api: Api, c: MeetbotClient, params: Json)
    requires ValidConfig(c.config)
    requires Get(params, "page").Str? && !z.isUrl(Get(params, "page").s)
    ensures GetPageInfo(z, api, c, params).issued.None?
    ensures GetSlots(z, api, c, params).issued.None?
    ensures BookSlot(z, api, c, params).issued.None?
  {
    assert !Accepts(z, GetInfoParamsSchema, params) by {
      assert !FieldOk(z, GetInfoParamsShape.fields[0], params);
    }
    assert !Accepts(z, GetSlotsParamsSchema, params) by {
      assert !FieldOk(z, GetSlotsParamsShape.fields[0], params);
    }
    assert !Accepts(z, BookSlotRequestSchema, params) by {
      assert !FieldOk(z, BookSlotRequestShape.fields[0], params);
    }
  }

  // ---------------------------------------------------------------- health check

  /** The health-check request: GET /v1/pages with a 5000 ms timeout. */
  function HealthRequest(c: MeetbotClient): (r: Request)
    requires ValidConfig(c.config)
    ensures r.verb == GET && r.path == PagesPath && r.timeout == HealthCheckTimeout && r.headers == Headers(c)
  {
    Request(GET, BaseUrl, PagesPath, Undefined, Undefined, Headers(c), HealthCheckTimeout)
  }

  /** An axios failure that carries a response with a status in 400..499. */
  predicate ClientErrorStatus(e: Thrown)
  {
    e.AxiosError? && e.response.Some? && 400 <= e.response.value.status < 500
  }

  /**
   * The catch block's decision, applied to whatever reaches it: true after a
   * success, and for an axios error whose status is 401, 403 or otherwise
   * truthy and in 400..499; false for everything else.
   */
  function CatchDecision(out: Outcome): (r: bool)
    ensures out.Returned? ==> r
    ensures out.Threw? ==> (r <==> ClientErrorStatus(out.error))
  {
    match out
    case Returned(_) => true
    case Threw(e) =>
      if e.AxiosError? && e.response.Some? then
        var status := e.response.value.status;
        status == 401 || status == 403 || (status != 0 && status >= 400 && status < 500)
      else false
  }

  /**
   * `healthCheck()` as written: the catch block sees the error after the
   * response interceptor has rewritten it, so a 4xx response with a body
   * arrives as a plain `Error` and is classified as unreachable.
   */
  function HealthCheckAsWritten(api: Api, c: MeetbotClient): (r: bool)
    requires ValidConfig(c.config)
    ensures var raw := api.send(HealthRequest(c));
      (raw.Returned? ==> r) &&
      (raw.Threw? && ClientErrorStatus(raw.error) ==> (r <==> !HasBody(raw.error))) &&
      (raw.Threw? && !ClientErrorStatus(raw.error) ==> !r)
  {
    CatchDecision(Intercept(api, api.send(HealthRequest(c))))
  }

  /**
   * `healthCheck()` as its comments intend: reachable when the request
   * succeeds or is answered with any status in 400..499 (401 and 403
   * included); unreachable on a network error, a 5xx, any other status or a
   * non-axios error.
   */
  function HealthCheck(api: Api, c: MeetbotClient): (r: bool)
    requires ValidConfig(c.config)
    ensures var raw := api.send(HealthRequest(c));
      (raw.Returned? ==> r) &&
      (raw.Threw? ==> (r <==> ClientErrorStatus(raw.error)))
  {
    CatchDecision(api.send(HealthRequest(c)))
  }

  /** The two agree except on a 4xx response that carries a body. */
  lemma HealthCheckDiffersOnlyOnBody(api: Api, c: MeetbotClient)
    requires ValidConfig(c.config)
    ensures var raw := api.send(HealthRequest(c));
      HealthCheckAsWritten(api, c) != HealthCheck(api, c) <==>
        raw.Threw? && ClientErrorStatus(raw.error) && HasBody(raw.error)
  {
  }

  /** An invalid token: the server answers 401 with a JSON error body. */
  const Unauthorized := Threw(AxiosError(Some(HttpResponse(401, Single("error", "Unauthorized"))),
                                         "Request failed with status code 401"))

  /**
   * With a 401 carrying a body, the code as written reports the API as
   * unreachable, while the intended classification reports it reachable.
   */
  lemma UnauthorizedWithBody(api: Api, c: MeetbotClient)
    requires ValidConfig(c.config)
    requires api.send(HealthRequest(c)) == Unauthorized
    ensures !HealthCheckAsWritten(api, c)
    ensures HealthCheck(api, c)
  {
    assert Truthy(Single("error", "Unauthorized"));
  }
}
