/**
 * The transport core of the client (lexware/client.go): construction-time
 * defaulting of the configuration, the request doRequest and doRequestRaw
 * build, how a reply is classified into a payload or an APIError, and the
 * Route record every resource method is reduced to.
 *
 * The HTTP exchange itself is a parameter: a function from the request
 * sent to the reply received (status and body, or a transport failure).
 * JSON encoding of a request body is represented by its result (Payload);
 * JSON decoding of a response is a parameter that may fail.
 */
module Transport {
  import opened Text

  // ---------------------------------------------------------------------
  // Construction (NewClient, NewClientWithConfig)
  // ---------------------------------------------------------------------

  const DefaultBaseURL: string := "https://api.lexware.io"

  /** time.Second: durations are counted in nanoseconds. */
  const Second: int := 1_000_000_000

  const DefaultTimeout: int := 30 * Second

  /** The HTTP execution settings the client holds (an *http.Client). */
  datatype HttpClient = HttpClient(timeout: int)

  /** lexware.Config; HTTPClient is a pointer and may be nil. */
  datatype Config = Config(baseURL: string, apiKey: string, httpClient: Option<HttpClient>, timeout: int)

  /** The immutable part of lexware.Client that every request reads. */
  datatype Client = Client(baseURL: string, apiKey: string, httpClient: HttpClient)

  /**
   * NewClientWithConfig: an empty API key is refused; an empty base URL
   * becomes DefaultBaseURL; a supplied HTTP client is kept as it is (the
   * Timeout field is then ignored); otherwise a new one gets Timeout, or
   * DefaultTimeout when Timeout is zero.
   */
  function NewClientWithConfig(config: Config): (r: Result<Client, string>)
    ensures r.Failure? <==> config.apiKey == ""
    ensures r.Success? ==> r.value.apiKey == config.apiKey && r.value.baseURL != ""
    ensures r.Success? && config.baseURL != "" ==> r.value.baseURL == config.baseURL
    ensures r.Success? && config.baseURL == "" ==> r.value.baseURL == DefaultBaseURL
    ensures r.Success? && config.httpClient.Some? ==> r.value.httpClient == config.httpClient.value
    ensures r.Success? && config.httpClient.None? ==> r.value.httpClient.timeout != 0
    ensures r.Success? && config.httpClient.None? && config.timeout != 0 ==>
              r.value.httpClient.timeout == config.timeout
    ensures r.Success? && config.httpClient.None? && config.timeout == 0 ==>
              r.value.httpClient.timeout == DefaultTimeout
  {
    if config.apiKey == "" then Failure("API key is required")
    else
      var baseURL := if config.baseURL == "" then DefaultBaseURL else config.baseURL;
      var httpClient :=
        if config.httpClient.Some? then config.httpClient.value
        else HttpClient(if config.timeout == 0 then DefaultTimeout else config.timeout);
      Success(Client(baseURL, config.apiKey, httpClient))
  }

  /** NewClient: a configuration holding only the API key. */
  function NewClient(apiKey: string): (r: Result<Client, string>)
    ensures r.Failure? <==> apiKey == ""
    ensures r.Success? ==> r.value == Client(DefaultBaseURL, apiKey, HttpClient(DefaultTimeout))
  {
    NewClientWithConfig(Config("", apiKey, None, 0))
  }

  /** The configuration that describes an existing client. */
  function ConfigOf(c: Client): Config
  {
    Config(c.baseURL, c.apiKey, Some(c.httpClient), 0)
  }

  /** Defaulting is settled after one pass: configuring again from the result changes nothing. */
  lemma DefaultingIsStable(config: Config)
    requires config.apiKey != ""
    ensures NewClientWithConfig(config).Success?
    ensures NewClientWithConfig(ConfigOf(NewClientWithConfig(config).value)) == NewClientWithConfig(config)
  {
  }

  // ---------------------------------------------------------------------
  // APIError
  // ---------------------------------------------------------------------

  const ErrorPrefix: string := "Lexware API error (status "

  /** A non-success reply: its status code and the raw body text, unparsed. */
  datatype ApiError = ApiError(statusCode: int, body: string) {
    predicate IsNotFound() { statusCode == 404 }
    predicate IsConflict() { statusCode == 409 }
    predicate IsRateLimited() { statusCode == 429 }
    predicate IsUnauthorized() { statusCode == 401 }

    /** Error(): "Lexware API error (status <code>): <body>". */
    function Error(): (m: string)
      ensures |m| >= |ErrorPrefix| && m[..|ErrorPrefix|] == ErrorPrefix
    {
      ErrorPrefix + Itoa(statusCode) + "): " + body
    }
  }

  /** The four discriminators are mutually exclusive. */
  lemma DiscriminatorsExclusive(e: ApiError)
    ensures e.IsNotFound() ==> !e.IsConflict() && !e.IsRateLimited() && !e.IsUnauthorized()
    ensures e.IsConflict() ==> !e.IsRateLimited() && !e.IsUnauthorized()
    ensures e.IsRateLimited() ==> !e.IsUnauthorized()
  {
  }

  /** Reads an error message back into the status code and body it reports. */
  function ParseErrorMessage(m: string): Option<ApiError>
  {
    if |m| < |ErrorPrefix| || m[..|ErrorPrefix|] != ErrorPrefix then None
    else
      var rest := m[|ErrorPrefix|..];
      var i := IndexOf(rest, ')');
      if i + 3 > |rest| || rest[i..i + 3] != "): " then None
      else
        match ParseDecimal(rest[..i])
        case None => None
        case Some(code) => Some(ApiError(code, rest[i + 3..]))
  }

  /** The message loses nothing: status code and body can be read back from it. */
  lemma ErrorMessageRoundTrip(e: ApiError)
    ensures ParseErrorMessage(e.Error()) == Some(e)
  {
    var digits := Itoa(e.statusCode);
    var m := e.Error();
    var rest := m[|ErrorPrefix|..];
    assert rest == digits + [')'] + (": " + e.body);
    assert ')' !in digits by {
      if e.statusCode < 0 {
        assert digits == [digits[0]] + digits[1..];
      }
    }
    IndexOfAfter(digits, ": " + e.body, ')');
    assert rest[..|digits|] == digits;
    assert rest[|digits| + 3..] == e.body;
    ItoaRoundTrip(e.statusCode);
  }

  // ---------------------------------------------------------------------
  // Requests and replies
  // ---------------------------------------------------------------------

  type Headers = map<string, string>

  const Json: string := "application/json"

  /** One part of a multipart/form-data body. */
  datatype FormPart =
    | FilePart(field: string, filename: string, content: string)
    | FieldPart(field: string, value: string)

  datatype Body =
    | NoBody
    | JsonBody(text: string)
    | FormBody(parts: seq<FormPart>, boundary: string)

  /** An http.Request as far as the client fills it in. */
  datatype HttpRequest = HttpRequest(httpMethod: string, url: string, headers: Headers, body: Body)

  /** The result of json.Marshal on a call's body argument; Absent is a nil body. */
  datatype Payload = Absent | Marshalled(json: string) | Unmarshallable

  /** A byte source as io.ReadAll sees it: it yields all of text, or fails after a prefix. */
  datatype Readable = Complete(text: string) | FailsAfter(prefix: string) {
    /** What io.ReadAll returns beside its error, if any. */
    function Text(): string
    {
      if Complete? then text else prefix
    }
  }

  /** What httpClient.Do answers: a transport failure, or a status and a body. */
  datatype Reply = TransportFailed | Response(status: int, body: Readable)

  /** The HTTP exchange, taken as an oracle from request to reply. */
  type Transport = HttpRequest -> Reply

  /** The client's own failures, one per wrapped error message of the source. */
  datatype LocalError =
    | MarshalFailed     // "failed to marshal request body"
    | ExecuteFailed     // "failed to execute request", or the bare error of doRequestRaw
    | ReadFailed        // "failed to read response body"
    | UnmarshalFailed   // "failed to unmarshal response"
    | CopyFailed        // "failed to copy file content"

  /** What a call hands back: a value, an APIError, or a local failure. */
  datatype Outcome<+T> = Ok(value: T) | ApiErr(err: ApiError) | LocalErr(cause: LocalError)

  predicate IsSuccess(status: int) { 200 <= status < 300 }

  function BodyFor(payload: Payload): Body
  {
    if payload.Marshalled? then JsonBody(payload.json) else NoBody
  }

  /**
   * The request doRequest sends: baseURL + path, "Authorization: Bearer
   * <key>", "Accept: application/json", and "Content-Type:
   * application/json" exactly when there is a body. A body that cannot be
   * encoded stops the call before anything is sent.
   */
  function JsonRequest(c: Client, httpMethod: string, path: string, payload: Payload): (r: Result<HttpRequest, LocalError>)
    ensures r.Failure? <==> payload.Unmarshallable?
    ensures r.Failure? ==> r.error == MarshalFailed
    ensures r.Success? ==> r.value.httpMethod == httpMethod && r.value.url == c.baseURL + path
    ensures r.Success? ==> r.value.body == BodyFor(payload)
    ensures r.Success? ==> "Authorization" in r.value.headers && r.value.headers["Authorization"] == "Bearer " + c.apiKey
    ensures r.Success? ==> "Accept" in r.value.headers && r.value.headers["Accept"] == Json
    ensures r.Success? ==> ("Content-Type" in r.value.headers <==> payload.Marshalled?)
    ensures r.Success? && payload.Marshalled? ==> r.value.headers["Content-Type"] == Json
    ensures r.Success? ==> r.value.headers.Keys <= {"Authorization", "Accept", "Content-Type"}
  {
    if payload.Unmarshallable? then Failure(MarshalFailed)
    else
      var base := map["Authorization" := "Bearer " + c.apiKey, "Accept" := Json];
      var headers := if payload.Marshalled? then base["Content-Type" := Json] else base;
      Success(HttpRequest(httpMethod, c.baseURL + path, headers, BodyFor(payload)))
  }

  /**
   * How doRequest reads a reply: the body is read in full first (a failed
   * read is a local error whatever the status); a status in [200,300)
   * yields the body; any other status yields APIError{status, body}.
   */
  function Classify(reply: Reply): (o: Outcome<string>)
    ensures reply.TransportFailed? ==> o == LocalErr(ExecuteFailed)
    ensures reply.Response? && reply.body.FailsAfter? ==> o == LocalErr(ReadFailed)
    ensures reply.Response? && reply.body.Complete? ==>
              && (o.Ok? <==> IsSuccess(reply.status))
              && (o.Ok? ==> o.value == reply.body.text)
              && (!o.Ok? ==> o == ApiErr(ApiError(reply.status, reply.body.text)))
  {
    match reply
    case TransportFailed => LocalErr(ExecuteFailed)
    case Response(status, body) =>
      if body.FailsAfter? then LocalErr(ReadFailed)
      else if status < 200 || status >= 300 then ApiErr(ApiError(status, body.text))
      else Ok(body.text)
  }

  /** doRequest (lexware/client.go:138-175). */
  function DoRequest(c: Client, httpMethod: string, path: string, payload: Payload, send: Transport): (o: Outcome<string>)
    ensures payload.Unmarshallable? <==> o == LocalErr(MarshalFailed)
    ensures !payload.Unmarshallable? ==>
              var reply := send(JsonRequest(c, httpMethod, path, payload).value);
              && (o.Ok? <==> reply.Response? && reply.body.Complete? && IsSuccess(reply.status))
              && (o.Ok? ==> o.value == reply.body.text)
              && (o.ApiErr? <==> reply.Response? && reply.body.Complete? && !IsSuccess(reply.status))
              && (o.ApiErr? ==> o.err == ApiError(reply.status, reply.body.text))
  {
    match JsonRequest(c, httpMethod, path, payload)
    case Failure(e) => LocalErr(e)
    case Success(req) => Classify(send(req))
  }

  /** The headers doRequestRaw sends: Authorization, then each override, which wins. */
  function RawHeaders(apiKey: string, overrides: Headers): (h: Headers)
    ensures h.Keys == {"Authorization"} + overrides.Keys
    ensures forall k :: k in overrides ==> h[k] == overrides[k]
    ensures "Authorization" !in overrides ==> h["Authorization"] == "Bearer " + apiKey
  {
    map["Authorization" := "Bearer " + apiKey] + overrides
  }

  /** The header loop of doRequestRaw (lexware/client.go:192-195), one Header.Set per override. */
  method SetRawHeaders(apiKey: string, overrides: Headers) returns (h: Headers)
    ensures h == RawHeaders(apiKey, overrides)
  {
    h := map["Authorization" := "Bearer " + apiKey];
    var done: set<string> := {};
    while done != overrides.Keys
      invariant done <= overrides.Keys
      invariant h == map["Authorization" := "Bearer " + apiKey] + (map k | k in done :: overrides[k])
      decreases |overrides.Keys - done|
    {
      var k :| k in overrides.Keys - done;
      h := h[k := overrides[k]];
      done := done + {k};
    }
    assert (map k | k in done :: overrides[k]) == overrides;
  }

  /**
   * The request doRequestRaw sends: like doRequest's, but with no default
   * Accept and no Content-Type; the caller's header overrides are applied.
   */
  function RawRequest(c: Client, httpMethod: string, path: string, payload: Payload, overrides: Headers): (r: Result<HttpRequest, LocalError>)
    ensures r.Failure? <==> payload.Unmarshallable?
    ensures r.Success? ==> r.value == HttpRequest(httpMethod, c.baseURL + path, RawHeaders(c.apiKey, overrides), BodyFor(payload))
  {
    if payload.Unmarshallable? then Failure(MarshalFailed)
    else Success(HttpRequest(httpMethod, c.baseURL + path, RawHeaders(c.apiKey, overrides), BodyFor(payload)))
  }

  /**
   * How every download reads a reply: only status 200 succeeds, handing
   * back the body unread; any other status, 201 and 204 included, yields
   * APIError{status, whatever of the body could be read}.
   */
  function ClassifyDownload(reply: Reply): (o: Outcome<Readable>)
    ensures reply.TransportFailed? ==> o == LocalErr(ExecuteFailed)
    ensures o.Ok? <==> reply.Response? && reply.status == 200
    ensures o.Ok? ==> o.value == reply.body
    ensures reply.Response? && reply.status != 200 ==> o == ApiErr(ApiError(reply.status, reply.body.Text()))
  {
    match reply
    case TransportFailed => LocalErr(ExecuteFailed)
    case Response(status, body) =>
      if status != 200 then ApiErr(ApiError(status, body.Text())) else Ok(body)
  }

  /** Downloads succeed on fewer statuses than doRequest: every download success is a doRequest success, not conversely. */
  lemma DownloadIsStricter(reply: Reply)
    ensures reply.Response? && reply.body.Complete? && ClassifyDownload(reply).Ok? ==> Classify(reply).Ok?
    ensures reply.Response? && reply.body.Complete? && reply.status in {201, 204} ==>
              Classify(reply).Ok? && ClassifyDownload(reply).ApiErr?
  {
  }

  /**
   * How vouchers' UploadFile reads a reply: a status in [200,300) succeeds
   * without the body being read; any other status yields APIError{status,
   * whatever of the body could be read}.
   */
  function ClassifyStatus(reply: Reply): (o: Outcome<()>)
    ensures reply.TransportFailed? ==> o == LocalErr(ExecuteFailed)
    ensures o.Ok? <==> reply.Response? && IsSuccess(reply.status)
    ensures reply.Response? && !IsSuccess(reply.status) ==> o == ApiErr(ApiError(reply.status, reply.body.Text()))
  {
    match reply
    case TransportFailed => LocalErr(ExecuteFailed)
    case Response(status, body) =>
      if status < 200 || status >= 300 then ApiErr(ApiError(status, body.Text())) else Ok(())
  }

  /** A body that fails to read makes doRequest fail, but not a 2xx UploadFile reply, which is never read. */
  lemma StatusOnlyIgnoresBody(status: int, prefix: string)
    requires IsSuccess(status)
    ensures Classify(Response(status, FailsAfter(prefix))) == LocalErr(ReadFailed)
    ensures ClassifyStatus(Response(status, FailsAfter(prefix))) == Ok(())
  {
  }

  /** The Content-Type of a multipart form written with the given boundary. */
  function MultipartContentType(boundary: string): string
  {
    "multipart/form-data; boundary=" + boundary
  }

  /**
   * The upload requests (files' Upload, vouchers' UploadFile): POST to
   * baseURL + path with the bearer key, the multipart Content-Type and a
   * JSON Accept, the form as body.
   */
  function MultipartRequest(c: Client, path: string, parts: seq<FormPart>, boundary: string): (r: HttpRequest)
    ensures r.httpMethod == "POST" && r.url == c.baseURL + path
    ensures r.headers.Keys == {"Authorization", "Content-Type", "Accept"}
    ensures r.headers["Authorization"] == "Bearer " + c.apiKey
    ensures r.headers["Content-Type"] == MultipartContentType(boundary)
    ensures r.headers["Accept"] == Json
    ensures r.body == FormBody(parts, boundary)
  {
    var headers := map["Authorization" := "Bearer " + c.apiKey,
                       "Content-Type" := MultipartContentType(boundary),
                       "Accept" := Json];
    HttpRequest("POST", c.baseURL + path, headers, FormBody(parts, boundary))
  }

  // ---------------------------------------------------------------------
  // Decoding the payload
  // ---------------------------------------------------------------------

  /** json.Unmarshal after a successful call; errors pass through untouched. */
  function Unmarshal<T>(o: Outcome<string>, decode: string -> Option<T>): (r: Outcome<T>)
    ensures r.Ok? <==> o.Ok? && decode(o.value).Some?
    ensures r.Ok? ==> r.value == decode(o.value).value
    ensures o.Ok? && decode(o.value).None? ==> r == LocalErr(UnmarshalFailed)
    ensures o.ApiErr? ==> r == ApiErr(o.err)
    ensures o.LocalErr? ==> r == LocalErr(o.cause)
  {
    match o
    case Ok(text) => (match decode(text) case Some(v) => Ok(v) case None => LocalErr(UnmarshalFailed))
    case ApiErr(e) => ApiErr(e)
    case LocalErr(e) => LocalErr(e)
  }

  /** A call that returns only its error (Delete, RenderDocument): the body is dropped. */
  function ErrorOnly<T>(o: Outcome<T>): (r: Outcome<()>)
    ensures r.Ok? <==> o.Ok?
    ensures o.ApiErr? ==> r == ApiErr(o.err)
    ensures o.LocalErr? ==> r == LocalErr(o.cause)
  {
    match o
    case Ok(_) => Ok(())
    case ApiErr(e) => ApiErr(e)
    case LocalErr(e) => LocalErr(e)
  }

  // ---------------------------------------------------------------------
  // Routes: one per resource method
  // ---------------------------------------------------------------------

  datatype Verb = GET | POST | PUT | DELETE {
    function Name(): string
    {
      match this
      case GET => "GET"
      case POST => "POST"
      case PUT => "PUT"
      case DELETE => "DELETE"
    }
  }

  /** Buffered: through doRequest. Download: through doRequestRaw, 200 only. */
  datatype Shape = Buffered | Download

  /** What a resource method sends: verb, path with query, Accept, whether a JSON body goes along, and how the reply is read. */
  datatype Route = Route(verb: Verb, target: string, accept: string, hasBody: bool, shape: Shape)

  function JsonRoute(verb: Verb, target: string, hasBody: bool): Route
  {
    Route(verb, target, Json, hasBody, Buffered)
  }

  function DownloadRoute(target: string, accept: string): Route
  {
    Route(GET, target, accept, false, Download)
  }

  /** The request a route sends for a call whose body argument marshals to payload. */
  function Prepare(c: Client, route: Route, payload: Payload): Result<HttpRequest, LocalError>
  {
    var sent := if route.hasBody then payload else Absent;
    match route.shape
    case Buffered => JsonRequest(c, route.verb.Name(), route.target, sent)
    case Download => RawRequest(c, route.verb.Name(), route.target, sent, map["Accept" := route.accept])
  }

  /** Runs a route: through doRequest, or through doRequestRaw and the 200-only check. */
  function Execute(c: Client, route: Route, payload: Payload, send: Transport): Outcome<Readable>
  {
    match route.shape
    case Buffered =>
      (match DoRequest(c, route.verb.Name(), route.target, if route.hasBody then payload else Absent, send)
       case Ok(text) => Ok(Complete(text))
       case ApiErr(e) => ApiErr(e)
       case LocalErr(e) => LocalErr(e))
    case Download =>
      match Prepare(c, route, payload)
      case Failure(e) => LocalErr(e)
      case Success(req) => ClassifyDownload(send(req))
  }

  /**
   * Every route sends the verb and target it names to baseURL + target,
   * with the bearer key, the route's Accept value, and a JSON
   * Content-Type exactly when a body goes along.
   */
  lemma PreparedRequest(c: Client, route: Route, payload: Payload)
    requires route.shape == Buffered ==> route.accept == Json
    requires route.shape == Download ==> !route.hasBody
    requires route.hasBody ==> !payload.Unmarshallable?
    ensures Prepare(c, route, payload).Success?
    ensures var req := Prepare(c, route, payload).value;
            && req.httpMethod == route.verb.Name()
            && req.url == c.baseURL + route.target
            && req.headers["Authorization"] == "Bearer " + c.apiKey
            && req.headers["Accept"] == route.accept
            && ("Content-Type" in req.headers <==> route.hasBody && payload.Marshalled?)
  {
  }

  /**
   * Whatever the route: a reply whose status lies outside [200,300) and
   * whose body reads in full becomes APIError carrying exactly that
   * status and that body.
   */
  lemma NonSuccessIsApiError(c: Client, route: Route, payload: Payload, send: Transport)
    requires route.hasBody ==> !payload.Unmarshallable?
    requires Prepare(c, route, payload).Success?
    requires var reply := send(Prepare(c, route, payload).value);
             reply.Response? && reply.body.Complete? && !IsSuccess(reply.status)
    ensures var reply := send(Prepare(c, route, payload).value);
            Execute(c, route, payload, send) == ApiErr(ApiError(reply.status, reply.body.text))
  {
  }
}
