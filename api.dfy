/** The OpenWebUI HTTP client: request shaping for the three endpoints and the classification
    of a transport outcome into a decoded reply or one of four error kinds. The HTTP session
    itself is a parameter `send` from a request to its outcome. */
module Api {
  import opened Values
  import opened Text

  /** The client's error kinds. Timeout, communication and JSON errors refine the generic
      client error, which the callers catch as the base kind. */
  datatype ApiError =
    | ClientError          // something really went wrong
    | CommError            // transport, DNS or HTTP status failure
    | TimeoutError         // the per-request deadline expired
    | JsonError(payload: Json)  // a 404 whose JSON body names the error

  /** A failure of a client call: an error of the client, or a lookup in the decoded reply
      that raised outside the client (KeyError, IndexError or TypeError). */
  datatype Failure = Api(error: ApiError) | Lookup

  datatype Method = Get | Post

  /** One request to the session; `timeout` is the deadline in seconds it runs under. */
  datatype Request = Request(
    verb: Method,
    url: string,
    headers: Option<map<string, string>>,
    data: Option<Json>,
    verifySsl: bool,
    timeout: int)

  /** How reading the body as JSON ends: a value, a content type other than JSON (aiohttp's
      ContentTypeError, a client error) or text that is not JSON (a decoder ValueError). */
  datatype Decoded = Parsed(value: Json) | WrongContentType | Malformed

  datatype Body = Body(text: string, json: Decoded)

  /** What the session does with one request under the per-request deadline. A failure that
      is both a client-library error and a timeout (aiohttp's ServerTimeoutError and its
      subclasses) meets the timeout handler first, so it is `TimedOut`. */
  datatype Outcome =
    | TimedOut              // asyncio.TimeoutError: the deadline, or the library's own timeouts
    | ConnectionFailed      // any other aiohttp.ClientError
    | NameResolutionFailed  // socket.gaierror
    | OtherFailure          // any other exception
    | Response(status: int, body: Body)

  datatype Reply = JsonReply(json: Json) | TextReply(text: string)

  /** The client's fixed configuration. */
  datatype Client = Client(baseUrl: string, apiKey: string, timeout: int, verifySsl: bool)

  /** The client constructor: the base URL is kept without any trailing '/'. */
  function NewClient(baseUrl: string, apiKey: string, timeout: int, verifySsl: bool): (c: Client)
    ensures |c.baseUrl| <= |baseUrl| && baseUrl[..|c.baseUrl|] == c.baseUrl
    ensures AllSlashes(baseUrl[|c.baseUrl|..])
    ensures c.baseUrl == [] || c.baseUrl[|c.baseUrl| - 1] != '/'
    ensures c.apiKey == apiKey && c.timeout == timeout && c.verifySsl == verifySsl
  {
    Client(TrimTrailingSlashes(baseUrl), apiKey, timeout, verifySsl)
  }

  /** Trimming is insensitive to how many '/' the configured URL ends with. */
  lemma {:induction false} NewClientIgnoresTrailingSlashes(baseUrl: string, apiKey: string, timeout: int, verifySsl: bool)
    ensures NewClient(baseUrl + "/", apiKey, timeout, verifySsl) == NewClient(baseUrl, apiKey, timeout, verifySsl)
    ensures NewClient(NewClient(baseUrl, apiKey, timeout, verifySsl).baseUrl, apiKey, timeout, verifySsl)
            == NewClient(baseUrl, apiKey, timeout, verifySsl)
  {
    var b := TrimTrailingSlashes(baseUrl);
    var slashes := baseUrl[|b|..];
    assert baseUrl == b + slashes;
    assert baseUrl + "/" == b + (slashes + "/");
    TrimTrailingSlashesOf(b, slashes + "/");
    TrimTrailingSlashesOf(b, []);
    assert b + [] == b;
  }

  const HEALTH_PATH: string := "/health"
  const MODELS_PATH: string := "/api/models"
  const COMPLETIONS_PATH: string := "/api/chat/completions"

  /** Bearer authorisation and a JSON content type. */
  function AuthHeaders(apiKey: string): (h: map<string, string>)
    ensures h.Keys == {"Content-type", "Authorization"}
    ensures h["Authorization"] == "Bearer " + apiKey
    ensures h["Content-type"] == "application/json; charset=UTF-8"
  {
    map["Content-type" := "application/json; charset=UTF-8", "Authorization" := "Bearer " + apiKey]
  }

  /** GET base + "/health", without headers. */
  function HeartbeatRequest(c: Client): (r: Request)
    ensures r.verb == Get && r.headers.None? && r.data.None? && r.verifySsl == c.verifySsl
    ensures r.timeout == c.timeout
    ensures r.url == c.baseUrl + HEALTH_PATH
  {
    Request(Get, c.baseUrl + HEALTH_PATH, None, None, c.verifySsl, c.timeout)
  }

  /** GET base + "/api/models" with the authorisation headers. */
  function ModelsRequest(c: Client): (r: Request)
    ensures r.verb == Get && r.headers == Some(AuthHeaders(c.apiKey)) && r.data.None?
    ensures r.url == c.baseUrl + MODELS_PATH && r.verifySsl == c.verifySsl && r.timeout == c.timeout
  {
    Request(Get, c.baseUrl + MODELS_PATH, Some(AuthHeaders(c.apiKey)), None, c.verifySsl, c.timeout)
  }

  /** POST base + "/api/chat/completions" with the authorisation headers and the payload. */
  function GenerateRequest(c: Client, data: Json): (r: Request)
    ensures r.verb == Post && r.headers == Some(AuthHeaders(c.apiKey)) && r.data == Some(data)
    ensures r.url == c.baseUrl + COMPLETIONS_PATH && r.verifySsl == c.verifySsl && r.timeout == c.timeout
  {
    Request(Post, c.baseUrl + COMPLETIONS_PATH, Some(AuthHeaders(c.apiKey)), Some(data), c.verifySsl, c.timeout)
  }

  /** Every endpoint URL is the base followed by exactly one '/' and the path: the trimmed
      base never doubles the separator. */
  lemma EndpointSeparator(c: Client, path: string, baseUrl: string, apiKey: string, timeout: int, verifySsl: bool)
    requires c == NewClient(baseUrl, apiKey, timeout, verifySsl)
    requires path in {HEALTH_PATH, MODELS_PATH, COMPLETIONS_PATH}
    ensures var url := c.baseUrl + path;
      url[|c.baseUrl|] == '/' && (|c.baseUrl| == 0 || url[|c.baseUrl| - 1] != '/')
  {
  }

  /** The exception the body of the request helper raises, before the handlers rewrap it. */
  datatype Raised =
    | RaisedTimeout
    | RaisedClientLibrary   // aiohttp.ClientError, including raise_for_status and ContentTypeError
    | RaisedNameResolution
    | RaisedJson(payload: Json)
    | RaisedOther           // KeyError, TypeError, ValueError, anything else

  /** Reading the body as JSON. */
  function ReadJson(b: Body): Result<Json, Raised> {
    match b.json
    case Parsed(j) => Ok(j)
    case WrongContentType => Err(RaisedClientLibrary)
    case Malformed => Err(RaisedOther)
  }

  /** The body of the request helper, up to what it returns or raises. */
  function Attempt(o: Outcome, decodeJson: bool): Result<Reply, Raised> {
    match o
    case TimedOut => Err(RaisedTimeout)
    case ConnectionFailed => Err(RaisedClientLibrary)
    case NameResolutionFailed => Err(RaisedNameResolution)
    case OtherFailure => Err(RaisedOther)
    case Response(status, body) =>
      if status == 404 && decodeJson then
        match ReadJson(body)
        case Err(e) => Err(e)
        case Ok(j) => (match Field(j, "error") case Some(e) => Err(RaisedJson(e)) case None => Err(RaisedOther))
      else if status >= 400 then Err(RaisedClientLibrary)
      else if decodeJson then
        match ReadJson(body) case Err(e) => Err(e) case Ok(j) => Ok(JsonReply(j))
      else Ok(TextReply(body.text))
  }

  /** The handlers, in order: a JSON error passes through unchanged, a timeout becomes a
      timeout error, a client-library or name-resolution error a communication error and
      anything else the generic client error. */
  function Rewrap(e: Raised): ApiError {
    match e
    case RaisedJson(p) => JsonError(p)
    case RaisedTimeout => TimeoutError
    case RaisedClientLibrary => CommError
    case RaisedNameResolution => CommError
    case RaisedOther => ClientError
  }

  /** Independent statement of when the helper succeeds. */
  predicate Succeeds(o: Outcome, decodeJson: bool) {
    && o.Response?
    && o.status < 400
    && !(o.status == 404 && decodeJson)
    && (decodeJson ==> o.body.json.Parsed?)
  }

  /** The request helper: a total classification of the transport outcome. */
  function ApiWrapper(o: Outcome, decodeJson: bool): (r: Result<Reply, ApiError>)
    ensures r.Ok? <==> Succeeds(o, decodeJson)
    ensures r.Ok? ==> (if decodeJson then r.value == JsonReply(o.body.json.value)
                       else r.value == TextReply(o.body.text))
    // a timeout is a timeout error, never a communication error, and only a timeout is
    ensures r == Err(TimeoutError) <==> o.TimedOut?
    // a JSON error comes only from a decoded 404 body carrying an error field
    ensures r.Err? && r.error.JsonError? <==>
      && o.Response? && o.status == 404 && decodeJson && o.body.json.Parsed?
      && Field(o.body.json.value, "error").Some?
    ensures r.Err? && r.error.JsonError? ==> r.error.payload == o.body.json.value.fields["error"]
    // any other failing status, and every transport or name-resolution failure, is a
    // communication error
    ensures o.ConnectionFailed? || o.NameResolutionFailed? ==> r == Err(CommError)
    ensures o.Response? && o.status >= 400 && !(o.status == 404 && decodeJson) ==> r == Err(CommError)
    ensures o.OtherFailure? ==> r == Err(ClientError)
    // reading the body as JSON: a wrong content type is a communication error, text that
    // is not JSON or a 404 body without "error" the generic client error
    ensures r == Err(CommError) <==>
      || o.ConnectionFailed? || o.NameResolutionFailed?
      || (o.Response? && o.status >= 400 && !(o.status == 404 && decodeJson))
      || (o.Response? && decodeJson && (o.status < 400 || o.status == 404) && o.body.json.WrongContentType?)
    ensures r == Err(ClientError) <==>
      || o.OtherFailure?
      || (o.Response? && decodeJson && (o.status < 400 || o.status == 404) && o.body.json.Malformed?)
      || (o.Response? && decodeJson && o.status == 404 && o.body.json.Parsed?
          && Field(o.body.json.value, "error").None?)
  {
    match Attempt(o, decodeJson)
    case Ok(reply) => Ok(reply)
    case Err(e) => Err(Rewrap(e))
  }

  /** `async_get_heartbeat`: whether the health body's "status" compares equal to True. */
  function Heartbeat(c: Client, send: Request -> Outcome): (r: Result<bool, Failure>)
    ensures var w := ApiWrapper(send(HeartbeatRequest(c)), true);
      && (w.Err? <==> r.Err? && r.error.Api?)
      && (w.Err? ==> r == Err(Api(w.error)))
      && (w.Ok? ==> (r == Err(Lookup) <==> Field(w.value.json, "status").None?))
      && (r.Ok? ==> (r.value <==> EqualsTrue(Field(w.value.json, "status").value)))
  {
    var w := ApiWrapper(send(HeartbeatRequest(c)), true);
    if w.Err? then Err(Api(w.error))
    else
      match Field(w.value.json, "status")
      case None => Err(Lookup)
      case Some(status) => Ok(EqualsTrue(status))
  }

  /** `async_get_models`: the decoded body of the models endpoint. */
  function GetModels(c: Client, send: Request -> Outcome): (r: Result<Json, ApiError>)
    ensures var o := send(ModelsRequest(c));
      (r.Ok? <==> Succeeds(o, true)) && (r.Ok? ==> r.value == o.body.json.value)
    // the helper's error reaches the caller unchanged
    ensures var w := ApiWrapper(send(ModelsRequest(c)), true);
      (r.Err? <==> w.Err?) && (r.Err? ==> r.error == w.error)
  {
    match ApiWrapper(send(ModelsRequest(c)), true)
    case Ok(reply) => Ok(reply.json)
    case Err(e) => Err(e)
  }

  /** `async_generate`: the decoded body of the chat-completion endpoint. */
  function Generate(c: Client, send: Request -> Outcome, data: Json): (r: Result<Json, ApiError>)
    ensures var o := send(GenerateRequest(c, data));
      && (r.Ok? <==> Succeeds(o, true)) && (r.Ok? ==> r.value == o.body.json.value)
      && (o.TimedOut? <==> r == Err(TimeoutError))
    // the helper's error reaches the caller unchanged
    ensures var w := ApiWrapper(send(GenerateRequest(c, data)), true);
      (r.Err? <==> w.Err?) && (r.Err? ==> r.error == w.error)
  {
    match ApiWrapper(send(GenerateRequest(c, data)), true)
    case Ok(reply) => Ok(reply.json)
    case Err(e) => Err(e)
  }
}
