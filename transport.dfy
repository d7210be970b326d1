/**
 * The authenticated HTTP client (internal/sevallaapi/client.go): default substitution in
 * NewClient, request construction, the status >= 400 dispatch of Get/Post/Put/Delete and the
 * error-message selection of handleError. The exchange itself (http.Client.Do, url.JoinPath,
 * json.Marshal/Decode, io.ReadAll) is not modelled: its outcomes are inputs.
 */
module Transport {
  import opened Wrappers

  const DefaultBaseURL: string := "https://api.sevalla.com/v2"
  /** 30 seconds, as a time.Duration in nanoseconds. */
  const DefaultTimeout: int := 30_000_000_000
  const BadRequestThreshold: int := 400

  /**
   * An error as the client layer returns it. Go has one error type; the constructors record
   * where it arose so that properties about HTTP failures can be stated. `text` is the Go
   * error string.
   */
  datatype ApiError =
    | RequestFailed(text: string)
    | HttpError(status: int, text: string)
    | DecodeFailed(text: string)

  /** Config: the values NewClient is called with. */
  datatype Config = Config(baseURL: string, token: string, timeout: int)

  /** An HTTP request as makeRequest builds it. */
  datatype Request = Request(verb: string, url: string, headers: map<string, string>, body: Option<string>)

  /** The `{error, message}` object an error body may decode to. */
  datatype ErrorObject = ErrorObject(error: string, message: string)

  /**
   * The body of an error response: unreadable (io.ReadAll failed), or read as `raw`, with
   * `parsed` the outcome of decoding it as an ErrorObject (None when json.Unmarshal fails).
   */
  datatype ErrorBody = ReadFailed | ReadBody(raw: string, parsed: Option<ErrorObject>)

  /** A received response: its status code and, for use when the status is an error, its body. */
  datatype Response = Response(status: int, body: ErrorBody)

  /** Client: the base URL, bearer token and timeout every request uses. */
  class Client {
    const baseURL: string
    const token: string
    const timeout: int

    /** NewClient: an empty base URL and a zero timeout are replaced by the defaults. */
    constructor (config: Config)
      ensures config.baseURL == "" ==> baseURL == DefaultBaseURL
      ensures config.baseURL != "" ==> baseURL == config.baseURL
      ensures config.timeout == 0 ==> timeout == DefaultTimeout
      ensures config.timeout != 0 ==> timeout == config.timeout
      ensures token == config.token
      ensures baseURL != "" && timeout != 0
    {
      var c := config;
      if c.baseURL == "" {
        c := c.(baseURL := DefaultBaseURL);
      }
      if c.timeout == 0 {
        c := c.(timeout := DefaultTimeout);
      }
      baseURL := c.baseURL;
      token := c.token;
      timeout := c.timeout;
    }

    /**
     * makeRequest up to the exchange: `body` is the outcome of json.Marshal when a body is
     * supplied, `joinPath` stands for url.JoinPath. The marshal error is reported before the
     * URL error.
     */
    method MakeRequest(verb: string, path: string, body: Option<Result<string, string>>,
                       joinPath: (string, string) -> Result<string, string>)
      returns (r: Result<Request, string>)
      ensures body.Some? && body.value.Failure? ==>
                r == Failure("failed to marshal request body: " + body.value.error)
      ensures (body.None? || body.value.Success?) && joinPath(baseURL, path).Failure? ==>
                r == Failure("failed to construct URL: " + joinPath(baseURL, path).error)
      ensures r.Success? <==> (body.None? || body.value.Success?) && joinPath(baseURL, path).Success?
      ensures r.Success? ==>
                && r.value.verb == verb
                && r.value.url == joinPath(baseURL, path).value
                && r.value.headers == map["Authorization" := "Bearer " + token,
                                          "Content-Type" := "application/json",
                                          "Accept" := "application/json"]
                && (r.value.body.Some? <==> body.Some?)
                && (body.Some? ==> r.value.body.value == body.value.value)
    {
      var reqBody: Option<string> := None;
      if body.Some? {
        if body.value.Failure? {
          return Failure("failed to marshal request body: " + body.value.error);
        }
        reqBody := Some(body.value.value);
      }
      var reqURL := joinPath(baseURL, path);
      if reqURL.Failure? {
        return Failure("failed to construct URL: " + reqURL.error);
      }
      var headers: map<string, string> := map[];
      headers := headers["Authorization" := "Bearer " + token];
      headers := headers["Content-Type" := "application/json"];
      headers := headers["Accept" := "application/json"];
      r := Success(Request(verb, reqURL.value, headers, reqBody));
    }
  }

  // ---------------------------------------------------------------- handleError

  function Digit(d: nat): char
    requires d < 10
  {
    "0123456789"[d]
  }

  /** The decimal digits of n, as fmt's %d prints them. */
  function NatToString(n: nat): string
    decreases n
  {
    if n < 10 then [Digit(n)] else NatToString(n / 10) + [Digit(n % 10)]
  }

  /** %d of an int. */
  function IntToString(i: int): string {
    if i < 0 then "-" + NatToString(-i) else NatToString(i)
  }

  /** The text every handleError message starts with. */
  function StatusPrefix(status: int): string {
    "HTTP " + IntToString(status) + ": "
  }

  /** unicode.IsSpace, which strings.TrimSpace trims by. */
  predicate IsSpace(c: char) {
    || c == '\t' || c == '\n' || c == '\U{000B}' || c == '\U{000C}' || c == '\r' || c == ' '
    || c == '\U{0085}' || c == '\U{00A0}' || c == '\U{1680}'
    || ('\U{2000}' <= c <= '\U{200A}')
    || c == '\U{2028}' || c == '\U{2029}' || c == '\U{202F}' || c == '\U{205F}' || c == '\U{3000}'
  }

  /** s without its leading white space. */
  function TrimLeft(s: string): (r: string)
    ensures |r| <= |s| && r == s[|s| - |r|..]
    ensures forall k :: 0 <= k < |s| - |r| ==> IsSpace(s[k])
    ensures r != [] ==> !IsSpace(r[0])
  {
    if s != [] && IsSpace(s[0]) then TrimLeft(s[1..]) else s
  }

  /** s without its trailing white space. */
  function TrimRight(s: string): (r: string)
    ensures |r| <= |s| && r == s[..|r|]
    ensures forall k :: |r| <= k < |s| ==> IsSpace(s[k])
    ensures r != [] ==> !IsSpace(r[|r| - 1])
  {
    if s != [] && IsSpace(s[|s| - 1]) then TrimRight(s[..|s| - 1]) else s
  }

  /**
   * strings.TrimSpace: the longest infix of s that neither starts nor ends with white
   * space, everything cut off on either side being white space.
   */
  function TrimSpace(s: string): (r: string)
    ensures exists i, j :: 0 <= i <= j <= |s| && r == s[i..j]
                           && (forall k :: 0 <= k < i ==> IsSpace(s[k]))
                           && (forall k :: j <= k < |s| ==> IsSpace(s[k]))
    ensures r != [] ==> !IsSpace(r[0]) && !IsSpace(r[|r| - 1])
  {
    var l := TrimLeft(s);
    var r := TrimRight(l);
    var i := |s| - |l|;
    assert r == s[i..i + |r|];
    assert forall k :: i + |r| <= k < |s| ==> s[k] == l[k - i];
    r
  }

  /**
   * handleError: the text of the error a status >= 400 produces. Every text starts with
   * "HTTP <status>: "; a non-empty `message` wins over a non-empty `error`, which wins over
   * the trimmed raw body; a body that does not decode gives the trimmed raw body, an
   * unreadable one a fixed text.
   */
  function HandleError(status: int, body: ErrorBody): (text: string)
    ensures StatusPrefix(status) <= text
    ensures body.ReadFailed? ==> text == StatusPrefix(status) + "failed to read error response"
    ensures body.ReadBody? && body.parsed.None? ==> text == StatusPrefix(status) + TrimSpace(body.raw)
    ensures body.ReadBody? && body.parsed.Some? && body.parsed.value.message != "" ==>
              text == StatusPrefix(status) + body.parsed.value.message
    ensures body.ReadBody? && body.parsed.Some? && body.parsed.value.message == ""
            && body.parsed.value.error != "" ==>
              text == StatusPrefix(status) + body.parsed.value.error
    ensures body.ReadBody? && body.parsed.Some? && body.parsed.value.message == ""
            && body.parsed.value.error == "" ==>
              text == StatusPrefix(status) + TrimSpace(body.raw)
  {
    var prefix := StatusPrefix(status);
    match body
    case ReadFailed => prefix + "failed to read error response"
    case ReadBody(raw, parsed) =>
      if parsed.None? then prefix + TrimSpace(raw)
      else if parsed.value.message != "" then prefix + parsed.value.message
      else if parsed.value.error != "" then prefix + parsed.value.error
      else prefix + TrimSpace(raw)
  }

  /** The error a failure status turns into. */
  function StatusError(resp: Response): ApiError {
    HttpError(resp.status, HandleError(resp.status, resp.body))
  }

  /** An error carrying a failure status and a handleError text for it. */
  predicate IsStatusError(e: ApiError, status: int) {
    e.HttpError? && e.status == status && status >= BadRequestThreshold && StatusPrefix(status) <= e.text
  }

  // ---------------------------------------------------------------- verbs

  /**
   * Client.Get: `sent` is the outcome of makeRequest and the exchange, `decoded` the outcome of
   * decoding a success body into the result.
   */
  function Get<T>(sent: Result<Response, string>, decoded: Result<T, string>): (r: Result<T, ApiError>)
    ensures sent.Failure? ==> r == Failure(RequestFailed(sent.error))
    ensures sent.Success? && sent.value.status >= BadRequestThreshold ==>
              r == Failure(StatusError(sent.value)) && IsStatusError(r.error, sent.value.status)
    ensures sent.Success? && sent.value.status < BadRequestThreshold ==>
              (decoded.Success? ==> r == Success(decoded.value))
              && (decoded.Failure? ==> r == Failure(DecodeFailed(decoded.error)))
    ensures (r.Failure? && r.error.HttpError?) <==> (sent.Success? && sent.value.status >= BadRequestThreshold)
  {
    match sent
    case Failure(e) => Failure(RequestFailed(e))
    case Success(resp) =>
      if resp.status >= BadRequestThreshold then Failure(StatusError(resp))
      else match decoded
        case Success(v) => Success(v)
        case Failure(e) => Failure(DecodeFailed(e))
  }

  /**
   * Client.Post and Client.Put (their bodies are the same): with `wantsResult` false (a nil
   * result) a success is Success(None) and the body is not decoded.
   */
  function Send<T>(sent: Result<Response, string>, wantsResult: bool, decoded: Result<T, string>)
    : (r: Result<Option<T>, ApiError>)
    ensures sent.Failure? ==> r == Failure(RequestFailed(sent.error))
    ensures sent.Success? && sent.value.status >= BadRequestThreshold ==>
              r == Failure(StatusError(sent.value)) && IsStatusError(r.error, sent.value.status)
    ensures sent.Success? && sent.value.status < BadRequestThreshold && !wantsResult ==> r == Success(None)
    ensures sent.Success? && sent.value.status < BadRequestThreshold && wantsResult ==>
              (decoded.Success? ==> r == Success(Some(decoded.value)))
              && (decoded.Failure? ==> r == Failure(DecodeFailed(decoded.error)))
    ensures (r.Failure? && r.error.HttpError?) <==> (sent.Success? && sent.value.status >= BadRequestThreshold)
  {
    match sent
    case Failure(e) => Failure(RequestFailed(e))
    case Success(resp) =>
      if resp.status >= BadRequestThreshold then Failure(StatusError(resp))
      else if !wantsResult then Success(None)
      else match decoded
        case Success(v) => Success(Some(v))
        case Failure(e) => Failure(DecodeFailed(e))
  }

  /** Client.Delete: never decodes; success is Success(()). */
  function Delete(sent: Result<Response, string>): (r: Result<(), ApiError>)
    ensures sent.Failure? ==> r == Failure(RequestFailed(sent.error))
    ensures sent.Success? && sent.value.status >= BadRequestThreshold ==>
              r == Failure(StatusError(sent.value)) && IsStatusError(r.error, sent.value.status)
    ensures sent.Success? && sent.value.status < BadRequestThreshold ==> r == Success(())
  {
    match sent
    case Failure(e) => Failure(RequestFailed(e))
    case Success(resp) =>
      if resp.status >= BadRequestThreshold then Failure(StatusError(resp)) else Success(())
  }

  /** A failure status never looks at the success body: any two decode outcomes agree. */
  lemma FailureStatusIgnoresBody<T>(resp: Response, wantsResult: bool, d1: Result<T, string>, d2: Result<T, string>)
    requires resp.status >= BadRequestThreshold
    ensures Get(Success(resp), d1) == Get(Success(resp), d2)
    ensures Send(Success(resp), wantsResult, d1) == Send(Success(resp), wantsResult, d2)
    ensures Get(Success(resp), d1).Failure? && Send(Success(resp), wantsResult, d1).Failure?
    ensures Delete(Success(resp)).Failure?
  {
  }

  /**
   * The message a decodable error body surfaces is, after the status prefix, its `message`,
   * else its `error`, else the trimmed raw body: never anything else.
   */
  lemma ErrorTextChoice(status: int, raw: string, obj: ErrorObject)
    ensures var text := HandleError(status, ReadBody(raw, Some(obj)));
            var rest := text[|StatusPrefix(status)|..];
            (obj.message != "" ==> rest == obj.message)
            && (obj.message == "" && obj.error != "" ==> rest == obj.error)
            && (obj.message == "" && obj.error == "" ==> rest == TrimSpace(raw))
  {
  }
}
