/** The getipintel.net client: its configuration record, the construction of
    the query URL, and the fixed chain of checks one proxy-score query goes
    through. The token bucket, the HTTP client and the JSON decoder are not
    modelled; what they answer is an input (`Env`). */
module Ipintel {
  import opened Wrappers

  /** Host and path of the service, without scheme (`urlBase`). */
  const UrlBase: string := "check.getipintel.net/check.php"

  /** The check mode, sent as the `flags` query parameter. In the source it
      is a named string type, so any string is a representable value; the
      two exported constants are `Static` and `Dynamic`. */
  datatype CheckType = CheckType(flag: string)

  /** Static lists only; the service answers 0 or 1. */
  const Static: CheckType := CheckType("m")

  /** Static lists plus machine learning; the service answers a value in [0, 1]. */
  const Dynamic: CheckType := CheckType("b")

  /** A `time.Duration`: a signed count of nanoseconds. */
  type Duration = int

  /** The proxy score. The source decodes a float32 from a JSON string; the
      model passes the decoded value through unchanged. */
  type Score = real

  /** The zero value the named `score` result keeps on every error path. */
  const ZeroScore: Score := 0.0

  /** The exported `Client` struct. Its fields are public, so a client need
      not come from `NewClient`. */
  datatype Client = Client(email: string, scheme: string, check: CheckType, maxWait: Duration)

  /** `NewClient`: selects the scheme from the `ssl` flag and keeps every
      other argument as given. */
  function NewClient(email: string, ssl: bool, check: CheckType, maxWait: Duration): (c: Client)
    ensures c.scheme == "https" <==> ssl
    ensures c.scheme == "http" <==> !ssl
    ensures c.email == email && c.check == check && c.maxWait == maxWait
  {
    var scheme := if ssl then "https" else "http";
    Client(email, scheme, check, maxWait)
  }

  /** `getURL`: the query URL, formed by placing the raw values in the
      query string (nothing is escaped). */
  function GetUrl(c: Client, ip: string): (url: string)
    ensures c.scheme + "://" + UrlBase + "?ip=" + ip <= url
    ensures EndsWith(url, "&format=json")
  {
    c.scheme + "://" + UrlBase + "?ip=" + ip + "&contact=" + c.email + "&flags=" + c.check.flag + "&format=json"
  }

  /** The error variants `GetProxyScore` can return, with what each carries. */
  datatype ProxyError =
    | Throttled(maxWait: Duration)   // no token within MaxWait
    | PrepareFailed(cause: string)   // http.NewRequest failed
    | QueryFailed(cause: string)     // the transport failed
    | RateLimitExceeded              // the service answered HTTP 429
    | ParseFailed(cause: string)     // the body did not decode
    | ApiError(message: string)      // decoded, but status is not "success"

  /** The HTTP response the transport hands back. */
  datatype HttpResponse = HttpResponse(statusCode: int, body: string)

  /** The decoded JSON body: `status`, `message` and `result`. */
  datatype ApiResponse = ApiResponse(status: string, errMsg: string, score: Score)

  /** What the parts outside the model answer during one call:
      - `waitMaxDuration(d)`: whether the shared token bucket grants one token
        within `d` (the doc comment at ipintel.go:47-49 says a zero wait
        blocks until a token is free; the bucket is not modelled);
      - `newRequest(url)`: the error `http.NewRequest("GET", url, nil)` returns;
      - `send(url)`: the response or transport error of `httpClient.Do`;
      - `decode(body)`: the decoded body or the decoder's error. */
  datatype Env = Env(
    waitMaxDuration: Duration -> bool,
    newRequest: string -> Option<string>,
    send: string -> Result<HttpResponse, string>,
    decode: string -> Result<ApiResponse, string>)

  /** The Go result pair `(score float32, err error)`. */
  datatype Reply = Reply(score: Score, err: Option<ProxyError>)

  /** The one path on which the source returns a nil error: a token granted,
      the request built, the transport answered, the status is not 429, the
      body decoded, and the decoded status is exactly "success". */
  ghost predicate SucceedsWith(c: Client, ip: string, env: Env, api: ApiResponse) {
    var url := GetUrl(c, ip);
    && env.waitMaxDuration(c.maxWait)
    && env.newRequest(url).None?
    && env.send(url).Success?
    && env.send(url).value.statusCode != 429
    && env.decode(env.send(url).value.body) == Success(api)
    && api.status == "success"
  }

  /** `GetProxyScore`: the checks in the source's order, each with its own
      error exit; the score is returned only when all of them pass. */
  function GetProxyScore(c: Client, ip: string, env: Env): (r: Reply)
    ensures r.err.None? <==> exists api :: SucceedsWith(c, ip, env, api)
    ensures forall api :: SucceedsWith(c, ip, env, api) ==> r == Reply(api.score, None)
    ensures r.err.Some? ==> r.score == ZeroScore
  {
    if !env.waitMaxDuration(c.maxWait) then
      Reply(ZeroScore, Some(Throttled(c.maxWait)))
    else
      var url := GetUrl(c, ip);
      match env.newRequest(url)
      case Some(e) => Reply(ZeroScore, Some(PrepareFailed(e)))
      case None =>
        match env.send(url)
        case Failure(e) => Reply(ZeroScore, Some(QueryFailed(e)))
        case Success(resp) =>
          if resp.statusCode == 429 then
            Reply(ZeroScore, Some(RateLimitExceeded))
          else
            match env.decode(resp.body)
            case Failure(e) => Reply(ZeroScore, Some(ParseFailed(e)))
            case Success(api) =>
              if api.status != "success" then
                Reply(ZeroScore, Some(ApiError(api.errMsg)))
              else
                assert SucceedsWith(c, ip, env, api);
                Reply(api.score, None)
  }

  /** `t` is the last part of `s`. */
  predicate EndsWith(s: string, t: string) {
    |t| <= |s| && s[|s| - |t|..] == t
  }

  /** A text whose fixed head does not start with 'A' is not an API error text. */
  lemma OtherPrefix(head: string, tail: string)
    requires |head| > 0 && head[0] != 'A'
    ensures !("API error: " <= head + tail)
  {
    assert (head + tail)[0] == head[0];
  }

  /** The text of each error as `fmt.Errorf` formats it. `durationString` is
      `time.Duration.String`, which lives outside the model. The text ends
      with what the error carries, and it starts with "API error: " exactly
      when the service itself reported the error. */
  function ErrorText(e: ProxyError, durationString: Duration -> string): (text: string)
    ensures e.Throttled? ==> EndsWith(text, durationString(e.maxWait))
    ensures e.PrepareFailed? || e.QueryFailed? || e.ParseFailed? ==> EndsWith(text, e.cause)
    ensures e.ApiError? ==> EndsWith(text, e.message)
    ensures "API error: " <= text <==> e.RateLimitExceeded? || e.ApiError?
  {
    match e
    case Throttled(d) =>
      OtherPrefix("Throttled: Can't make query within the next ", durationString(d));
      "Throttled: Can't make query within the next " + durationString(d)
    case PrepareFailed(cause) =>
      OtherPrefix("Failed preparing request: ", cause);
      "Failed preparing request: " + cause
    case QueryFailed(cause) =>
      OtherPrefix("Failed to query API: ", cause);
      "Failed to query API: " + cause
    case RateLimitExceeded => "API error: Rate limit exceeded"
    case ParseFailed(cause) =>
      OtherPrefix("Failed to parse API response: ", cause);
      "Failed to parse API response: " + cause
    case ApiError(msg) => "API error: " + msg
  }
}
