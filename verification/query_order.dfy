/** The order of the checks in `GetProxyScore`: each failing check decides
    the result, and nothing after it is consulted. */
module QueryOrder {
  import opened Wrappers
  import opened Ipintel

  /** Without a token the call is throttled, and what request preparation,
      the transport and the decoder would answer is never consulted. */
  lemma ThrottledBeforeRequest(c: Client, ip: string, env: Env, other: Env)
    requires !env.waitMaxDuration(c.maxWait)
    ensures GetProxyScore(c, ip, env) == Reply(ZeroScore, Some(Throttled(c.maxWait)))
    ensures GetProxyScore(c, ip, other.(waitMaxDuration := env.waitMaxDuration)) == GetProxyScore(c, ip, env)
  {
  }

  /** A request that cannot be prepared is never sent, and its failure is
      reported with the cause. */
  lemma PrepareFailureBeforeSend(c: Client, ip: string, env: Env, other: Env)
    requires env.waitMaxDuration(c.maxWait)
    requires env.newRequest(GetUrl(c, ip)).Some?
    ensures GetProxyScore(c, ip, env) == Reply(ZeroScore, Some(PrepareFailed(env.newRequest(GetUrl(c, ip)).value)))
    ensures GetProxyScore(c, ip, env.(send := other.send, decode := other.decode)) == GetProxyScore(c, ip, env)
  {
  }

  /** A transport failure is reported with the cause; no status or body is
      looked at. */
  lemma TransportFailureBeforeStatus(c: Client, ip: string, env: Env, other: Env)
    requires env.waitMaxDuration(c.maxWait)
    requires env.newRequest(GetUrl(c, ip)).None?
    requires env.send(GetUrl(c, ip)).Failure?
    ensures GetProxyScore(c, ip, env) == Reply(ZeroScore, Some(QueryFailed(env.send(GetUrl(c, ip)).error)))
    ensures GetProxyScore(c, ip, env.(decode := other.decode)) == GetProxyScore(c, ip, env)
  {
  }

  /** HTTP 429 is the rate-limit error whatever the body holds; the body is
      not decoded. */
  lemma Status429BeforeDecode(c: Client, ip: string, env: Env, other: Env)
    requires env.waitMaxDuration(c.maxWait)
    requires env.newRequest(GetUrl(c, ip)).None?
    requires env.send(GetUrl(c, ip)).Success?
    requires env.send(GetUrl(c, ip)).value.statusCode == 429
    ensures GetProxyScore(c, ip, env) == Reply(ZeroScore, Some(RateLimitExceeded))
    ensures GetProxyScore(c, ip, env.(decode := other.decode)) == GetProxyScore(c, ip, env)
  {
  }

  /** Every status other than 429, error statuses included, goes on to
      decoding; a body that does not decode is a parse error. */
  lemma OtherStatusIsDecoded(c: Client, ip: string, env: Env)
    requires env.waitMaxDuration(c.maxWait)
    requires env.newRequest(GetUrl(c, ip)).None?
    requires env.send(GetUrl(c, ip)).Success?
    requires env.send(GetUrl(c, ip)).value.statusCode != 429
    requires env.decode(env.send(GetUrl(c, ip)).value.body).Failure?
    ensures GetProxyScore(c, ip, env)
         == Reply(ZeroScore, Some(ParseFailed(env.decode(env.send(GetUrl(c, ip)).value.body).error)))
  {
  }

  /** A decoded status other than exactly "success" is an API error that
      carries the service's message, and its text ends with that message. */
  lemma FailedStatusCarriesMessage(c: Client, ip: string, env: Env, durationString: Duration -> string)
    requires env.waitMaxDuration(c.maxWait)
    requires env.newRequest(GetUrl(c, ip)).None?
    requires env.send(GetUrl(c, ip)).Success?
    requires env.send(GetUrl(c, ip)).value.statusCode != 429
    requires env.decode(env.send(GetUrl(c, ip)).value.body).Success?
    requires env.decode(env.send(GetUrl(c, ip)).value.body).value.status != "success"
    ensures var msg := env.decode(env.send(GetUrl(c, ip)).value.body).value.errMsg;
            && GetProxyScore(c, ip, env) == Reply(ZeroScore, Some(ApiError(msg)))
            && var text := ErrorText(GetProxyScore(c, ip, env).err.value, durationString);
               EndsWith(text, msg)
  {
    var msg := env.decode(env.send(GetUrl(c, ip)).value.body).value.errMsg;
    var text := ErrorText(ApiError(msg), durationString);
    assert text == "API error: " + msg;
  }

  /** The text of an HTTP 429 is the text of an API error whose message is
      "Rate limit exceeded": a caller reading only the text cannot tell the
      two apart. */
  lemma RateLimitTextMatchesApiError(durationString: Duration -> string)
    ensures ErrorText(RateLimitExceeded, durationString) == ErrorText(ApiError("Rate limit exceeded"), durationString)
  {
  }
}
