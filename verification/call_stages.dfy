/** One query as a small-step machine through the stages a call passes:
    waiting for a token, preparing the request, in flight, checking the HTTP
    status, decoding, validating the decoded status, done. Each step consults
    one outside answer; running the machine from the start gives the same
    result as `GetProxyScore` and shows which stages a call reaches. */
module CallStages {
  import opened Wrappers
  import opened Ipintel

  datatype Stage =
    | AwaitingToken
    | Preparing
    | InFlight
    | CheckingStatus(resp: HttpResponse)
    | Decoding(body: string)
    | Validating(api: ApiResponse)
    | Done(reply: Reply)

  /** How many steps at most remain from a stage. */
  function Rank(s: Stage): nat {
    match s
    case AwaitingToken => 6
    case Preparing => 5
    case InFlight => 4
    case CheckingStatus(_) => 3
    case Decoding(_) => 2
    case Validating(_) => 1
    case Done(_) => 0
  }

  function Fail(e: ProxyError): Stage {
    Done(Reply(ZeroScore, Some(e)))
  }

  /** One step: consult the outside answer the stage waits for and either
      leave with an error or move on. */
  function Next(c: Client, ip: string, env: Env, s: Stage): (t: Stage)
    requires !s.Done?
    ensures Rank(t) < Rank(s)
    ensures t.Done? && t.reply.err.Some? ==> t.reply.score == ZeroScore
  {
    match s
    case AwaitingToken =>
      if env.waitMaxDuration(c.maxWait) then Preparing else Fail(Throttled(c.maxWait))
    case Preparing =>
      (match env.newRequest(GetUrl(c, ip))
       case Some(e) => Fail(PrepareFailed(e))
       case None => InFlight)
    case InFlight =>
      (match env.send(GetUrl(c, ip))
       case Failure(e) => Fail(QueryFailed(e))
       case Success(resp) => CheckingStatus(resp))
    case CheckingStatus(resp) =>
      if resp.statusCode == 429 then Fail(RateLimitExceeded) else Decoding(resp.body)
    case Decoding(body) =>
      (match env.decode(body)
       case Failure(e) => Fail(ParseFailed(e))
       case Success(api) => Validating(api))
    case Validating(api) =>
      if api.status != "success" then Fail(ApiError(api.errMsg)) else Done(Reply(api.score, None))
  }

  /** The stages visited from `s`, for at most `fuel` steps. With enough fuel
      the run ends in `Done`. */
  function Run(c: Client, ip: string, env: Env, s: Stage, fuel: nat): (trace: seq<Stage>)
    ensures |trace| >= 1 && trace[0] == s
    ensures fuel >= Rank(s) ==> trace[|trace| - 1].Done?
    decreases fuel
  {
    if s.Done? || fuel == 0 then [s]
    else [s] + Run(c, ip, env, Next(c, ip, env, s), fuel - 1)
  }

  /** Every stage of `t` comes strictly later in the call than the stages
      before it. */
  predicate Advancing(t: seq<Stage>) {
    forall i, j :: 0 <= i < j < |t| ==> Rank(t[i]) > Rank(t[j])
  }

  /** Ranks fall strictly along a run, so no stage is visited twice and
      `Done` comes only at the end. */
  lemma {:induction false} RunAdvances(c: Client, ip: string, env: Env, s: Stage, fuel: nat)
    ensures Advancing(Run(c, ip, env, s, fuel))
    decreases fuel
  {
    var t := Run(c, ip, env, s, fuel);
    if !s.Done? && fuel > 0 {
      var u := Run(c, ip, env, Next(c, ip, env, s), fuel - 1);
      RunAdvances(c, ip, env, Next(c, ip, env, s), fuel - 1);
      assert Advancing(u);
      assert t == [s] + u;
      forall i, j | 0 <= i < j < |t|
        ensures Rank(t[i]) > Rank(t[j])
      {
        if i == 0 {
          assert t[0] == s && t[j] == u[j - 1];
          RankBelowStart(c, ip, env, Next(c, ip, env, s), fuel - 1, j - 1);
          assert Rank(Next(c, ip, env, s)) < Rank(s);
        } else {
          assert t[i] == u[i - 1] && t[j] == u[j - 1];
          assert 0 <= i - 1 < j - 1 < |u|;
        }
      }
    }
  }

  /** No stage of a run ranks above the stage it starts from. */
  lemma {:induction false} RankBelowStart(c: Client, ip: string, env: Env, s: Stage, fuel: nat, k: nat)
    requires k < |Run(c, ip, env, s, fuel)|
    ensures Rank(Run(c, ip, env, s, fuel)[k]) <= Rank(s)
    decreases fuel
  {
    if k > 0 {
      var u := Run(c, ip, env, Next(c, ip, env, s), fuel - 1);
      assert Run(c, ip, env, s, fuel)[k] == u[k - 1];
      RankBelowStart(c, ip, env, Next(c, ip, env, s), fuel - 1, k - 1);
    }
  }

  /** The stages one call goes through. */
  function Trace(c: Client, ip: string, env: Env): seq<Stage> {
    Run(c, ip, env, AwaitingToken, Rank(AwaitingToken))
  }

  /** The reply the machine reaches from `s`. */
  function Finish(c: Client, ip: string, env: Env, s: Stage): Reply
    decreases Rank(s)
  {
    if s.Done? then s.reply else Finish(c, ip, env, Next(c, ip, env, s))
  }

  /** With enough fuel, a run ends in the stage holding the reply reached
      from where it started. */
  lemma {:induction false} RunEndsInFinish(c: Client, ip: string, env: Env, s: Stage, fuel: nat)
    requires fuel >= Rank(s)
    ensures var t := Run(c, ip, env, s, fuel); t[|t| - 1] == Done(Finish(c, ip, env, s))
    decreases fuel
  {
    if !s.Done? {
      RunEndsInFinish(c, ip, env, Next(c, ip, env, s), fuel - 1);
    }
  }

  /** From decoding on, the reply is decided by the decoder and the decoded status. */
  lemma FinishFromDecoding(c: Client, ip: string, env: Env, body: string)
    ensures var decoded := env.decode(body);
      Finish(c, ip, env, Decoding(body)) ==
        if decoded.Failure? then Reply(ZeroScore, Some(ParseFailed(decoded.error)))
        else if decoded.value.status != "success" then Reply(ZeroScore, Some(ApiError(decoded.value.errMsg)))
        else Reply(decoded.value.score, None)
  {
    if env.decode(body).Success? {
      var api := env.decode(body).value;
      var last := Next(c, ip, env, Validating(api));
      assert Next(c, ip, env, Decoding(body)) == Validating(api);
      assert Finish(c, ip, env, Decoding(body)) == Finish(c, ip, env, Validating(api));
      assert Finish(c, ip, env, Validating(api)) == Finish(c, ip, env, last) == last.reply;
    }
  }

  /** From sending on, a transport failure or a 429 decides the reply before decoding. */
  lemma FinishFromInFlight(c: Client, ip: string, env: Env)
    ensures var sent := env.send(GetUrl(c, ip));
      Finish(c, ip, env, InFlight) ==
        if sent.Failure? then Reply(ZeroScore, Some(QueryFailed(sent.error)))
        else if sent.value.statusCode == 429 then Reply(ZeroScore, Some(RateLimitExceeded))
        else Finish(c, ip, env, Decoding(sent.value.body))
  {
    if env.send(GetUrl(c, ip)).Success? {
      var resp := env.send(GetUrl(c, ip)).value;
      assert Next(c, ip, env, InFlight) == CheckingStatus(resp);
    }
  }

  /** The stages of one call end with the reply `GetProxyScore` returns. */
  lemma TraceEndsWithReply(c: Client, ip: string, env: Env)
    ensures var t := Trace(c, ip, env); t[|t| - 1] == Done(GetProxyScore(c, ip, env))
  {
    RunEndsInFinish(c, ip, env, AwaitingToken, Rank(AwaitingToken));
    FinishFromInFlight(c, ip, env);
    if env.send(GetUrl(c, ip)).Success? {
      FinishFromDecoding(c, ip, env, env.send(GetUrl(c, ip)).value.body);
    }
  }

  /** A request is prepared exactly when a token was granted. */
  lemma PreparedOnlyWhenGranted(c: Client, ip: string, env: Env)
    ensures Preparing in Trace(c, ip, env) <==> env.waitMaxDuration(c.maxWait)
  {
  }

  /** A request is sent exactly when a token was granted and the request
      could be prepared. */
  lemma SentOnlyWhenPrepared(c: Client, ip: string, env: Env)
    ensures InFlight in Trace(c, ip, env)
        <==> env.waitMaxDuration(c.maxWait) && env.newRequest(GetUrl(c, ip)).None?
  {
  }

  /** Some stage of `t` decodes a body. */
  predicate ReachesDecoding(t: seq<Stage>) {
    exists i :: 0 <= i < |t| && t[i].Decoding?
  }

  /** A run reaches decoding when its first stage decodes or the rest of it does. */
  lemma ReachesDecodingCons(s: Stage, t: seq<Stage>)
    ensures ReachesDecoding([s] + t) <==> s.Decoding? || ReachesDecoding(t)
  {
    var u := [s] + t;
    if ReachesDecoding(t) {
      var i :| 0 <= i < |t| && t[i].Decoding?;
      assert u[i + 1] == t[i];
    }
    if ReachesDecoding(u) && !s.Decoding? {
      var i :| 0 <= i < |u| && u[i].Decoding?;
      assert i > 0 && t[i - 1] == u[i];
    }
    if s.Decoding? {
      assert u[0] == s;
    }
  }

  /** A stage that leaves with an error ends the run there. */
  lemma FailEnds(c: Client, ip: string, env: Env, e: ProxyError, fuel: nat)
    ensures Run(c, ip, env, Fail(e), fuel) == [Fail(e)]
  {
  }

  /** From the status check, decoding follows exactly when the status is not 429. */
  lemma DecodingFromStatus(c: Client, ip: string, env: Env, resp: HttpResponse)
    ensures ReachesDecoding(Run(c, ip, env, CheckingStatus(resp), 3)) <==> resp.statusCode != 429
  {
    var next := Next(c, ip, env, CheckingStatus(resp));
    ReachesDecodingCons(CheckingStatus(resp), Run(c, ip, env, next, 2));
    if resp.statusCode == 429 {
      FailEnds(c, ip, env, RateLimitExceeded, 2);
      ReachesDecodingCons(next, []);
      assert [next] + [] == [next];
    } else {
      ReachesDecodingCons(next, Run(c, ip, env, Next(c, ip, env, next), 1));
    }
  }

  /** From sending, decoding follows exactly when the transport answers with a status other than 429. */
  lemma DecodingFromInFlight(c: Client, ip: string, env: Env)
    ensures ReachesDecoding(Run(c, ip, env, InFlight, 4))
        <==> env.send(GetUrl(c, ip)).Success? && env.send(GetUrl(c, ip)).value.statusCode != 429
  {
    var next := Next(c, ip, env, InFlight);
    ReachesDecodingCons(InFlight, Run(c, ip, env, next, 3));
    if env.send(GetUrl(c, ip)).Success? {
      DecodingFromStatus(c, ip, env, env.send(GetUrl(c, ip)).value);
    } else {
      FailEnds(c, ip, env, QueryFailed(env.send(GetUrl(c, ip)).error), 3);
      ReachesDecodingCons(next, []);
      assert [next] + [] == [next];
    }
  }

  /** From preparation, decoding follows exactly when the request is built, sent, and not answered with 429. */
  lemma DecodingFromPreparing(c: Client, ip: string, env: Env)
    ensures ReachesDecoding(Run(c, ip, env, Preparing, 5))
        <==> && env.newRequest(GetUrl(c, ip)).None?
             && env.send(GetUrl(c, ip)).Success?
             && env.send(GetUrl(c, ip)).value.statusCode != 429
  {
    var next := Next(c, ip, env, Preparing);
    ReachesDecodingCons(Preparing, Run(c, ip, env, next, 4));
    if env.newRequest(GetUrl(c, ip)).None? {
      DecodingFromInFlight(c, ip, env);
    } else {
      FailEnds(c, ip, env, PrepareFailed(env.newRequest(GetUrl(c, ip)).value), 4);
      ReachesDecodingCons(next, []);
      assert [next] + [] == [next];
    }
  }

  /** The body is decoded exactly when a token was granted, the request was
      prepared and sent, and the status was not 429. */
  lemma DecodedOnlyWhenNot429(c: Client, ip: string, env: Env)
    ensures ReachesDecoding(Trace(c, ip, env))
        <==> && env.waitMaxDuration(c.maxWait)
             && env.newRequest(GetUrl(c, ip)).None?
             && env.send(GetUrl(c, ip)).Success?
             && env.send(GetUrl(c, ip)).value.statusCode != 429
  {
    var next := Next(c, ip, env, AwaitingToken);
    ReachesDecodingCons(AwaitingToken, Run(c, ip, env, next, 5));
    if env.waitMaxDuration(c.maxWait) {
      DecodingFromPreparing(c, ip, env);
    } else {
      FailEnds(c, ip, env, Throttled(c.maxWait), 5);
      ReachesDecodingCons(next, []);
      assert [next] + [] == [next];
    }
  }
}
