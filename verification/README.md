# go-ipintel, modelled in Dafny

`ipintel` is a small Go client for the getipintel.net proxy-detection
service. Given an IP address, it returns the service's proxy score. This
project models the package's own deterministic logic:

- the `Client` configuration record, and `NewClient`, which turns the `ssl`
  flag into the scheme (`ipintel.dfy`);
- `getURL`, which builds the query URL by plain concatenation. The model
  adds `ParseUrl`, a left inverse on recoverable inputs: reading back the
  URL of a query whose scheme has no `:` and whose values have no `&`
  yields those values (`url_query.dfy`). The converse, that every URL the
  parser accepts is one `getURL` builds, is not proved;
- `GetProxyScore`, a fixed chain of checks with one error exit each, in this
  order: throttled, request preparation failed, transport failed, HTTP 429,
  body not decodable, status not `"success"`, success (`ipintel.dfy`). Two
  further views of it are proved:
  - lemmas showing that each failing check decides the result and that
    nothing after it is consulted (`query_order.dfy`);
  - a small-step machine over the call's stages, proved to end with the
    same reply. It shows which stages a call reaches (`call_stages.dfy`).

The parts of a call that lie outside the package are inputs. They are
collected in the record `Ipintel.Env`, whose fields are functions:

- the token bucket's answer, `waitMaxDuration(maxWait)`;
- the error of `http.NewRequest` for the URL;
- the response or error of `httpClient.Do` for the URL;
- the JSON decoder's result for the body.

Because the request and the transport receive the URL that `GetUrl` builds,
the model passes that URL from one step to the next, as the source does. The
Go result pair `(score, err)` is `Reply(score, err)`, where a nil `err` is
`None`.

Three details of the code the model keeps:

- `CheckType` is a named Go string type, so any string is a value of it.
  The model uses `CheckType(flag: string)` with the constants `Static`
  (`"m"`) and `Dynamic` (`"b"`).
- `http.NewRequest` failing has its own error exit before anything is sent,
  modelled as `PrepareFailed`.
- `NewClient` does not validate anything. The `Client` fields are exported,
  so the model's lemmas about URLs hold for any client, with their
  assumptions stated (no `:` in the scheme, no `&` in the values).

## Model

| member | source | states |
|---|---|---|
| Ipintel.NewClient | ipintel.go:56-67 | the scheme is "https" exactly when `ssl` is set and "http" exactly when it is not; email, check type and maximum wait are kept as given |
| Ipintel.GetUrl | ipintel.go:117-120 | the URL starts with the scheme, "://", the fixed service host and path, "?ip=" and the IP, and ends with "&format=json" |
| Ipintel.ErrorText | ipintel.go:72-110 | the text of each error variant, with the maximum wait formatted by the given duration printer: it ends with the carried cause, message or formatted wait, and it starts with "API error: " exactly for the HTTP 429 error and the service-reported error |
| UrlQuery.ParseGetUrl | ipintel.go:117-120 | reading a query URL back yields exactly the client's scheme, the IP, the contact email and the check flag, when the scheme has no ':' and the other values have no '&' |
| UrlQuery.GetUrlInjective | ipintel.go:117-120 | under those conditions, two queries with the same URL have the same scheme, IP, email and check type |
| UrlQuery.AmbiguousWithoutEscaping | ipintel.go:117-120 | values are not escaped: IP "1.2.3.4" with contact "x&contact=y" and IP "1.2.3.4&contact=x" with contact "y" give one and the same URL |
| UrlQuery.NewClientUrlScheme | ipintel.go:56-60 | the URL of a client made by `NewClient` can be read back, and its scheme is "https" exactly when `ssl` was set |
| UrlQuery.StaticHttpExample | ipintel.go:117-120 | a plain-HTTP client with contact a@b.com and the static check ("m") asks for http://check.getipintel.net/check.php?ip=1.2.3.4&contact=a@b.com&flags=m&format=json |
| Ipintel.GetProxyScore | ipintel.go:70-115 | the error is nil exactly on the path: granted, prepared, sent, status not 429, decoded, status "success"; there the score is the decoded result; on every error path the score is zero |
| QueryOrder.ThrottledBeforeRequest | ipintel.go:71-74 | without a token the result is the throttle error carrying the maximum wait, whatever preparation, the transport and the decoder would answer |
| QueryOrder.PrepareFailureBeforeSend | ipintel.go:76-80 | a preparation failure gives the "failed preparing request" error with its cause, whatever the transport and the decoder would answer |
| QueryOrder.TransportFailureBeforeStatus | ipintel.go:83-87 | a transport failure gives the "failed to query" error with its cause, whatever the decoder would answer |
| QueryOrder.Status429BeforeDecode | ipintel.go:89-92 | HTTP 429 gives the rate-limit error for any body, and the decoder is never consulted |
| QueryOrder.OtherStatusIsDecoded | ipintel.go:100-107 | any status other than 429, error statuses included, is decoded; a decoding failure gives the parse error with its cause |
| QueryOrder.FailedStatusCarriesMessage | ipintel.go:109-112 | a decoded status other than exactly "success" gives the API error carrying the service's message, and the error text ends with that message |
| QueryOrder.RateLimitTextMatchesApiError | ipintel.go:89-112 | the text of the HTTP 429 error equals the text of an API error whose message is "Rate limit exceeded" |
| CallStages.Next | ipintel.go:70-115 | each stage of a call either leaves with an error, with a zero score, or moves to a later stage |
| CallStages.Run | ipintel.go:70-115 | the run starts at the given stage, and with enough steps a call ends in `Done` |
| CallStages.RunAdvances | ipintel.go:70-115 | stages come in strictly advancing order along any run, so no check is made twice and `Done` comes only at the end |
| CallStages.RunEndsInFinish | ipintel.go:70-115 | with enough steps, a run ends in the reply the stage machine reaches from its starting stage |
| CallStages.TraceEndsWithReply | ipintel.go:70-115 | the stage machine, run from waiting for a token, ends with the reply `GetProxyScore` returns |
| CallStages.PreparedOnlyWhenGranted | ipintel.go:71-76 | a request is prepared exactly when the limiter granted a token |
| CallStages.SentOnlyWhenPrepared | ipintel.go:71-83 | a request is sent exactly when a token was granted and the request was prepared |
| CallStages.DecodedOnlyWhenNot429 | ipintel.go:71-104 | the body is decoded exactly when a token was granted, the request was prepared and sent, and the status was not 429 |

## Left out

- The token bucket (`ratelimit.NewBucketWithQuantum(4s, 15, 1)`) and `WaitMaxDuration` belong to the juju/ratelimit library, which is not part of this model. They involve time and concurrency. The limiter's answer for the client's maximum wait is an input, so neither the burst of 15 nor the refill of one token every 4 seconds is modelled. The doc comment at ipintel.go:47-49 says a zero maximum wait blocks until a token is free; the library's behaviour is not modelled, so the model does not rely on that rule.
- `net/http` is foreign I/O: the request object, the 10-second client timeout, the `User-Agent` header (`go-ipintel/0.2.0 …`) and closing the body. Preparation and transport enter only as their answers.
- `encoding/json` decoding, including the `,string` parsing of `result` into a float32, is a foreign library with floating point. The decoder's answer is an input, and the score is a `real` passed through unchanged.
- Concurrent callers and the sharing of the package-level limiter and HTTP client across clients are not modelled. Each call is a sequential, self-contained function.
- Error texts (`ErrorText`): the throttle message formats the maximum wait with `time.Duration.String`, which is not modelled. It is a parameter. The wrapped causes are opaque strings.
