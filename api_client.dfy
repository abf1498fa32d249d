/**
 * The network client (Sources/ContextKit/Network/APIClient.swift): request building,
 * compression, and the retry loop. URLSession, the JSON encoder, compression and the sleeps
 * are replaced by the `Network` parameters; the `k`-th network call of a run receives the
 * answer `respond(k)`.
 */
module Api {
  import opened Wrappers
  import opened Json
  import Snapshot
  import Event
  import opened Config

  /** What one `session.data(for:)` call yields. */
  datatype Response = Http(status: int) | NotHttp | TransportFailure

  datatype ApiError = InvalidUrl | InvalidResponse | HttpError(statusCode: int) | EncodingFailed | TransportError

  datatype Outcome = Succeeded | Failed(error: ApiError)

  predicate IsSuccess(status: int) {
    200 <= status <= 299
  }

  /** The result a single call would have on its own: success on 2xx, else the error thrown for it. */
  function CallOutcome(r: Response): (o: Outcome)
    ensures o.Succeeded? <==> r.Http? && IsSuccess(r.status)
  {
    match r
    case Http(status) => if IsSuccess(status) then Succeeded else Failed(HttpError(status))
    case NotHttp => Failed(InvalidResponse)
    case TransportFailure => Failed(TransportError)
  }

  /** 2^n: the value of Swift's `pow(2.0, Double(attempt - 1))` for the attempts `Backoff` is called with. */
  function Pow2(n: nat): (p: nat)
    ensures p >= 1
  {
    if n == 0 then 1 else 2 * Pow2(n - 1)
  }

  /** 2^-n: what the same `pow` gives for an attempt below 1, which no caller passes. */
  function HalfPower(n: nat): (p: real)
    ensures 0.0 < p <= 1.0
    ensures n > 0 ==> p <= 0.5
  {
    if n == 0 then 1.0 else HalfPower(n - 1) / 2.0
  }

  /** `exponentialBackoff(attempt:)`: 2^(attempt-1) seconds. */
  function Backoff(attempt: int): (seconds: real)
    ensures attempt >= 1 ==> seconds == Pow2(attempt - 1) as real
    ensures attempt < 1 ==> seconds == HalfPower(1 - attempt) && seconds <= 0.5
  {
    if attempt >= 1 then Pow2(attempt - 1) as real else HalfPower(1 - attempt)
  }

  lemma BackoffSchedule()
    ensures Backoff(1) == 1.0 && Backoff(2) == 2.0 && Backoff(3) == 4.0
  {
    assert Pow2(2) == 4;
  }

  /** A run of `executeWithRetry`: its result, the network calls it made and the sleeps, in order. */
  datatype RetryRun = RetryRun(outcome: Outcome, calls: nat, delays: seq<real>)

  /** Every sleep of a run lasts one or two seconds. */
  predicate ShortDelays(delays: seq<real>) {
    forall i :: 0 <= i < |delays| ==> delays[i] == 1.0 || delays[i] == 2.0
  }

  lemma ShortDelaysJoin(a: seq<real>, x: real, b: seq<real>)
    requires ShortDelays(a) && (x == 1.0 || x == 2.0) && ShortDelays(b)
    ensures ShortDelays(a + [x] + b)
  {
  }

  /** The sleeps before a retry: one second after the first attempt, two after the second. */
  lemma EarlyBackoff(attempt: int)
    requires 1 <= attempt < 3
    ensures Backoff(attempt) == 1.0 || Backoff(attempt) == 2.0
  {
  }

  /** A retry's sleep between two runs of short sleeps keeps every sleep short. */
  lemma DelaysAfterBackoff(attempt: int, a: seq<real>, b: seq<real>)
    requires attempt < 3
    requires attempt >= 1 ==> ShortDelays(a) && ShortDelays(b)
    ensures attempt >= 1 ==> ShortDelays(a + [Backoff(attempt)] + b)
  {
    if attempt >= 1 {
      EarlyBackoff(attempt);
      ShortDelaysJoin(a, Backoff(attempt), b);
    }
  }

  /** Every call numbered `lo` up to, but not including, `hi` failed on its own. */
  predicate FailedBetween(respond: nat -> Response, lo: nat, hi: int)
    decreases hi - lo
  {
    lo < hi ==> CallOutcome(respond(lo)).Failed? && FailedBetween(respond, lo + 1, hi)
  }

  lemma {:induction false} FailedBetweenAt(respond: nat -> Response, lo: nat, hi: int, i: nat)
    requires FailedBetween(respond, lo, hi) && lo <= i < hi
    ensures CallOutcome(respond(i)).Failed?
    decreases i - lo
  {
    if lo < i {
      FailedBetweenAt(respond, lo + 1, hi, i);
    }
  }

  /** Two runs of failed calls with a failed call between them are one run of failed calls. */
  lemma {:induction false} FailedBetweenJoin(respond: nat -> Response, lo: nat, mid: nat, hi: int)
    requires lo <= mid && FailedBetween(respond, lo, mid) && CallOutcome(respond(mid)).Failed?
    requires FailedBetween(respond, mid + 1, hi)
    ensures FailedBetween(respond, lo, hi)
    decreases mid - lo
  {
    if lo < mid {
      FailedBetweenJoin(respond, lo + 1, mid, hi);
    }
  }

  /** The most calls a run starting at `attempt` can make: each level may retry twice over. */
  function MaxCalls(attempt: int): (n: nat)
    decreases if attempt < 3 then 3 - attempt else 0
  {
    if attempt >= 3 then 1 else 2 * MaxCalls(attempt + 1) + 1
  }

  /**
   * `executeWithRetry(request:attempt:)`, with its `do`/`catch` kept as written: the `do`
   * block is `Tried`, and the `catch` retries EVERY error thrown in it while `attempt < 3`
   * (including the failure of a nested retry), otherwise rethrows it.
   */
  function Retry(respond: nat -> Response, attempt: int, k: nat): (run: RetryRun)
    ensures 1 <= run.calls <= MaxCalls(attempt) && |run.delays| == run.calls - 1
    ensures run.outcome == CallOutcome(respond(k + run.calls - 1))
    ensures FailedBetween(respond, k, k + run.calls - 1)
    ensures attempt >= 1 ==> ShortDelays(run.delays)
    decreases if attempt < 3 then 3 - attempt else 0, 1
  {
    var tried := Tried(respond, attempt, k);
    if tried.outcome.Failed? && attempt < 3 then
      var again := Retry(respond, attempt + 1, k + tried.calls);
      FailedBetweenJoin(respond, k, k + tried.calls - 1, k + tried.calls + again.calls - 1);
      DelaysAfterBackoff(attempt, tried.delays, again.delays);
      RetryRun(again.outcome, tried.calls + again.calls, tried.delays + [Backoff(attempt)] + again.delays)
    else
      tried
  }

  /**
   * The `do` block of `executeWithRetry`: a 2xx succeeds; a 5xx while `attempt < 3` sleeps and
   * recurses; any other status, a non-HTTP answer or a transport error throws.
   */
  function Tried(respond: nat -> Response, attempt: int, k: nat): (run: RetryRun)
    ensures 1 <= run.calls && |run.delays| == run.calls - 1
    ensures attempt < 3 ==> run.calls <= MaxCalls(attempt + 1) + 1
    ensures attempt >= 3 ==> run.calls == 1
    ensures run.outcome == CallOutcome(respond(k + run.calls - 1))
    ensures FailedBetween(respond, k, k + run.calls - 1)
    ensures attempt >= 1 ==> ShortDelays(run.delays)
    decreases if attempt < 3 then 3 - attempt else 0, 0
  {
    match respond(k)
    case Http(status) =>
      if IsSuccess(status) then RetryRun(Succeeded, 1, [])
      else if status >= 500 && attempt < 3 then
        var inner := Retry(respond, attempt + 1, k + 1);
        FailedBetweenJoin(respond, k, k, k + inner.calls);
        DelaysAfterBackoff(attempt, [], inner.delays);
        RetryRun(inner.outcome, 1 + inner.calls, [Backoff(attempt)] + inner.delays)
      else RetryRun(Failed(HttpError(status)), 1, [])
    case NotHttp => RetryRun(Failed(InvalidResponse), 1, [])
    case TransportFailure => RetryRun(Failed(TransportError), 1, [])
  }

  /**
   * `executeWithRetry` returns on its first 2xx: every network call of a run before its last
   * one failed, and the last one decides the outcome.
   */
  lemma FailedBetweenAll(respond: nat -> Response, lo: nat, hi: int)
    requires FailedBetween(respond, lo, hi)
    ensures forall i: nat :: lo <= i < hi ==> CallOutcome(respond(i)).Failed?
  {
    forall i: nat | lo <= i < hi
      ensures CallOutcome(respond(i)).Failed?
    {
      FailedBetweenAt(respond, lo, hi, i);
    }
  }

  lemma StopsAtFirstSuccess(respond: nat -> Response, attempt: int, k: nat)
    ensures var run := Retry(respond, attempt, k);
      forall i: nat :: k <= i < k + run.calls - 1 ==> CallOutcome(respond(i)).Failed?
  {
    var run := Retry(respond, attempt, k);
    FailedBetweenAll(respond, k, k + run.calls - 1);
  }

  lemma MaxCallsFromFirstAttempt()
    ensures MaxCalls(1) == 7
  {
  }

  /** A first answer of 2xx ends the run at once. */
  lemma ImmediateSuccess(respond: nat -> Response, attempt: int, k: nat)
    requires respond(k).Http? && IsSuccess(respond(k).status)
    ensures Retry(respond, attempt, k) == RetryRun(Succeeded, 1, [])
  {
  }

  /** An answer that throws inside the `do` without a nested retry: anything but 2xx and 5xx. */
  predicate ThrowsAtOnce(r: Response) {
    r.Http? ==> !IsSuccess(r.status) && r.status < 500
  }

  /** At the third attempt nothing is retried: a failed call is rethrown. */
  lemma FinalAttempt(respond: nat -> Response, k: nat)
    requires CallOutcome(respond(k)).Failed?
    ensures Retry(respond, 3, k) == RetryRun(CallOutcome(respond(k)), 1, [])
  {
    assert Tried(respond, 3, k) == RetryRun(CallOutcome(respond(k)), 1, []);
  }

  /** At the second attempt, three 5xx answers: the nested retry fails and is retried once more. */
  lemma SecondAttemptServerErrors(respond: nat -> Response, k: nat, status: int)
    requires status >= 500
    requires respond(k) == Http(status) && respond(k + 1) == Http(status) && respond(k + 2) == Http(status)
    ensures Retry(respond, 2, k) == RetryRun(Failed(HttpError(status)), 3, [2.0, 2.0])
  {
    FinalAttempt(respond, k + 1);
    FinalAttempt(respond, k + 2);
    assert Tried(respond, 2, k) == RetryRun(Failed(HttpError(status)), 2, [2.0]);
  }

  /** At the second attempt, two answers that throw at once: one retry, then the second error. */
  lemma SecondAttemptThrows(respond: nat -> Response, k: nat)
    requires ThrowsAtOnce(respond(k)) && ThrowsAtOnce(respond(k + 1))
    ensures Retry(respond, 2, k) == RetryRun(CallOutcome(respond(k + 1)), 2, [2.0])
  {
    FinalAttempt(respond, k + 1);
    assert Tried(respond, 2, k) == RetryRun(CallOutcome(respond(k)), 1, []);
  }

  /** Every answer 5xx: seven requests, not three, because the failed nested retry is retried again. */
  lemma AllServerErrors(respond: nat -> Response, status: int)
    requires status >= 500 && forall k :: respond(k) == Http(status)
    ensures Retry(respond, 1, 0) == RetryRun(Failed(HttpError(status)), 7, [1.0, 2.0, 2.0, 1.0, 2.0, 2.0])
  {
    SecondAttemptServerErrors(respond, 1, status);
    SecondAttemptServerErrors(respond, 4, status);
    BackoffSchedule();
    var tried := Tried(respond, 1, 0);
    assert tried == RetryRun(Failed(HttpError(status)), 4, [1.0, 2.0, 2.0]);
    var again := Retry(respond, 2, 4);
    assert Retry(respond, 1, 0).delays == tried.delays + [1.0] + again.delays;
  }

  /** Every call failing at transport level: exactly three calls, and the last error is rethrown. */
  lemma AllTransportFailures(respond: nat -> Response)
    requires forall k :: respond(k) == TransportFailure
    ensures Retry(respond, 1, 0) == RetryRun(Failed(TransportError), 3, [1.0, 2.0])
  {
    SecondAttemptThrows(respond, 1);
    BackoffSchedule();
    assert Tried(respond, 1, 0) == RetryRun(Failed(TransportError), 1, []);
    assert Retry(respond, 1, 0).delays == [] + [1.0] + [2.0];
  }

  /** A 4xx is thrown inside the `do` and caught by the `catch`: it is retried like a transport error. */
  lemma ClientErrorsAreRetried(respond: nat -> Response, status: int)
    requires 400 <= status < 500 && forall k :: respond(k) == Http(status)
    ensures Retry(respond, 1, 0) == RetryRun(Failed(HttpError(status)), 3, [1.0, 2.0])
  {
    SecondAttemptThrows(respond, 1);
    BackoffSchedule();
    assert Tried(respond, 1, 0) == RetryRun(Failed(HttpError(status)), 1, []);
    assert Retry(respond, 1, 0).delays == [] + [1.0] + [2.0];
  }

  /** Two 503s then a 200: success on the third call after sleeping 1 s and 2 s. */
  lemma RecoversOnThirdCall(respond: nat -> Response)
    requires respond(0) == Http(503) && respond(1) == Http(503) && respond(2) == Http(200)
    ensures Retry(respond, 1, 0) == RetryRun(Succeeded, 3, [1.0, 2.0])
  {
    assert Retry(respond, 3, 2) == RetryRun(Succeeded, 1, []);
    assert Retry(respond, 2, 1) == RetryRun(Succeeded, 2, [2.0]);
  }

  /** AI-generated insight (a Phase 2 type: nothing in the SDK produces one yet). */
  datatype InsightType = Anomaly | Trend | Benchmark | Opportunity
  datatype Severity = Low | Medium | High | Critical
  datatype Insight = Insight(insightType: InsightType, message: string, severity: Severity,
                             affectedContext: map<string, string>, recommendation: Option<string>)

  /** AI-generated recommendation (a Phase 2 type). */
  datatype Recommendation = Recommendation(action: string, confidence: real, benchmark: Option<string>, expectedImpact: Option<string>)

  /** Bodies larger than this many bytes are compressed. */
  const CompressionThreshold := 1024

  const UserAgent := "ContextKit-iOS/" + Snapshot.SdkVersion

  /** A URLRequest: the payload document is kept beside the bytes sent. */
  datatype Request = Request(url: string, httpMethod: string, headers: map<string, string>, payload: Json, body: Option<seq<byte>>)

  /**
   * Platform services: whether `URL(string:)` accepts a string, the JSON encoder's bytes, the
   * zlib compressor (None when it throws), and the server's answers.
   */
  datatype Network = Network(
    urlParses: string -> bool,
    serialize: Json -> seq<byte>,
    compress: seq<byte> -> Option<seq<byte>>,
    respond: nat -> Response)

  /** `postRequest` up to the network call: URL check, headers, encoding, then compression of a large body. */
  method PostRequest(endpoint: string, apiKey: string, payload: Result<Json, string>, net: Network) returns (r: Result<Request, ApiError>)
    ensures !net.urlParses(endpoint) ==> r == Err(InvalidUrl)
    ensures net.urlParses(endpoint) && payload.Err? ==> r == Err(EncodingFailed)
    ensures r.Ok? <==> net.urlParses(endpoint) && payload.Ok?
    ensures r.Ok? ==> r.value.url == endpoint && r.value.httpMethod == "POST" && r.value.payload == payload.value
    ensures r.Ok? ==> "Content-Type" in r.value.headers && r.value.headers["Content-Type"] == "application/json"
    ensures r.Ok? ==> "X-API-Key" in r.value.headers && r.value.headers["X-API-Key"] == apiKey
    ensures r.Ok? ==> "User-Agent" in r.value.headers && r.value.headers["User-Agent"] == UserAgent
    ensures r.Ok? ==> var raw := net.serialize(payload.value);
      && ("Content-Encoding" in r.value.headers <==> |raw| > CompressionThreshold)
      && (|raw| > CompressionThreshold ==> r.value.headers["Content-Encoding"] == "gzip" && r.value.body == net.compress(raw))
      && (|raw| <= CompressionThreshold ==> r.value.body == Some(raw))
  {
    if !net.urlParses(endpoint) {
      return Err(InvalidUrl);
    }
    var headers: map<string, string> := map[];
    headers := headers["Content-Type" := "application/json"];
    headers := headers["X-API-Key" := apiKey];
    headers := headers["User-Agent" := UserAgent];
    if payload.Err? {
      return Err(EncodingFailed);
    }
    var body := Some(net.serialize(payload.value));
    if |body.value| > CompressionThreshold {
      body := net.compress(body.value);
      headers := headers["Content-Encoding" := "gzip"];
    }
    r := Ok(Request(endpoint, "POST", headers, payload.value, body));
  }

  /**
   * The payload of `uploadEvents`: the whole batch with the configured key, the SDK version
   * and the upload time, dates as ISO-8601. Encoding fails if any event does.
   */
  function BatchPayload(apiKey: string, events: seq<Event.ContextEvent>, now: real): (r: Result<Json, string>)
    ensures r.Ok? <==> Event.EncodeQueue(events, Snapshot.Iso8601).Ok?
    ensures r.Ok? ==> (StringField(r.value, "api_key") == Some(apiKey)
      && StringField(r.value, "sdk_version") == Some(Snapshot.SdkVersion)
      && Field(r.value, "events") == Some(Event.EncodeQueue(events, Snapshot.Iso8601).value)
      && Field(r.value, "uploaded_at") == Some(JString(Snapshot.IsoText(now))))
  {
    var encoded :- Event.EncodeQueue(events, Snapshot.Iso8601);
    Ok(JObject(map[
      "api_key" := JString(apiKey),
      "events" := encoded,
      "sdk_version" := JString(Snapshot.SdkVersion),
      "uploaded_at" := JString(Snapshot.IsoText(now))]))
  }

  /** `queryItems.joined(separator:)`. */
  function Join(items: seq<string>, separator: string): string {
    if |items| == 0 then ""
    else if |items| == 1 then items[0]
    else items[0] + separator + Join(items[1..], separator)
  }

  /** `fetchRecommendations` endpoint: the query starts with "?" only when there is one, screen before market. */
  method RecommendationsEndpoint(baseUrl: string, appId: string, screen: Option<string>, market: Option<string>) returns (endpoint: string)
    ensures var path := baseUrl + "/apps/" + appId + "/recommendations";
      && (screen.None? && market.None? ==> endpoint == path)
      && (screen.Some? && market.None? ==> endpoint == path + "?screen=" + screen.value)
      && (screen.None? && market.Some? ==> endpoint == path + "?market=" + market.value)
      && (screen.Some? && market.Some? ==> endpoint == path + "?screen=" + screen.value + "&market=" + market.value)
  {
    endpoint := baseUrl + "/apps/" + appId + "/recommendations";
    var queryItems: seq<string> := [];
    if screen.Some? {
      queryItems := queryItems + ["screen=" + screen.value];
    }
    if market.Some? {
      queryItems := queryItems + ["market=" + market.value];
    }
    if |queryItems| > 0 {
      assert |queryItems| == 2 ==> Join(queryItems, "&") == queryItems[0] + "&" + queryItems[1];
      endpoint := endpoint + "?" + Join(queryItems, "&");
    }
  }

  /**
   * What `uploadEvents(_:)` ends in for a batch: an unparsable endpoint or a batch that cannot
   * be encoded fails before any call, otherwise the retry run decides.
   */
  function UploadOutcome(config: ContextKitConfig, events: seq<Event.ContextEvent>, now: real, net: Network): (o: Outcome)
    ensures o.Succeeded? ==> net.urlParses(config.baseUrl + "/events") && BatchPayload(config.apiKey, events, now).Ok?
    ensures !net.urlParses(config.baseUrl + "/events") ==> o == Failed(InvalidUrl)
    ensures net.urlParses(config.baseUrl + "/events") && BatchPayload(config.apiKey, events, now).Err? ==> o == Failed(EncodingFailed)
    ensures net.urlParses(config.baseUrl + "/events") && BatchPayload(config.apiKey, events, now).Ok? ==> o == Retry(net.respond, 1, 0).outcome
  {
    if !net.urlParses(config.baseUrl + "/events") then Failed(InvalidUrl)
    else if BatchPayload(config.apiKey, events, now).Err? then Failed(EncodingFailed)
    else Retry(net.respond, 1, 0).outcome
  }

  class ApiClient {
    const config: ContextKitConfig
    var uploadAttempts: map<string, int>

    /** The only value ever written to `uploadAttempts` is 0. */
    predicate AttemptsReset()
      reads this
    {
      forall url :: url in uploadAttempts ==> uploadAttempts[url] == 0
    }

    constructor(config: ContextKitConfig)
      ensures this.config == config && uploadAttempts == map[] && AttemptsReset()
    {
      this.config := config;
      uploadAttempts := map[];
    }

    /** Runs the retry loop for a built request; a successful run resets the attempt count for its URL. */
    method ExecuteWithRetry(request: Request, respond: nat -> Response) returns (run: RetryRun)
      modifies this
      ensures run == Retry(respond, 1, 0)
      ensures run.outcome.Succeeded? ==> uploadAttempts == old(uploadAttempts)[request.url := 0]
      ensures run.outcome.Failed? ==> uploadAttempts == old(uploadAttempts)
      ensures old(AttemptsReset()) ==> AttemptsReset()
    {
      run := Retry(respond, 1, 0);
      if run.outcome.Succeeded? {
        uploadAttempts := uploadAttempts[request.url := 0];
      }
    }

    /**
     * `uploadEvents(_:)`: posts the whole batch to `baseURL + "/events"`. A request that cannot
     * be built makes no network call.
     */
    method UploadEvents(events: seq<Event.ContextEvent>, now: real, net: Network) returns (outcome: Outcome, sent: Option<Request>, calls: nat)
      modifies this
      ensures sent.Some? ==> (sent.value.url == config.baseUrl + "/events"
        && "X-API-Key" in sent.value.headers && sent.value.headers["X-API-Key"] == config.apiKey
        && Ok(sent.value.payload) == BatchPayload(config.apiKey, events, now))
      ensures outcome == UploadOutcome(config, events, now, net)
      ensures sent.Some? ==> outcome == Retry(net.respond, 1, 0).outcome && calls == Retry(net.respond, 1, 0).calls
      ensures sent.None? ==> outcome.Failed? && calls == 0 && uploadAttempts == old(uploadAttempts)
      ensures sent.None? <==> !net.urlParses(config.baseUrl + "/events") || BatchPayload(config.apiKey, events, now).Err?
      ensures old(AttemptsReset()) ==> AttemptsReset()
    {
      var endpoint := config.baseUrl + "/events";
      var built := PostRequest(endpoint, config.apiKey, BatchPayload(config.apiKey, events, now), net);
      if built.Err? {
        return Failed(built.error), None, 0;
      }
      var run := ExecuteWithRetry(built.value, net.respond);
      outcome, sent, calls := run.outcome, Some(built.value), run.calls;
    }
  }
}
