/** The fetcher: one "current weather" request with bounded retries and exponential backoff
    (weather_pipeline/extract.py). The network is a scripted sequence of outcomes, one per
    request, and `time.sleep` is replaced by the list of delays the loop asks for. */
module Extract {
  import opened Wrappers
  import opened JsonModel
  import opened Timestamps

  /** Statuses that are retried while attempts remain: rate limiting and transient server errors. */
  const TransientStatuses: set<int> := {429, 500, 502, 503, 504}

  /** A response body as `r.json()` sees it: parseable JSON, or text that is not. */
  datatype Body = JsonBody(value: Json) | TextBody(text: string)

  /** What one request yields: an HTTP response; a timeout, connection or HTTP error, which
      the loop catches; or any other exception from the request (too many redirects, an invalid
      URL, a broken chunked body), which the loop does not catch. */
  datatype Outcome = Resp(status: int, body: Body) | TransportErr | OtherErr

  /** The query parameters sent with every request and echoed in every result. */
  datatype Params = Params(lat: Num, lon: Num, appid: string, units: string)

  /** The dict `fetch_current_weather` returns. */
  datatype Fetched = Fetched(status: int, payload: Json, params: Params, dataTs: Option<int>)

  /** Why a fetch raises: transport failure on the last attempt, an exception the loop does not
      catch, a body `r.json()` cannot parse on the success path, a `dt` that `_utc_from_unix`
      rejects, a negative delay that `time.sleep` refuses, or a loop that never ran (the
      trailing RuntimeError, reached only with a negative retry budget). */
  datatype FetchError =
    | TransportFailure
    | Uncaught
    | BodyNotJson(status: int)
    | BadTimestamp
    | NegativeSleep
    | NoAttempts

  function Pow2(k: nat): (r: nat)
    ensures r >= 1
  {
    if k == 0 then 1 else 2 * Pow2(k - 1)
  }

  /** An outcome the loop retries when attempts remain: a transient status or a transport error. */
  predicate Retryable(o: Outcome)
  {
    o.TransportErr? || (o.Resp? && o.status in TransientStatuses)
  }

  /** The body kept for a non-retryable error status: the parsed JSON, else `{"raw_text": text}`. */
  function ErrorPayload(body: Body): Json
  {
    match body
    case JsonBody(v) => v
    case TextBody(t) => JObj(map["raw_text" := JStr(t)])
  }

  /** `data_timestamp` of a parsed payload: from `dt` when the payload is an object holding it. */
  function DataTimestamp(payload: Json): (r: Stamp)
    ensures r.NoStamp? <==> !payload.JObj? || "dt" !in payload.fields || payload.fields["dt"].JNull?
    ensures r.At? ==> PyInt(payload.fields["dt"]) == Some(r.epoch) && MinEpoch <= r.epoch <= MaxEpoch
    ensures payload.JObj? && "dt" in payload.fields && !payload.fields["dt"].JNull? ==>
      (r.At? <==> PyInt(payload.fields["dt"]).Some? && MinEpoch <= PyInt(payload.fields["dt"]).value <= MaxEpoch)
  {
    if payload.JObj? && "dt" in payload.fields then UtcFromUnix(payload.fields["dt"]) else NoStamp
  }

  /** `_utc_from_unix` on the success path: no timestamp unless the payload is an object with a
      non-null `dt`; an integer `dt` within the datetime range is that instant; a present `dt`
      that cannot be converted is an error, not an absence. */
  lemma DataTimestampRule(payload: Json)
    ensures !payload.JObj? || "dt" !in payload.fields || payload.fields["dt"] == JNull ==>
      DataTimestamp(payload) == NoStamp
    ensures payload.JObj? && "dt" in payload.fields && payload.fields["dt"].JInt? ==>
      var t := payload.fields["dt"].n;
      DataTimestamp(payload) == if MinEpoch <= t <= MaxEpoch then At(t) else BadStamp
    ensures DataTimestamp(payload).At? ==> MinEpoch <= DataTimestamp(payload).epoch <= MaxEpoch
  {
  }

  /** What the loop does with an outcome it does not retry. */
  function Conclude(o: Outcome, params: Params): (r: Result<Fetched, FetchError>)
    ensures o.TransportErr? ==> r == Failure(TransportFailure)
    ensures o.OtherErr? ==> r == Failure(Uncaught)
    ensures o.Resp? && o.status >= 400 && o.status !in TransientStatuses ==>
      r == Success(Fetched(o.status, ErrorPayload(o.body), params, None))
    ensures r.Success? ==> o.Resp? && r.value.status == o.status && r.value.params == params
    ensures r.Failure? && o.Resp? ==>
      (o.status < 400 || o.status in TransientStatuses) &&
      (r.error == BodyNotJson(o.status) <==> o.body.TextBody?) &&
      (r.error == BadTimestamp <==> o.body.JsonBody? && DataTimestamp(o.body.value) == BadStamp)
    ensures (o.Resp? && (o.status < 400 || o.status in TransientStatuses) &&
             o.body.JsonBody? && DataTimestamp(o.body.value) != BadStamp) ==>
      && r.Success?
      && r.value.payload == o.body.value
      && r.value.dataTs == (if DataTimestamp(o.body.value).At? then Some(DataTimestamp(o.body.value).epoch) else None)
    ensures o.Resp? && (o.status < 400 || o.status in TransientStatuses) && o.body.TextBody? ==>
      r == Failure(BodyNotJson(o.status))
    ensures (o.Resp? && (o.status < 400 || o.status in TransientStatuses) &&
             o.body.JsonBody? && DataTimestamp(o.body.value) == BadStamp) ==>
      r == Failure(BadTimestamp)
  {
    match o
    case TransportErr => Failure(TransportFailure)
    case OtherErr => Failure(Uncaught)
    case Resp(status, body) =>
      if status >= 400 && status !in TransientStatuses then
        Success(Fetched(status, ErrorPayload(body), params, None))
      else
        match body
        case TextBody(_) => Failure(BodyNotJson(status))
        case JsonBody(payload) =>
          match DataTimestamp(payload)
          case NoStamp => Success(Fetched(status, payload, params, None))
          case At(t) => Success(Fetched(status, payload, params, Some(t)))
          case BadStamp => Failure(BadTimestamp)
  }

  /** `fetch_current_weather`. `net[k]` is the outcome of request k; `backoff` is the backoff
      base in a whole unit (milliseconds, say). Returns the result, the delays slept, in order,
      and the number of requests made. A negative `backoff` makes the first sleep raise. */
  method Fetch(apiKey: string, lat: Num, lon: Num, units: string, maxRetries: int, backoff: int,
               net: seq<Outcome>)
    returns (res: Result<Fetched, FetchError>, sleeps: seq<nat>, requests: nat)
    requires maxRetries < |net|
    ensures maxRetries < 0 ==> requests == 0 && sleeps == [] && res == Failure(NoAttempts)
    ensures maxRetries >= 0 ==> 1 <= requests <= maxRetries + 1 && |sleeps| == requests - 1
    ensures forall k :: 0 <= k < |sleeps| ==> sleeps[k] == backoff * Pow2(k) && Retryable(net[k])
    ensures requests >= 1 && requests - 1 < maxRetries && Retryable(net[requests - 1]) ==>
      backoff < 0 && res == Failure(NegativeSleep)
    ensures requests >= 1 && (requests - 1 == maxRetries || !Retryable(net[requests - 1])) ==>
      res == Conclude(net[requests - 1], Params(lat, lon, apiKey, units))
  {
    var params := Params(lat, lon, apiKey, units);
    sleeps, requests := [], 0;
    var attempt := 0;
    while attempt < maxRetries + 1
      invariant attempt == requests == |sleeps|
      invariant maxRetries >= 0 ==> attempt <= maxRetries
      invariant maxRetries < 0 ==> attempt == 0
      invariant forall k :: 0 <= k < attempt ==> sleeps[k] == backoff * Pow2(k) && Retryable(net[k])
    {
      var o := net[attempt];
      requests := requests + 1;
      if Retryable(o) && attempt < maxRetries {
        if backoff < 0 {
          res := Failure(NegativeSleep);
          return;
        }
        sleeps := sleeps + [backoff * Pow2(attempt)];
        attempt := attempt + 1;
      } else {
        res := Conclude(o, params);
        return;
      }
    }
    res := Failure(NoAttempts);
  }

  /** Total of a list of delays. */
  function Total(s: seq<nat>): nat
  {
    if |s| == 0 then 0 else Total(s[..|s| - 1]) + s[|s| - 1]
  }

  /** Delays that follow the backoff schedule add up to `backoff * (2^n - 1)`; with the retry
      budget this bounds the time one fetch can spend asleep. */
  lemma {:induction false} BackoffTotal(sleeps: seq<nat>, backoff: nat)
    requires forall k :: 0 <= k < |sleeps| ==> sleeps[k] == backoff * Pow2(k)
    ensures Total(sleeps) == backoff * (Pow2(|sleeps|) - 1)
  {
    var n := |sleeps|;
    if n > 0 {
      BackoffTotal(sleeps[..n - 1], backoff);
      assert Pow2(n) == 2 * Pow2(n - 1);
      calc {
        Total(sleeps);
        Total(sleeps[..n - 1]) + sleeps[n - 1];
        backoff * (Pow2(n - 1) - 1) + backoff * Pow2(n - 1);
        backoff * (2 * Pow2(n - 1) - 1);
      }
    }
  }

  /** The time one fetch may sleep is at most `backoff * (2^maxRetries - 1)`. */
  lemma {:induction false} SleepBudget(sleeps: seq<nat>, backoff: nat, maxRetries: nat)
    requires |sleeps| <= maxRetries
    requires forall k :: 0 <= k < |sleeps| ==> sleeps[k] == backoff * Pow2(k)
    ensures Total(sleeps) <= backoff * (Pow2(maxRetries) - 1)
  {
    BackoffTotal(sleeps, backoff);
    Pow2Monotone(|sleeps|, maxRetries);
    ScaleMonotone(backoff, Pow2(|sleeps|) - 1, Pow2(maxRetries) - 1);
  }

  lemma ScaleMonotone(c: nat, x: int, y: int)
    requires x <= y
    ensures c * x <= c * y
  {
  }

  lemma {:induction false} Pow2Monotone(i: nat, j: nat)
    requires i <= j
    ensures Pow2(i) <= Pow2(j)
    decreases j
  {
    if i < j {
      Pow2Monotone(i, j - 1);
    }
  }

  /** Two 503s and then a 200 with `max_retries` = 3: three requests, sleeps of one and two
      backoff units, and the 200 comes back. */
  method RetryThenSucceed(apiKey: string, lat: Num, lon: Num, backoff: nat)
  {
    var payload := JObj(map["dt" := JInt(1700000000)]);
    var busy := Resp(503, TextBody("Service Unavailable"));
    var ok := Resp(200, JsonBody(payload));
    var net := [busy, busy, ok, TransportErr];
    var res, sleeps, requests := Fetch(apiKey, lat, lon, "metric", 3, backoff, net);
    assert Retryable(net[0]) && Retryable(net[1]) && !Retryable(net[2]);
    assert requests == 3;
    assert sleeps == [backoff, 2 * backoff];
    assert res == Success(Fetched(200, payload, Params(lat, lon, apiKey, "metric"), Some(1700000000)));
  }

  /** A transient status on the last attempt is returned with its parsed body, not raised;
      a transport error on the last attempt is raised. */
  method ExhaustedRetries(apiKey: string, lat: Num, lon: Num, backoff: nat)
  {
    var body := JObj(map["message" := JStr("slow down")]);
    var res, sleeps, requests :=
      Fetch(apiKey, lat, lon, "metric", 1, backoff, [Resp(429, JsonBody(body)), Resp(429, JsonBody(body))]);
    assert requests == 2 && sleeps == [backoff];
    assert res == Success(Fetched(429, body, Params(lat, lon, apiKey, "metric"), None));
    res, sleeps, requests := Fetch(apiKey, lat, lon, "metric", 1, backoff, [TransportErr, TransportErr]);
    assert res == Failure(TransportFailure) && requests == 2;
  }

  /** A non-retryable client error on the first request comes back at once, with no sleep, no
      data timestamp, and its unparseable body kept as raw text. */
  method ClientErrorNotRetried(apiKey: string, lat: Num, lon: Num, backoff: nat)
  {
    var net := [Resp(401, TextBody("Invalid API key")), Resp(200, JsonBody(JObj(map[]))), TransportErr, TransportErr];
    assert !Retryable(net[0]);
    var res, sleeps, requests := Fetch(apiKey, lat, lon, "metric", 3, backoff, net);
    assert requests == 1 && sleeps == [];
    assert res == Success(Fetched(401, JObj(map["raw_text" := JStr("Invalid API key")]),
                                  Params(lat, lon, apiKey, "metric"), None));
  }

  /** An exception other than a timeout, connection or HTTP error escapes on the first request:
      nothing is retried and nothing is slept. */
  method UncaughtNotRetried(apiKey: string, lat: Num, lon: Num, backoff: nat)
  {
    var net := [OtherErr, Resp(200, JsonBody(JObj(map[]))), TransportErr, TransportErr];
    assert !Retryable(net[0]);
    var res, sleeps, requests := Fetch(apiKey, lat, lon, "metric", 3, backoff, net);
    assert requests == 1 && sleeps == [] && res == Failure(Uncaught);
  }

  /** A negative backoff base: the first retryable outcome leads to a sleep that raises. */
  method NegativeBackoffRaises(apiKey: string, lat: Num, lon: Num)
  {
    var net := [Resp(503, TextBody("busy")), Resp(200, JsonBody(JObj(map[]))), TransportErr, TransportErr];
    assert Retryable(net[0]);
    var res, sleeps, requests := Fetch(apiKey, lat, lon, "metric", 3, -1, net);
    assert requests == 1 && sleeps == [] && res == Failure(NegativeSleep);
  }
}
