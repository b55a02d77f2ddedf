/** The web metric provider (webmetric.go): one GET request per measurement,
    a JSONPath extraction from the JSON body, and the classification of the
    extracted value. HTTP, JSON decoding, JSONPath and the condition language
    are injected functions. */
module WebMetric {
  import opened Wrappers
  import opened Primitive
  import opened Analysis
  import opened Conditions
  import opened Http

  const ProviderType: string := "WebMetric"
  const StatusOK: int := 200
  /** time.Second, in nanoseconds. */
  const Second: int := 1_000_000_000
  const DefaultTimeoutSeconds: int := 10

  newtype byte = x: int | 0 <= x < 256

  /** A decoded JSON document. Its shape is a modelling convenience: the
      decoder is injected, so the model never looks inside a number. */
  datatype Json =
    | JNull
    | JBool(b: bool)
    | JNumber(literal: string)
    | JString(s: string)
    | JArray(elements: seq<Json>)
    | JObject(members: map<string, Json>)

  /** The compiled JSONPath's Execute: the text it writes, or an error. */
  type JsonPath = Json -> Result<string, string>

  /** http.Client; its timeout is a time.Duration in nanoseconds. */
  datatype Client = Client(timeout: int64)

  /** An HTTP response: its status code and what ioutil.ReadAll makes of its body. */
  datatype Response = Response(statusCode: int, body: Result<seq<byte>, string>)

  datatype Provider = Provider(client: Client, jsonParser: JsonPath)

  /** The collaborators Run calls: url.Parse, client.Do, json.Unmarshal,
      evaluate.EvalCondition, ParseFloat acceptance, and header key
      canonicalisation. */
  datatype Env = Env(
    parseUrl: string -> Result<Url, string>,
    send: (Client, HttpRequest) -> Result<Response, string>,
    decode: seq<byte> -> Result<Json, string>,
    eval: Evaluator,
    floatOk: FloatAcceptor,
    canon: Canonicalizer)

  /** parseResponse's three results. */
  datatype Parsed = Parsed(value: string, phase: AnalysisPhase, err: Option<string>)

  /** What Run returns: the measurement it completed itself, or the result of
      metricutil.MarkMeasurementError applied to the measurement and the error
      (possibly nil) named here. MarkMeasurementError is not part of this model. */
  datatype RunResult = Measured(m: Measurement) | MarkError(m: Measurement, err: Option<string>)

  /** Type. */
  function Type(): (t: string)
    ensures t == "WebMetric"
  {
    ProviderType
  }

  /** Go's int64 two's-complement wrap-around. */
  function WrapInt64(x: int): (r: int64)
    ensures (r as int - x) % 0x1_0000_0000_0000_0000 == 0
    ensures MinInt64 <= x <= MaxInt64 ==> r as int == x
  {
    var m := 0x1_0000_0000_0000_0000;
    var q := (x - MinInt64) / m;
    assert x - MinInt64 == m * q + (x - MinInt64) % m;
    assert ((x - MinInt64) % m + MinInt64) - x == m * -q;
    ((x - MinInt64) % m + MinInt64) as int64
  }

  /** NewWebMetricHttpClient: a configured timeout of at most zero means
      10 seconds, any other is that many seconds; time.Duration(t) * time.Second
      is int64 arithmetic and wraps for t above 9223372036. */
  function NewWebMetricHttpClient(metric: Metric): (c: Client)
    ensures metric.web.timeout <= 0 ==> c.timeout as int == DefaultTimeoutSeconds * Second
    ensures 0 < metric.web.timeout as int <= MaxInt64 / Second ==> c.timeout as int == metric.web.timeout as int * Second
    // beyond that the product wraps: it is congruent to t * 10^9 modulo 2^64 but differs from it
    ensures metric.web.timeout > 0 ==>
              (c.timeout as int - metric.web.timeout as int * Second) % 0x1_0000_0000_0000_0000 == 0
    ensures metric.web.timeout as int > MaxInt64 / Second ==> c.timeout as int != metric.web.timeout as int * Second
  {
    if metric.web.timeout <= 0 then Client(WrapInt64(DefaultTimeoutSeconds * Second))
    else Client(WrapInt64(metric.web.timeout as int * Second))
  }

  /** The smallest timeout that wraps comes out negative, which http.Client
      reads as no timeout at all. */
  lemma TimeoutWraps(metric: Metric)
    requires metric.web.timeout as int == MaxInt64 / Second + 1
    ensures NewWebMetricHttpClient(metric).timeout < 0
  {
  }

  /** parseResponse (lines 84-109): read, decode, extract, then classify. */
  function ParseResponse(p: Provider, metric: Metric, response: Response, env: Env): (r: Parsed)
    ensures r.err.Some? ==> r.value == "" && r.phase == Error
    ensures r.err.None? <==>
              response.body.Success? && env.decode(response.body.value).Success? &&
              p.jsonParser(env.decode(response.body.value).value).Success?
    ensures r.err.None? ==>
              r.value == p.jsonParser(env.decode(response.body.value).value).value &&
              r.phase == EvaluateResponse(metric, ParsePrimitiveFromString(r.value, env.floatOk), env.eval)
    ensures r.phase != NoPhase
    // each failing step has its own message
    ensures response.body.Failure? ==>
              r.err == Some("Received no bytes in response: " + response.body.error)
    ensures response.body.Success? && env.decode(response.body.value).Failure? ==>
              r.err == Some("Could not parse JSON body: " + env.decode(response.body.value).error)
    ensures response.body.Success? && env.decode(response.body.value).Success? &&
            p.jsonParser(env.decode(response.body.value).value).Failure? ==>
              r.err == Some("Could not find JSONPath in body: " +
                            p.jsonParser(env.decode(response.body.value).value).error)
  {
    match response.body
    case Failure(e) => Parsed("", Error, Some("Received no bytes in response: " + e))
    case Success(bodyBytes) =>
      match env.decode(bodyBytes)
      case Failure(e) => Parsed("", Error, Some("Could not parse JSON body: " + e))
      case Success(data) =>
        match p.jsonParser(data)
        case Failure(e) => Parsed("", Error, Some("Could not find JSONPath in body: " + e))
        case Success(out) =>
          var outInterface := ParsePrimitiveFromString(out, env.floatOk);
          Parsed(out, EvaluateResponse(metric, outInterface, env.eval), None)
  }

  /** The request Run sends once the URL has parsed. */
  function RequestFor(metric: Metric, url: Url, canon: Canonicalizer): HttpRequest
  {
    HttpRequest("GET", url, SetAll(map[], metric.web.headers, canon))
  }

  /** Run (lines 39-82), with the header map made before the header loop. */
  method Run(p: Provider, metric: Metric, env: Env, startTime: Time, finishedTime: Time) returns (r: RunResult)
    // a URL that does not parse stops before anything is sent
    ensures env.parseUrl(metric.web.url).Failure? ==>
              r == MarkError(Started(startTime), Some(env.parseUrl(metric.web.url).error))
    // the request carries every configured header, the last one winning per key
    ensures env.parseUrl(metric.web.url).Success? ==>
              var response := env.send(p.client, RequestFor(metric, env.parseUrl(metric.web.url).value, env.canon));
              (response.Failure? ==> r == MarkError(Started(startTime), Some(response.error))) &&
              (response.Success? && !(200 <= response.value.statusCode < 300) ==>
                 r == MarkError(Started(startTime), None)) &&
              (response.Success? && 200 <= response.value.statusCode < 300 ==>
                 var parsed := ParseResponse(p, metric, response.value, env);
                 (parsed.err.Some? ==> r == MarkError(Started(startTime), parsed.err)) &&
                 (parsed.err.None? && response.value.statusCode != StatusOK ==> r == MarkError(Started(startTime), None)) &&
                 (parsed.err.None? && response.value.statusCode == StatusOK ==>
                    r == Measured(Measurement(parsed.phase, "", Some(startTime), Some(finishedTime), parsed.value))))
    // on every error path Run itself sets nothing but StartedAt
    ensures r.MarkError? ==> r.m == Started(startTime)
    // only a 200 response whose body yields a value completes the measurement
    ensures r.Measured? ==>
              env.parseUrl(metric.web.url).Success? &&
              var response := env.send(p.client, RequestFor(metric, env.parseUrl(metric.web.url).value, env.canon));
              response.Success? && response.value.statusCode == StatusOK &&
              r.m.phase != NoPhase && r.m.startedAt == Some(startTime) && r.m.finishedAt == Some(finishedTime)
  {
    var measurement := Started(startTime);

    var request := new Request("GET", Made(map[]));

    var u := env.parseUrl(metric.web.url);
    if u.Failure? {
      return MarkError(measurement, Some(u.error));
    }
    request.url := Some(u.value);

    var headers := metric.web.headers;
    for i := 0 to |headers|
      invariant request.verb == "GET" && request.url == Some(u.value)
      invariant request.header == Made(SetAll(map[], headers[..i], env.canon))
    {
      var _ := request.SetHeader(headers[i].key, headers[i].value, env.canon);
      assert headers[..i + 1][..i] == headers[..i];
    }
    assert headers[..|headers|] == headers;

    var response := env.send(p.client, request.Snapshot());
    if response.Failure? {
      return MarkError(measurement, Some(response.error));
    }
    if response.value.statusCode < 200 || response.value.statusCode >= 300 {
      return MarkError(measurement, None);
    }

    var parsed := ParseResponse(p, metric, response.value, env);
    if parsed.err.Some? || response.value.statusCode != StatusOK {
      return MarkError(measurement, parsed.err);
    }

    measurement := measurement.(value := parsed.value);
    measurement := measurement.(phase := parsed.phase);
    measurement := measurement.(finishedAt := Some(finishedTime));
    return Measured(measurement);
  }

  /** Resume: the measurement comes back unchanged. */
  function Resume(metric: Metric, measurement: Measurement): (r: Measurement)
    ensures r == measurement
  {
    measurement
  }

  /** Terminate: the measurement comes back unchanged. */
  function Terminate(metric: Metric, measurement: Measurement): (r: Measurement)
    ensures r == measurement
  {
    measurement
  }

  /** GarbageCollect: nothing to collect, never an error. */
  function GarbageCollect(metric: Metric, limit: int): (err: Option<string>)
    ensures err == None
  {
    None
  }
}
