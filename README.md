# Web metric provider, modelled in Dafny

This project models the web metric provider of Argo Rollouts
(`metricproviders/webmetric/webmetric.go`). For each measurement tick the provider:

- sends one GET request to a configured URL, with configured headers and a timeout;
- decodes the JSON body and runs a precompiled JSONPath expression over it;
- converts the extracted text to the most specific primitive: int64, float64, bool or string;
- classifies that value with an optional success condition and an optional failure
  condition, giving Successful, Failed, Inconclusive or Error.

Modules, one per part of the file:

- `Primitive` (`primitive.dfy`): `parsePrimitiveFromString`, with `strconv.ParseInt`
  (base 10, 64 bits) and `strconv.ParseBool` written out. `FormatInt` is the partner of
  ParseInt, and the round trips between them are proved.
- `Conditions` (`conditions.dfy`): `evaluateResponse`. It is split into condition
  evaluation (lines 112-128) and the decision (lines 130-151). It is proved equal to an
  independently written decision table (`Table`).
- `Http` (`http.dfy`): the request Run builds. The header map is a field that `SetHeader`
  updates in place. Set semantics are proved against `LastValue`, a reference definition
  that picks the last header per key.
- `WebMetric` (`webmetric.dfy`): `Run`, `parseResponse`, `NewWebMetricHttpClient`, `Type`
  and the lifecycle hooks.
- `Analysis` (`analysis.dfy`): the API types that the provider reads and writes.
- `Wrappers` (`wrappers.dfy`): `Option` and `Result`.
- `Scenarios` (`scenarios.dfy`): concrete runs against fixed collaborators.

The collaborators are function-typed parameters, grouped in `WebMetric.Env` and in
`Provider.jsonParser`:

- `url.Parse`
- `http.Client.Do`, together with `ioutil.ReadAll` of the body
- `json.Unmarshal`
- the compiled JSONPath's `Execute`
- `evaluate.EvalCondition`
- whether `strconv.ParseFloat` accepts a string
- `textproto.CanonicalMIMEHeaderKey`

`metav1.Now()` becomes two `Time` parameters. `Run` never looks inside them.

`metricutil.MarkMeasurementError` is defined outside this file. `Run` therefore returns
either `Measured(m)`, a measurement it completed itself, or `MarkError(m, err)`, meaning
"the result of MarkMeasurementError(m, err)". In the second case `err` is `None` where Go
passes a nil error. That happens on a status outside [200, 300) without a transport error,
and on a non-200 2xx response whose body parsed (lines 67-68 and 72-73).

Behaviour of the code worth knowing:

- Printing the coerced value does not always give back the extracted text. ParseInt
  accepts "+7", "007" and "-0", and ParseBool accepts "True", "TRUE" and "t".
  `Primitive.FormatValueRoundTrip` proves exactly when the text comes back unchanged.
- Resume and Terminate only log a warning (lines 156 and 162) and return the measurement
  unchanged.
- A 2xx response other than 200 is an error (line 72).
- `Duration(t) * time.Second` is int64 arithmetic. It wraps for a timeout above
  9223372036 seconds, and `WebMetric.TimeoutWraps` shows the first such timeout becoming
  negative. This assumes the timeout field has Go type int64.

## Model

| member | source | states |
|---|---|---|
| `Primitive.ParsePrimitiveFromString` | metricproviders/webmetric/webmetric.go:205-229 | The kinds are tried in order: Int exactly when ParseInt accepts, Float exactly when ParseInt rejects and ParseFloat accepts, Bool exactly when both reject and ParseBool accepts. Otherwise the string comes back unchanged. It never fails. |
| `Primitive.ParseFormatInt` | metricproviders/webmetric/webmetric.go:210-213 | ParseInt(s, 10, 64) accepts the decimal rendering of every int64 and returns that same int64. |
| `Primitive.FormatParseInt` | metricproviders/webmetric/webmetric.go:210-213 | For text ParseInt accepts, rendering the result gives back the text exactly when the text is canonical: no '+', no leading zeros, no "-0". |
| `Primitive.IntLiteralStaysInt` | metricproviders/webmetric/webmetric.go:205-213 | Every int64 literal becomes Int, never Float or Bool. So "1" is Int 1, not true. |
| `Primitive.FormatValueRoundTrip` | metricproviders/webmetric/webmetric.go:205-229 | Printing a non-float result gives back the input exactly when the input is a canonical integer, the word "true" or "false", or text that stayed a string. |
| `Conditions.EvaluateConditions` | metricproviders/webmetric/webmetric.go:112-128 | The success condition is evaluated first. If it errs, its error is the one reported, whatever the failure condition does, and a success-condition error is reported only then. The failure condition's error, with its message, is reported exactly when the success condition is empty or evaluated cleanly and the failure condition is set and errs. Both flags come back exactly when no set condition errs, each true exactly when its condition is set and holds. |
| `Conditions.EvaluateResponse` | metricproviders/webmetric/webmetric.go:111-152 | The phase equals the decision table and is never empty. With no conditions it is Successful. It is Error exactly when a set condition fails to evaluate. With one condition the missing one is its negation, so it is never Inconclusive. With both, failure wins, Successful needs success true and failure false, and both false is Inconclusive. |
| `Http.LastValue` | metricproviders/webmetric/webmetric.go:61-63 | Reference definition: a key has a value exactly when some header's canonical key is that key. The value is that of a header with this key that no later header shares. |
| `Http.LastWins` | metricproviders/webmetric/webmetric.go:61-63 | After the header loop, each key holds the value of its last header. A key that no header names keeps its earlier value or stays absent. |
| `Http.Request.SetHeader` | metricproviders/webmetric/webmetric.go:62 | Header.Set stores the value under the canonical key and replaces any earlier one. On a nil header map it panics and changes nothing. The method and URL are unchanged. |
| `Http.Request.constructor` | metricproviders/webmetric/webmetric.go:52-54 | A request literal has the given method, no URL and the given header map. |
| `Http.ApplyHeadersAsWritten` | metricproviders/webmetric/webmetric.go:52-63 | As written, the header loop panics exactly when at least one header is configured. |
| `Http.HeaderPanicWitness` | metricproviders/webmetric/webmetric.go:52-63 | A single Authorization header makes the as-written loop panic. |
| `WebMetric.Type` | metricproviders/webmetric/webmetric.go:21-37 | The provider type is "WebMetric". |
| `WebMetric.NewWebMetricHttpClient` | metricproviders/webmetric/webmetric.go:171-187 | A timeout of at most 0 gives 10 s. A positive timeout up to 9223372036 gives exactly that many seconds. Any positive timeout gives a value congruent to t·10⁹ modulo 2⁶⁴, the int64 wrap-around; above 9223372036 that value differs from t·10⁹. |
| `WebMetric.TimeoutWraps` | metricproviders/webmetric/webmetric.go:177-181 | A configured timeout of 9223372037 s gives a negative client timeout. |
| `WebMetric.ParseResponse` | metricproviders/webmetric/webmetric.go:84-109 | Every error result has an empty value and phase Error. There is no error exactly when the body reads, decodes and the JSONPath resolves. Then the value is exactly the JSONPath output, and the phase is the classifier's verdict on the coerced output. The phase is never empty. A failed body read, JSON decode or JSONPath step carries its own message ("Received no bytes in response: ", "Could not parse JSON body: ", "Could not find JSONPath in body: ") followed by the underlying error. |
| `WebMetric.Run` | metricproviders/webmetric/webmetric.go:39-82 | The gates run in order: URL parse, then transport error or status outside [200,300), then parseResponse, then status exactly 200. Each failing gate returns the MarkMeasurementError call with only StartedAt set, and with the error each path passes (nil on both status paths). The request sent carries every configured header, the last one winning per key (header map made before the loop; see Findings). Only a 200 whose body yields a value is Measured, with Value, Phase and FinishedAt set from parseResponse and the clock. |
| `WebMetric.Resume` | metricproviders/webmetric/webmetric.go:154-158 | Returns the measurement unchanged. |
| `WebMetric.Terminate` | metricproviders/webmetric/webmetric.go:160-164 | Returns the measurement unchanged. |
| `WebMetric.GarbageCollect` | metricproviders/webmetric/webmetric.go:166-169 | Returns no error. |
| `Scenarios.CountSevenSucceeds` | metricproviders/webmetric/webmetric.go:39-109 | A 200 answer {"count": 7}, path $.count and success condition "result >= 5" give Value "7" and phase Successful, with both timestamps set. |
| `Scenarios.NotFoundIsError` | metricproviders/webmetric/webmetric.go:66-69 | On a 404, Run hands MarkMeasurementError a nil error and a measurement whose FinishedAt is unset. |
| `Scenarios.EmptyBodyIsError` | metricproviders/webmetric/webmetric.go:92-95 | An empty 200 body fails JSON decoding and is marked an error with the "Could not parse JSON body" message. |
| `Scenarios.CreatedIsError` | metricproviders/webmetric/webmetric.go:71-74 | A 201 whose body parses is still marked an error, with a nil error. |

## Findings

| source | as written | input that shows it | evidently intended | confidence | as-written member | corrected member |
|---|---|---|---|---|---|---|
| metricproviders/webmetric/webmetric.go:52-63 | The request literal leaves `Header` nil, and `request.Header.Set` assigns into that nil map, which panics in Go. | A metric with one header, e.g. `Authorization: Bearer t0ken`. | The header map is made empty before the loop, and each key ends up with its last configured value. | high; not executed | `Http.ApplyHeadersAsWritten` (counterexample `Http.HeaderPanicWitness`) | `WebMetric.Run` (with `Http.LastWins`) |

## Left out

- HTTP transport, `client.Do`, `ioutil.ReadAll`, `url.Parse`: network I/O and library parsing. Each is an injected function returning a value or an error.
- `json.Unmarshal` and the JSONPath evaluator: foreign libraries whose code is not part of this model. They are injected partial functions. `NewWebMetricJsonParser`, which compiles the path, is construction wiring and is not modelled.
- `NewWebMetricProvider`: plain wiring of a logger, a client and a parser.
- `evaluate.EvalCondition`: an expression-language interpreter from another package. It is injected as `Conditions.Evaluator`.
- `strconv.ParseFloat`: only whether it accepts a string is modelled, as an injected predicate. The float64 value is floating-point numerics, so `Value.Float` keeps the literal text.
- Header key canonicalisation (`textproto.CanonicalMIMEHeaderKey`) is an injected function. A header's value list is reduced to the single value `Header.Set` stores.
- `metricutil.MarkMeasurementError` is defined elsewhere. What it does to Phase, Message and FinishedAt, including with a nil error, is not part of this model.
- Closing the response body: the body is folded into the result of `send`, so the model does not see connections. The source never calls `response.Body.Close()` on any path, and on a non-2xx status it does not read the body either.
- Logging through `logCtx`, including the warnings in Resume, Terminate and on a success-condition error.
- `metav1.Now()`: two opaque `Time` parameters of `Run`.
- The `*AnalysisRun` argument of Run, Resume, Terminate and GarbageCollect, which the provider never reads.
- `Primitive.ParseInt` does not tell a syntax error from a range error. Both send the chain on to the float step, as in the code.
- `WebMetric.NewWebMetricHttpClient` assumes the metric's timeout field has Go type int64. With a narrower type the product could not wrap.
