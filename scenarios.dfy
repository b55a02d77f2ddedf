/** Concrete runs of the provider against fixed collaborators: a service
    answering {"count": 7}, a 404, an empty body and a 201. */
module Scenarios {
  import opened Wrappers
  import opened Primitive
  import opened Analysis
  import opened Http
  import opened WebMetric

  /** The bytes of {"count": 7}. */
  const CountBody: seq<byte> := [123, 34, 99, 111, 117, 110, 116, 34, 58, 32, 55, 125]

  /** Collaborators for a service whose every answer has the given status and body. */
  function Service(status: int, body: seq<byte>): Env
  {
    Env(
      u => Success(Url(u)),
      (c, req) => Success(Response(status, Success(body))),
      b => if b == CountBody then Success(JObject(map["count" := JNumber("7")]))
           else Failure("unexpected end of JSON input"),
      (v: Value, cond: string) => if cond == "result >= 5" && v.Int? then Success(v.i >= 5) else Failure("cannot evaluate"),
      s => s != [] && IsDigits(s),
      k => k)
  }

  /** A provider whose compiled path is $.count. */
  function CountProvider(): Provider
  {
    Provider(
      Client(10 * Second as int64),
      (j: Json) => if j.JObject? && "count" in j.members && j.members["count"].JNumber?
           then Success(j.members["count"].literal) else Failure("count is not found"))
  }

  function CountMetric(): Metric
  {
    Metric("count", "result >= 5", "", WebMetric("http://service/metrics", [], 0, "{$.count}"))
  }

  /** The count 7 is an integer, satisfies "result >= 5", and completes. */
  method CountSevenSucceeds() returns (r: RunResult)
    ensures r == Measured(Measurement(Successful, "", Some(1), Some(2), "7"))
  {
    r := Run(CountProvider(), CountMetric(), Service(200, CountBody), 1, 2);
  }

  /** On a 404 Run hands MarkMeasurementError a nil error and an unfinished measurement. */
  method NotFoundIsError() returns (r: RunResult)
    ensures r == MarkError(Started(1), None) && r.m.finishedAt == None
  {
    r := Run(CountProvider(), CountMetric(), Service(404, CountBody), 1, 2);
  }

  /** An empty 200 body fails JSON decoding and is marked an error. */
  method EmptyBodyIsError() returns (r: RunResult)
    ensures r.MarkError? && r.err == Some("Could not parse JSON body: unexpected end of JSON input")
  {
    var env := Service(200, []);
    assert env.decode([]) == Failure("unexpected end of JSON input") by {
      assert |CountBody| != 0;
    }
    assert "Could not parse JSON body: " + "unexpected end of JSON input"
      == "Could not parse JSON body: unexpected end of JSON input";
    r := Run(CountProvider(), CountMetric(), env, 1, 2);
  }

  /** A 201 with a good body passes the 2xx gate but not the 200 check. */
  method CreatedIsError() returns (r: RunResult)
    ensures r == MarkError(Started(1), None)
  {
    r := Run(CountProvider(), CountMetric(), Service(201, CountBody), 1, 2);
  }
}
