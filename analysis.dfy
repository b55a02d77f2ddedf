/** The parts of the analysis API types (package v1alpha1) that the web metric
    provider reads and writes. */
module Analysis {
  import opened Wrappers
  import opened Primitive

  /** An instant returned by metav1.Now(); only ever copied, never inspected. */
  type Time = int

  /** AnalysisPhase; NoPhase is the empty string a fresh Measurement carries. */
  datatype AnalysisPhase = NoPhase | Successful | Failed | Inconclusive | Error

  /** The fields of v1alpha1.Measurement this provider touches. */
  datatype Measurement = Measurement(
    phase: AnalysisPhase,
    message: string,
    startedAt: Option<Time>,
    finishedAt: Option<Time>,
    value: string)

  /** A measurement with only its start time set. */
  function Started(t: Time): Measurement
  {
    Measurement(NoPhase, "", Some(t), None, "")
  }

  datatype WebMetricHeader = WebMetricHeader(key: string, value: string)

  /** metric.Provider.Web; the timeout is in seconds. */
  datatype WebMetric = WebMetric(
    url: string,
    headers: seq<WebMetricHeader>,
    timeout: int64,
    jsonPath: string)

  /** The fields of v1alpha1.Metric this provider reads. */
  datatype Metric = Metric(
    name: string,
    successCondition: string,
    failureCondition: string,
    web: WebMetric)
}
