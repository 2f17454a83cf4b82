/**
 * The messages the job runner pushes to every connected browser, each a
 * `{ type, data }` object on the WebSocket, and the parsed k6 summary
 * artifact that the `summary` message carries.
 */
module Protocol {
  import opened Text

  /** `metrics.http_reqs`: the number of requests made. */
  datatype RequestsMetric = RequestsMetric(count: nat)

  /** `metrics.http_req_duration`: the mean response time in milliseconds. */
  datatype DurationMetric = DurationMetric(avg: real)

  /** `metrics.http_req_failed`: its `fails` count as the artifact gives it. */
  datatype FailedMetric = FailedMetric(fails: nat)

  /** The metrics of a run; k6 leaves a metric out when it has no samples for it. */
  datatype Metrics = Metrics(
    httpReqs: Option<RequestsMetric>,
    httpReqDuration: Option<DurationMetric>,
    httpReqFailed: Option<FailedMetric>)

  /** The parsed `summary.json`; `metrics` is `None` when the object has no `metrics` member. */
  datatype SummaryArtifact = SummaryArtifact(metrics: Option<Metrics>)

  /**
   * A message by its `type`: `output` (a batch of stdout text), `error` (one
   * stderr chunk), `summary`, `cancelled`, and any other type, which the
   * server never sends and the browser only warns about.
   */
  datatype Message =
    | Output(text: string)
    | ErrorOutput(text: string)
    | Summary(artifact: SummaryArtifact)
    | Cancelled(reason: string)
    | Unrecognised(tag: string)

  /** What the cancel handler broadcasts. */
  const CancelReason := "Test cancelled by user"
}
