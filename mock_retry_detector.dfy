/** The test detector that forces a retry while retries remain and hands the
    decision to the default detector once they are used up. */
module MockRetryDetector {
  import opened Results
  import opened RetryRecords

  /** Milliseconds added to the delay on every forced retry. */
  const ForcedDelayStepMillis := 1000

  /** The forced-retry policy. `default` stands for the library's default
      detector, whose code is not part of this model. */
  function ComputeRetryInfo<O, R>(
    default: Detector<O, R>,
    remainingRetries: int,
    lastRetryDelayMillis: int,
    options: O,
    response: R): (r: Option<RetryInfo>)
    ensures remainingRetries > 0 ==>
      r.Some? &&
      0 <= r.value.remainingRetries == remainingRetries - 1 &&
      r.value.retryDelayMillis - lastRetryDelayMillis == ForcedDelayStepMillis
    ensures remainingRetries <= 0 ==> r == default(remainingRetries, lastRetryDelayMillis, options, response)
  {
    if remainingRetries > 0 then
      Some(RetryInfo(remainingRetries - 1, lastRetryDelayMillis + ForcedDelayStepMillis))
    else
      default(remainingRetries, lastRetryDelayMillis, options, response)
  }

  /** The mock as a detector value that can be installed in a fetch manager. */
  function AsDetector<O, R>(default: Detector<O, R>): Detector<O, R>
  {
    (n, d, o, resp) => ComputeRetryInfo(default, n, d, o, resp)
  }

  /** While retries remain, the result depends only on the two counters: not
      on the options, the response, or which default detector is wrapped. */
  lemma ForcedBranchIgnoresContext<O, R>(
    default1: Detector<O, R>, default2: Detector<O, R>,
    remainingRetries: int, lastRetryDelayMillis: int,
    options1: O, options2: O, response1: R, response2: R)
    requires remainingRetries > 0
    ensures ComputeRetryInfo(default1, remainingRetries, lastRetryDelayMillis, options1, response1)
         == ComputeRetryInfo(default2, remainingRetries, lastRetryDelayMillis, options2, response2)
  {
  }
}
