/** The records that travel between fetch attempts: the options that select a
    product API, the retry counters a detector computes, and the whole
    `AsyncRetryInfo` record that is pushed onto the retry queue. */
module RetryRecords {
  import opened Results

  /** Which identity signs the request. */
  datatype Impersonation = App | User

  /** A name that is none of the three product APIs. */
  type UnknownApiName = s: string | s != "jira" && s != "confluence" && s != "bitbucket" witness ""

  /** The product API a request is sent to. A record read back from the queue
      can carry any string, so an unrecognised name is representable. */
  datatype Api = Jira | Confluence | Bitbucket | Unrecognized(name: UnknownApiName)

  /** The api a record's `api` string denotes. */
  function ApiFromName(s: string): (api: Api)
    ensures api.Unrecognized? <==> s != "jira" && s != "confluence" && s != "bitbucket"
    ensures api.Unrecognized? ==> api.name == s
  {
    if s == "jira" then Jira
    else if s == "confluence" then Confluence
    else if s == "bitbucket" then Bitbucket
    else Unrecognized(s)
  }

  datatype ProductFetchOptions = ProductFetchOptions(impersonation: Impersonation, api: Api)

  /** The pair of counters a retry detector returns when it asks for a retry. */
  datatype RetryInfo = RetryInfo(remainingRetries: int, retryDelayMillis: int)

  /** Everything needed to resume a fetch. `O` is the rate-limiting handling
      options and `I` the request init bundle; both are opaque here. */
  datatype AsyncRetryInfo<O, I> = AsyncRetryInfo(
    remainingRetries: int,
    retryDelayMillis: int,
    productFetchOptions: ProductFetchOptions,
    rateLimitingHandlingOptions: O,
    stringRoute: string,
    init: Option<I>,
    appContext: string)

  /** A retry detector: given the remaining retries, the last delay, the
      options and the response, it returns new counters or `undefined`. */
  type Detector<!O, !R> = (int, int, O, R) -> Option<RetryInfo>

  /** Two records describe the same logical request: every field other than
      the two retry counters agrees. */
  ghost predicate SameRequest<O, I>(a: AsyncRetryInfo<O, I>, b: AsyncRetryInfo<O, I>)
  {
    a.productFetchOptions == b.productFetchOptions &&
    a.rateLimitingHandlingOptions == b.rateLimitingHandlingOptions &&
    a.stringRoute == b.stringRoute &&
    a.init == b.init &&
    a.appContext == b.appContext
  }

  /** The record built for the next attempt: the detector's counters, every
      other field copied from the previous record. */
  function WithCounters<O, I>(last: AsyncRetryInfo<O, I>, info: RetryInfo): (next: AsyncRetryInfo<O, I>)
    ensures SameRequest(next, last)
    ensures next.remainingRetries == info.remainingRetries
    ensures next.retryDelayMillis == info.retryDelayMillis
  {
    AsyncRetryInfo(
      info.remainingRetries,
      info.retryDelayMillis,
      last.productFetchOptions,
      last.rateLimitingHandlingOptions,
      last.stringRoute,
      last.init,
      last.appContext)
  }
}
