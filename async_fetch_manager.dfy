/** The retry orchestration of the fetch manager: one fetch attempt, the retry
    detector's verdict, and either a terminal response handed to the response
    handler or a new record pushed onto the delay queue. */
module FetchManager {
  import opened Results
  import opened RetryRecords
  import MockRetryDetector

  /** The request methods one identity offers. `requestBitbucket` is absent
      in older versions of the platform library. `M` is an opaque request
      method. */
  datatype ProductMethods<M> = ProductMethods(requestJira: M, requestConfluence: M, requestBitbucket: Option<M>)

  /** The platform's `asApp()` and `asUser()` method bundles. */
  datatype Platform<M> = Platform(asApp: ProductMethods<M>, asUser: ProductMethods<M>)

  /** Sending a request: the platform request method, the trusted route and
      the init, and the number of requests sent before this one. The count
      lets the network answer each request differently. */
  type Transport<!I, !R, !M> = (M, string, Option<I>, nat) -> R

  /** Why a fetch attempt fails before a response arrives. */
  datatype FetchError =
    | UnexpectedApi(api: string)   // thrown by the product-method dispatch
    | MethodUndefined              // the dispatch gave `undefined`, and calling it throws

  /** One push onto the delay queue: the record and its whole-second delay. */
  datatype QueueItem<O, I> = QueueItem(payload: AsyncRetryInfo<O, I>, delayInSeconds: int)

  /** What one attempt decides once it has a response. */
  datatype Outcome<O, I, R> = Terminal(response: R) | Retry(item: QueueItem<O, I>)

  /** One call of the response handler. */
  datatype HandlerCall<R> = HandlerCall(response: R, appContext: string)

  /** The method bundle the given identity selects. */
  function Methods<M>(platform: Platform<M>, impersonation: Impersonation): ProductMethods<M>
  {
    if impersonation == App then platform.asApp else platform.asUser
  }

  /** The product-method dispatch on (api, impersonation). `Ok(None)` is the
      `undefined` the source falls through to when Bitbucket is missing. */
  function BuildProductFetch<M>(platform: Platform<M>, options: ProductFetchOptions): (r: Result<Option<M>, FetchError>)
    ensures r.Err? <==> options.api.Unrecognized?
    ensures r.Err? ==> r.error == UnexpectedApi(options.api.name)
    ensures options.api == Jira ==> r == Ok(Some(Methods(platform, options.impersonation).requestJira))
    ensures options.api == Confluence ==> r == Ok(Some(Methods(platform, options.impersonation).requestConfluence))
    ensures options.api == Bitbucket ==> r == Ok(Methods(platform, options.impersonation).requestBitbucket)
  {
    match options.api
    case Jira =>
      if options.impersonation == App then Ok(Some(platform.asApp.requestJira))
      else Ok(Some(platform.asUser.requestJira))
    case Confluence =>
      if options.impersonation == App then Ok(Some(platform.asApp.requestConfluence))
      else Ok(Some(platform.asUser.requestConfluence))
    case Bitbucket =>
      var methods := if options.impersonation == App then platform.asApp else platform.asUser;
      if methods.requestBitbucket.Some? then Ok(Some(methods.requestBitbucket.value)) else Ok(None)
    case Unrecognized(name) =>
      Err(UnexpectedApi(name))
  }

  /** JavaScript's `Math.round`: to the nearest integer, halves towards
      positive infinity. */
  function MathRound(x: real): int
  {
    (x + 0.5).Floor
  }

  /** The queue delay in whole seconds for a delay in milliseconds. */
  function DelaySeconds(millis: int): (seconds: int)
    ensures 1000 * seconds - 500 <= millis < 1000 * seconds + 500
    ensures millis >= 0 ==> seconds >= 0
  {
    (millis + 500) / 1000
  }

  /** The integer computation agrees with `Math.round(millis / 1000)`. */
  lemma DelaySecondsIsMathRound(millis: int)
    ensures DelaySeconds(millis) == MathRound(millis as real / 1000.0)
  {
  }

  /** The detector an attempt consults: the one supplied, or the default. */
  function EffectiveDetector<O, R>(supplied: Option<Detector<O, R>>, default: Detector<O, R>): Detector<O, R>
  {
    if supplied.Some? then supplied.value else default
  }

  /** The dispatch on the name an `api` string carries: it fails exactly for
      a name other than the three product APIs. */
  lemma DispatchOnApiName<M>(platform: Platform<M>, impersonation: Impersonation, name: string)
    ensures var r := BuildProductFetch(platform, ProductFetchOptions(impersonation, ApiFromName(name)));
      (r.Err? <==> name != "jira" && name != "confluence" && name != "bitbucket") &&
      (r.Err? ==> r.error == UnexpectedApi(name)) &&
      (name == "jira" ==> r == Ok(Some(Methods(platform, impersonation).requestJira))) &&
      (name == "confluence" ==> r == Ok(Some(Methods(platform, impersonation).requestConfluence))) &&
      (name == "bitbucket" ==> r == Ok(Methods(platform, impersonation).requestBitbucket))
  {
  }

  /** Resolve the request method, then send the request as the `sent`-th
      request through the transport. */
  function Attempt<O, I, R, M>(
    platform: Platform<M>,
    request: Transport<I, R, M>,
    info: AsyncRetryInfo<O, I>,
    sent: nat): (r: Result<R, FetchError>)
    ensures r.Err? <==>
      info.productFetchOptions.api.Unrecognized? ||
      (info.productFetchOptions.api == Bitbucket &&
       Methods(platform, info.productFetchOptions.impersonation).requestBitbucket.None?)
    ensures r.Err? && info.productFetchOptions.api.Unrecognized? ==>
      r.error == UnexpectedApi(info.productFetchOptions.api.name)
    ensures r.Err? && !info.productFetchOptions.api.Unrecognized? ==> r.error == MethodUndefined
    ensures r.Ok? ==>
      var productMethod := BuildProductFetch(platform, info.productFetchOptions).value.value;
      r.value == request(productMethod, info.stringRoute, info.init, sent)
  {
    match BuildProductFetch(platform, info.productFetchOptions)
    case Err(e) => Err(e)
    case Ok(None) => Err(MethodUndefined)
    case Ok(Some(productMethod)) => Ok(request(productMethod, info.stringRoute, info.init, sent))
  }

  /** The detector's verdict on a response, asked with the record's own
      counters and rate-limiting options. */
  function Consult<O, I, R>(detector: Detector<O, R>, info: AsyncRetryInfo<O, I>, response: R): Option<RetryInfo>
  {
    detector(info.remainingRetries, info.retryDelayMillis, info.rateLimitingHandlingOptions, response)
  }

  /** The retry decision on a received response. */
  function Decide<O, I, R>(detector: Detector<O, R>, info: AsyncRetryInfo<O, I>, response: R): (r: Outcome<O, I, R>)
    ensures r.Terminal? <==>
      detector(info.remainingRetries, info.retryDelayMillis, info.rateLimitingHandlingOptions, response).None?
    ensures r.Terminal? ==> r.response == response
    ensures r.Retry? ==>
      var counters := detector(info.remainingRetries, info.retryDelayMillis, info.rateLimitingHandlingOptions, response).value;
      SameRequest(r.item.payload, info) &&
      r.item.payload.remainingRetries == counters.remainingRetries &&
      r.item.payload.retryDelayMillis == counters.retryDelayMillis &&
      r.item.delayInSeconds == DelaySeconds(counters.retryDelayMillis)
  {
    var retryInfo := Consult(detector, info, response);
    if retryInfo.Some? then
      var next := WithCounters(info, retryInfo.value);
      Retry(QueueItem(next, DelaySeconds(retryInfo.value.retryDelayMillis)))
    else
      Terminal(response)
  }

  /** One whole attempt: the fetch followed by the retry decision. */
  function Step<O, I, R, M>(
    platform: Platform<M>,
    request: Transport<I, R, M>,
    detector: Detector<O, R>,
    info: AsyncRetryInfo<O, I>,
    sent: nat): Result<Outcome<O, I, R>, FetchError>
  {
    match Attempt(platform, request, info, sent)
    case Err(e) => Err(e)
    case Ok(response) => Ok(Decide(detector, info, response))
  }

  /** Every queued item waits its own delay rounded to whole seconds. */
  ghost predicate QueueDelaysRounded<O, I>(queue: seq<QueueItem<O, I>>)
  {
    forall k :: 0 <= k < |queue| ==> queue[k].delayInSeconds == DelaySeconds(queue[k].payload.retryDelayMillis)
  }

  /** The effect of one attempt followed by the response handling shared by
      the direct fetch and the queue listener: the queue, the handler calls
      and the request count go from the `0` values to the `1` values. */
  ghost predicate HandledStep<O, I, R>(
    step: Result<Outcome<O, I, R>, FetchError>, appContext: string,
    queue0: seq<QueueItem<O, I>>, handled0: seq<HandlerCall<R>>, sent0: nat,
    queue1: seq<QueueItem<O, I>>, handled1: seq<HandlerCall<R>>, sent1: nat,
    r: Result<(), FetchError>)
  {
    match step
    case Err(e) =>
      r == Err(e) && queue1 == queue0 && handled1 == handled0 && sent1 == sent0
    case Ok(Terminal(response)) =>
      r == Ok(()) && queue1 == queue0 && sent1 == sent0 + 1 &&
      handled1 == handled0 + [HandlerCall(response, appContext)]
    case Ok(Retry(item)) =>
      r == Ok(()) && queue1 == queue0 + [item] && sent1 == sent0 + 1 && handled1 == handled0
  }

  /** The fetch manager. The delay queue is the sequence of items pushed to
      it; the response handler is the sequence of calls made to it; the
      transport is asked with the number of requests sent so far. */
  class AsyncFetchManager<O, I, R, M> {
    const platform: Platform<M>
    const request: Transport<I, R, M>
    const defaultDetector: Detector<O, R>
    var retryDetector: Option<Detector<O, R>>
    var retryQueue: seq<QueueItem<O, I>>
    var handled: seq<HandlerCall<R>>
    var requestsSent: nat

    ghost predicate Valid()
      reads this
    {
      QueueDelaysRounded(retryQueue)
    }

    constructor (platform: Platform<M>, request: Transport<I, R, M>, defaultDetector: Detector<O, R>)
      ensures Valid()
      ensures this.platform == platform && this.request == request && this.defaultDetector == defaultDetector
      ensures retryDetector == Some(defaultDetector)
      ensures retryQueue == [] && handled == [] && requestsSent == 0
    {
      this.platform := platform;
      this.request := request;
      this.defaultDetector := defaultDetector;
      retryDetector := Some(defaultDetector);
      retryQueue := [];
      handled := [];
      requestsSent := 0;
    }

    /** Replace the detector that later fetches consult. */
    method SetRetryDetector(detector: Option<Detector<O, R>>)
      requires Valid()
      modifies this`retryDetector
      ensures Valid()
      ensures retryDetector == detector
      ensures retryQueue == old(retryQueue) && handled == old(handled) && requestsSent == old(requestsSent)
    {
      retryDetector := detector;
    }

    /** One attempt: returns the response when it is terminal, or pushes the
        next record and returns `undefined` when a retry is needed. */
    method ProductFetchAsync(lastRetryInfo: AsyncRetryInfo<O, I>, detector: Option<Detector<O, R>>)
      returns (r: Result<Option<R>, FetchError>)
      requires Valid()
      modifies this`retryQueue, this`requestsSent
      ensures Valid()
      ensures match Step(platform, request, EffectiveDetector(detector, defaultDetector), lastRetryInfo, old(requestsSent))
        case Err(e) =>
          r == Err(e) && retryQueue == old(retryQueue) && requestsSent == old(requestsSent)
        case Ok(Terminal(response)) =>
          r == Ok(Some(response)) && retryQueue == old(retryQueue) && requestsSent == old(requestsSent) + 1
        case Ok(Retry(item)) =>
          r == Ok(None) && retryQueue == old(retryQueue) + [item] && requestsSent == old(requestsSent) + 1
    {
      var productMethod := BuildProductFetch(platform, lastRetryInfo.productFetchOptions);
      if productMethod.Err? {
        return Err(productMethod.error);
      }
      if productMethod.value.None? {
        return Err(MethodUndefined);
      }
      var response := request(productMethod.value.value, lastRetryInfo.stringRoute, lastRetryInfo.init, requestsSent);
      assert Attempt(platform, request, lastRetryInfo, requestsSent) == Ok(response);
      requestsSent := requestsSent + 1;
      var detect := if detector.Some? then detector.value else defaultDetector;
      assert detect == EffectiveDetector(detector, defaultDetector);
      var retryInfo := Consult(detect, lastRetryInfo, response);
      if retryInfo.Some? {
        var asyncRetryInfo := WithCounters(lastRetryInfo, retryInfo.value);
        var delayInSeconds := DelaySeconds(retryInfo.value.retryDelayMillis);
        retryQueue := retryQueue + [QueueItem(asyncRetryInfo, delayInSeconds)];
        return Ok(None);
      } else {
        return Ok(Some(response));
      }
    }

    /** Fetch with the installed detector; hand a terminal response to the
        response handler together with the record's application context. */
    method ProductFetch(lastRetryInfo: AsyncRetryInfo<O, I>) returns (r: Result<(), FetchError>)
      requires Valid()
      modifies this`retryQueue, this`handled, this`requestsSent
      ensures Valid()
      ensures HandledStep(
        Step(platform, request, EffectiveDetector(retryDetector, defaultDetector), lastRetryInfo, old(requestsSent)),
        lastRetryInfo.appContext,
        old(retryQueue), old(handled), old(requestsSent),
        retryQueue, handled, requestsSent, r)
    {
      var maybeResponse := ProductFetchAsync(lastRetryInfo, retryDetector);
      if maybeResponse.Err? {
        return Err(maybeResponse.error);
      }
      if maybeResponse.value.Some? {
        handled := handled + [HandlerCall(maybeResponse.value.value, lastRetryInfo.appContext)];
      }
      return Ok(());
    }

    /** The queue listener: resumes the fetch from a record delivered by the
        delay queue (already decoded from its JSON payload). */
    method RestRetryQueueListener(payload: AsyncRetryInfo<O, I>) returns (r: Result<(), FetchError>)
      requires Valid()
      modifies this`retryQueue, this`handled, this`requestsSent
      ensures Valid()
      ensures HandledStep(
        Step(platform, request, EffectiveDetector(retryDetector, defaultDetector), payload, old(requestsSent)),
        payload.appContext,
        old(retryQueue), old(handled), old(requestsSent),
        retryQueue, handled, requestsSent, r)
    {
      var asyncRetryInfo := payload;
      var maybeResponse := ProductFetchAsync(asyncRetryInfo, retryDetector);
      if maybeResponse.Err? {
        return Err(maybeResponse.error);
      }
      if maybeResponse.value.Some? {
        handled := handled + [HandlerCall(maybeResponse.value.value, asyncRetryInfo.appContext)];
      }
      return Ok(());
    }
  }

  /** A chain of attempts: what was pushed, the record the chain stopped at,
      and the terminal response if one was reached. */
  datatype Trace<O, I, R> = Trace(pushed: seq<QueueItem<O, I>>, last: AsyncRetryInfo<O, I>, terminal: Option<R>)

  /** Run the retry decision over the responses of successive attempts, each
      attempt resuming from the record the previous one pushed, until a
      response is terminal or the responses run out. */
  function Run<O, I, R>(detector: Detector<O, R>, info: AsyncRetryInfo<O, I>, responses: seq<R>): (t: Trace<O, I, R>)
    ensures t.terminal.Some? ==> |t.pushed| < |responses|
    ensures t.terminal.None? ==> |t.pushed| == |responses|
    decreases |responses|
  {
    if responses == [] then Trace([], info, None)
    else
      match Decide(detector, info, responses[0])
      case Terminal(response) => Trace([], info, Some(response))
      case Retry(item) =>
        var rest := Run(detector, item.payload, responses[1..]);
        Trace([item] + rest.pushed, rest.last, rest.terminal)
  }

  /** The chain follows the retry decision hop by hop: the k-th push is the
      retry decided on the k-th response from the record pushed before it
      (from the starting record for k = 0), and a terminal response is the
      one the detector accepted on the next response. */
  lemma {:induction false} RunFollowsDecide<O, I, R>(detector: Detector<O, R>, info: AsyncRetryInfo<O, I>, responses: seq<R>)
    ensures var t := Run(detector, info, responses);
      (forall k :: 0 <= k < |t.pushed| ==>
        Decide(detector, if k == 0 then info else t.pushed[k - 1].payload, responses[k]) == Retry(t.pushed[k])) &&
      (t.terminal.Some? ==> Decide(detector, t.last, responses[|t.pushed|]) == Terminal(t.terminal.value))
    decreases |responses|
  {
    var t := Run(detector, info, responses);
    if responses != [] {
      var outcome := Decide(detector, info, responses[0]);
      if outcome.Retry? {
        var next := outcome.item.payload;
        var rest := Run(detector, next, responses[1..]);
        RunFollowsDecide(detector, next, responses[1..]);
        assert t.pushed == [outcome.item] + rest.pushed;
        forall k | 0 <= k < |t.pushed|
          ensures Decide(detector, if k == 0 then info else t.pushed[k - 1].payload, responses[k]) == Retry(t.pushed[k])
        {
          if k > 0 {
            assert t.pushed[k] == rest.pushed[k - 1];
            assert responses[k] == responses[1..][k - 1];
            if k > 1 {
              assert t.pushed[k - 1] == rest.pushed[k - 2];
            }
          }
        }
        if t.terminal.Some? {
          assert responses[|t.pushed|] == responses[1..][|rest.pushed|];
        }
      }
    }
  }

  /** Along any chain every pushed record and the final record describe the
      request the chain started with, the final record is the last one
      pushed, and each push waits its own delay rounded to seconds. */
  lemma {:induction false} RunCarriesRequest<O, I, R>(detector: Detector<O, R>, info: AsyncRetryInfo<O, I>, responses: seq<R>)
    ensures var t := Run(detector, info, responses);
      SameRequest(t.last, info) &&
      (t.pushed == [] ==> t.last == info) &&
      (t.pushed != [] ==> t.last == t.pushed[|t.pushed| - 1].payload) &&
      QueueDelaysRounded(t.pushed) &&
      forall k :: 0 <= k < |t.pushed| ==> SameRequest(t.pushed[k].payload, info)
    decreases |responses|
  {
    if responses != [] {
      var outcome := Decide(detector, info, responses[0]);
      if outcome.Retry? {
        RunCarriesRequest(detector, outcome.item.payload, responses[1..]);
      }
    }
  }

  /** With the mock detector and N retries remaining, N successive attempts
      each push a retry, whatever the responses: the k-th push (from 0) holds
      N - 1 - k retries and a delay grown by 1000 ms per hop. After them the
      record holds 0 retries, and the next attempt decides exactly as the
      default detector would. */
  lemma {:induction false} MockChainPushesExactlyN<O, I, R>(
    default: Detector<O, R>, info: AsyncRetryInfo<O, I>, responses: seq<R>)
    requires info.remainingRetries == |responses|
    ensures var t := Run(MockRetryDetector.AsDetector(default), info, responses);
      t.terminal == None &&
      |t.pushed| == |responses| &&
      (forall k :: 0 <= k < |t.pushed| ==>
        t.pushed[k].payload.remainingRetries == |responses| - 1 - k &&
        t.pushed[k].payload.retryDelayMillis == info.retryDelayMillis + 1000 * (k + 1)) &&
      t.last.remainingRetries == 0 &&
      t.last.retryDelayMillis == info.retryDelayMillis + 1000 * |responses| &&
      forall response :: Decide(MockRetryDetector.AsDetector(default), t.last, response) == Decide(default, t.last, response)
    decreases |responses|
  {
    var mock := MockRetryDetector.AsDetector(default);
    var t := Run(mock, info, responses);
    if responses == [] {
      forall response
        ensures Decide(mock, t.last, response) == Decide(default, t.last, response)
      {
        assert mock(0, t.last.retryDelayMillis, t.last.rateLimitingHandlingOptions, response)
            == default(0, t.last.retryDelayMillis, t.last.rateLimitingHandlingOptions, response);
      }
    } else {
      var outcome := Decide(mock, info, responses[0]);
      assert mock(info.remainingRetries, info.retryDelayMillis, info.rateLimitingHandlingOptions, responses[0])
          == Some(RetryInfo(info.remainingRetries - 1, info.retryDelayMillis + 1000));
      assert outcome.Retry?;
      var next := outcome.item.payload;
      MockChainPushesExactlyN(default, next, responses[1..]);
      var rest := Run(mock, next, responses[1..]);
      assert t.pushed == [outcome.item] + rest.pushed;
      forall k | 0 <= k < |t.pushed|
        ensures t.pushed[k].payload.remainingRetries == |responses| - 1 - k
        ensures t.pushed[k].payload.retryDelayMillis == info.retryDelayMillis + 1000 * (k + 1)
      {
        if k > 0 {
          assert t.pushed[k] == rest.pushed[k - 1];
        }
      }
    }
  }
}
