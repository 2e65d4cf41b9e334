# Asynchronous rate-limit retries for product fetches — a Dafny model

This project models the retry orchestration of a small helper library for
hosted (Forge) apps. An app fetches from a product REST API (Jira,
Confluence or Bitbucket). Each fetch attempt hands the response to a
pluggable retry detector. The detector's verdict leads to one of two ends:

- **Terminal.** The response goes to the app's response handler, together
  with the record's `appContext`.
- **Retry.** A copy of the `AsyncRetryInfo` record, with new retry counters,
  is pushed onto a delay queue. The delay is the detector's milliseconds
  rounded to whole seconds. A later invocation of the queue listener resumes
  the fetch from that record.

The model covers four parts:

- `RetryRecords` (`retry_records.dfy`): the records `ProductFetchOptions`,
  `RetryInfo` and `AsyncRetryInfo`, the detector type, and the copy that
  builds the next record.
- `MockRetryDetector` (`mock_retry_detector.dfy`): the test detector. It
  forces a retry while retries remain, then delegates to the default
  detector.
- `FetchManager` (`async_fetch_manager.dfy`): the product-method dispatch,
  the delay rounding, the retry decision, and the class
  `AsyncFetchManager`. Its fields are the installed detector, the delay
  queue (the sequence of pushed items) and the response handler (the
  sequence of calls made to it). The module also holds the multi-hop chain
  of attempts and its lemmas.
- `OptionsBuilder` (`product_fetch_options_builder.dfy`): the fluent
  `ProductFetchOptionsBuilder` class.

Several external pieces become parameters of the model:

- The platform's `asApp()`/`asUser()` method bundles are a `Platform<M>`
  value. Bitbucket's method is an `Option`, so it can be missing.
- Sending a request is a transport function `request(method, route, init, n)`.
  Here `n` is the number of requests the manager has sent before, so every
  request, including each resumption of a chain, can get a different
  response.
- The library's default retry detector is a function value of type
  `Detector<O, R>`.

The rate-limiting options `O`, the request init `I`, the response `R` and a
request method `M` are opaque type parameters.

Thrown errors are `Result` values. The dispatch throws `UnexpectedApi` for an
unknown api. When Bitbucket's method is absent, the dispatch returns
`undefined`. The attempt then calls that `undefined` and throws; the model
names this error `MethodUndefined`. JavaScript numbers are modelled as
unbounded integers.

## Model

| member | source | states |
|---|---|---|
| `RetryRecords.ApiFromName` | src/AsyncFetchManager.ts:102-131 | a record's api string denotes Jira, Confluence or Bitbucket exactly for "jira", "confluence" and "bitbucket"; any other name is an unrecognised api carrying that name |
| `RetryRecords.WithCounters` | src/AsyncFetchManager.ts:81-89 | the next record takes both counters from the detector's result; options, rate-limiting options, route, init and appContext are those of the previous record |
| `MockRetryDetector.ComputeRetryInfo` | src/MockRetryDetector.ts:15-34 | with retries left: a retry with one retry fewer (never negative) and the delay grown by 1000 ms; otherwise exactly the default detector's result on the same four inputs |
| `MockRetryDetector.ForcedBranchIgnoresContext` | src/MockRetryDetector.ts:20-28 | while retries remain, the result depends only on the two counters, not on options, response or the wrapped default detector |
| `FetchManager.BuildProductFetch` | src/AsyncFetchManager.ts:101-132 | fails with UnexpectedApi exactly for an unrecognised api; Jira and Confluence give the app method for 'app' and the user method otherwise; Bitbucket gives the identity's method if present, else `undefined` |
| `FetchManager.DispatchOnApiName` | src/AsyncFetchManager.ts:101-131 | on the api string itself: the dispatch throws UnexpectedApi with that name exactly when it is none of "jira", "confluence", "bitbucket", and otherwise selects that product's method for the identity |
| `FetchManager.DelaySeconds` | src/AsyncFetchManager.ts:90 | the whole-second delay is within half a second of the milliseconds, a half rounding up; non-negative milliseconds give a non-negative delay |
| `FetchManager.DelaySecondsIsMathRound` | src/AsyncFetchManager.ts:90 | the integer formula equals `Math.round(millis / 1000)` computed on reals |
| `FetchManager.Attempt` | src/AsyncFetchManager.ts:69-71 | the attempt fails exactly for an unknown api (UnexpectedApi) or a missing Bitbucket method (MethodUndefined); otherwise the response is the transport's answer to the dispatched method, the record's route and its init, as the request with the given sequence number |
| `FetchManager.Decide` | src/AsyncFetchManager.ts:73-98 | the detector is asked with the record's own counters and options; terminal exactly when it returns nothing, handing back the received response; otherwise one queue item with the detector's counters, the rest of the record unchanged, and the delay rounded to seconds |
| `FetchManager.AsyncFetchManager.constructor` | src/AsyncFetchManager.ts:21-38 | a new manager has the default detector installed, an empty queue, no handler calls and no requests sent |
| `FetchManager.AsyncFetchManager.SetRetryDetector` | src/AsyncFetchManager.ts:40-42 | replaces only the installed detector; queue, handler calls and request count are unchanged |
| `FetchManager.AsyncFetchManager.ProductFetchAsync` | src/AsyncFetchManager.ts:65-99 | uses the supplied detector or else the default; on a dispatch error nothing is sent or pushed; otherwise exactly one request is sent, and on a terminal verdict returns the response and pushes nothing; on a retry pushes exactly the decided item and returns `undefined`; keeps every queued delay equal to its payload's rounded delay |
| `FetchManager.AsyncFetchManager.ProductFetch` | src/AsyncFetchManager.ts:58-63 | with the installed detector, calls the handler once with the response and the record's appContext exactly on a terminal verdict, and never on a retry or an error; its effect is the shared `HandledStep` |
| `FetchManager.AsyncFetchManager.RestRetryQueueListener` | src/AsyncFetchManager.ts:44-52 | resuming from a delivered record has the same effect as the direct fetch: its contract is the same `HandledStep` on queue, handler calls and request count |
| `FetchManager.Run` | src/AsyncFetchManager.ts:79-98 | a chain of resumptions pushes one item per non-terminal attempt: as many as there were responses when no response was terminal, fewer otherwise |
| `FetchManager.RunFollowsDecide` | src/AsyncFetchManager.ts:73-98 | the k-th push of a chain is exactly the retry decided on the k-th response from the record pushed before it (the starting record for the first), and a terminal response is the one the detector accepted right after the last push |
| `FetchManager.RunCarriesRequest` | src/AsyncFetchManager.ts:81-93 | along any chain and with any detector, every pushed record and the final record describe the original request, the final record is the last one pushed, and every push's delay is its own payload delay rounded to seconds |
| `FetchManager.MockChainPushesExactlyN` | src/MockRetryDetector.ts:20-33 | with the mock and N retries left, N attempts push N retries whatever the responses, the k-th with N-1-k retries and delay D+1000(k+1); then the record holds 0 retries and delay D+1000N, and the next attempt decides exactly as with the default detector |
| `OptionsBuilder.ProductFetchOptionsBuilder.constructor` | src/ProductFetchOptionsBuilder.ts:3-6 | a new builder has neither impersonation nor api set |
| `OptionsBuilder.ProductFetchOptionsBuilder.AsApp` | src/ProductFetchOptionsBuilder.ts:8-11 | sets only the impersonation, to app, and returns the same builder |
| `OptionsBuilder.ProductFetchOptionsBuilder.AgainstJira` | src/ProductFetchOptionsBuilder.ts:22-25 | sets only the api, to Jira, whatever it was before, and returns the same builder |
| `OptionsBuilder.ProductFetchOptionsBuilder.AgainstConfluence` | src/ProductFetchOptionsBuilder.ts:27-30 | sets only the api, to Confluence, whatever it was before, and returns the same builder |
| `OptionsBuilder.ProductFetchOptionsBuilder.AgainstBitbucket` | src/ProductFetchOptionsBuilder.ts:32-35 | sets only the api, to Bitbucket, whatever it was before, and returns the same builder |
| `OptionsBuilder.ProductFetchOptionsBuilder.Build` | src/ProductFetchOptionsBuilder.ts:37-49 | fails on a missing impersonation first, then on a missing api; succeeds exactly when both are set, returning the most recently set values; any options it builds have impersonation app (the user setter is disabled) and a known api; it changes no field |

## Left out

- JSON encoding and decoding of the queued record. The queue holds the record itself, and the listener receives the decoded record. The model thus assumes that `JSON.parse(JSON.stringify(record))` gives back an equal record. That holds for the counters, the options, the route and the appContext. It need not hold for an `init` whose headers are a `Headers` instance or whose body is a Buffer or a stream: JSON drops or reshapes those. A malformed payload is not modelled either.
- The delay queue's own storage and delivery, `Queue`/`Resolver` construction, listener registration and `getQueueHandler`. This is platform plumbing; the queue is the sequence of pushed items.
- The platform request methods, `api.asApp()`/`api.asUser()` and `assumeTrustedRoute`. These are foreign calls, so they become the `Platform` value and the `request` function, and the route goes to `request` unchanged.
- The library's default retry detector. Its code is not visible, so it is an arbitrary function value.
- `async`/`await` and transport exceptions raised while a request is sent. The model has no concurrency and treats a request as always producing a response.
- Console logging. It has no effect on behaviour.
- Fractional milliseconds. Delays are integers in the model, while a JavaScript number may be fractional.
- An impersonation string other than 'app' or 'user' in a record read back from the queue. The dispatch treats every non-'app' value as 'user', so `User` stands for all of them.
- `FetchManager.Run`: the chain is driven by the detector's decision alone, with one response per hop given as input. It therefore does not re-run the dispatch at each hop. The dispatch depends only on fields that every hop carries over unchanged (`RunCarriesRequest`). In the class, the transport's request count lets each hop get its own response.
