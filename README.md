# Refresh coordinator of axios-refresh-me, in Dafny

This project models the **RequestObserver** of axios-refresh-me. The observer sits
between an axios instance and a token-protected backend. When requests find
that the access token is stale, it makes sure exactly one `refreshHandler`
call runs. It parks every other request that needs the refresh and releases
them in arrival order once the refresh succeeds. It also aborts the requests
that were in flight when the refresh started and decides which failed
responses are resubmitted.

JavaScript runs each synchronous segment between two `await`s to completion,
so the observer is a sequential transition system. Every method that contains
an `await` is split at it into two methods:

- `ExchangeToken` and `ExchangeTokenSettled` model `exchangeToken`.
- `BaseRequestIntercept` and `BaseRequestInterceptResume` model `baseRequestIntercept`.
- `GetReqSignal` and `GetReqSignalResume` model the older `getReqSignal`.

A request hook returns `Ready` when it finished without waiting. It returns
`Awaiting(exchange)` when it started a refresh (`Started`) or parked a resolver
(`Joined(id)`).

Files:

- `wrappers.dfy`: `Option`.
- `coordinator.dfy` (module `Coordinator`): the observer's state as a value and
  one function per atomic step. The module also holds the invariant `Inv`
  (single flight, fresh and distinct resolvers), runs over arbitrary
  interleavings of steps, and the lemmas about them. Both revisions of the
  class share these steps.
- `observer.dfy` (module `Observer`): `src/ApiClient.ts`. It holds the options
  and their defaults, the `_retryCount` config, the response decision `Respond`,
  the retry-budget lemmas, and the class `RequestObserver`.
- `legacy_observer.dfy` (module `LegacyObserver`): the older `src/RequestObserver.ts`.
- `legacy_client.dfy` (module `LegacyClient`): the hooks of `lib/ApiClient.ts`,
  which use the boolean `_retry`.

Both classes keep the source's fields: `suspended`, `queue`, the current
abort controller (`epoch`, `epochAborted`), and its `onabort` slot (`handler`).
They add ghost fields that record what the source does to the outside world:
- `released`: the resolvers called, in call order.
- `aborted`: the combined controllers that the epoch aborted.
- `pending`: the `refreshHandler` calls that have not settled.
- `refreshCalls`: all `refreshHandler` calls made.

Every mutating method states its new state as a `Coordinator` step applied to
the old state and keeps `Valid()`.

Three behaviours of the code are easy to miss, and the model keeps them as written:

- When `refreshHandler` fails, `exchangeToken` logs the error and resolves
  normally. The request that triggered the refresh is therefore not rejected.
  It continues, and with combining off it receives the signal of the epoch that
  was just aborted; with combining on it gets a fresh combined signal that has
  not fired (`FailedRefreshResumeSignal`). The observer stays suspended and
  parked resolvers are never released. No later
  request can start a refresh, because every caller of `exchangeToken` parks
  (`FailedRefreshIsSticky`).
- A cancellation is retried when the observer is suspended, whoever aborted the
  request. A cancellation by the caller during a refresh is therefore
  resubmitted too (`CancelRetriedOnlyWhileSuspended`).
- The epoch signal has a single `onabort` slot. When the epoch is aborted, only
  the most recently combined signal is aborted with it
  (`OnlyLatestCombinedFires`).

## Model

| member | source | states |
|---|---|---|
| `Coordinator.InitialInv` | src/ApiClient.ts:36-42 | A new observer satisfies the invariant and has no parked request while unsuspended |
| `Coordinator.SubscribeKeepsInv` | src/ApiClient.ts:59 | Parking appends one fresh resolver that is neither queued nor already released, and keeps the invariant |
| `Coordinator.NotifyKeepsInv` | src/ApiClient.ts:62-67 | Notify appends the whole queue to the released resolvers in insertion order, so each resolver is called exactly once; it leaves the queue empty and keeps the invariant |
| `Coordinator.BeginKeepsInv` | src/ApiClient.ts:71-76 | The synchronous part of exchangeToken keeps single flight and parks only while suspended |
| `Coordinator.SettleKeepsInv` | src/ApiClient.ts:77-82 | Settling the outstanding refresh, successfully or not, keeps the invariant |
| `Coordinator.CombineKeepsInv` | src/ApiClient.ts:45-56 | combineSignals keeps the invariant |
| `Coordinator.StepKeepsInv` | src/ApiClient.ts:45-83 | Every atomic step of the observer keeps the invariant |
| `Coordinator.RunKeepsInv` | src/ApiClient.ts:45-83 | Any interleaving of steps keeps the invariant, and keeps "parked only while suspended" |
| `Coordinator.SingleFlight` | src/ApiClient.ts:71-82 | From a new observer, under any interleaving, at most one refreshHandler call is outstanding, and only while suspended |
| `Coordinator.RefreshStartsOnlyWhenIdle` | src/ApiClient.ts:71-78 | A step calls refreshHandler only when a request calls exchangeToken on an unsuspended observer with nothing outstanding; that step suspends and aborts the epoch |
| `Coordinator.TriggersWhileSuspended` | src/ApiClient.ts:72 | While suspended, n callers of exchangeToken only park, in arrival order: no refresh, no abort, nothing else changes |
| `Coordinator.ConcurrentStaleRequests` | src/ApiClient.ts:59-83 | N concurrent stale requests cause exactly one refresh, and N-1 of them park; a successful refresh releases those N-1 in arrival order, empties the queue, unsuspends and installs an unaborted epoch |
| `Coordinator.FailedSettleKeepsRoundOpen` | src/ApiClient.ts:80-82 | A failed refresh leaves the observer suspended, with the queue, the released resolvers and the epoch unchanged |
| `Coordinator.FailedRefreshIsSticky` | src/ApiClient.ts:71-82 | After a failed refresh, no sequence of steps makes another refresh call or releases a waiter; the observer stays suspended and the parked waiters stay queued |
| `Coordinator.FailedRefreshResumeSignal` | src/ApiClient.ts:71-95 | After a failed refresh, the request that started it resumes with the aborted epoch: with combining off it gets the fired epoch signal; with combining on, a fresh combined signal, wired to the request's own signal, that has not fired and that the aborted epoch can no longer abort |
| `Coordinator.OnlyLatestCombinedFires` | src/ApiClient.ts:49-75 | Of two signals combined before a refresh, aborting the epoch aborts only the later one |
| `Coordinator.FreshSignalAfterRefresh` | src/ApiClient.ts:45-67 | After a successful refresh, the signal handed to a new request is of the next epoch and has not fired |
| `Observer.DefaultsWhenNothingSupplied` | src/ApiClient.ts:10-15 | With no options supplied: statusCodes [401], retryCount 1, combining off, no custom predicate |
| `Observer.SuppliedOptionsWin` | src/ApiClient.ts:39 | Every option the caller supplies overrides its default |
| `Observer.ExhaustedIsRejected` | src/ApiClient.ts:107-110 | The hook rejects iff the counter has reached retryCount, and the rejection names the counter; this check comes before classification |
| `Observer.ResubmitBumpsCounter` | src/ApiClient.ts:112-116 | The hook resubmits iff under budget and either shouldRefresh matches or a cancel arrives while suspended; a numeric counter rises by exactly one and stays within retryCount, an undefined or NaN counter stays NaN, and in every case the signal and the rest of the config are unchanged |
| `Observer.OtherFailuresPropagate` | src/ApiClient.ts:118 | Any other failure is returned unchanged |
| `Observer.CustomPredicateReplacesStatusCodes` | src/ApiClient.ts:103-105 | With a custom shouldRefresh, the status codes do not affect the decision |
| `Observer.CancelRetriedOnlyWhileSuspended` | src/ApiClient.ts:101 | A non-matching cancel under budget is resubmitted iff the observer is suspended |
| `Observer.RetryBudget` | src/ApiClient.ts:91-116 | Over its whole life a request is resubmitted at most retryCount minus its initial counter times, whatever errors and suspension it meets |
| `Observer.RetryBudgetUsedUp` | src/ApiClient.ts:107-116 | Failures that keep matching the status codes are resubmitted exactly min(number of failures, budget) times |
| `Observer.RepeatedUnauthorizedWithDefaults` | src/ApiClient.ts:107-115 | With the defaults, two 401s in a row give one resubmission, and the second failure is rejected naming count 1 |
| `Observer.RequestObserver.constructor` | src/ApiClient.ts:36-42 | Options are the merge of defaults and supplied options; not suspended, empty queue, unaborted epoch |
| `Observer.RequestObserver.CombineSignals` | src/ApiClient.ts:45-56 | Returns the current epoch signal, with nothing changed, when the request has no signal or combining is off; otherwise returns a fresh combined signal that is not the epoch signal and whose handler now occupies the epoch's onabort slot |
| `Observer.RequestObserver.Subscribe` | src/ApiClient.ts:59 | The queue grows by exactly one fresh resolver; suspension and the epoch are unchanged |
| `Observer.RequestObserver.Notify` | src/ApiClient.ts:62-67 | Installs the next, unaborted epoch; calls every queued resolver once in insertion order; leaves the queue empty and unsuspends |
| `Observer.RequestObserver.ExchangeToken` | src/ApiClient.ts:71-76 | When suspended, only enqueues a waiter: no refresh call, no abort. Otherwise sets suspended and aborts the epoch, then makes exactly one refreshHandler call |
| `Observer.RequestObserver.ExchangeTokenSettled` | src/ApiClient.ts:77-82 | A successful refresh ends in the notify post-state; a failed one leaves suspended set and the queue untouched |
| `Observer.RequestObserver.BaseRequestIntercept` | src/ApiClient.ts:89-96 | Sets a missing, NaN or zero counter to 0; starts or joins a refresh iff the counter is positive or the observer is suspended; otherwise attaches combineSignals(config.signal) at once |
| `Observer.RequestObserver.BaseRequestInterceptResume` | src/ApiClient.ts:94-95 | After the wait, replaces only config.signal, with combineSignals of it |
| `Observer.RequestObserver.BaseResponseIntercept` | src/ApiClient.ts:98-119 | Resolves to exactly the decision `Respond` of the observer's options, its suspension and the error |
| `LegacyObserver.RequestObserver.constructor` | src/RequestObserver.ts:8-14 | Not suspended, empty queue, unaborted epoch; combining is on only if the option is supplied and true |
| `LegacyObserver.RequestObserver.CombineSignals` | src/RequestObserver.ts:17-29 | The current epoch signal, with nothing changed, when the request has no signal or combining is off; otherwise a fresh combined signal wired into the epoch's onabort slot |
| `LegacyObserver.RequestObserver.Subscribe` | src/RequestObserver.ts:31 | The queue grows by exactly one fresh resolver; nothing else changes |
| `LegacyObserver.RequestObserver.Notify` | src/RequestObserver.ts:34-41 | Rotates the epoch, calls every queued resolver once in order, empties the queue and unsuspends |
| `LegacyObserver.RequestObserver.ExchangeToken` | src/RequestObserver.ts:45-52 | When suspended, only enqueues a waiter; otherwise sets suspended and aborts the epoch before the single refreshHandler call |
| `LegacyObserver.RequestObserver.ExchangeTokenSettled` | src/RequestObserver.ts:52-56 | Notifies only when refreshHandler resolved to a truthy token; a falsy token or a rejection leaves suspended set and the queue intact |
| `LegacyObserver.RequestObserver.GetReqSignal` | src/RequestObserver.ts:63-66 | Starts or joins a refresh iff `_retry` is set or the observer is suspended; otherwise returns combineSignals(signal) at once |
| `LegacyObserver.RequestObserver.GetReqSignalResume` | src/RequestObserver.ts:65 | After the wait, returns combineSignals(signal) |
| `LegacyObserver.RequestObserver.GetSuspendedStatus` | src/RequestObserver.ts:68 | Reports isSuspended and changes nothing |
| `LegacyClient.RetriedIsRejected` | lib/ApiClient.ts:48 | A request already marked `_retry` is rejected, even when its error would not match |
| `LegacyClient.FirstMatchingFailureIsResubmitted` | lib/ApiClient.ts:50-54 | On a first failure, a listed status or a cancel while suspended sets `_retry` and resubmits the request; nothing else in the config changes |
| `LegacyClient.OtherFailuresPropagate` | lib/ApiClient.ts:56 | Any other first failure is returned unchanged, with `_retry` untouched |
| `LegacyClient.AtMostOneRetry` | lib/ApiClient.ts:46-54 | Whatever errors a request meets, it is resubmitted at most once, and never if it is already marked |
| `LegacyClient.AxiosClient.constructor` | lib/ApiClient.ts:11-13 | statusCodes defaults to [401] when none is given |
| `LegacyClient.AxiosClient.HandleBaseInterceptReq` | lib/ApiClient.ts:35-38 | Replaces only config.signal, with the result of getReqSignal, once that result exists; starts or joins a refresh iff `_retry` is set or the observer is suspended |
| `LegacyClient.AxiosClient.HandleBaseInterceptReqResume` | lib/ApiClient.ts:36 | After the wait, replaces only config.signal, with getReqSignal's combined signal |
| `LegacyClient.AxiosClient.HandleBaseInterceptResError` | lib/ApiClient.ts:40-57 | Resolves to exactly the `_retry` decision `HandleResError` of the configured status codes, the observer's suspension and the error |

## Left out

- Promise scheduling. Each `await` is a boundary between two methods. Nothing
  forces a caller to wait for its resolver's release, or for the refresh to
  settle, before it calls the resume method.
- `refreshHandler` is an opaque input to `ExchangeTokenSettled`. In the current
  revision that input is success or failure. In the older revision it is a
  truthy token, a falsy token, or a rejection. The default handler
  `() => Promise.resolve()` is not modelled.
- axios itself is not modelled: `axios.create`, interceptor registration,
  `axios.isCancel` and `error.response?.status` (both become fields of the
  error), and `api(config)` (it becomes the `Resubmitted` outcome).
- AbortSignal event mechanics are not modelled. Only the epoch signal's single
  `onabort` slot is kept. Assigning the handler to the caller's own signal
  (`axiosSignal.onabort`), aborts that start from a caller's signal, and
  cascades between combined signals are not modelled.
- `console.error` logging is not modelled.
- `AxiosClient` in src/ApiClient.ts (interceptor merging and passthroughs) and
  the `AxiosInstanceFactory` singleton registry are not part of this model.
- An option key that is present but set to `undefined` is treated as not
  supplied. The source's spread would copy `undefined` over the default.
- An error without a config is not modelled; the source would throw a
  TypeError at `config._retryCount += 1`. A non-integer `_retryCount` is not
  modelled either. Undefined and NaN counters are both `None`.
- The rejection message is represented by the count it names, not by its text.
- The config object is passed and returned as a value, so aliasing of one
  config between several requests is not captured.
- The older observer keeps a reference to the caller's options object and reads
  `combineAbortSignals` and `refreshHandler` from it on every call. The model
  fixes `combineAbortSignals` at construction, so a caller that mutates its
  options object afterwards is not captured.
- `Observer.RequestObserver.BaseResponseIntercept`: the custom `shouldRefresh`
  is treated as a pure function of the error. The source calls it even when it
  then rejects, so any side effect of that call is not captured.
