/**
 * The request and response hooks of lib/ApiClient.ts, built on the older
 * RequestObserver: one retry per request, marked by a boolean `_retry`.
 */
module LegacyClient {
  import opened Wrappers
  import opened Coordinator
  import LegacyObserver

  /** The request config: `_retry`, `signal`, and everything else the transport carries (`rest`). */
  datatype Config = Config(retry: bool, signal: Option<Signal>, rest: nat)

  /** A failed response: axios.isCancel(error), error.response?.status and error.config. */
  datatype AxiosError = AxiosError(cancel: bool, status: Option<int>, config: Config)

  /** What handleBaseInterceptResError resolves to. */
  datatype Outcome =
    | Rejected                      // "Observer refresh token success, but retrying still failed!"
    | Resubmitted(config: Config)   // this.api(config) with `_retry` set
    | Propagated(error: AxiosError) // the error, unchanged

  /** `statusCodes = [401]` when the constructor is given none. */
  function StatusCodesOrDefault(statusCodes: Option<seq<int>>): (r: seq<int>) {
    if statusCodes.Some? then statusCodes.value else [401]
  }

  function HandleResError(statusCodes: seq<int>, suspended: bool, e: AxiosError): (r: Outcome) {
    if e.config.retry then Rejected
    else if (e.status.Some? && e.status.value in statusCodes) || (e.cancel && suspended) then
      Resubmitted(e.config.(retry := true))
    else Propagated(e)
  }

  /** An already-retried request is rejected whatever its error, even one that would not match. */
  lemma RetriedIsRejected(statusCodes: seq<int>, suspended: bool, e: AxiosError)
    requires e.config.retry
    ensures HandleResError(statusCodes, suspended, e) == Rejected
  {
  }

  /** A matching status, or a cancel while suspended, on a first failure: resubmitted once, with only `_retry` set. */
  lemma FirstMatchingFailureIsResubmitted(statusCodes: seq<int>, suspended: bool, e: AxiosError)
    requires !e.config.retry
    requires (e.status.Some? && e.status.value in statusCodes) || (e.cancel && suspended)
    ensures HandleResError(statusCodes, suspended, e) == Resubmitted(e.config.(retry := true))
  {
  }

  /** Any other first failure is returned unchanged, `_retry` left as it was. */
  lemma OtherFailuresPropagate(statusCodes: seq<int>, suspended: bool, e: AxiosError)
    requires !e.config.retry
    requires !(e.status.Some? && e.status.value in statusCodes) && !(e.cancel && suspended)
    ensures HandleResError(statusCodes, suspended, e) == Propagated(e)
  {
  }

  /** One failed send: the error and whether the observer was suspended when the hook ran. */
  datatype Attempt = Attempt(error: AxiosError, suspended: bool)

  /** How often a request is resubmitted when its successive sends fail as `attempts` says. */
  function Resubmits(statusCodes: seq<int>, retry: bool, attempts: seq<Attempt>): (r: nat)
    decreases |attempts|
  {
    if attempts == [] then 0
    else
      var e := attempts[0].error.(config := attempts[0].error.config.(retry := retry));
      match HandleResError(statusCodes, attempts[0].suspended, e)
      case Resubmitted(c) => 1 + Resubmits(statusCodes, c.retry, attempts[1..])
      case _ => 0
  }

  /** At most one retry per request, and none for a request already marked. */
  lemma AtMostOneRetry(statusCodes: seq<int>, retry: bool, attempts: seq<Attempt>)
    ensures Resubmits(statusCodes, retry, attempts) <= if retry then 0 else 1
  {
  }

  class AxiosClient {
    const observer: LegacyObserver.RequestObserver
    const statusCodes: seq<int>

    constructor (observer: LegacyObserver.RequestObserver, statusCodes: Option<seq<int>>)
      ensures this.observer == observer
      ensures this.statusCodes == StatusCodesOrDefault(statusCodes)
      ensures statusCodes.None? ==> this.statusCodes == [401]
    {
      this.observer := observer;
      this.statusCodes := StatusCodesOrDefault(statusCodes);
    }

    /**
     * handleBaseInterceptReq up to the observer's await: only `config.signal`
     * is replaced, with getReqSignal's result, once that result exists.
     */
    method HandleBaseInterceptReq(config: Config) returns (r: Config, p: Pending)
      requires observer.Valid()
      modifies observer
      ensures observer.Valid()
      ensures p.Awaiting? <==> LegacyObserver.NeedsExchange(config.retry, old(observer.suspended))
      ensures p.Awaiting? ==> r == config && observer.State() == BeginExchange(old(observer.State()))
      ensures p.Ready? ==>
        && r == config.(signal := Some(CombineResult(old(observer.State()), observer.combineAbortSignals, config.signal)))
        && observer.State() == CombineState(old(observer.State()), observer.combineAbortSignals, config.signal)
    {
      var sig;
      p, sig := observer.GetReqSignal(config.retry, config.signal);
      r := if sig.Some? then config.(signal := sig) else config;
    }

    /** handleBaseInterceptReq after the await: only `config.signal` is replaced. */
    method HandleBaseInterceptReqResume(config: Config) returns (r: Config)
      requires observer.Valid()
      modifies observer
      ensures observer.Valid()
      ensures r == config.(signal := Some(CombineResult(old(observer.State()), observer.combineAbortSignals, config.signal)))
      ensures observer.State() == CombineState(old(observer.State()), observer.combineAbortSignals, config.signal)
    {
      var sig := observer.GetReqSignalResume(config.signal);
      r := config.(signal := Some(sig));
    }

    /** handleBaseInterceptResError: reject a retried request, resubmit a first matching failure once, else propagate. */
    method HandleBaseInterceptResError(error: AxiosError) returns (out: Outcome)
      ensures out == HandleResError(statusCodes, observer.suspended, error)
    {
      var isCancelNotFromUser := false;
      if error.cancel {
        isCancelNotFromUser := observer.GetSuspendedStatus();
      }
      if error.config.retry {
        return Rejected;
      }
      if (error.status.Some? && error.status.value in statusCodes) || isCancelNotFromUser {
        return Resubmitted(error.config.(retry := true));
      }
      return Propagated(error);
    }
  }
}
