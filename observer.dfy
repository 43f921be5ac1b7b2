/**
 * RequestObserver of src/ApiClient.ts: the current revision, with a retry
 * counter per request, configurable status codes, an optional custom
 * refresh predicate and defaults for every option.
 */
module Observer {
  import opened Wrappers
  import opened Coordinator

  // ---------------------------------------------------------------------------
  // Options

  /** The options a caller passes; None is a key the caller did not supply. */
  datatype UserOptions = UserOptions(
    combineAbortSignals: Option<bool>,
    statusCodes: Option<seq<int>>,
    retryCount: Option<int>,
    shouldRefresh: Option<AxiosError -> bool>)

  /** The options after the defaults are merged in. */
  datatype Options = Options(
    combineAbortSignals: bool,
    statusCodes: seq<int>,
    retryCount: int,
    shouldRefresh: Option<AxiosError -> bool>)

  const DefaultCombineAbortSignals: bool := false
  const DefaultStatusCodes: seq<int> := [401]
  const DefaultRetryCount: int := 1

  /** `{ ...BASE_OBSERVER_OPTIONS, ...options }`: a supplied key wins, every other key takes its default. */
  function MergeOptions(user: UserOptions): (r: Options) {
    Options(
      if user.combineAbortSignals.Some? then user.combineAbortSignals.value else DefaultCombineAbortSignals,
      if user.statusCodes.Some? then user.statusCodes.value else DefaultStatusCodes,
      if user.retryCount.Some? then user.retryCount.value else DefaultRetryCount,
      user.shouldRefresh)
  }

  lemma DefaultsWhenNothingSupplied()
    ensures var o := MergeOptions(UserOptions(None, None, None, None));
      && !o.combineAbortSignals && o.statusCodes == [401] && o.retryCount == 1 && o.shouldRefresh.None?
  {
  }

  lemma SuppliedOptionsWin(user: UserOptions)
    ensures var o := MergeOptions(user);
      && (user.combineAbortSignals.Some? ==> o.combineAbortSignals == user.combineAbortSignals.value)
      && (user.statusCodes.Some? ==> o.statusCodes == user.statusCodes.value)
      && (user.retryCount.Some? ==> o.retryCount == user.retryCount.value)
      && o.shouldRefresh == user.shouldRefresh
  {
  }

  // ---------------------------------------------------------------------------
  // Requests and failures

  /**
   * The request config as the observer sees it.  `retryCount` is
   * `_retryCount`: None stands for undefined and for NaN, which behave alike
   * under `!`, `>`, `>=` and `+ 1`.  `rest` stands for everything else the
   * transport carries, which the observer never touches.
   */
  datatype Config = Config(retryCount: Option<int>, signal: Option<Signal>, rest: nat)

  /** A failed response: axios.isCancel(error), error.response?.status and error.config. */
  datatype AxiosError = AxiosError(cancel: bool, status: Option<int>, config: Config)

  /** `if (!config?._retryCount) config._retryCount = 0`: undefined, NaN and 0 become 0. */
  function InitRetryCount(count: Option<int>): (r: int) {
    if count.None? || count.value == 0 then 0 else count.value
  }

  /** `config._retryCount += 1`; undefined + 1 is NaN. */
  function Increment(count: Option<int>): (r: Option<int>) {
    if count.Some? then Some(count.value + 1) else None
  }

  /** A custom shouldRefresh replaces the status-code test. */
  predicate ShouldRefresh(o: Options, e: AxiosError) {
    if o.shouldRefresh.Some? then o.shouldRefresh.value(e)
    else e.status.Some? && e.status.value in o.statusCodes
  }

  /** `config?._retryCount >= retryCount`; undefined and NaN compare false. */
  predicate Exhausted(o: Options, c: Config) {
    c.retryCount.Some? && c.retryCount.value >= o.retryCount
  }

  /** What baseResponseIntercept resolves to. */
  datatype ResponseOutcome =
    | Rejected(attempts: int)        // the "retrying still failed after N time(s)" rejection
    | Resubmitted(config: Config)    // api(config) with the bumped counter
    | Propagated(error: AxiosError)  // the error, unchanged

  function Respond(o: Options, suspended: bool, e: AxiosError): (r: ResponseOutcome) {
    if Exhausted(o, e.config) then Rejected(e.config.retryCount.value)
    else if ShouldRefresh(o, e) || (e.cancel && suspended) then
      Resubmitted(e.config.(retryCount := Increment(e.config.retryCount)))
    else Propagated(e)
  }

  /** The budget test comes first: a request at its budget is rejected whatever its error, naming its count. */
  lemma ExhaustedIsRejected(o: Options, suspended: bool, e: AxiosError)
    ensures Respond(o, suspended, e).Rejected? <==> Exhausted(o, e.config)
    ensures Exhausted(o, e.config) ==> Respond(o, suspended, e) == Rejected(e.config.retryCount.value)
  {
  }

  /** Under budget, a matching error or a cancel during a refresh is resubmitted with the counter raised by exactly one. */
  lemma ResubmitBumpsCounter(o: Options, suspended: bool, e: AxiosError)
    ensures Respond(o, suspended, e).Resubmitted?
        <==> !Exhausted(o, e.config) && (ShouldRefresh(o, e) || (e.cancel && suspended))
    ensures Respond(o, suspended, e).Resubmitted? ==>
      var c := Respond(o, suspended, e).config;
      && c.signal == e.config.signal && c.rest == e.config.rest
      && (e.config.retryCount.Some? ==>
            c.retryCount == Some(e.config.retryCount.value + 1) && c.retryCount.value <= o.retryCount)
      && (e.config.retryCount.None? ==> c.retryCount.None?)
  {
  }

  /** Any other failure is passed on exactly as it arrived. */
  lemma OtherFailuresPropagate(o: Options, suspended: bool, e: AxiosError)
    requires !Exhausted(o, e.config) && !ShouldRefresh(o, e) && !(e.cancel && suspended)
    ensures Respond(o, suspended, e) == Propagated(e)
  {
  }

  /** With a custom shouldRefresh the configured status codes play no part. */
  lemma CustomPredicateReplacesStatusCodes(o: Options, codes: seq<int>, suspended: bool, e: AxiosError)
    requires o.shouldRefresh.Some?
    ensures Respond(o, suspended, e) == Respond(o.(statusCodes := codes), suspended, e)
  {
  }

  /**
   * Cancellation attribution as written: a cancel is retried when it lands
   * while a refresh round is open, whoever aborted the request, and
   * propagated otherwise.
   */
  lemma CancelRetriedOnlyWhileSuspended(o: Options, e: AxiosError)
    requires e.cancel && !Exhausted(o, e.config) && !ShouldRefresh(o, e)
    ensures Respond(o, true, e).Resubmitted?
    ensures Respond(o, false, e) == Propagated(e)
  {
  }

  // ---------------------------------------------------------------------------
  // The retry budget over a request's whole life

  /** One failed send: the error and whether a refresh round was open when its response hook ran. */
  datatype Attempt = Attempt(error: AxiosError, suspended: bool)

  /**
   * How often a request is resubmitted when its successive sends fail as
   * `attempts` says, starting from the counter `count`; the request hook
   * initialises the counter before every send.
   */
  function Resubmits(o: Options, count: Option<int>, attempts: seq<Attempt>): (r: nat)
    decreases |attempts|
  {
    if attempts == [] then 0
    else
      var sent := attempts[0].error.config.(retryCount := Some(InitRetryCount(count)));
      match Respond(o, attempts[0].suspended, attempts[0].error.(config := sent))
      case Resubmitted(c) => 1 + Resubmits(o, c.retryCount, attempts[1..])
      case _ => 0
  }

  /** retryCount minus the counter the request starts with, or zero. */
  function Budget(o: Options, count: Option<int>): (r: nat) {
    var k := o.retryCount - InitRetryCount(count);
    if k > 0 then k else 0
  }

  /** A request is never resubmitted more often than its budget allows, whatever its errors. */
  lemma {:induction false} RetryBudget(o: Options, count: Option<int>, attempts: seq<Attempt>)
    ensures Resubmits(o, count, attempts) <= Budget(o, count)
    decreases |attempts|
  {
    if attempts != [] {
      var sent := attempts[0].error.config.(retryCount := Some(InitRetryCount(count)));
      match Respond(o, attempts[0].suspended, attempts[0].error.(config := sent))
      case Resubmitted(c) =>
        assert c.retryCount == Some(InitRetryCount(count) + 1);
        RetryBudget(o, c.retryCount, attempts[1..]);
      case _ =>
    }
  }

  /** Failures that keep matching the status codes use up the whole budget and no more. */
  lemma {:induction false} RetryBudgetUsedUp(o: Options, count: Option<int>, attempts: seq<Attempt>)
    requires o.shouldRefresh.None?
    requires forall i :: 0 <= i < |attempts| ==>
      attempts[i].error.status.Some? && attempts[i].error.status.value in o.statusCodes
    ensures Resubmits(o, count, attempts) == if |attempts| <= Budget(o, count) then |attempts| else Budget(o, count)
    decreases |attempts|
  {
    if attempts != [] {
      var sent := attempts[0].error.config.(retryCount := Some(InitRetryCount(count)));
      var e := attempts[0].error.(config := sent);
      assert ShouldRefresh(o, e);
      if !Exhausted(o, sent) {
        var c := sent.(retryCount := Increment(sent.retryCount));
        assert Budget(o, c.retryCount) == Budget(o, count) - 1;
        RetryBudgetUsedUp(o, c.retryCount, attempts[1..]);
      }
    }
  }

  /** With the defaults, a request that keeps getting 401 is sent twice and then rejected naming one retry. */
  lemma RepeatedUnauthorizedWithDefaults(e1: AxiosError, e2: AxiosError)
    requires e1.status == Some(401) && e2.status == Some(401)
    ensures var o := MergeOptions(UserOptions(None, None, None, None));
      && Resubmits(o, None, [Attempt(e1, false), Attempt(e2, false)]) == 1
      && Respond(o, false, e2.(config := e2.config.(retryCount := Some(1)))) == Rejected(1)
  {
  }

  // ---------------------------------------------------------------------------
  // The observer

  /** `_retryCount > 0 || isSuspended`: the request hook starts or joins a refresh. */
  predicate NeedsExchange(count: int, suspended: bool) {
    count > 0 || suspended
  }

  class RequestObserver {
    const options: Options
    var suspended: bool          // isSuspended
    var queue: seq<nat>          // suspendedQueue
    var epoch: nat               // the current abortController
    var epochAborted: bool       // abortController.signal.aborted
    var handler: Option<nat>     // abortController.signal.onabort
    var nextId: nat              // supply of fresh resolvers and controllers
    ghost var released: seq<nat>  // resolvers called, in order
    ghost var aborted: set<nat>   // combined controllers aborted through the epoch
    ghost var pending: nat        // refreshHandler calls not yet settled
    ghost var refreshCalls: nat   // refreshHandler calls made

    ghost function State(): Coordinator.State
      reads this
    {
      Coordinator.State(suspended, queue, epoch, epochAborted, handler, nextId, released, aborted, pending, refreshCalls)
    }

    ghost predicate Valid()
      reads this
    {
      Inv(State())
    }

    /** A new observer takes the defaults for every option not supplied; not suspended, empty queue, unfired epoch. */
    constructor (user: UserOptions)
      ensures options == MergeOptions(user)
      ensures Valid() && State() == Initial()
    {
      options := MergeOptions(user);
      queue := [];
      epoch, epochAborted, handler, nextId := 0, false, None, 0;
      suspended := false;
      released, aborted, pending, refreshCalls := [], {}, 0, 0;
    }

    /** The epoch signal alone, unless combining is on and the request has a signal: then a fresh controller wired to both. */
    method CombineSignals(axiosSignal: Option<Signal>) returns (sig: Signal)
      requires Valid()
      modifies this
      ensures Valid()
      ensures sig == CombineResult(old(State()), options.combineAbortSignals, axiosSignal)
      ensures State() == CombineState(old(State()), options.combineAbortSignals, axiosSignal)
      ensures !Combines(options.combineAbortSignals, axiosSignal) ==> sig == EpochSignal(epoch) && State() == old(State())
      ensures Combines(options.combineAbortSignals, axiosSignal) ==>
        && sig.CombinedSignal? && sig != EpochSignal(epoch)
        && sig.id == old(nextId) && handler == Some(sig.id)
    {
      CombineKeepsInv(State(), options.combineAbortSignals, axiosSignal);
      var observerSignal := EpochSignal(epoch);
      if axiosSignal.None? || !options.combineAbortSignals {
        sig := observerSignal;
      } else {
        var combined := nextId;
        nextId := nextId + 1;
        handler := Some(combined);   // observerSignal.onabort = abortHandler
        sig := CombinedSignal(combined, epoch, axiosSignal.value);
      }
    }

    /** Park a fresh resolver; nothing but the queue changes. */
    method Subscribe() returns (resolver: nat)
      requires Valid()
      modifies this
      ensures Valid()
      ensures State() == Coordinator.Subscribe(old(State()))
      ensures resolver == old(nextId) && queue == old(queue) + [resolver]
      ensures resolver !in old(queue) && resolver !in released
      ensures suspended == old(suspended) && epoch == old(epoch) && epochAborted == old(epochAborted)
    {
      SubscribeKeepsInv(State());
      resolver := nextId;
      nextId := nextId + 1;
      queue := queue + [resolver];
    }

    /** Install a new epoch, call every parked resolver once in insertion order, clear the queue, unsuspend. */
    method Notify()
      requires Valid() && pending == 0
      modifies this
      ensures Valid()
      ensures State() == Coordinator.Notify(old(State()))
      ensures released == old(released) + old(queue) && queue == []
      ensures !suspended && epoch == old(epoch) + 1 && !epochAborted
    {
      NotifyKeepsInv(State());
      epoch, epochAborted, handler := epoch + 1, false, None;
      ghost var called := released;
      var i := 0;
      while i < |queue|
        invariant 0 <= i <= |queue|
        invariant called == old(released) + queue[..i]
      {
        called := called + [queue[i]];   // l()
        i := i + 1;
      }
      assert queue[..|queue|] == queue;
      released := called;
      queue := [];
      suspended := false;
    }

    /**
     * exchangeToken up to its await.  Suspended: only park a waiter, with no
     * refresh and no abort.  Otherwise: suspend, abort the epoch, then call
     * refreshHandler.
     */
    method ExchangeToken() returns (x: Exchange)
      requires Valid()
      modifies this
      ensures Valid()
      ensures x == ExchangeOf(old(State())) && State() == BeginExchange(old(State()))
      ensures old(suspended) ==>
        && x.Joined? && queue == old(queue) + [x.waiter]
        && refreshCalls == old(refreshCalls) && pending == old(pending)
        && epoch == old(epoch) && epochAborted == old(epochAborted)
      ensures !old(suspended) ==>
        && x == Started && queue == old(queue)
        && suspended && epochAborted
        && pending == 1 && refreshCalls == old(refreshCalls) + 1
    {
      BeginKeepsInv(State());
      if suspended {
        var w := Subscribe();
        return Joined(w);
      }
      suspended := true;
      if !epochAborted {              // this.abortController.abort()
        epochAborted := true;
        if handler.Some? {
          aborted := aborted + {handler.value};
        }
      }
      pending, refreshCalls := pending + 1, refreshCalls + 1;   // refreshHandler()
      x := Started;
    }

    /** exchangeToken after refreshHandler settles: notify on success; a failure is only logged, so the round stays open. */
    method ExchangeTokenSettled(succeeded: bool)
      requires Valid() && pending > 0
      modifies this
      ensures Valid()
      ensures State() == SettleExchange(old(State()), succeeded)
      ensures succeeded ==> queue == [] && released == old(released) + old(queue) && !suspended
      ensures !succeeded ==> suspended && queue == old(queue) && released == old(released) && pending == 0
    {
      SettleKeepsInv(State(), succeeded);
      pending := pending - 1;
      if succeeded {
        Notify();
      }
    }

    /**
     * baseRequestIntercept up to its await.  The counter is initialised; a
     * refresh is started or joined iff the counter is positive or the
     * observer is suspended, and then the signal is attached only after the
     * wait (BaseRequestInterceptResume); otherwise it is attached at once.
     */
    method BaseRequestIntercept(config: Config) returns (r: Config, p: Pending)
      requires Valid()
      modifies this
      ensures Valid()
      ensures r.retryCount == Some(InitRetryCount(config.retryCount)) && r.rest == config.rest
      ensures p.Awaiting? <==> NeedsExchange(InitRetryCount(config.retryCount), old(suspended))
      ensures p.Awaiting? ==>
        && r.signal == config.signal
        && p.exchange == ExchangeOf(old(State())) && State() == BeginExchange(old(State()))
      ensures p.Ready? ==>
        && r.signal == Some(CombineResult(old(State()), options.combineAbortSignals, config.signal))
        && State() == CombineState(old(State()), options.combineAbortSignals, config.signal)
    {
      r := config;
      if r.retryCount.None? || r.retryCount.value == 0 {
        r := r.(retryCount := Some(0));
      }
      if r.retryCount.value > 0 || suspended {
        var x := ExchangeToken();
        p := Awaiting(x);
      } else {
        var sig := CombineSignals(r.signal);
        r := r.(signal := Some(sig));
        p := Ready;
      }
    }

    /** baseRequestIntercept after its await: only `config.signal` is replaced, by combineSignals of it. */
    method BaseRequestInterceptResume(config: Config) returns (r: Config)
      requires Valid()
      modifies this
      ensures Valid()
      ensures r == config.(signal := Some(CombineResult(old(State()), options.combineAbortSignals, config.signal)))
      ensures State() == CombineState(old(State()), options.combineAbortSignals, config.signal)
    {
      var sig := CombineSignals(config.signal);
      r := config.(signal := Some(sig));
    }

    /** baseResponseIntercept: reject at the budget, resubmit a matching error or an observer-caused cancel, else propagate. */
    method BaseResponseIntercept(error: AxiosError) returns (out: ResponseOutcome)
      ensures out == Respond(options, suspended, error)
    {
      var config := error.config;
      var isCancelFromReqObserver := error.cancel && suspended;
      var shouldRefresh := ShouldRefresh(options, error);
      if config.retryCount.Some? && config.retryCount.value >= options.retryCount {
        return Rejected(config.retryCount.value);
      }
      if shouldRefresh || isCancelFromReqObserver {
        config := config.(retryCount := Increment(config.retryCount));
        return Resubmitted(config);
      }
      return Propagated(error);
    }
  }
}
