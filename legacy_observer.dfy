/**
 * RequestObserver of src/RequestObserver.ts: the older revision.  Its
 * options are taken as given (no defaults), refreshHandler resolves to a
 * token, and notify runs only when that token is truthy.
 */
module LegacyObserver {
  import opened Wrappers
  import opened Coordinator

  /** How the awaited refreshHandler() settled: a token that is truthy or not, or a rejection. */
  datatype RefreshOutcome = Resolved(truthyToken: bool) | Failed

  /** `if (token) return this.notify()`: only a truthy token ends the round. */
  predicate Notifies(outcome: RefreshOutcome) {
    outcome.Resolved? && outcome.truthyToken
  }

  /** `_retry || isSuspended`: getReqSignal starts or joins a refresh. */
  predicate NeedsExchange(retry: bool, suspended: bool) {
    retry || suspended
  }

  class RequestObserver {
    const combineAbortSignals: bool   // baseOptions?.combineAbortSignals, undefined read as false
    var suspended: bool
    var queue: seq<nat>
    var epoch: nat
    var epochAborted: bool
    var handler: Option<nat>
    var nextId: nat
    ghost var released: seq<nat>
    ghost var aborted: set<nat>
    ghost var pending: nat
    ghost var refreshCalls: nat

    ghost function State(): Coordinator.State
      reads this
    {
      Coordinator.State(suspended, queue, epoch, epochAborted, handler, nextId, released, aborted, pending, refreshCalls)
    }

    ghost predicate Valid()
      reads this
    {
      Inv(State())
    }

    /** A new observer: not suspended, empty queue; combining is on only when the option is supplied and true. */
    constructor (combine: Option<bool>)
      ensures combineAbortSignals == (combine.Some? && combine.value)
      ensures Valid() && State() == Initial()
    {
      combineAbortSignals := combine.Some? && combine.value;
      suspended := false;
      queue := [];
      epoch, epochAborted, handler, nextId := 0, false, None, 0;
      released, aborted, pending, refreshCalls := [], {}, 0, 0;
    }

    /** The epoch signal alone unless combining is on and the request has a signal. */
    method CombineSignals(aixosSignal: Option<Signal>) returns (sig: Signal)
      requires Valid()
      modifies this
      ensures Valid()
      ensures sig == CombineResult(old(State()), combineAbortSignals, aixosSignal)
      ensures State() == CombineState(old(State()), combineAbortSignals, aixosSignal)
      ensures !Combines(combineAbortSignals, aixosSignal) ==> sig == EpochSignal(epoch) && State() == old(State())
      ensures Combines(combineAbortSignals, aixosSignal) ==>
        && sig.CombinedSignal? && sig.id == old(nextId) && handler == Some(sig.id)
    {
      CombineKeepsInv(State(), combineAbortSignals, aixosSignal);
      var observerSignal := EpochSignal(epoch);
      if aixosSignal.None? || !combineAbortSignals {
        sig := observerSignal;
      } else {
        var combined := nextId;
        nextId := nextId + 1;
        handler := Some(combined);   // observerSignal.onabort = abortHandler
        sig := CombinedSignal(combined, epoch, aixosSignal.value);
      }
    }

    /** Park a fresh resolver; nothing but the queue changes. */
    method Subscribe() returns (resolver: nat)
      requires Valid()
      modifies this
      ensures Valid()
      ensures State() == Coordinator.Subscribe(old(State()))
      ensures resolver == old(nextId) && queue == old(queue) + [resolver]
      ensures resolver !in old(queue) && resolver !in released
      ensures suspended == old(suspended) && epoch == old(epoch) && epochAborted == old(epochAborted)
    {
      SubscribeKeepsInv(State());
      resolver := nextId;
      nextId := nextId + 1;
      queue := queue + [resolver];
    }

    /** New epoch, every parked resolver called once in insertion order, queue cleared, unsuspended. */
    method Notify()
      requires Valid() && pending == 0
      modifies this
      ensures Valid()
      ensures State() == Coordinator.Notify(old(State()))
      ensures released == old(released) + old(queue) && queue == []
      ensures !suspended && epoch == old(epoch) + 1 && !epochAborted
    {
      NotifyKeepsInv(State());
      epoch, epochAborted, handler := epoch + 1, false, None;
      ghost var called := released;
      var i := 0;
      while i < |queue|
        invariant 0 <= i <= |queue|
        invariant called == old(released) + queue[..i]
      {
        called := called + [queue[i]];   // l()
        i := i + 1;
      }
      assert queue[..|queue|] == queue;
      released := called;
      queue := [];
      suspended := false;
    }

    /** exchangeToken up to its await: park when suspended; otherwise suspend, abort the epoch and call refreshHandler. */
    method ExchangeToken() returns (x: Exchange)
      requires Valid()
      modifies this
      ensures Valid()
      ensures x == ExchangeOf(old(State())) && State() == BeginExchange(old(State()))
      ensures old(suspended) ==>
        && x.Joined? && queue == old(queue) + [x.waiter]
        && refreshCalls == old(refreshCalls) && epochAborted == old(epochAborted)
      ensures !old(suspended) ==>
        && x == Started && queue == old(queue) && suspended && epochAborted
        && pending == 1 && refreshCalls == old(refreshCalls) + 1
    {
      BeginKeepsInv(State());
      if suspended {
        var w := Subscribe();
        return Joined(w);
      }
      suspended := true;
      if !epochAborted {              // this.abortController.abort()
        epochAborted := true;
        if handler.Some? {
          aborted := aborted + {handler.value};
        }
      }
      pending, refreshCalls := pending + 1, refreshCalls + 1;   // refreshHandler()
      x := Started;
    }

    /** exchangeToken after its await: notify only on a truthy token; a falsy token or a rejection leaves the round open. */
    method ExchangeTokenSettled(outcome: RefreshOutcome)
      requires Valid() && pending > 0
      modifies this
      ensures Valid()
      ensures State() == SettleExchange(old(State()), Notifies(outcome))
      ensures Notifies(outcome) ==> queue == [] && released == old(released) + old(queue) && !suspended
      ensures !Notifies(outcome) ==> suspended && queue == old(queue) && released == old(released) && pending == 0
    {
      SettleKeepsInv(State(), Notifies(outcome));
      pending := pending - 1;
      if outcome.Resolved? && outcome.truthyToken {
        Notify();
      }
    }

    /**
     * getReqSignal up to its await: a refresh is started or joined iff the
     * request is marked `_retry` or the observer is suspended; otherwise the
     * signal is produced at once.
     */
    method GetReqSignal(retry: bool, signal: Option<Signal>) returns (p: Pending, sig: Option<Signal>)
      requires Valid()
      modifies this
      ensures Valid()
      ensures p.Awaiting? <==> NeedsExchange(retry, old(suspended))
      ensures p.Awaiting? ==>
        && sig.None? && p.exchange == ExchangeOf(old(State())) && State() == BeginExchange(old(State()))
      ensures p.Ready? ==>
        && sig == Some(CombineResult(old(State()), combineAbortSignals, signal))
        && State() == CombineState(old(State()), combineAbortSignals, signal)
    {
      if retry || suspended {
        var x := ExchangeToken();
        p, sig := Awaiting(x), None;
      } else {
        var s := CombineSignals(signal);
        p, sig := Ready, Some(s);
      }
    }

    /** getReqSignal after its await: combineSignals of the request's signal. */
    method GetReqSignalResume(signal: Option<Signal>) returns (sig: Signal)
      requires Valid()
      modifies this
      ensures Valid()
      ensures sig == CombineResult(old(State()), combineAbortSignals, signal)
      ensures State() == CombineState(old(State()), combineAbortSignals, signal)
    {
      sig := CombineSignals(signal);
    }

    /** getSuspendedStatus: reports isSuspended and changes nothing. */
    method GetSuspendedStatus() returns (b: bool)
      ensures b == suspended
    {
      b := suspended;
    }
  }
}
