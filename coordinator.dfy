/**
 * The refresh coordinator (RequestObserver) as a state machine over values.
 *
 * Both revisions of RequestObserver share this machine: each synchronous
 * segment between two `await`s is one step, because JavaScript runs a
 * segment to completion before any other callback.  The class models in
 * observer.dfy and legacy_observer.dfy update their fields exactly as the
 * steps below say; the lemmas here are what the observer guarantees about
 * any interleaving of those steps.
 */
module Coordinator {
  import opened Wrappers

  /** An abort signal, as it is attached to a request. */
  datatype Signal =
    | EpochSignal(epoch: nat)                              // the observer's abortController.signal of that epoch
    | CombinedSignal(id: nat, epoch: nat, other: Signal)   // a fresh controller wired to that epoch and to `other`
    | CallerSignal(id: nat)                                // a signal the caller put on the request

  /** What the synchronous part of exchangeToken did. */
  datatype Exchange = Joined(waiter: nat) | Started

  /** What a request hook does after its first synchronous segment. */
  datatype Pending = Ready | Awaiting(exchange: Exchange)

  datatype State = State(
    suspended: bool,        // isSuspended
    queue: seq<nat>,        // suspendedQueue, in insertion order (a Set of fresh resolvers)
    epoch: nat,             // which abortController is current
    epochAborted: bool,     // abortController.signal.aborted
    handler: Option<nat>,   // the combined controller whose handler sits in the epoch signal's onabort slot
    nextId: nat,            // supply of fresh resolvers and combined controllers
    released: seq<nat>,     // resolvers called so far, in call order
    aborted: set<nat>,      // combined controllers aborted through the epoch signal
    pending: nat,           // refreshHandler calls not yet settled
    refreshCalls: nat)      // refreshHandler calls made so far

  /** A new observer: not suspended, empty queue, unfired epoch. */
  function Initial(): (r: State) {
    State(false, [], 0, false, None, 0, [], {}, 0, 0)
  }

  /** subscribe: park a fresh resolver. */
  function Subscribe(s: State): (r: State) {
    s.(queue := s.queue + [s.nextId], nextId := s.nextId + 1)
  }

  /** notify: a new controller, every parked resolver called once, queue cleared, unsuspended. */
  function Notify(s: State): (r: State) {
    s.(epoch := s.epoch + 1, epochAborted := false, handler := None,
       released := s.released + s.queue, queue := [], suspended := false)
  }

  /** abortController.abort(): fires the epoch signal and the one handler in its onabort slot; a second abort does nothing. */
  function Abort(s: State): (r: State) {
    if s.epochAborted then s
    else s.(epochAborted := true,
            aborted := if s.handler.Some? then s.aborted + {s.handler.value} else s.aborted)
  }

  /** exchangeToken up to its await: join as a waiter, or suspend, abort the epoch and call refreshHandler. */
  function BeginExchange(s: State): (r: State) {
    if s.suspended then Subscribe(s)
    else Abort(s.(suspended := true)).(pending := s.pending + 1, refreshCalls := s.refreshCalls + 1)
  }

  /** Which branch exchangeToken takes. */
  function ExchangeOf(s: State): (r: Exchange) {
    if s.suspended then Joined(s.nextId) else Started
  }

  /** exchangeToken after its await: notify when the refresh counts as a success, otherwise nothing. */
  function SettleExchange(s: State, notified: bool): (r: State)
    requires s.pending > 0
  {
    var t := s.(pending := s.pending - 1);
    if notified then Notify(t) else t
  }

  /** combineSignals keeps the observer signal unless combining is on and the request has a signal. */
  predicate Combines(enabled: bool, external: Option<Signal>) {
    enabled && external.Some?
  }

  function CombineResult(s: State, enabled: bool, external: Option<Signal>): (r: Signal) {
    if Combines(enabled, external) then CombinedSignal(s.nextId, s.epoch, external.value)
    else EpochSignal(s.epoch)
  }

  /** Combining overwrites the epoch signal's onabort slot with the new controller's handler. */
  function CombineState(s: State, enabled: bool, external: Option<Signal>): (r: State) {
    if Combines(enabled, external) then s.(handler := Some(s.nextId), nextId := s.nextId + 1)
    else s
  }

  /** A signal that has not fired and will fire when the current epoch is aborted. */
  ghost predicate Live(s: State, sig: Signal) {
    match sig
    case EpochSignal(n) => n == s.epoch && !s.epochAborted
    case CombinedSignal(id, n, _) => n == s.epoch && !s.epochAborted && id !in s.aborted && s.handler == Some(id)
    case CallerSignal(_) => false
  }

  // ---------------------------------------------------------------------------
  // Invariants

  ghost predicate Distinct(q: seq<nat>) {
    forall i, j :: 0 <= i < j < |q| ==> q[i] != q[j]
  }

  /** What every step keeps: single flight, fresh and distinct resolvers, and ids drawn from the supply. */
  ghost predicate Inv(s: State) {
    && s.pending <= 1
    && (s.pending == 1 ==> s.suspended)
    && (s.epochAborted ==> s.suspended)
    && Distinct(s.queue)
    && Distinct(s.released)
    && (forall w :: w in s.queue ==> w !in s.released)
    && (forall w :: w in s.queue ==> w < s.nextId)
    && (forall w :: w in s.released ==> w < s.nextId)
    && (forall c :: c in s.aborted ==> c < s.nextId)
    && (s.handler.Some? ==> s.handler.value < s.nextId)
  }

  /** A request is parked only while a refresh round is open. */
  ghost predicate ParkedOnlyWhileSuspended(s: State) {
    !s.suspended ==> s.queue == []
  }

  lemma {:induction false} DistinctConcat(a: seq<nat>, b: seq<nat>)
    requires Distinct(a) && Distinct(b)
    requires forall w :: w in b ==> w !in a
    ensures Distinct(a + b)
  {
    forall i, j | 0 <= i < j < |a + b| ensures (a + b)[i] != (a + b)[j] {
      if j >= |a| && i < |a| {
        assert (a + b)[j] == b[j - |a|] && b[j - |a|] in b;
        assert (a + b)[i] == a[i] && a[i] in a;
      } else if i >= |a| {
        assert (a + b)[i] == b[i - |a|] && (a + b)[j] == b[j - |a|];
      }
    }
  }

  lemma InitialInv()
    ensures Inv(Initial()) && ParkedOnlyWhileSuspended(Initial())
  {
  }

  lemma SubscribeKeepsInv(s: State)
    requires Inv(s)
    ensures Inv(Subscribe(s))
    ensures Subscribe(s).queue == s.queue + [s.nextId] && s.nextId !in s.queue && s.nextId !in s.released
  {
    DistinctConcat(s.queue, [s.nextId]);
  }

  lemma NotifyKeepsInv(s: State)
    requires Inv(s) && s.pending == 0
    ensures Inv(Notify(s)) && ParkedOnlyWhileSuspended(Notify(s))
    ensures Notify(s).released == s.released + s.queue && Notify(s).queue == []
  {
    DistinctConcat(s.released, s.queue);
  }

  lemma BeginKeepsInv(s: State)
    requires Inv(s)
    ensures Inv(BeginExchange(s))
    ensures ParkedOnlyWhileSuspended(BeginExchange(s))
  {
    if s.suspended {
      SubscribeKeepsInv(s);
    }
  }

  lemma SettleKeepsInv(s: State, notified: bool)
    requires Inv(s) && s.pending > 0
    ensures Inv(SettleExchange(s, notified))
    ensures ParkedOnlyWhileSuspended(s) ==> ParkedOnlyWhileSuspended(SettleExchange(s, notified))
  {
    if notified {
      NotifyKeepsInv(s.(pending := s.pending - 1));
    }
  }

  lemma CombineKeepsInv(s: State, enabled: bool, external: Option<Signal>)
    requires Inv(s)
    ensures Inv(CombineState(s, enabled, external))
    ensures ParkedOnlyWhileSuspended(s) ==> ParkedOnlyWhileSuspended(CombineState(s, enabled, external))
  {
  }

  // ---------------------------------------------------------------------------
  // Runs: any interleaving of the observer's public steps

  datatype Event =
    | Trigger                                        // a request calls exchangeToken
    | Settle(notified: bool)                         // the outstanding refreshHandler call settles
    | Attach(enabled: bool, external: Option<Signal>) // a request calls combineSignals

  /** One atomic segment; a settlement with no refresh outstanding has no continuation to run. */
  function Step(s: State, e: Event): (r: State) {
    match e
    case Trigger => BeginExchange(s)
    case Settle(notified) => if s.pending > 0 then SettleExchange(s, notified) else s
    case Attach(enabled, external) => CombineState(s, enabled, external)
  }

  function Run(s: State, events: seq<Event>): (r: State)
    decreases |events|
  {
    if events == [] then s else Run(Step(s, events[0]), events[1..])
  }

  lemma StepKeepsInv(s: State, e: Event)
    requires Inv(s)
    ensures Inv(Step(s, e))
    ensures ParkedOnlyWhileSuspended(s) ==> ParkedOnlyWhileSuspended(Step(s, e))
  {
    match e
    case Trigger => BeginKeepsInv(s);
    case Settle(notified) => if s.pending > 0 { SettleKeepsInv(s, notified); }
    case Attach(enabled, external) => CombineKeepsInv(s, enabled, external);
  }

  lemma {:induction false} RunKeepsInv(s: State, events: seq<Event>)
    requires Inv(s)
    ensures Inv(Run(s, events))
    ensures ParkedOnlyWhileSuspended(s) ==> ParkedOnlyWhileSuspended(Run(s, events))
    decreases |events|
  {
    if events != [] {
      StepKeepsInv(s, events[0]);
      RunKeepsInv(Step(s, events[0]), events[1..]);
    }
  }

  /** Single flight: from a new observer, whatever the interleaving, at most one refresh is outstanding. */
  lemma SingleFlight(events: seq<Event>)
    ensures Run(Initial(), events).pending <= 1
    ensures Run(Initial(), events).pending == 1 ==> Run(Initial(), events).suspended
  {
    InitialInv();
    RunKeepsInv(Initial(), events);
  }

  /** A step starts a refresh only from an unsuspended observer with nothing outstanding, and aborts the epoch as it does. */
  lemma RefreshStartsOnlyWhenIdle(s: State, e: Event)
    requires Inv(s)
    requires Step(s, e).refreshCalls != s.refreshCalls
    ensures e == Trigger && !s.suspended && s.pending == 0
    ensures Step(s, e).refreshCalls == s.refreshCalls + 1 && Step(s, e).pending == 1
    ensures Step(s, e).suspended && Step(s, e).epochAborted
  {
  }

  /**
   * After a failed refresh the request that started it resumes with the
   * epoch that was aborted: with combining off it gets that fired epoch
   * signal; with combining on, a fresh combined signal that has not fired
   * and that the already-aborted epoch can no longer reach.
   */
  lemma FailedRefreshResumeSignal(s: State, enabled: bool, external: Option<Signal>)
    requires Inv(s) && !s.suspended
    ensures var t := SettleExchange(BeginExchange(s), false);
      && t.suspended && t.epochAborted && t.epoch == s.epoch
      && (!Combines(enabled, external) ==>
            CombineResult(t, enabled, external) == EpochSignal(s.epoch) && !Live(t, EpochSignal(s.epoch)))
      && (Combines(enabled, external) ==>
            var sig := CombineResult(t, enabled, external);
            var u := CombineState(t, enabled, external);
            && sig.CombinedSignal? && sig.epoch == s.epoch && sig.other == external.value
            && sig.id !in u.aborted && Abort(u) == u)
  {
  }

  lemma {:induction false} RunAppend(s: State, a: seq<Event>, b: seq<Event>)
    ensures Run(s, a + b) == Run(Run(s, a), b)
    decreases |a|
  {
    if a == [] {
      assert a + b == b;
    } else {
      assert (a + b)[0] == a[0] && (a + b)[1..] == a[1..] + b;
      RunAppend(Step(s, a[0]), a[1..], b);
    }
  }

  /** n requests calling exchangeToken in a row. */
  function Triggers(n: nat): (r: seq<Event>)
    ensures |r| == n && forall i :: 0 <= i < n ==> r[i] == Trigger
  {
    seq(n, _ => Trigger)
  }

  /** The k resolvers drawn from the supply starting at `first`, in order. */
  function Ids(first: nat, k: nat): (r: seq<nat>)
    ensures |r| == k && forall i :: 0 <= i < k ==> r[i] == first + i
  {
    seq(k, i requires 0 <= i => first + i)
  }

  /** While a round is open, every caller of exchangeToken parks, in arrival order, and nothing else changes. */
  lemma {:induction false} TriggersWhileSuspended(s: State, n: nat)
    requires s.suspended
    ensures Run(s, Triggers(n)) == s.(queue := s.queue + Ids(s.nextId, n), nextId := s.nextId + n)
    decreases n
  {
    if n == 0 {
      assert s.queue + Ids(s.nextId, 0) == s.queue;
    } else {
      var t := Subscribe(s);
      assert Triggers(n)[0] == Trigger && Triggers(n)[1..] == Triggers(n - 1);
      TriggersWhileSuspended(t, n - 1);
      assert s.queue + Ids(s.nextId, n) == t.queue + Ids(t.nextId, n - 1);
    }
  }

  /**
   * N requests that find the credential stale at once: exactly one refresh
   * runs, the other N-1 park in arrival order, and a successful refresh
   * releases all of them in that order and installs an unfired epoch.
   */
  lemma {:induction false} ConcurrentStaleRequests(s: State, n: nat)
    requires Inv(s) && ParkedOnlyWhileSuspended(s) && !s.suspended && n >= 1
    ensures Run(s, Triggers(n)).refreshCalls == s.refreshCalls + 1
    ensures Run(s, Triggers(n)).pending == 1
    ensures Run(s, Triggers(n)).queue == Ids(s.nextId, n - 1)
    ensures var u := Run(s, Triggers(n) + [Settle(true)]);
      && u.released == s.released + Ids(s.nextId, n - 1)
      && u.queue == [] && !u.suspended && u.pending == 0
      && u.refreshCalls == s.refreshCalls + 1
      && u.epoch == s.epoch + 1 && !u.epochAborted
  {
    var t := BeginExchange(s);
    assert Triggers(n)[0] == Trigger && Triggers(n)[1..] == Triggers(n - 1);
    assert Run(s, Triggers(n)) == Run(t, Triggers(n - 1));
    TriggersWhileSuspended(t, n - 1);
    RunAppend(s, Triggers(n), [Settle(true)]);
  }

  /** A failed refresh leaves the round open: still suspended, queue untouched, nothing released. */
  lemma FailedSettleKeepsRoundOpen(s: State)
    requires Inv(s) && s.pending > 0
    ensures var t := SettleExchange(s, false);
      t.suspended && t.pending == 0 && t.queue == s.queue && t.released == s.released && t.epoch == s.epoch
  {
  }

  /**
   * After a failed refresh nothing can ever start another: whatever happens
   * next, no refresh call is made, no waiter is released, the observer stays
   * suspended and the parked waiters stay at the head of the queue.
   */
  lemma {:induction false} FailedRefreshIsSticky(s: State, events: seq<Event>)
    requires s.suspended && s.pending == 0
    ensures var t := Run(s, events);
      && t.suspended && t.pending == 0
      && t.refreshCalls == s.refreshCalls
      && t.released == s.released
      && t.epoch == s.epoch
      && s.queue <= t.queue
    decreases |events|
  {
    if events != [] {
      var t := Step(s, events[0]);
      FailedRefreshIsSticky(t, events[1..]);
    }
  }

  /**
   * The epoch signal has a single onabort slot: of two requests that combine
   * their signals before a refresh starts, only the later one is aborted
   * when the refresh aborts the epoch.
   */
  lemma OnlyLatestCombinedFires(s: State, x: Signal, y: Signal)
    requires Inv(s) && !s.suspended
    ensures var t := Run(s, [Attach(true, Some(x)), Attach(true, Some(y)), Trigger]);
      && s.nextId !in t.aborted
      && s.nextId + 1 in t.aborted
      && t.epochAborted
  {
    var s1 := CombineState(s, true, Some(x));
    var s2 := CombineState(s1, true, Some(y));
    assert Run(s, [Attach(true, Some(x)), Attach(true, Some(y)), Trigger])
        == Run(s1, [Attach(true, Some(y)), Trigger]);
    assert Run(s1, [Attach(true, Some(y)), Trigger]) == Run(s2, [Trigger]);
  }

  /** Epoch rotation: after a successful refresh the signal handed to a new request is live and of a newer epoch. */
  lemma FreshSignalAfterRefresh(s: State, enabled: bool, external: Option<Signal>)
    requires Inv(s) && s.pending > 0
    ensures var t := SettleExchange(s, true);
      var sig := CombineResult(t, enabled, external);
      && Live(CombineState(t, enabled, external), sig)
      && sig.epoch == s.epoch + 1
  {
  }
}
