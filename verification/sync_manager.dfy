/** `DefaultSyncManager`: the orchestrator choosing between streaming and
    polling. Its state is the two flags of the source plus whether the
    reconnect timer holds a pending push-manager start; each operation
    returns the new state and the calls it makes on its collaborators, in
    order. */
module SyncManager {
  import opened ClientConfig
  import Backoff

  /** Connectivity events raised by the push subsystem. */
  datatype PushStatusEvent =
    | PushSubsystemUp
    | PushSubsystemDown
    | PushSubsystemDisabled
    | PushRetryableError
    | PushNonRetryableError

  /** Calls made on the synchronizer, the broadcaster channel, the push
      notification manager and the reconnect timer. */
  datatype Call =
    | SyncAll
    | StartPeriodicFetching
    | StopPeriodicFetching
    | StartPeriodicRecording
    | SynchronizerPause
    | SynchronizerResume
    | SynchronizerDestroy
    | RegisterOnBroadcaster
    | PushManagerStart
    | PushManagerPause
    | PushManagerResume
    | PushManagerStop
    | TimerCancel
    | TimerScheduleReconnect

  datatype SyncState = SyncState(pollingEnabled: bool, paused: bool, reconnectPending: bool)

  /** The state after an operation and the calls it made. */
  datatype Step = Step(state: SyncState, calls: seq<Call>)

  /** A manager just constructed: both flags false, nothing scheduled. */
  const Initial: SyncState := SyncState(false, false, false)

  /** How many times `c` occurs in `calls`. */
  function Count(c: Call, calls: seq<Call>): (n: nat)
    ensures n <= |calls|
    ensures n == 0 <==> c !in calls
  {
    if |calls| == 0 then 0
    else (if calls[0] == c then 1 else 0) + Count(c, calls[1..])
  }

  lemma {:induction false} CountAppend(c: Call, a: seq<Call>, b: seq<Call>)
    ensures Count(c, a + b) == Count(c, a) + Count(c, b)
    decreases |a|
  {
    if |a| == 0 {
      assert a + b == b;
    } else {
      assert (a + b)[0] == a[0];
      assert (a + b)[1..] == a[1..] + b;
      CountAppend(c, a[1..], b);
    }
  }

  /** `start`: an immediate full sync, then either streaming (register for
      push events and start the push manager) or polling, and always the
      periodic recording last. */
  function Start(config: SplitClientConfig, s: SyncState): (r: Step)
    ensures |r.calls| == if config.streamingEnabled then 4 else 3
    ensures r.calls[0] == SyncAll && r.calls[|r.calls| - 1] == StartPeriodicRecording
    ensures r.state == s.(pollingEnabled := !config.streamingEnabled)
    // streaming: register for push events, then start the push manager
    ensures config.streamingEnabled ==>
      r.calls[1] == RegisterOnBroadcaster && r.calls[2] == PushManagerStart
    // polling: periodic fetching is the only call in between
    ensures !config.streamingEnabled ==> r.calls[1] == StartPeriodicFetching
    ensures (StartPeriodicFetching in r.calls) <==> !config.streamingEnabled
    ensures (PushManagerStart in r.calls) <==> config.streamingEnabled
  {
    var middle := if config.streamingEnabled then [RegisterOnBroadcaster, PushManagerStart]
                  else [StartPeriodicFetching];
    Step(s.(pollingEnabled := !config.streamingEnabled), [SyncAll] + middle + [StartPeriodicRecording])
  }

  /** `pause`: raise the flag, then pause the push manager and the synchronizer. */
  function Pause(s: SyncState): (r: Step)
    ensures r.state.paused
    ensures r.state.pollingEnabled == s.pollingEnabled && r.state.reconnectPending == s.reconnectPending
    ensures r.calls == [PushManagerPause, SynchronizerPause]
  {
    Step(s.(paused := true), [PushManagerPause, SynchronizerPause])
  }

  /** `resume`: lower the flag, then resume the synchronizer and the push manager. */
  function Resume(s: SyncState): (r: Step)
    ensures !r.state.paused
    ensures r.state.pollingEnabled == s.pollingEnabled && r.state.reconnectPending == s.reconnectPending
    ensures r.calls == [SynchronizerResume, PushManagerResume]
  {
    Step(s.(paused := false), [SynchronizerResume, PushManagerResume])
  }

  /** Pausing and then resuming an active manager restores its state exactly:
      the polling choice survives a pause. */
  lemma PauseResumeRoundTrip(s: SyncState)
    requires !s.paused
    ensures Resume(Pause(s).state).state == s
    ensures Pause(Resume(s).state).state == s.(paused := true)
  {
  }

  /** `stop`: cancel the reconnect, stop the push manager, destroy the
      synchronizer. */
  function Stop(s: SyncState): (r: Step)
    ensures r.calls == [TimerCancel, PushManagerStop, SynchronizerDestroy]
    ensures !r.state.reconnectPending
    ensures r.state.pollingEnabled == s.pollingEnabled && r.state.paused == s.paused
  {
    Step(s.(reconnectPending := false), [TimerCancel, PushManagerStop, SynchronizerDestroy])
  }

  /** `enablePolling`: the test-and-set on the polling flag; periodic fetching
      is started only by the call that flips it. */
  function EnablePolling(s: SyncState): (r: Step)
    ensures r.state == s.(pollingEnabled := true)
    ensures r.calls == if s.pollingEnabled then [] else [StartPeriodicFetching]
  {
    if !s.pollingEnabled then Step(s.(pollingEnabled := true), [StartPeriodicFetching])
    else Step(s, [])
  }

  /** Enabling polling a second time does nothing. */
  lemma EnablePollingIdempotent(s: SyncState)
    ensures EnablePolling(EnablePolling(s).state) == Step(EnablePolling(s).state, [])
  {
  }

  /** `stopStreaming`: cancel any reconnect, fall back to polling, stop the
      push manager for good. */
  function StopStreaming(s: SyncState): (r: Step)
    ensures r.state == s.(pollingEnabled := true, reconnectPending := false)
    ensures r.calls == if s.pollingEnabled then [TimerCancel, PushManagerStop]
                       else [TimerCancel, StartPeriodicFetching, PushManagerStop]
    ensures Count(StartPeriodicFetching, r.calls) == if s.pollingEnabled then 0 else 1
  {
    var p := EnablePolling(s.(reconnectPending := false));
    Step(p.state, [TimerCancel] + p.calls + [PushManagerStop])
  }

  /** `handle(pushEvent:)`: ignored entirely while paused. */
  function Handle(s: SyncState, e: PushStatusEvent): (r: Step)
    // paused: no state change and no call, and only then
    ensures s.paused ==> r == Step(s, [])
    ensures !s.paused ==> |r.calls| > 0
    ensures r.state.paused == s.paused
    // an event other than Up leaves polling on; Up turns it off
    ensures !s.paused ==> (r.state.pollingEnabled <==> e != PushSubsystemUp)
    // a reconnect is pending after a retryable error and after nothing else
    ensures !s.paused ==> (r.state.reconnectPending <==> e == PushRetryableError)
    // every event but a retryable error cancels the timer, first of all;
    // a retryable error schedules the reconnect, last of all
    ensures (TimerCancel in r.calls) <==> !s.paused && e != PushRetryableError
    ensures TimerCancel in r.calls ==> r.calls[0] == TimerCancel
    ensures (TimerScheduleReconnect in r.calls) <==> !s.paused && e == PushRetryableError
    ensures TimerScheduleReconnect in r.calls ==> r.calls[|r.calls| - 1] == TimerScheduleReconnect
    // periodic fetching starts only when polling was off and is being turned on
    ensures (StartPeriodicFetching in r.calls) <==>
      !s.paused && !s.pollingEnabled && e != PushSubsystemUp
    // Up syncs before it stops fetching
    ensures (SyncAll in r.calls) <==> !s.paused && e == PushSubsystemUp
    ensures (StopPeriodicFetching in r.calls) <==> !s.paused && e == PushSubsystemUp
    ensures !s.paused && e == PushSubsystemUp ==> r.calls[1] == SyncAll && r.calls[2] == StopPeriodicFetching
    // only Disabled and NonRetryable stop the push manager, as their last call
    ensures (PushManagerStop in r.calls) <==>
      !s.paused && (e == PushSubsystemDisabled || e == PushNonRetryableError)
    ensures PushManagerStop in r.calls ==> r.calls[|r.calls| - 1] == PushManagerStop
    // nothing else is ever called, and no call is made twice
    ensures forall c :: c in r.calls ==>
      c in {TimerCancel, SyncAll, StopPeriodicFetching, StartPeriodicFetching, PushManagerStop, TimerScheduleReconnect}
    ensures forall i, j :: 0 <= i < j < |r.calls| ==> r.calls[i] != r.calls[j]
  {
    if s.paused then Step(s, [])
    else
      match e
      case PushSubsystemUp =>
        Step(s.(pollingEnabled := false, reconnectPending := false),
             [TimerCancel, SyncAll, StopPeriodicFetching])
      case PushSubsystemDown =>
        // cancel, then `enablePolling` with its calls written out
        var p := EnablePolling(s.(reconnectPending := false));
        assert p.calls == if s.pollingEnabled then [] else [StartPeriodicFetching];
        Step(p.state, if s.pollingEnabled then [TimerCancel] else [TimerCancel, StartPeriodicFetching])
      case PushSubsystemDisabled =>
        StopStreaming(s)
      case PushRetryableError =>
        // `enablePolling` with its calls written out, then schedule
        var p := EnablePolling(s);
        assert p.calls == if s.pollingEnabled then [] else [StartPeriodicFetching];
        Step(p.state.(reconnectPending := true),
             if s.pollingEnabled then [TimerScheduleReconnect] else [StartPeriodicFetching, TimerScheduleReconnect])
      case PushNonRetryableError =>
        StopStreaming(s)
  }

  /** Handling one event starts periodic fetching exactly when polling was off
      and the event turns it on, and never more than once. */
  lemma {:induction false} HandleStartsFetching(s: SyncState, e: PushStatusEvent)
    ensures Count(StartPeriodicFetching, Handle(s, e).calls) ==
      if !s.paused && !s.pollingEnabled && e != PushSubsystemUp then 1 else 0
  {
    if !s.paused {
      match e
      case PushSubsystemUp =>
      case PushSubsystemDown =>
        var p := EnablePolling(s.(reconnectPending := false));
        CountAppend(StartPeriodicFetching, [TimerCancel], p.calls);
      case PushSubsystemDisabled =>
      case PushRetryableError =>
        var p := EnablePolling(s);
        CountAppend(StartPeriodicFetching, p.calls, [TimerScheduleReconnect]);
      case PushNonRetryableError =>
    }
  }

  /** The reconnect timer firing: a pending reconnect starts the push
      manager once; with nothing pending, firing does nothing. */
  function FireReconnectTimer(s: SyncState): (r: Step)
    ensures r.state == s.(reconnectPending := false)
    ensures (PushManagerStart in r.calls) <==> s.reconnectPending
    ensures |r.calls| <= 1
  {
    if s.reconnectPending then Step(s.(reconnectPending := false), [PushManagerStart])
    else Step(s, [])
  }

  /** A sequence of events handled one after the other. */
  function HandleAll(s: SyncState, es: seq<PushStatusEvent>): (r: Step)
    decreases |es|
  {
    if |es| == 0 then Step(s, [])
    else
      var first := Handle(s, es[0]);
      var rest := HandleAll(first.state, es[1..]);
      Step(rest.state, first.calls + rest.calls)
  }

  /** While paused, no sequence of events changes anything or calls anything. */
  lemma {:induction false} PausedIgnoresEvents(s: SyncState, es: seq<PushStatusEvent>)
    requires s.paused
    ensures HandleAll(s, es) == Step(s, [])
    decreases |es|
  {
    if |es| > 0 {
      PausedIgnoresEvents(s, es[1..]);
    }
  }

  /** A burst of events with no Up among them starts periodic fetching at
      most once, and not at all if polling was already on. */
  lemma {:induction false} FetchingStartsAtMostOnce(s: SyncState, es: seq<PushStatusEvent>)
    requires forall i :: 0 <= i < |es| ==> es[i] != PushSubsystemUp
    ensures Count(StartPeriodicFetching, HandleAll(s, es).calls) <= if s.pollingEnabled then 0 else 1
    ensures s.pollingEnabled ==> HandleAll(s, es).state.pollingEnabled
    decreases |es|
  {
    if |es| > 0 {
      var first := Handle(s, es[0]);
      HandleStartsFetching(s, es[0]);
      FetchingStartsAtMostOnce(first.state, es[1..]);
      CountAppend(StartPeriodicFetching, first.calls, HandleAll(first.state, es[1..]).calls);
    }
  }

  /** Two Down events in a row, unpaused and with polling off, start periodic
      fetching exactly once. */
  lemma TwoDownsStartFetchingOnce(s: SyncState)
    requires !s.paused && !s.pollingEnabled
    ensures Count(StartPeriodicFetching, HandleAll(s, [PushSubsystemDown, PushSubsystemDown]).calls) == 1
  {
    var first := Handle(s, PushSubsystemDown);
    var second := Handle(first.state, PushSubsystemDown);
    HandleStartsFetching(s, PushSubsystemDown);
    HandleStartsFetching(first.state, PushSubsystemDown);
    assert HandleAll(s, [PushSubsystemDown, PushSubsystemDown]).calls == first.calls + second.calls;
    CountAppend(StartPeriodicFetching, first.calls, second.calls);
  }

  /** Disabled and non-retryable error are handled identically. */
  lemma DisabledAndNonRetryableAlike(s: SyncState)
    ensures Handle(s, PushSubsystemDisabled) == Handle(s, PushNonRetryableError)
  {
  }

  /** After a retryable error a reconnect is pending; an unpaused Up, Down,
      Disabled or non-retryable event cancels it, so the timer firing
      afterwards starts nothing. */
  lemma RetryableReconnectCancelled(s: SyncState, e: PushStatusEvent)
    requires !s.paused && e != PushRetryableError
    ensures var retried := Handle(s, PushRetryableError);
      && retried.state.reconnectPending
      && retried.state.pollingEnabled
      && retried.calls[|retried.calls| - 1] == TimerScheduleReconnect
      && var after := Handle(retried.state, e);
      && TimerCancel in after.calls
      && FireReconnectTimer(after.state).calls == []
  {
  }

  /** Without an intervening event, the pending reconnect does start the push
      manager when the timer fires. */
  lemma RetryableReconnectFires(s: SyncState)
    requires !s.paused
    ensures FireReconnectTimer(Handle(s, PushRetryableError).state).calls == [PushManagerStart]
  {
  }

  /** Whether periodic fetching is running after `calls`, given whether it
      was running before: the last start or stop of fetching decides. */
  function FetchingRunning(before: bool, calls: seq<Call>): bool
    decreases |calls|
  {
    if |calls| == 0 then before
    else
      var now := if calls[0] == StartPeriodicFetching then true
                 else if calls[0] == StopPeriodicFetching then false
                 else before;
      FetchingRunning(now, calls[1..])
  }

  lemma {:induction false} FetchingRunningAppend(before: bool, a: seq<Call>, b: seq<Call>)
    ensures FetchingRunning(before, a + b) == FetchingRunning(FetchingRunning(before, a), b)
    decreases |a|
  {
    if |a| == 0 {
      assert a + b == b;
    } else {
      assert (a + b)[0] == a[0];
      assert (a + b)[1..] == a[1..] + b;
      var now := if a[0] == StartPeriodicFetching then true
                 else if a[0] == StopPeriodicFetching then false
                 else before;
      FetchingRunningAppend(now, a[1..], b);
    }
  }

  /** Calls that neither start nor stop fetching leave it as it was. */
  lemma {:induction false} FetchingRunningNeutral(before: bool, calls: seq<Call>)
    requires StartPeriodicFetching !in calls && StopPeriodicFetching !in calls
    ensures FetchingRunning(before, calls) == before
    decreases |calls|
  {
    if |calls| > 0 {
      assert calls[0] in calls;
      assert forall c :: c in calls[1..] ==> c in calls;
      FetchingRunningNeutral(before, calls[1..]);
    }
  }

  /** A single start or stop, surrounded by neutral calls, decides. */
  lemma {:induction false} FetchingRunningSingle(before: bool, a: seq<Call>, c: Call, b: seq<Call>)
    requires StartPeriodicFetching !in a && StopPeriodicFetching !in a
    requires StartPeriodicFetching !in b && StopPeriodicFetching !in b
    requires c == StartPeriodicFetching || c == StopPeriodicFetching
    ensures FetchingRunning(before, a + [c] + b) == (c == StartPeriodicFetching)
  {
    FetchingRunningAppend(before, a + [c], b);
    FetchingRunningAppend(before, a, [c]);
    FetchingRunningNeutral(before, a);
    FetchingRunningNeutral(c == StartPeriodicFetching, b);
  }

  /** Handling an event keeps the polling flag equal to whether periodic
      fetching is running. */
  lemma {:induction false} HandleKeepsPollingInSync(s: SyncState, e: PushStatusEvent)
    ensures FetchingRunning(s.pollingEnabled, Handle(s, e).calls) == Handle(s, e).state.pollingEnabled
  {
    var r := Handle(s, e);
    if s.paused {
      FetchingRunningNeutral(s.pollingEnabled, r.calls);
    } else if e == PushSubsystemUp {
      FetchingRunningSingle(s.pollingEnabled, [TimerCancel, SyncAll], StopPeriodicFetching, []);
      assert r.calls == [TimerCancel, SyncAll] + [StopPeriodicFetching] + [];
    } else if s.pollingEnabled {
      FetchingRunningNeutral(s.pollingEnabled, r.calls);
    } else {
      match e
      case PushSubsystemDown =>
        FetchingRunningSingle(s.pollingEnabled, [TimerCancel], StartPeriodicFetching, []);
        assert r.calls == [TimerCancel] + [StartPeriodicFetching] + [];
      case PushSubsystemDisabled =>
        FetchingRunningSingle(s.pollingEnabled, [TimerCancel], StartPeriodicFetching, [PushManagerStop]);
        assert r.calls == [TimerCancel] + [StartPeriodicFetching] + [PushManagerStop];
      case PushRetryableError =>
        FetchingRunningSingle(s.pollingEnabled, [], StartPeriodicFetching, [TimerScheduleReconnect]);
        assert r.calls == [] + [StartPeriodicFetching] + [TimerScheduleReconnect];
      case PushNonRetryableError =>
        FetchingRunningSingle(s.pollingEnabled, [TimerCancel], StartPeriodicFetching, [PushManagerStop]);
        assert r.calls == [TimerCancel] + [StartPeriodicFetching] + [PushManagerStop];
    }
  }

  lemma {:induction false} HandleAllKeepsPollingInSync(s: SyncState, es: seq<PushStatusEvent>)
    ensures FetchingRunning(s.pollingEnabled, HandleAll(s, es).calls) == HandleAll(s, es).state.pollingEnabled
    decreases |es|
  {
    if |es| == 0 {
    } else {
      var first := Handle(s, es[0]);
      var rest := HandleAll(first.state, es[1..]);
      HandleKeepsPollingInSync(s, es[0]);
      HandleAllKeepsPollingInSync(first.state, es[1..]);
      FetchingRunningAppend(s.pollingEnabled, first.calls, rest.calls);
    }
  }

  /** From construction, through `start` and any events, the polling flag
      says exactly whether periodic fetching is running: fetching was started
      more recently than it was stopped. */
  lemma {:induction false} PollingFlagTracksFetching(config: SplitClientConfig, es: seq<PushStatusEvent>)
    ensures var started := Start(config, Initial);
      var handled := HandleAll(started.state, es);
      FetchingRunning(false, started.calls + handled.calls) == handled.state.pollingEnabled
  {
    var started := Start(config, Initial);
    var handled := HandleAll(started.state, es);
    FetchingRunningAppend(false, started.calls, handled.calls);
    if config.streamingEnabled {
      FetchingRunningNeutral(false, started.calls);
    } else {
      FetchingRunningSingle(false, [SyncAll], StartPeriodicFetching, [StartPeriodicRecording]);
      assert started.calls == [SyncAll] + [StartPeriodicFetching] + [StartPeriodicRecording];
    }
    HandleAllKeepsPollingInSync(started.state, es);
  }

  /** After `stop` no reconnect is left pending, so the timer can no longer
      start the push manager. */
  lemma StopLeavesNothingToFire(s: SyncState)
    ensures FireReconnectTimer(Stop(s).state).calls == []
  {
  }

  /** The reconnect counter built from any configuration reachable by
      assignments has a base of at least 1, so its delays never decrease. */
  lemma {:induction false} ConfiguredBackoffNonDecreasing(assignments: seq<int>, k: nat)
    ensures var c := Backoff.NewBackoffCounter(Configure(assignments).pushRetryBackoffBase);
      forall i, j :: 0 <= i <= j < k ==> Backoff.Delays(c, k)[i] <= Backoff.Delays(c, k)[j]
  {
    Backoff.DelaysNonDecreasing(Backoff.NewBackoffCounter(Configure(assignments).pushRetryBackoffBase), k);
  }
}
