# Split SDK streaming synchronization — a verified model

This project models the decision logic of the Split iOS SDK's streaming
synchronization layer: how push notifications are typed and routed to the
cache-updating workers, how the delay before a streaming reconnect grows,
how the reconnect backoff base is validated, and how the sync manager
switches between streaming and polling as the push subsystem comes up, goes
down, fails or is disabled.

The sync manager, the notification processor and the configuration are
pure functions from a state (and an input) to a new state and the ordered
list of calls they make on their collaborators; the backoff counter is
modelled both as a pure datatype and as a small class with a mutable attempt
count, as in the source. Collaborators that cannot be seen
(the JSON parser, the three workers, the synchronizer, the push manager, the
reconnect timer) are parameters or named calls in that list.

| file | module | models |
|---|---|---|
| `wrappers.dfy` | `Wrappers` | Swift optionals (`Option`) and throwing calls (`Result`) |
| `text.dfy` | `Text` | `lowercased()` (on ASCII) and `String.contains` |
| `notifications.dfy` | `SseNotifications` | notification kinds, control directives, typed payloads, error-code and channel predicates |
| `processor.dfy` | `NotificationProcessor` | `DefaultSseNotificationProcessor.process` and its three helpers |
| `backoff.dfy` | `Backoff` | `DefaultReconnectBackoffCounter` |
| `config.dfy` | `ClientConfig` | `streamingEnabled` and the `pushRetryBackoffBase` clamp of `SplitClientConfig` |
| `sync_manager.dfy` | `SyncManager` | `DefaultSyncManager` |

Behaviour of the source worth noting:

- The reconnect delay is `(2·base)^attempt`, not `base·2^attempt`, so the
  first delay after construction or a reset is 1 second, not `2·base`; with
  base 1 the delays run 1, 2, 4, …, 1024, then 1800.
- A `pushSubsystemUp` event calls `stopPeriodicFetching` unconditionally,
  not only when polling was on.
- The notification processor does not forward occupancy, streaming-error or
  control notifications anywhere: they, like unknown ones, only produce an
  "unknown notification" error log.

## Model

| member | source | states |
|---|---|---|
| `SseNotifications.NotificationTypeFromString` | Example/Pods/Split/Split/Network/Streaming/SseNotifications.swift:37-50 | total; the result is a kind with a wire token whose token is the lower-cased input, or unknown exactly when the lower-cased input is no token; never occupancy or sseError |
| `SseNotifications.TypeTokenRoundTrip` | Example/Pods/Split/Split/Network/Streaming/SseNotifications.swift:37-50 | `split_update`, `my_segments_update`, `split_kill` and `control`, in any letter case, classify as their own kind |
| `SseNotifications.NotificationTypeCaseInsensitive` | Example/Pods/Split/Split/Network/Streaming/SseNotifications.swift:38 | strings equal up to letter case classify alike, and a string classifies like its lower-case form |
| `SseNotifications.DecodeNotificationType` | Example/Pods/Split/Split/Network/Streaming/SseNotifications.swift:32-35 | a null or non-string `type` value decodes as unknown; a string decodes as the classifier says |
| `SseNotifications.ControlTypeFromString` | Example/Pods/Split/Split/Network/Streaming/SseNotifications.swift:95-106 | the three directive tokens, in any case, map to their directive; every other string maps to unknown |
| `SseNotifications.DecodeControlType` | Example/Pods/Split/Split/Network/Streaming/SseNotifications.swift:90-93 | a null or non-string directive value is unknown; a string decodes as the classifier says |
| `SseNotifications.ControlTypeCaseInsensitive` | Example/Pods/Split/Split/Network/Streaming/SseNotifications.swift:96 | directive classification ignores letter case |
| `SseNotifications.NewIncomingNotification` | Example/Pods/Split/Split/Network/Streaming/SseNotifications.swift:72-77 | the initializer stores each argument in its field |
| `SseNotifications.IncomingNotificationDefaults` | Example/Pods/Split/Split/Network/Streaming/SseNotifications.swift:72 | omitted arguments default to no channel, no payload and timestamp 0 |
| `SseNotifications.IsControlPriChannel` | Example/Pods/Split/Split/Network/Streaming/SseNotifications.swift:158-160 | holds iff the channel is present and `control_pri` occurs in it at some index |
| `SseNotifications.IsControlSecChannel` | Example/Pods/Split/Split/Network/Streaming/SseNotifications.swift:162-164 | holds iff the channel is present and `control_sec` occurs in it at some index |
| `SseNotifications.OccupancyChannelExamples` | Example/Pods/Split/Split/Network/Streaming/SseNotifications.swift:141-164 | a nil channel is neither control channel; a name containing `control_pri` is primary and `control_pri` alone is not secondary |
| `SseNotifications.IsRetryable` | Example/Pods/Split/Split/Network/Streaming/SseNotifications.swift:177-179 | holds exactly for the codes the range classification calls retryable (40140..40149) |
| `SseNotifications.ShouldIgnore` | Example/Pods/Split/Split/Network/Streaming/SseNotifications.swift:181-183 | holds exactly for the codes the range classification calls ignored (outside 40000..49999) |
| `SseNotifications.StreamingErrorClassification` | Example/Pods/Split/Split/Network/Streaming/SseNotifications.swift:177-183 | retryable iff 40140 ≤ code ≤ 40149, ignored iff code < 40000 or > 49999; retryable excludes ignored; neither holds exactly on the rest of 40000..49999 |
| `SseNotifications.StreamingErrorExamples` | Example/Pods/Split/Split/Network/Streaming/SseNotifications.swift:177-183 | 40143 is retryable, 50000 is ignored, 40001 is neither |
| `SseNotifications.TypedNotificationKinds` | Example/Pods/Split/Split/Network/Streaming/SseNotifications.swift:112-171 | each typed notification reports its fixed kind, and the string classifier never yields the occupancy or error kind |
| `NotificationProcessor.Route` | Example/Pods/Split/Split/Network/Streaming/SseNotificationProcessor.swift:34-43 | a kind is routed to the worker that accepts that kind, and to no worker exactly when no worker accepts it |
| `NotificationProcessor.Process` | Example/Pods/Split/Split/Network/Streaming/SseNotificationProcessor.swift:32-77 | kinds without a worker only log "unknown notification" with the payload or "null"; a data-bearing kind without payload does nothing; at most one worker runs, only the one routed to by the kind, and it receives the parsed payload; a parse failure yields exactly one error log naming that worker, and a parsed payload gives exactly the worker call, followed by one log only when the worker throws; every log a data-bearing kind writes names its worker |
| `NotificationProcessor.ProcessOutcome` | Example/Pods/Split/Split/Network/Streaming/SseNotificationProcessor.swift:46-77 | a parse error yields only its log; a parsed payload reaches its worker, followed by a log of the worker's error when it throws; nothing is rethrown |
| `NotificationProcessor.ProcessAllAppend` | Example/Pods/Split/Split/Network/Streaming/SseNotificationProcessor.swift:46-55 | the trace of a concatenated stream is the concatenation of the traces: a failure never affects later notifications |
| `NotificationProcessor.MalformedThenWellFormed` | Example/Pods/Split/Split/Network/Streaming/SseNotificationProcessor.swift:46-55 | an unparsable split update is logged, and the well-formed one after it still reaches the splits-update worker |
| `NotificationProcessor.SplitKillProcessed` | Example/Pods/Split/Split/Network/Streaming/SseNotificationProcessor.swift:57-66 | a parsed kill notification whose worker succeeds invokes the kill worker exactly once and does nothing else |
| `NotificationProcessor.SplitKillFrame` | Example/Pods/Split/Split/Network/Streaming/SseNotificationProcessor.swift:57-66 | a frame typed `split_kill` with payload (123, flagA, off) invokes the kill worker once with those values |
| `NotificationProcessor.PayloadTypeRoutesToTarget` | Example/Pods/Split/Split/Network/Streaming/SseNotificationProcessor.swift:34-40 | the kind each payload reports is routed to the worker that accepts that payload |
| `Backoff.RetryTime` | Example/Pods/Split/Split/Network/Streaming/ReconnectBackoffCounter.swift:29-36 | the delay never exceeds 1800; it is below 1800 exactly when `(2·base)^attempt` is, and then equals it |
| `Backoff.ReconnectBackoffCounter.constructor` | Example/Pods/Split/Split/Network/Streaming/ReconnectBackoffCounter.swift:22-25 | the object keeps the given base and starts with no attempts |
| `Backoff.ReconnectBackoffCounter.GetNextRetryTime` | Example/Pods/Split/Split/Network/Streaming/ReconnectBackoffCounter.swift:27-37 | the object returns the delay and the next attempt count that the pure `NextRetryTime` gives for its current state |
| `Backoff.ReconnectBackoffCounter.ResetCounter` | Example/Pods/Split/Split/Network/Streaming/ReconnectBackoffCounter.swift:39-41 | the object's attempt count becomes 0 |
| `Backoff.NewBackoffCounter` | Example/Pods/Split/Split/Network/Streaming/ReconnectBackoffCounter.swift:22-25 | a new counter keeps the base and starts at attempt 0 |
| `Backoff.NextRetryTime` | Example/Pods/Split/Split/Network/Streaming/ReconnectBackoffCounter.swift:27-37 | returns at most 1800, the delay of the current attempt, and increases the attempt count by exactly 1 leaving the base alone |
| `Backoff.Reset` | Example/Pods/Split/Split/Network/Streaming/ReconnectBackoffCounter.swift:39-41 | sets the attempt count to 0 and changes nothing else |
| `Backoff.Delays` | Example/Pods/Split/Split/Network/Streaming/ReconnectBackoffCounter.swift:27-37 | the i-th of k successive calls returns the capped power for attempt count plus i, never above 1800 |
| `Backoff.FirstDelayIsOne` | Example/Pods/Split/Split/Network/Streaming/ReconnectBackoffCounter.swift:22-41 | the first call after construction or after a reset returns 1 |
| `Backoff.DelaysNonDecreasing` | Example/Pods/Split/Split/Network/Streaming/ReconnectBackoffCounter.swift:29-36 | with base at least 1, successive delays without reset never decrease |
| `Backoff.BaseOneDelays` | Example/Pods/Split/Split/Network/Streaming/ReconnectBackoffCounter.swift:29-36 | with base 1 the n-th delay is 2^n up to n = 10 (1024) and 1800 from n = 11 on |
| `Backoff.ComputeRetryTime` | Example/Pods/Split/Split/Network/Streaming/ReconnectBackoffCounter.swift:29-36 | an iterative computation that stops multiplying once the cap is reached returns exactly the capped power |
| `ClientConfig.DefaultConfig` | Example/Pods/Split/Split/Api/SplitClientConfig.swift:157-166 | streaming is enabled by default and the backoff base defaults to 1 |
| `ClientConfig.SetPushRetryBackoffBase` | Example/Pods/Split/Split/Api/SplitClientConfig.swift:166-174 | the stored base always lies in 1..1800; a value in range is stored as given without warning; one outside is replaced by 1 with a warning; streaming is untouched |
| `ClientConfig.SetPushRetryBackoffBaseIdempotent` | Example/Pods/Split/Split/Api/SplitClientConfig.swift:166-174 | re-assigning the stored base is silent and changes nothing; assigning the same value twice equals assigning it once |
| `ClientConfig.SetPushRetryBackoffBaseExamples` | Example/Pods/Split/Split/Api/SplitClientConfig.swift:168-172 | 0 and 5000 are stored as 1, 1800 is kept |
| `ClientConfig.Configure` | Example/Pods/Split/Split/Api/SplitClientConfig.swift:166-174 | after any sequence of assignments the base is in 1..1800, equals the last value when that was valid, and streaming keeps its default |
| `SyncManager.Start` | Example/Pods/Split/Split/Network/Streaming/SyncManager.swift:50-62 | exactly three calls without streaming and four with it: `syncAll` first, `startPeriodicRecording` last, and in between either register-then-push-start or periodic-fetching start alone; polling set to not-streaming, nothing else changed |
| `SyncManager.Pause` | Example/Pods/Split/Split/Network/Streaming/SyncManager.swift:64-68 | sets paused, keeps the polling flag and pending reconnect, pauses the push manager then the synchronizer |
| `SyncManager.Resume` | Example/Pods/Split/Split/Network/Streaming/SyncManager.swift:70-74 | clears paused, keeps the polling flag, resumes the synchronizer then the push manager |
| `SyncManager.PauseResumeRoundTrip` | Example/Pods/Split/Split/Network/Streaming/SyncManager.swift:64-74 | pausing then resuming an active manager restores its state exactly |
| `SyncManager.Stop` | Example/Pods/Split/Split/Network/Streaming/SyncManager.swift:76-80 | calls timer cancel, push-manager stop, synchronizer destroy, in that order, and leaves no reconnect pending |
| `SyncManager.EnablePolling` | Example/Pods/Split/Split/Network/Streaming/SyncManager.swift:124-129 | polling ends up on; periodic fetching starts iff polling was off |
| `SyncManager.EnablePollingIdempotent` | Example/Pods/Split/Split/Network/Streaming/SyncManager.swift:124-129 | enabling polling a second time changes nothing and calls nothing |
| `SyncManager.StopStreaming` | Example/Pods/Split/Split/Network/Streaming/SyncManager.swift:118-122 | cancel, then periodic-fetching start only if polling was off, then push-manager stop; polling on and no reconnect pending |
| `SyncManager.Handle` | Example/Pods/Split/Split/Network/Streaming/SyncManager.swift:82-116 | paused: nothing changes and nothing is called; unpaused: polling is on iff the event is not Up, a reconnect is pending iff it was a retryable error; every other event cancels the timer first, a retryable error schedules the reconnect last; fetching starts iff polling was off and the event is not Up; only Up syncs then stops fetching; only Disabled and NonRetryable stop push, last; no other call is made and none twice |
| `SyncManager.HandleStartsFetching` | Example/Pods/Split/Split/Network/Streaming/SyncManager.swift:96-129 | one event starts periodic fetching exactly once if unpaused, polling was off and it is not Up, and otherwise not at all |
| `SyncManager.FireReconnectTimer` | Example/Pods/Split/Split/Network/Streaming/SyncManager.swift:108-110 | the scheduled action starts the push manager iff a reconnect is pending, and leaves none pending |
| `SyncManager.PausedIgnoresEvents` | Example/Pods/Split/Split/Network/Streaming/SyncManager.swift:82-85 | while paused any sequence of events changes no state and makes no call |
| `SyncManager.FetchingStartsAtMostOnce` | Example/Pods/Split/Split/Network/Streaming/SyncManager.swift:124-129 | events without an Up among them start periodic fetching at most once, never if polling was already on, and never turn polling off |
| `SyncManager.TwoDownsStartFetchingOnce` | Example/Pods/Split/Split/Network/Streaming/SyncManager.swift:96-99 | two Down events with polling off start periodic fetching exactly once |
| `SyncManager.DisabledAndNonRetryableAlike` | Example/Pods/Split/Split/Network/Streaming/SyncManager.swift:101-114 | Disabled and NonRetryable produce the same state and the same calls |
| `SyncManager.RetryableReconnectCancelled` | Example/Pods/Split/Split/Network/Streaming/SyncManager.swift:88-122 | a retryable error turns polling on and schedules a reconnect; any later unpaused non-retryable event cancels the timer, and its firing then starts nothing |
| `SyncManager.RetryableReconnectFires` | Example/Pods/Split/Split/Network/Streaming/SyncManager.swift:105-110 | with no event in between, the scheduled reconnect starts the push manager when the timer fires |
| `SyncManager.HandleKeepsPollingInSync` | Example/Pods/Split/Split/Network/Streaming/SyncManager.swift:82-129 | if the polling flag matched whether periodic fetching was running, it still does after any event |
| `SyncManager.PollingFlagTracksFetching` | Example/Pods/Split/Split/Network/Streaming/SyncManager.swift:50-129 | from construction, through `start` and any sequence of events, the polling flag is true exactly when periodic fetching was last started rather than stopped |
| `SyncManager.StopLeavesNothingToFire` | Example/Pods/Split/Split/Network/Streaming/SyncManager.swift:76-80 | after `stop` the reconnect timer can no longer start the push manager |
| `SyncManager.ConfiguredBackoffNonDecreasing` | Example/Pods/Split/Split/Network/Streaming/SyncManagerBuilder.swift:92-93 | a reconnect counter built from any configured base yields non-decreasing delays |

## Left out

- Concurrency: the `Atomic` wrappers, dispatch queues and the race between
  event handling and `pause`/`resume` are not modelled; each field is a plain
  value and `getAndSet`/`getAndAdd` are read-then-write in one step.
- Logging in the sync manager (debug and info lines) is not modelled; the
  processor's error logs are, as they are its only observable outcome.
- `Backoff.RetryTime`: `Decimal` and `Double` arithmetic and the NaN check
  are not modelled; delays are unbounded integers, so a power too large for
  `Decimal` reaches the 1800 cap here. A negative base whose power
  overflows `Decimal` for an odd attempt count would be capped by the source
  but stays negative here (for an even count the power is positive and is
  capped at 1800 as in the source);
  the configuration never yields such a base.
- `Backoff.NextRetryTime`: Swift traps when `backoffBase * 2` overflows a
  64-bit `Int`; the model multiplies without bound.
- `0^0` is taken to be 1, as for every other base.
- The reconnect timer (`DefaultBackoffCounterTimer`) is not part of this
  model: it is a pending flag that `schedule` sets, `cancel` clears and
  `FireReconnectTimer` consumes; the delay it waits is not tied to the
  counter.
- Application-lifecycle observer registration and the broadcaster's delivery
  of events to `handle` are not modelled; `Handle` is called directly.
- JSON decoding (`SseNotificationParser` and the `Decodable` initializers) is
  an abstract function from the payload string to a parsed value or an error.
- `lowercased()` is modelled on ASCII letters only; Unicode case mapping is
  left out. Likewise `String.contains` is modelled as a search character by
  character, not over composed (grapheme) characters as Foundation compares.
- `DecodeNotificationType`, `DecodeControlType`: a `type` or `controlType`
  key that is missing altogether makes the enclosing struct's synthesized
  decoding throw before either initializer runs; that failure belongs to the
  parser, which is abstract here. `None` stands only for a null or
  non-string value.
- The parser and the workers are modelled as history-independent functions
  of the payload; the stream lemma `ProcessAllAppend` relies on that. Workers
  that behave differently depending on earlier notifications are not
  modelled.
- The builder (`SyncManagerBuilder`), endpoints, the REST client and the rest
  of `SplitClientConfig` (plain constants and proxies to secure storage and
  the logger) are wiring with no decision logic.
- The occupancy tracker and push notification manager are not part of this
  model; `ControlNotification` and `OccupancyNotification` are data only.
