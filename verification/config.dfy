/** The two settings of `SplitClientConfig` that steer streaming: whether
    streaming is attempted at all, and the reconnect backoff base. The
    source's `didSet` observer, which silently rewrites an out-of-range base,
    is modelled as an explicit assignment that returns the stored
    configuration and whether a warning was logged. */
module ClientConfig {

  const DefaultStreamingEnabled: bool := true
  const DefaultPushRetryBackoffBase: int := 1
  const MinPushRetryBackoffBase: int := 1
  const MaxPushRetryBackoffBase: int := 1800

  datatype SplitClientConfig = SplitClientConfig(streamingEnabled: bool, pushRetryBackoffBase: int)

  /** A base the setter keeps as assigned. */
  predicate ValidBackoffBase(v: int) {
    MinPushRetryBackoffBase <= v <= MaxPushRetryBackoffBase
  }

  /** A freshly created configuration. */
  function DefaultConfig(): (c: SplitClientConfig)
    ensures c.streamingEnabled
    ensures c.pushRetryBackoffBase == 1 && ValidBackoffBase(c.pushRetryBackoffBase)
  {
    SplitClientConfig(DefaultStreamingEnabled, DefaultPushRetryBackoffBase)
  }

  /** The stored configuration after an assignment, and whether the
      out-of-range warning was logged. */
  datatype Assignment = Assignment(config: SplitClientConfig, warned: bool)

  /** `pushRetryBackoffBase = v`, with its `didSet` clamp. */
  function SetPushRetryBackoffBase(c: SplitClientConfig, v: int): (r: Assignment)
    ensures ValidBackoffBase(r.config.pushRetryBackoffBase)
    ensures r.warned <==> !ValidBackoffBase(v)
    ensures !r.warned ==> r.config.pushRetryBackoffBase == v
    ensures r.warned ==> r.config.pushRetryBackoffBase == DefaultPushRetryBackoffBase
    ensures r.config.streamingEnabled == c.streamingEnabled
  {
    if v < 1 || v > 1800 then
      Assignment(c.(pushRetryBackoffBase := 1), true)
    else
      Assignment(c.(pushRetryBackoffBase := v), false)
  }

  /** Re-assigning the stored base is silent and changes nothing, and a
      second assignment of the same value gives the same configuration. */
  lemma SetPushRetryBackoffBaseIdempotent(c: SplitClientConfig, v: int)
    ensures var r := SetPushRetryBackoffBase(c, v);
      SetPushRetryBackoffBase(r.config, r.config.pushRetryBackoffBase) == Assignment(r.config, false)
    ensures SetPushRetryBackoffBase(SetPushRetryBackoffBase(c, v).config, v).config
         == SetPushRetryBackoffBase(c, v).config
  {
  }

  /** Zero and 5000 are both replaced by 1; 1800 is kept. */
  lemma SetPushRetryBackoffBaseExamples(c: SplitClientConfig)
    ensures SetPushRetryBackoffBase(c, 0).config.pushRetryBackoffBase == 1
    ensures SetPushRetryBackoffBase(c, 5000).config.pushRetryBackoffBase == 1
    ensures SetPushRetryBackoffBase(c, 1800).config.pushRetryBackoffBase == 1800
  {
  }

  /** A configuration reachable from the default by assignments. */
  function Configure(assignments: seq<int>): (c: SplitClientConfig)
    ensures c.streamingEnabled == DefaultStreamingEnabled
    ensures ValidBackoffBase(c.pushRetryBackoffBase)
    ensures |assignments| > 0 && ValidBackoffBase(assignments[|assignments| - 1]) ==>
      c.pushRetryBackoffBase == assignments[|assignments| - 1]
  {
    if |assignments| == 0 then DefaultConfig()
    else SetPushRetryBackoffBase(Configure(assignments[..|assignments| - 1]), assignments[|assignments| - 1]).config
  }
}
