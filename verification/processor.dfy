/** `DefaultSseNotificationProcessor`: routes each incoming notification to
    the worker for its kind. The JSON parser and the three workers are
    collaborators whose behaviour is a parameter (`Environment`); what the
    processor does is modelled as the trace of worker invocations and error
    logs it produces. */
module NotificationProcessor {
  import opened Wrappers
  import opened SseNotifications
  import opened Text

  /** The three cache-updating workers. */
  datatype Worker = SplitsUpdateWorker | MySegmentsUpdateWorker | SplitKillWorker

  /** A parsed payload handed to its worker. */
  datatype WorkerCall =
    | ProcessSplitsUpdate(splitsUpdate: SplitsUpdateNotification)
    | ProcessMySegmentsUpdate(mySegmentsUpdate: MySegmentsUpdateNotification)
    | ProcessSplitKill(splitKill: SplitKillNotification)
  {
    /** The worker receiving this call. */
    function Target(): Worker {
      match this
      case ProcessSplitsUpdate(_) => SplitsUpdateWorker
      case ProcessMySegmentsUpdate(_) => MySegmentsUpdateWorker
      case ProcessSplitKill(_) => SplitKillWorker
    }

    /** The kind the payload itself reports. */
    function PayloadType(): NotificationType {
      match this
      case ProcessSplitsUpdate(n) => n.Type()
      case ProcessMySegmentsUpdate(n) => n.Type()
      case ProcessSplitKill(n) => n.Type()
    }
  }

  /** The error-level log lines the processor writes. */
  datatype LogMessage =
    | UnknownNotificationArrived(jsonData: string)
    | ProcessingFailed(worker: Worker, detail: string)

  /** One observable effect of processing. */
  datatype Effect = WorkerInvoked(call: WorkerCall) | ErrorLogged(message: LogMessage)

  /** The parser and the workers. A parser returns the decoded payload or the
      error it throws; a worker returns `Some(error)` when it throws. */
  datatype Environment = Environment(
    parseSplitUpdate: string -> Result<SplitsUpdateNotification, string>,
    parseMySegmentUpdate: string -> Result<MySegmentsUpdateNotification, string>,
    parseSplitKill: string -> Result<SplitKillNotification, string>,
    splitsUpdateWorker: SplitsUpdateNotification -> Option<string>,
    mySegmentsUpdateWorker: MySegmentsUpdateNotification -> Option<string>,
    splitKillWorker: SplitKillNotification -> Option<string>)

  /** The kind of payload each worker accepts. */
  function Accepts(w: Worker): NotificationType {
    match w
    case SplitsUpdateWorker => SplitUpdate
    case MySegmentsUpdateWorker => MySegmentsUpdate
    case SplitKillWorker => SplitKill
  }

  /** The routing table of the `switch` in `process`: a kind is routed to the
      worker accepting it, and a kind no worker accepts is routed nowhere. */
  function Route(t: NotificationType): (r: Option<Worker>)
    ensures r.Some? ==> Accepts(r.value) == t
    ensures r.None? <==> forall w :: Accepts(w) != t
  {
    match t
    case SplitUpdate => Some(SplitsUpdateWorker)
    case MySegmentsUpdate => Some(MySegmentsUpdateWorker)
    case SplitKill => Some(SplitKillWorker)
    case _ => None
  }

  /** Parse a payload with the parser belonging to worker `w`. */
  function Parse(env: Environment, w: Worker, data: string): (r: Result<WorkerCall, string>)
    ensures r.Success? ==> r.value.Target() == w
  {
    match w
    case SplitsUpdateWorker =>
      (match env.parseSplitUpdate(data)
       case Success(n) => Success(ProcessSplitsUpdate(n))
       case Failure(e) => Failure(e))
    case MySegmentsUpdateWorker =>
      (match env.parseMySegmentUpdate(data)
       case Success(n) => Success(ProcessMySegmentsUpdate(n))
       case Failure(e) => Failure(e))
    case SplitKillWorker =>
      (match env.parseSplitKill(data)
       case Success(n) => Success(ProcessSplitKill(n))
       case Failure(e) => Failure(e))
  }

  /** Run a worker on its call: `Some(error)` when the worker throws. */
  function Run(env: Environment, c: WorkerCall): Option<string> {
    match c
    case ProcessSplitsUpdate(n) => env.splitsUpdateWorker(n)
    case ProcessMySegmentsUpdate(n) => env.mySegmentsUpdateWorker(n)
    case ProcessSplitKill(n) => env.splitKillWorker(n)
  }

  /** The worker calls of a trace, in order. */
  function WorkerCalls(effects: seq<Effect>): (r: seq<WorkerCall>)
    ensures |r| <= |effects|
    ensures forall c :: c in r <==> WorkerInvoked(c) in effects
  {
    if |effects| == 0 then []
    else
      var rest := WorkerCalls(effects[1..]);
      assert forall c :: WorkerInvoked(c) in effects <==>
        effects[0] == WorkerInvoked(c) || WorkerInvoked(c) in effects[1..];
      match effects[0]
      case WorkerInvoked(c) => [c] + rest
      case ErrorLogged(_) => rest
  }

  /** `process` together with its three `process*` helpers. Nothing escapes:
      every parse or worker failure becomes an error log. */
  function Process(env: Environment, n: IncomingNotification): (r: seq<Effect>)
    // kinds without a worker: one error log quoting the payload, nothing else
    ensures Route(n.notificationType).None? ==>
      r == [ErrorLogged(UnknownNotificationArrived(n.jsonData.ValueOr("null")))]
    // a data-bearing kind without payload: nothing at all
    ensures Route(n.notificationType).Some? && n.jsonData.None? ==> r == []
    // at most one worker runs, and only the one routed to by the kind
    ensures |WorkerCalls(r)| <= 1
    ensures forall c :: c in WorkerCalls(r) ==> Route(n.notificationType) == Some(c.Target())
    // a parsed payload reaches its worker, unchanged
    ensures Route(n.notificationType).Some? && n.jsonData.Some? ==>
      match Parse(env, Route(n.notificationType).value, n.jsonData.value)
      case Success(c) => WorkerCalls(r) == [c] && r[0] == WorkerInvoked(c)
      case Failure(_) => WorkerCalls(r) == []
    // a parse failure is logged and is all that happens; a worker that
    // throws is logged right after its call, and only then is anything logged
    ensures Route(n.notificationType).Some? && n.jsonData.Some? ==>
      var w := Route(n.notificationType).value;
      match Parse(env, w, n.jsonData.value)
      case Failure(err) => r == [ErrorLogged(ProcessingFailed(w, err))]
      case Success(c) =>
        && |r| == (if Run(env, c).Some? then 2 else 1)
        && (Run(env, c).Some? ==> r[1] == ErrorLogged(ProcessingFailed(w, Run(env, c).value)))
    // every log line a data-bearing kind writes names its own worker
    ensures forall e :: e in r && e.ErrorLogged? && Route(n.notificationType).Some? ==>
      e.message.ProcessingFailed? && e.message.worker == Route(n.notificationType).value
  {
    match Route(n.notificationType)
    case None => [ErrorLogged(UnknownNotificationArrived(n.jsonData.ValueOr("null")))]
    case Some(w) =>
      match n.jsonData
      case None => []
      case Some(data) =>
        match Parse(env, w, data)
        case Failure(err) => [ErrorLogged(ProcessingFailed(w, err))]
        case Success(c) =>
          match Run(env, c)
          case None => [WorkerInvoked(c)]
          case Some(err) => [WorkerInvoked(c), ErrorLogged(ProcessingFailed(w, err))]
  }

  /** For a data-bearing kind with a payload, the trace is decided by the
      parser and the worker: a parse error is logged and no worker runs; a
      parsed payload reaches the worker, and if the worker throws its error
      is logged after the call; otherwise the call is all that happens. */
  lemma ProcessOutcome(env: Environment, n: IncomingNotification, w: Worker, data: string)
    requires Route(n.notificationType) == Some(w) && n.jsonData == Some(data)
    ensures Parse(env, w, data).Failure? ==>
      Process(env, n) == [ErrorLogged(ProcessingFailed(w, Parse(env, w, data).error))]
    ensures Parse(env, w, data).Success? && Run(env, Parse(env, w, data).value).Some? ==>
      Process(env, n) == [WorkerInvoked(Parse(env, w, data).value),
                          ErrorLogged(ProcessingFailed(w, Run(env, Parse(env, w, data).value).value))]
    ensures Parse(env, w, data).Success? && Run(env, Parse(env, w, data).value).None? ==>
      Process(env, n) == [WorkerInvoked(Parse(env, w, data).value)]
  {
  }

  /** Processing a stream of notifications, one after the other. The
      processor keeps no state, so nothing one notification does can affect
      the next. */
  function ProcessAll(env: Environment, ns: seq<IncomingNotification>): (r: seq<Effect>)
    ensures |WorkerCalls(r)| <= |ns|
  {
    if |ns| == 0 then []
    else
      WorkerCallsAppend(Process(env, ns[0]), ProcessAll(env, ns[1..]));
      Process(env, ns[0]) + ProcessAll(env, ns[1..])
  }

  lemma {:induction false} WorkerCallsAppend(a: seq<Effect>, b: seq<Effect>)
    ensures WorkerCalls(a + b) == WorkerCalls(a) + WorkerCalls(b)
    decreases |a|
  {
    if |a| == 0 {
      assert a + b == b;
    } else {
      assert (a + b)[0] == a[0];
      assert (a + b)[1..] == a[1..] + b;
      WorkerCallsAppend(a[1..], b);
    }
  }

  /** The trace of a concatenated stream is the concatenation of the traces:
      a malformed notification, or a worker that throws, changes nothing about
      how the notifications after it are handled. */
  lemma {:induction false} ProcessAllAppend(env: Environment, xs: seq<IncomingNotification>, ys: seq<IncomingNotification>)
    ensures ProcessAll(env, xs + ys) == ProcessAll(env, xs) + ProcessAll(env, ys)
    decreases |xs|
  {
    if |xs| == 0 {
      assert xs + ys == ys;
    } else {
      assert (xs + ys)[0] == xs[0];
      assert (xs + ys)[1..] == xs[1..] + ys;
      ProcessAllAppend(env, xs[1..], ys);
    }
  }

  /** A split update whose payload cannot be parsed is logged, and a
      well-formed one right after it still reaches the splits-update worker. */
  lemma MalformedThenWellFormed(env: Environment, bad: string, good: string, parsed: SplitsUpdateNotification)
    requires env.parseSplitUpdate(bad).Failure?
    requires env.parseSplitUpdate(good) == Success(parsed)
    requires env.splitsUpdateWorker(parsed).None?
    ensures ProcessAll(env, [NewIncomingNotification(SplitUpdate, jsonData := Some(bad)),
                             NewIncomingNotification(SplitUpdate, jsonData := Some(good))])
         == [ErrorLogged(ProcessingFailed(SplitsUpdateWorker, env.parseSplitUpdate(bad).error)),
             WorkerInvoked(ProcessSplitsUpdate(parsed))]
  {
    var n1 := NewIncomingNotification(SplitUpdate, jsonData := Some(bad));
    var n2 := NewIncomingNotification(SplitUpdate, jsonData := Some(good));
    ProcessAllAppend(env, [n1], [n2]);
    assert [n1] + [n2] == [n1, n2];
  }

  /** A worker call is always routed to by the kind its payload reports. */
  lemma {:induction false} PayloadTypeRoutesToTarget(c: WorkerCall)
    ensures Route(c.PayloadType()) == Some(c.Target())
  {
    match c
    case ProcessSplitsUpdate(_) =>
    case ProcessMySegmentsUpdate(_) =>
    case ProcessSplitKill(_) =>
  }

  lemma SplitKillTokenClassified()
    ensures NotificationTypeFromString("split_kill") == SplitKill
  {
    LowerIsLower("split_kill");
    TypeTokenRoundTrip(SplitKill, "split_kill");
  }

  /** The frame whose inner payload is
      `{"type":"split_kill","changeNumber":123,"splitName":"flagA","defaultTreatment":"off"}`:
      given a parser that decodes it, the kill worker runs exactly once with
      those values and nothing else happens. */
  lemma SplitKillFrame(env: Environment, payload: string)
    requires env.parseSplitKill(payload) == Success(SplitKillNotification(123, "flagA", "off"))
    requires env.splitKillWorker(SplitKillNotification(123, "flagA", "off")).None?
    ensures Process(env, IncomingNotification(NotificationTypeFromString("split_kill"), Some("chan1"), Some(payload), 1610000000))
         == [WorkerInvoked(ProcessSplitKill(SplitKillNotification(123, "flagA", "off")))]
  {
    SplitKillTokenClassified();
    SplitKillProcessed(env, IncomingNotification(SplitKill, Some("chan1"), Some(payload), 1610000000),
                       SplitKillNotification(123, "flagA", "off"));
  }

  /** A kill notification whose payload parses and whose worker succeeds
      produces exactly one invocation of the kill worker. */
  lemma SplitKillProcessed(env: Environment, n: IncomingNotification, k: SplitKillNotification)
    requires n.notificationType == SplitKill && n.jsonData.Some?
    requires env.parseSplitKill(n.jsonData.value) == Success(k)
    requires env.splitKillWorker(k).None?
    ensures Process(env, n) == [WorkerInvoked(ProcessSplitKill(k))]
  {
  }

}
