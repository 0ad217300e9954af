/** The typed notifications carried by the streaming (Server-Sent-Events)
    channel, and the total string classifiers that name their kinds. */
module SseNotifications {
  import opened Wrappers
  import opened Text

  /** Swift's 64-bit `Int64` (and `Int` on 64-bit platforms). */
  type Int64 = x: int | -0x8000_0000_0000_0000 <= x < 0x8000_0000_0000_0000

  /** Every kind of notification the channel can deliver. */
  datatype NotificationType =
    | SplitUpdate
    | MySegmentsUpdate
    | SplitKill
    | Occupancy
    | SseError
    | Control
    | Unknown

  /** The lower-case wire token naming a kind, for the kinds that have one.
      Occupancy and error notifications are recognised from the envelope,
      not from a token, and `Unknown` is the fall-back. */
  function TypeToken(t: NotificationType): Option<string> {
    match t
    case SplitUpdate => Some("split_update")
    case MySegmentsUpdate => Some("my_segments_update")
    case SplitKill => Some("split_kill")
    case Control => Some("control")
    case _ => None
  }

  /** `NotificationType.enumFromString`: case-insensitive, total, and the
      inverse of `TypeToken` on every string; anything that is not a token
      becomes `Unknown`. */
  function NotificationTypeFromString(s: string): (r: NotificationType)
    ensures r != Occupancy && r != SseError
    ensures r != Unknown ==> TypeToken(r) == Some(Lower(s))
    ensures r == Unknown <==> forall t :: TypeToken(t) != Some(Lower(s))
  {
    TypeOfToken(Lower(s))
  }

  /** The `switch` on the already lower-cased string. */
  function TypeOfToken(l: string): NotificationType {
    if l == "split_update" then SplitUpdate
    else if l == "my_segments_update" then MySegmentsUpdate
    else if l == "split_kill" then SplitKill
    else if l == "control" then Control
    else Unknown
  }

  /** `NotificationType.init(from:)`: a `type` value that is null or not a
      string (`None`) is read as the string "unknown". */
  function DecodeNotificationType(field: Option<string>): (r: NotificationType)
    ensures field.None? ==> r == Unknown
    ensures field.Some? ==> r == NotificationTypeFromString(field.value)
  {
    NotificationTypeFromString(field.ValueOr("unknown"))
  }

  /** Every tokened kind is recovered from its own token, in any letter case. */
  lemma {:induction false} TypeTokenRoundTrip(t: NotificationType, s: string)
    requires TypeToken(t).Some?
    requires Lower(s) == TypeToken(t).value
    ensures NotificationTypeFromString(s) == t
  {
  }

  /** Two strings that agree up to letter case classify alike; in particular
      a string and its lower-case form do. */
  lemma {:induction false} NotificationTypeCaseInsensitive(s: string, s': string)
    requires Lower(s) == Lower(s')
    ensures NotificationTypeFromString(s) == NotificationTypeFromString(s')
    ensures NotificationTypeFromString(s) == NotificationTypeFromString(Lower(s))
  {
    LowerIdempotent(s);
  }

  /** Directives carried by control notifications. */
  datatype ControlType = StreamingEnabled | StreamingDisabled | StreamingPaused | UnknownControl

  function ControlToken(c: ControlType): Option<string> {
    match c
    case StreamingEnabled => Some("streaming_enabled")
    case StreamingDisabled => Some("streaming_disabled")
    case StreamingPaused => Some("streaming_paused")
    case UnknownControl => None
  }

  /** `ControlType.enumFromString`: case-insensitive, total, inverse of
      `ControlToken`; everything else is the unknown directive. */
  function ControlTypeFromString(s: string): (r: ControlType)
    ensures r != UnknownControl ==> ControlToken(r) == Some(Lower(s))
    ensures r == UnknownControl <==> forall c :: ControlToken(c) != Some(Lower(s))
  {
    ControlOfToken(Lower(s))
  }

  /** The `switch` on the already lower-cased string. */
  function ControlOfToken(l: string): ControlType {
    if l == "streaming_enabled" then StreamingEnabled
    else if l == "streaming_disabled" then StreamingDisabled
    else if l == "streaming_paused" then StreamingPaused
    else UnknownControl
  }

  /** `ControlType.init(from:)`: a null or non-string value is unknown. */
  function DecodeControlType(field: Option<string>): (r: ControlType)
    ensures field.None? ==> r == UnknownControl
    ensures field.Some? ==> r == ControlTypeFromString(field.value)
  {
    ControlTypeFromString(field.ValueOr("unknown"))
  }

  lemma {:induction false} ControlTypeCaseInsensitive(s: string, s': string)
    requires Lower(s) == Lower(s')
    ensures ControlTypeFromString(s) == ControlTypeFromString(s')
    ensures ControlTypeFromString(s) == ControlTypeFromString(Lower(s))
  {
    LowerIdempotent(s);
  }

  /** The envelope handed to the processor: the kind, and the still-encoded
      payload of the notification. */
  datatype IncomingNotification = IncomingNotification(
    notificationType: NotificationType,
    channel: Option<string>,
    jsonData: Option<string>,
    timestamp: Int64)

  /** `IncomingNotification.init` with its default arguments. */
  function NewIncomingNotification(t: NotificationType, channel: Option<string> := None,
                                   jsonData: Option<string> := None, timestamp: Int64 := 0)
    : (n: IncomingNotification)
    ensures n.notificationType == t && n.channel == channel
    ensures n.jsonData == jsonData && n.timestamp == timestamp
  {
    IncomingNotification(t, channel, jsonData, timestamp)
  }

  /** Omitting every optional argument yields no channel, no payload and
      timestamp 0. */
  lemma IncomingNotificationDefaults(t: NotificationType)
    ensures NewIncomingNotification(t) == IncomingNotification(t, None, None, 0)
  {
  }

  /** A control notification keeps the type it was decoded with. */
  datatype ControlNotification = ControlNotification(notificationType: NotificationType, controlType: ControlType)

  datatype MySegmentsUpdateNotification = MySegmentsUpdateNotification(
    changeNumber: Int64, includesPayload: bool, segmentList: Option<seq<string>>)
  {
    function Type(): NotificationType { MySegmentsUpdate }
  }

  datatype SplitKillNotification = SplitKillNotification(
    changeNumber: Int64, splitName: string, defaultTreatment: string)
  {
    function Type(): NotificationType { SplitKill }
  }

  datatype SplitsUpdateNotification = SplitsUpdateNotification(changeNumber: Int64)
  {
    function Type(): NotificationType { SplitUpdate }
  }

  const ControlPriToken: string := "control_pri"
  const ControlSecToken: string := "control_sec"

  datatype OccupancyNotification = OccupancyNotification(channel: Option<string>, timestamp: Int64, publishers: Int64)
  {
    function Type(): NotificationType { Occupancy }
  }

  /** `isControlPriChannel`: the channel name is present and contains the
      primary control token. */
  predicate IsControlPriChannel(o: OccupancyNotification)
    ensures IsControlPriChannel(o) <==> o.channel.Some? && exists i :: OccursAt(ControlPriToken, o.channel.value, i)
  {
    o.channel.Some? && Contains(o.channel.value, ControlPriToken)
  }

  /** `isControlSecChannel`: the channel name is present and contains the
      secondary control token. */
  predicate IsControlSecChannel(o: OccupancyNotification)
    ensures IsControlSecChannel(o) <==> o.channel.Some? && exists i :: OccursAt(ControlSecToken, o.channel.value, i)
  {
    o.channel.Some? && Contains(o.channel.value, ControlSecToken)
  }

  datatype StreamingError = StreamingError(message: string, code: Int64, statusCode: Int64)
  {
    function Type(): NotificationType { SseError }
  }

  /** `isRetryable`: a code in the band 40140..40149. */
  predicate IsRetryable(e: StreamingError)
    ensures IsRetryable(e) <==> ClassifyCode(e.code) == Retryable
  {
    e.code >= 40140 && e.code <= 40149
  }

  /** `shouldIgnore`: a code outside the streaming-error range 40000..49999. */
  predicate ShouldIgnore(e: StreamingError)
    ensures ShouldIgnore(e) <==> ClassifyCode(e.code) == Ignored
  {
    !(e.code >= 40000 && e.code <= 49999)
  }

  /** The three ways an error code is treated. */
  datatype ErrorClass = Retryable | Ignored | Fatal

  /** The reference classification of an error code by range. */
  function ClassifyCode(code: int): ErrorClass {
    if 40140 <= code <= 40149 then Retryable
    else if code < 40000 || 49999 < code then Ignored
    else Fatal
  }

  /** The two derived predicates partition the codes exactly as the range
      classification does: a retryable error is never ignored, and an error
      is fatal exactly when it is neither. */
  lemma StreamingErrorClassification(e: StreamingError)
    ensures IsRetryable(e) <==> ClassifyCode(e.code) == Retryable
    ensures ShouldIgnore(e) <==> ClassifyCode(e.code) == Ignored
    ensures IsRetryable(e) ==> !ShouldIgnore(e)
    ensures !IsRetryable(e) && !ShouldIgnore(e) <==> 40000 <= e.code < 40140 || 40149 < e.code <= 49999
  {
  }

  lemma StreamingErrorExamples()
    ensures IsRetryable(StreamingError("", 40143, 401))
    ensures ShouldIgnore(StreamingError("", 50000, 500))
    ensures var e := StreamingError("", 40001, 400); !IsRetryable(e) && !ShouldIgnore(e)
  {
  }

  /** Each typed notification reports its own fixed kind; the five kinds are
      distinct, and the two without a wire token can only come from the
      envelope, never from the string classifier. */
  lemma TypedNotificationKinds(m: MySegmentsUpdateNotification, k: SplitKillNotification,
                               u: SplitsUpdateNotification, o: OccupancyNotification,
                               e: StreamingError, s: string)
    ensures [m.Type(), k.Type(), u.Type(), o.Type(), e.Type()]
         == [MySegmentsUpdate, SplitKill, SplitUpdate, Occupancy, SseError]
    ensures NotificationTypeFromString(s) != o.Type() && NotificationTypeFromString(s) != e.Type()
  {
  }

  /** A nil channel belongs to neither control channel; a channel name that
      contains a token belongs to that channel. */
  lemma OccupancyChannelExamples()
    ensures !IsControlPriChannel(OccupancyNotification(None, 0, 1))
    ensures !IsControlSecChannel(OccupancyNotification(None, 0, 1))
    ensures IsControlPriChannel(OccupancyNotification(Some("[?occupancy=metrics.publishers]control_pri"), 0, 1))
    ensures !IsControlSecChannel(OccupancyNotification(Some("control_pri"), 0, 1))
  {
    var c := "[?occupancy=metrics.publishers]control_pri";
    assert OccursAt(ControlPriToken, c, 31);
    var p := "control_pri";
    assert p[..|ControlSecToken|][8] != ControlSecToken[8];
    assert !Contains(p[1..], ControlSecToken);
  }
}
