/** The events on the wire: `toProtoEvent` of src/grpc_server.cpp, the kind that
    `AgentEvent::toJson` of src/events.cpp assigns, and a reader that inverts the former. */
module Wire {
  import opened MachineInts
  import opened Events
  import opened CallGrammar

  datatype Timestamp = Timestamp(seconds: int, nanos: int)

  function SetTimestamp(ms: uint64): Timestamp {
    Timestamp(ms / 1000, (ms % 1000) * 1000000)
  }

  function MillisOf(ts: Timestamp): int {
    ts.seconds * 1000 + ts.nanos / 1000000
  }

  predicate Earlier(a: Timestamp, b: Timestamp) {
    a.seconds < b.seconds || (a.seconds == b.seconds && a.nanos < b.nanos)
  }

  /** Timestamps are well formed (google.protobuf.Timestamp: nanos in [0, 10^9), seconds an int64), lose
      no millisecond and keep the order. */
  lemma TimestampRoundTrip(ms: uint64, later: uint64)
    ensures var ts := SetTimestamp(ms);
            0 <= ts.seconds < 0x8000_0000_0000_0000 && 0 <= ts.nanos < 1_000_000_000 && MillisOf(ts) == ms
    ensures ms < later <==> Earlier(SetTimestamp(ms), SetTimestamp(later))
  {
    assert SetTimestamp(ms).nanos / 1000000 == ms % 1000;
  }

  /** The `event` oneof of a CallEvent; states and statuses as the proto numbers them. */
  datatype Body =
    | StateChange(state: nat)
    | SilenceDetected(silenceSeconds: uint32)
    | RecordingReady(uri: string, durationSeconds: uint32)
    | CallResult(status: nat, startedAt: Option<Timestamp>, endedAt: Timestamp,
                 billing: uint32, recordingUri: string, sipCode: uint32, errorMessage: string)

  datatype CallEvent = CallEvent(callId: string, occurredAt: Timestamp, body: Body)

  function ToProtoState(s: CallStatus): nat {
    match s
    case REGISTERING => 1
    case REGISTERED => 2
    case DIALING => 3
    case RINGING => 4
    case ANSWERED => 5
    case PLAYING => 6
    case PLAYED => 7
    case HANGING_UP => 8
    case _ => 0
  }

  function ToProtoResultStatus(s: CallStatus): nat {
    match s
    case ANSWERED => 1
    case BUSY => 2
    case NO_ANSWER => 3
    case CANCELLED => 5
    case _ => 4
  }

  /** `now` is the clock read at the conversion. */
  function ToProtoEvent(ev: AgentEvent, callId: string, startedAtMs: uint64, now: uint64): CallEvent {
    var isFinal := ev.isResult || ev.status == BUSY || ev.status == NO_ANSWER || ev.status == CANCELLED
       || ev.status == FAILED;
    CallEvent(callId, SetTimestamp(now),
      if isFinal then
        CallResult(ToProtoResultStatus(ev.status), if startedAtMs > 0 then Some(SetTimestamp(startedAtMs)) else None,
                   SetTimestamp(now), ev.billingSeconds, ev.recordingPath, Wrap32(ev.sipCode), ev.reason)
      else if ev.status == SILENCE_DETECTED then SilenceDetected(ev.billingSeconds)
      else if ev.status == RECORDING_READY then RecordingReady(ev.recordingPath, ev.billingSeconds)
      else StateChange(ToProtoState(ev.status)))
  }

  /** The `event` field of the JSON line. */
  datatype JsonKind = JsonResult | JsonRecordingReady | JsonState

  function KindOfJson(ev: AgentEvent): JsonKind {
    if ev.isResult || ev.status == BUSY || ev.status == NO_ANSWER || ev.status == CANCELLED
       || ev.status == FAILED then JsonResult
    else if ev.status == RECORDING_READY then JsonRecordingReady
    else JsonState
  }

  /** The numbers of the enumerations of the protocol, and no other status stands behind one of them. */
  lemma ProtoNumbers(s: CallStatus)
    ensures ToProtoState(s) == 1 <==> s == REGISTERING
    ensures ToProtoState(s) == 2 <==> s == REGISTERED
    ensures ToProtoState(s) == 3 <==> s == DIALING
    ensures ToProtoState(s) == 4 <==> s == RINGING
    ensures ToProtoState(s) == 5 <==> s == ANSWERED
    ensures ToProtoState(s) == 6 <==> s == PLAYING
    ensures ToProtoState(s) == 7 <==> s == PLAYED
    ensures ToProtoState(s) == 8 <==> s == HANGING_UP
    ensures ToProtoState(s) == 0 <==>
              s in {SILENCE_DETECTED, RECORDING_READY, BUSY, NO_ANSWER, CANCELLED, FAILED, DISCONNECTED}
    ensures ToProtoResultStatus(s) == 1 <==> s == ANSWERED
    ensures ToProtoResultStatus(s) == 2 <==> s == BUSY
    ensures ToProtoResultStatus(s) == 3 <==> s == NO_ANSWER
    ensures ToProtoResultStatus(s) == 5 <==> s == CANCELLED
    ensures ToProtoResultStatus(s) == 4 <==> !(s in {ANSWERED, BUSY, NO_ANSWER, CANCELLED})
  {
  }

  // ---- Reading it back ------------------------------------------------------------------

  function FromProtoState(n: nat): CallStatus {
    if n == 1 then REGISTERING
    else if n == 2 then REGISTERED
    else if n == 3 then DIALING
    else if n == 4 then RINGING
    else if n == 5 then ANSWERED
    else if n == 6 then PLAYING
    else if n == 7 then PLAYED
    else if n == 8 then HANGING_UP
    else DISCONNECTED
  }

  function FromProtoResultStatus(n: nat): CallStatus {
    if n == 1 then ANSWERED
    else if n == 2 then BUSY
    else if n == 3 then NO_ANSWER
    else if n == 5 then CANCELLED
    else FAILED
  }

  /** An int32 sent as a uint32. */
  function SignedOf(n: uint32): int32 {
    if n < 0x8000_0000 then n else n - TWO32
  }

  /** What the backend can tell from a CallEvent. */
  function FromProtoEvent(w: CallEvent): AgentEvent {
    match w.body
    case StateChange(state) => AgentEvent(FromProtoState(state), w.callId, "", 0, 0, "", false)
    case SilenceDetected(seconds) => AgentEvent(SILENCE_DETECTED, w.callId, "", seconds, 0, "", false)
    case RecordingReady(uri, seconds) => AgentEvent(RECORDING_READY, w.callId, uri, seconds, 0, "", false)
    case CallResult(status, _, _, billing, uri, code, message) =>
      AgentEvent(FromProtoResultStatus(status), w.callId, uri, billing, SignedOf(code), message, true)
  }

  /** An event that has all its content in the fields its kind puts on the wire. */
  predicate FitsWire(ev: AgentEvent) {
    if IsResult(ev) then FourOutcomes(ev.status) || ev.status == CANCELLED
    else Bare(ev)
  }

  /** The wire carries an event unchanged, but for the call id, which is the request's, and the flag,
      which is made explicit, exactly when it fits. */
  lemma WireRoundTrip(ev: AgentEvent, callId: string, startedAtMs: uint64, now: uint64)
    ensures FromProtoEvent(ToProtoEvent(ev, callId, startedAtMs, now)) == ev.(callId := callId, isResult := IsResult(ev))
       <==> FitsWire(ev)
  {
    assert SignedOf(Wrap32(ev.sipCode)) == ev.sipCode;
  }

  /** JSON and protobuf agree on which events are results and which announce a recording. */
  lemma JsonAndProtoAgree(ev: AgentEvent, callId: string, startedAtMs: uint64, now: uint64)
    ensures var body := ToProtoEvent(ev, callId, startedAtMs, now).body;
            && (body.CallResult? <==> KindOfJson(ev) == JsonResult)
            && (body.CallResult? <==> IsResult(ev))
            && (body.RecordingReady? <==> KindOfJson(ev) == JsonRecordingReady)
  {
  }

  /** Every event of an accepted stream fits. */
  lemma {:induction false} AcceptedFitsWire(evs: seq<AgentEvent>, i: nat)
    requires Accepts(evs) && i < |evs|
    ensures FitsWire(evs[i])
  {
    var p := evs[..|evs| - 1];
    assert Scan(p) != Rejected;
    if i < |p| {
      AcceptedFitsWire(p, i);
    }
  }
}
