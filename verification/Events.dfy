/** src/events.h, src/events.cpp: the statuses, the events `run` emits, the
    events PJSIP callbacks push, and how both are classified. */
module Events {
  import opened MachineInts

  datatype Option<+T> = None | Some(value: T)

  datatype CallStatus =
    | REGISTERING | REGISTERED | DIALING | RINGING | ANSWERED | PLAYING | PLAYED
    | SILENCE_DETECTED | RECORDING_READY | BUSY | NO_ANSWER | CANCELLED | FAILED
    | HANGING_UP | DISCONNECTED

  /** What the sink receives; the result record has the same type. */
  datatype AgentEvent = AgentEvent(
    status: CallStatus, callId: string, recordingPath: string, billingSeconds: uint32,
    sipCode: int32, reason: string, isResult: bool)

  /** What PJSIP callbacks push. The last three are declared by the source but never pushed. */
  datatype InternalEvent =
    | RegState(connected: bool, code: int32, why: string)
    | CallState(state: int, code: int32, why: string)
    | MediaState(active: bool)
    | PlaybackEof
    | TimeoutFired
    | CancelRequested
    | HangupDone

  const INV_STATE_EARLY: int := 3
  const INV_STATE_CONFIRMED: int := 5
  const INV_STATE_DISCONNECTED: int := 6

  predicate IsState(ev: InternalEvent, state: int) {
    ev.CallState? && ev.state == state
  }

  predicate IsDisconnect(ev: InternalEvent) {
    IsState(ev, INV_STATE_DISCONNECTED)
  }

  predicate IsConfirm(ev: InternalEvent) {
    IsState(ev, INV_STATE_CONFIRMED)
  }

  predicate FourOutcomes(s: CallStatus) {
    s == ANSWERED || s == BUSY || s == NO_ANSWER || s == FAILED
  }

  function SipCodeToCallStatus(code: int): (s: CallStatus)
    ensures FourOutcomes(s)
  {
    if code == 200 then ANSWERED
    else if code == 486 || code == 600 || code == 603 then BUSY
    else if code == 408 || code == 480 || code == 487 then NO_ANSWER
    else FAILED
  }

  /** The mapping table, read from the outcome: which codes stand behind it. */
  lemma CodesOfOutcome(code: int)
    ensures SipCodeToCallStatus(code) == ANSWERED <==> code == 200
    ensures SipCodeToCallStatus(code) == BUSY <==> code in {486, 600, 603}
    ensures SipCodeToCallStatus(code) == NO_ANSWER <==> code in {408, 480, 487}
    ensures SipCodeToCallStatus(code) == FAILED <==> code !in {200, 486, 600, 603, 408, 480, 487}
  {
  }

  function StatusToExitCode(s: CallStatus): int {
    match s
    case ANSWERED => 0
    case BUSY => 3
    case NO_ANSWER => 4
    case FAILED => 5
    case CANCELLED => 6
    case _ => 1
  }

  /** The process exits with a code of its own for every outcome, and with 1 only if there is none. */
  lemma ExitCodes(s: CallStatus)
    ensures StatusToExitCode(s) == 0 <==> s == ANSWERED
    ensures StatusToExitCode(s) == 3 <==> s == BUSY
    ensures StatusToExitCode(s) == 4 <==> s == NO_ANSWER
    ensures StatusToExitCode(s) == 5 <==> s == FAILED
    ensures StatusToExitCode(s) == 6 <==> s == CANCELLED
    ensures StatusToExitCode(s) == 1 <==> !FourOutcomes(s) && s != CANCELLED
  {
  }

  /** The statuses that are final even without the flag. */
  predicate FinalStatus(s: CallStatus) {
    s == BUSY || s == NO_ANSWER || s == CANCELLED || s == FAILED
  }

  /** A result event, for the JSON and for the protobuf stream alike. */
  predicate IsResult(ev: AgentEvent) {
    ev.isResult || FinalStatus(ev.status)
  }

  /** ANSWERED as a state: the callee picked up. */
  predicate IsAnsweredState(ev: AgentEvent) {
    ev.status == ANSWERED && !ev.isResult
  }
}
