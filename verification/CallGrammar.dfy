/** The language of event streams that `run` may emit, as an automaton that
    looks at the emitted events only. It knows nothing of the state machine. */
module CallGrammar {
  import opened Events

  datatype Stage =
    | Start
    | Registering
    | Registered
    | Dialing
    | Answered
    | Playing
    | Played
    | Silent
    | HangingUp
    | Recorded(ready: AgentEvent)  // RECORDING_READY seen, its result must follow
    | Ended(final: AgentEvent)     // the result
    | Rejected

  /** No payload but the one that belongs to the kind of event. */
  predicate Bare(ev: AgentEvent) {
    && ev.sipCode == 0 && ev.reason == ""
    && (ev.status != RECORDING_READY ==> ev.recordingPath == "")
    && (ev.status != RECORDING_READY && ev.status != SILENCE_DETECTED ==> ev.billingSeconds == 0)
  }

  predicate IsStateEvent(ev: AgentEvent, status: CallStatus) {
    ev.status == status && !ev.isResult && !FinalStatus(status) && Bare(ev)
  }

  /** A result of a call that got past neither registration nor recording set-up. */
  predicate IsEarlyResult(ev: AgentEvent) {
    IsResult(ev) && ev.recordingPath == "" && ev.status != CANCELLED
  }

  /** The result after `ready`: an ANSWERED one with the same figures. */
  predicate Closes(ready: AgentEvent, ev: AgentEvent) {
    && ev.isResult && ev.status == ANSWERED
    && ev.recordingPath == ready.recordingPath && ev.recordingPath != ""
    && ev.billingSeconds == ready.billingSeconds
  }

  function Delta(q: Stage, ev: AgentEvent): Stage {
    match q
    case Start =>
      if IsEarlyResult(ev) && ev.status == FAILED && ev.billingSeconds == 0 then Ended(ev)
      else if IsStateEvent(ev, REGISTERING) then Registering else Rejected
    case Registering =>
      if IsEarlyResult(ev) && ev.status == FAILED && ev.billingSeconds == 0 then Ended(ev)
      else if IsStateEvent(ev, REGISTERED) then Registered else Rejected
    case Registered =>
      if IsStateEvent(ev, DIALING) then Dialing else Rejected
    case Dialing =>
      // never answered: nothing to bill
      if IsEarlyResult(ev) && ev.isResult && FourOutcomes(ev.status) && ev.billingSeconds == 0 then Ended(ev)
      else if IsStateEvent(ev, RINGING) then Dialing
      else if IsStateEvent(ev, ANSWERED) then Answered else Rejected
    case Answered =>
      // answered, but playback not reached: ANSWERED, or NO_ANSWER from the safety net
      if IsEarlyResult(ev) && ev.isResult && (ev.status == ANSWERED || (ev.status == NO_ANSWER && ev.billingSeconds == 0))
      then Ended(ev)
      else if IsStateEvent(ev, RINGING) || IsStateEvent(ev, ANSWERED) then Answered
      else if IsStateEvent(ev, PLAYING) then Playing else Rejected
    case Playing =>
      if IsStateEvent(ev, RECORDING_READY) then Recorded(ev)
      else if IsStateEvent(ev, PLAYED) then Played else Rejected
    case Played =>
      if IsStateEvent(ev, RECORDING_READY) then Recorded(ev)
      else if IsStateEvent(ev, SILENCE_DETECTED) then Silent else Rejected
    case Silent =>
      if IsStateEvent(ev, HANGING_UP) then HangingUp else Rejected
    case HangingUp =>
      if IsStateEvent(ev, RECORDING_READY) then Recorded(ev) else Rejected
    case Recorded(ready) =>
      if Closes(ready, ev) then Ended(ev) else Rejected
    case Ended(_) => Rejected
    case Rejected => Rejected
  }

  function Scan(evs: seq<AgentEvent>): Stage {
    if evs == [] then Start else Delta(Scan(evs[..|evs| - 1]), evs[|evs| - 1])
  }

  /** A prefix of some accepted stream. */
  predicate Accepts(evs: seq<AgentEvent>) {
    Scan(evs) != Rejected
  }

  /** A whole stream: it ends with its result. */
  predicate Complete(evs: seq<AgentEvent>) {
    Scan(evs).Ended?
  }

  lemma ScanSnoc(evs: seq<AgentEvent>, ev: AgentEvent)
    ensures Scan(evs + [ev]) == Delta(Scan(evs), ev)
  {
    assert (evs + [ev])[..|evs|] == evs;
  }

  lemma {:induction false} RejectedForGood(evs: seq<AgentEvent>, k: nat)
    requires k <= |evs| && Scan(evs[..k]) == Rejected
    ensures Scan(evs) == Rejected
  {
    if k == |evs| {
      assert evs[..k] == evs;
    } else {
      assert evs[..|evs| - 1][..k] == evs[..k];
      RejectedForGood(evs[..|evs| - 1], k);
    }
  }

  /** What the automaton promises a consumer: in an accepted stream a result is
      always the last event, so there is at most one, and there is one exactly
      when the stream is complete. */
  lemma {:induction false} ResultIsLast(evs: seq<AgentEvent>)
    requires Accepts(evs)
    ensures forall i :: 0 <= i < |evs| && IsResult(evs[i]) ==> i == |evs| - 1
    ensures Complete(evs) <==> |evs| > 0 && IsResult(evs[|evs| - 1])
    ensures Complete(evs) ==> Scan(evs) == Ended(evs[|evs| - 1])
  {
    if evs != [] {
      var p := evs[..|evs| - 1];
      assert Scan(p) != Rejected;
      ResultIsLast(p);
      assert forall i :: 0 <= i < |p| ==> p[i] == evs[i];
    }
  }
}
