/** The promises of `run`, over every legal run: what the stream looks like, what
    the returned record says, when a call is billed, and where the documented
    promises fail. */
module CallTheorems {
  import opened MachineInts
  import opened Events
  import opened CallGrammar
  import opened CallMachine
  import opened CallInvariant

  /** The events emitted so far. */
  function Stream(s: Call): seq<AgentEvent> {
    Summary(s.log).emitted
  }

  lemma {:induction false} StageIsScan(log: seq<Action>)
    ensures Summary(log).stage == Scan(Summary(log).emitted)
  {
    if log != [] {
      var p, a := log[..|log| - 1], log[|log| - 1];
      StageIsScan(p);
      if a.Emit? {
        ScanSnoc(Summary(p).emitted, a.event);
      }
    }
  }

  // ---- The stream ---------------------------------------------------------------

  /** Every run emits a stream of the grammar; it is complete exactly when `run`
      has returned anything but CANCELLED. */
  lemma StreamFollowsGrammar(setup: Setup, ts: seq<Tick>)
    requires Legal(ts)
    ensures var s := Exec(setup, ts);
            && Accepts(Stream(s))
            && (Complete(Stream(s)) <==> s.pc == Returned && s.result.status != CANCELLED)
  {
    hide Exec, Summary, Scan, OutcomeInv;
    var s := Exec(setup, ts);
    InvHolds(setup, ts);
    StageIsScan(s.log);
  }

  /** The stream holds exactly one result, and it is the last event, if and only if the
      run has returned with a status other than CANCELLED; a cancelled or
      unfinished run has emitted none. */
  lemma OneResultAndLast(setup: Setup, ts: seq<Tick>)
    requires Legal(ts)
    ensures var s, evs := Exec(setup, ts), Stream(Exec(setup, ts));
            if s.pc == Returned && s.result.status != CANCELLED
            then evs != [] && forall i :: 0 <= i < |evs| ==> (IsResult(evs[i]) <==> i == |evs| - 1)
            else forall i :: 0 <= i < |evs| ==> !IsResult(evs[i])
  {
    hide Exec, Summary, Scan;
    StreamFollowsGrammar(setup, ts);
    ResultIsLast(Stream(Exec(setup, ts)));
  }

  /** The returned status is one of five, so the exit code is 0, 3, 4, 5 or 6; and the
      one result event agrees with the returned record in every figure. */
  lemma RecordAgreesWithStream(setup: Setup, ts: seq<Tick>)
    requires Legal(ts) && Exec(setup, ts).pc == Returned
    ensures var s, evs := Exec(setup, ts), Stream(Exec(setup, ts));
            && (FourOutcomes(s.result.status) || s.result.status == CANCELLED)
            && StatusToExitCode(s.result.status) in {0, 3, 4, 5, 6}
            && (s.result.status != CANCELLED ==> evs != [] && Agrees(evs[|evs| - 1], s.result))
  {
    hide Exec, Summary, Scan;
    var s := Exec(setup, ts);
    InvHolds(setup, ts);
    StreamFollowsGrammar(setup, ts);
    ResultIsLast(Stream(s));
    StageIsScan(s.log);
  }

  lemma ReturnedHolds(setup: Setup, ts: seq<Tick>)
    requires Legal(ts) && Exec(setup, ts).pc == Returned
    ensures var s := Exec(setup, ts);
            ReturnedInv(setup, s, Summary(s.log), LastTick(ts)) && Summary(s.log).callStart == s.connectedMs
  {
    hide Exec, Summary, ReturnedInv, RegInv, DialInv, PlayInv, ListenInv, ClosingInv;
    InvHolds(setup, ts);
  }

  // ---- The outcome ----------------------------------------------------------------

  /** The code that came with a DISCONNECTED. */
  function CodeOf(ev: InternalEvent): int {
    match ev
    case CallState(_, code, _) => code
    case _ => 0
  }

  /** The outcome is decided by how far the line got, whether the call was ever
      confirmed, whether the answer timeout fired and the code of the disconnect. */
  lemma OutcomeTable(setup: Setup, ts: seq<Tick>)
    requires Legal(ts) && Exec(setup, ts).pc == Returned && Exec(setup, ts).result.status != CANCELLED
    ensures var s, d := Exec(setup, ts), Summary(Exec(setup, ts).log);
            s.result.status ==
            match d.line
            case NotDialled => FAILED
            case Dialled => NO_ANSWER
            case Disconnected(ev) =>
              if d.callStart > 0 then ANSWERED
              else if s.timeoutHit then NO_ANSWER
              else SipCodeToCallStatus(CodeOf(ev))
  {
    hide Exec, Summary, Inv, Ending;
    ReturnedHolds(setup, ts);
  }

  /** After the answer timeout a call that is never confirmed ends as NO_ANSWER or
      CANCELLED, whatever code PJSIP reports for the local hangup. */
  lemma TimeoutIsNoAnswer(setup: Setup, ts: seq<Tick>)
    requires Legal(ts) && Exec(setup, ts).pc == Returned
    requires Exec(setup, ts).timeoutHit && Summary(Exec(setup, ts).log).callStart == 0
    ensures Exec(setup, ts).result.status == NO_ANSWER || Exec(setup, ts).result.status == CANCELLED
    ensures Summary(Exec(setup, ts).log).line.Disconnected? && Exec(setup, ts).result.status != CANCELLED
            ==> Exec(setup, ts).result.sipCode == 487
  {
    hide Exec, Summary, Inv, Ending;
    ReturnedHolds(setup, ts);
  }

  /** Everywhere past Step 4 the call is answered and being billed, so neither guard on
      the status can be taken. */
  lemma AnsweredPastStep4(setup: Setup, ts: seq<Tick>)
    requires Legal(ts)
    ensures var s := Exec(setup, ts);
            && (InPlay(s.pc) || InListen(s.pc) ==> s.result.status == ANSWERED && s.connectedMs > 0 && !GivenUp(s))
            && (s.pc == DialExit && !LastTick(ts).cancelled ==> !GivenUp(s))
  {
    hide Exec, Summary;
    InvHolds(setup, ts);
  }

  // ---- Billing --------------------------------------------------------------------

  /** `b` seconds is `ms` milliseconds rounded up. */
  predicate CeilSeconds(b: int, ms: int) {
    1000 * (b - 1) < ms <= 1000 * b
  }

  /** The billed figure is the elapsed time rounded up exactly as long as that fits 32 bits. */
  lemma BillIsCeilingUpTo32Bits(connectedMs: uint64, now: uint64)
    requires connectedMs <= now < CLOCK_LIMIT
    ensures CeilSeconds(BillSeconds(connectedMs, now), now - connectedMs) <==> now - connectedMs <= 1000 * (TWO32 - 1)
  {
    var secs := (now - connectedMs + 999) / 1000;
    assert CeilSeconds(secs, now - connectedMs);
  }

  /** In the grammar RECORDING_READY is followed by its result and nothing else. */
  lemma {:induction false} ReadyThenResult(evs: seq<AgentEvent>, i: nat)
    requires Accepts(evs) && i < |evs| && evs[i].status == RECORDING_READY
    ensures if i == |evs| - 1 then Scan(evs) == Recorded(evs[i])
            else i == |evs| - 2 && Closes(evs[i], evs[i + 1]) && Complete(evs)
  {
    var p := evs[..|evs| - 1];
    if i < |evs| - 1 {
      assert Scan(p) != Rejected;
      ReadyThenResult(p, i);
    }
  }
}
