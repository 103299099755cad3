/** Where the program does less than one would expect: runs that show it, on a punctual clock, and the
    exact condition under which it happens. */
module CallSurprises {
  import opened MachineInts
  import opened Events
  import opened CallMachine
  import opened CallInvariant
  import opened CallTheorems
  import opened CallEndings
  import opened CallDeadlines
  import opened CallPace
  import opened CallReturns
  import opened CallLoops
  import opened CallRuns

  // ---- A stream without a result ------------------------------------------------------------

  /** protos/call_agent.proto says that the stream ends with a result. A run that is cancelled ends without
      one; `NoResultExactlyWhenSeen` has the exact condition. */
  lemma CancelledWithoutResult(setup: Setup)
    requires setup.initOk
    ensures exists ts :: && Real(setup, ts) && Exec(setup, ts).pc == Returned
                         && Exec(setup, ts).result.status == CANCELLED
                         && forall i :: 0 <= i < |Stream(Exec(setup, ts))| ==> !IsResult(Stream(Exec(setup, ts))[i])
  {
    hide Next, Exec, Punctual, Summary, CancelEarly;
    var ts := RunToRegister(setup);
    NextInReg(setup, Exec(setup, ts), Cancelling(1));
    ts := Now(setup, ts, Cancelling(1));
    EarlyExit(setup, Exec(setup, ts), Cancelling(1));
    ts := Now(setup, ts, Cancelling(1));
    OneResultAndLast(setup, ts);
  }

  lemma EarlyExit(setup: Setup, s: Call, u: Tick)
    requires s.pc == RegExit && u.cancelled
    ensures Next(setup, s, u).pc == Returned && Next(setup, s, u).result.status == CANCELLED
  {
    hide Summary;
  }

  // ---- Reported ANSWERED, never confirmed ----------------------------------------------------

  /** A call nobody confirmed is reported ANSWERED exactly when it was disconnected with code 200
      before the answer timeout; it is not billed. */
  lemma AnsweredWithoutConfirmation(setup: Setup, ts: seq<Tick>)
    requires Legal(ts) && Exec(setup, ts).pc == Returned && Summary(Exec(setup, ts).log).callStart == 0
    ensures var s, d := Exec(setup, ts), Summary(Exec(setup, ts).log);
            && (s.result.status == ANSWERED <==>
                  d.line.Disconnected? && !s.timeoutHit && d.line.ev.CallState? && d.line.ev.code == 200)
            && s.result.billingSeconds == 0
  {
    hide Exec, Summary, Inv, Ending;
    ReturnedHolds(setup, ts);
  }

  lemma AnsweredWithoutConfirmationHappens(setup: Setup)
    requires setup.initOk && setup.config.answerTimeoutS > 0
    ensures exists ts :: && Real(setup, ts) && Exec(setup, ts).pc == Returned
                         && Exec(setup, ts).result.status == ANSWERED && Exec(setup, ts).connectedMs == 0
  {
    hide Next, Exec, Real, DialTake;
    var ts := RunToAnswerWait(setup);
    var ev := CallState(INV_STATE_DISCONNECTED, 200, "OK");
    NextInDial(setup, Exec(setup, ts), Bringing(1, ev));
    Disconnected200(setup, Exec(setup, ts), ev);
    ts := Now(setup, ts, Bringing(1, ev));
  }

  lemma Disconnected200(setup: Setup, s: Call, ev: InternalEvent)
    requires s.connectedMs == 0 && !s.timeoutHit && IsDisconnect(ev) && ev.code == 200
    ensures var r := DialTake(setup, s, ev);
            r.pc == Returned && r.result.status == ANSWERED && r.connectedMs == 0
  {
    hide Summary, Act, Setup.CallId;
  }

  // ---- NO_ANSWER after ANSWERED ----------------------------------------------------------------

  /** Once the answer timeout has fired, a confirmation is later than the deadline; and the loop of Step 4 does not
      go round with both a confirmation and media. */
  ghost predicate LateAnswer(s: Call, now: uint64) {
    InDial(s.pc) && !s.pc.DialClock? ==>
      && (!s.pc.DialExit? && !s.pc.DialConfirm? ==> !(s.answered && s.media))
      && (s.pc.DialTimeout? ==> !s.answered)
      && (s.timeoutHit ==> s.deadline <= now && (s.connectedMs > 0 ==> s.deadline <= s.connectedMs))
  }

  lemma DialTakeKeepsLate(setup: Setup, s: Call, ev: InternalEvent)
    requires s.pc == DialWait && !(s.answered && s.media)
    ensures var r := DialTake(setup, s, ev);
            && r.connectedMs == s.connectedMs && r.timeoutHit == s.timeoutHit && r.deadline == s.deadline
            && (InDial(r.pc) && !r.pc.DialExit? && !r.pc.DialConfirm? ==> r.pc.DialLoop? && !(r.answered && r.media))
  {
    hide Summary, Act, Setup.CallId, AnswerTimedOut, Disconnect;
    if IsDisconnect(ev) {
      DisconnectConcludes(setup, Act(s, Took(ev)), 487, AnswerTimedOut());
      DisconnectConcludes(setup, Act(s, Took(ev)), ev.code, ev.why);
      DisconnectSame(setup, Act(s, Took(ev)), 487, AnswerTimedOut());
      DisconnectSame(setup, Act(s, Took(ev)), ev.code, ev.why);
    }
  }

  lemma DisconnectSame(setup: Setup, s: Call, code: int32, reason: string)
    ensures SameCall(s, Disconnect(setup, s, code, reason))
  {
    hide Settle;
    SettleConcludes(setup, s, code, reason, 0);
  }

  lemma DialKeepsLate(setup: Setup, s: Call, t: Tick, u: Tick)
    requires InDial(s.pc) && LateAnswer(s, t.now) && DialInv(s, Summary(s.log), t) && Follows(t, u)
    ensures LateAnswer(NextDial(setup, s, u), u.now)
  {
    hide Summary, Act, Setup.CallId, Setup.RecPath, AnswerTimedOut, CancelledByUser, DialTake, Add64;
    if s.pc.DialWait? && u.event.Some? {
      DialTakeKeepsLate(setup, s, u.event.value);
    }
  }

  lemma {:induction false} AlwaysLate(setup: Setup, ts: seq<Tick>)
    requires Legal(ts)
    ensures LateAnswer(Exec(setup, ts), LastTick(ts).now)
  {
    hide Next, LateAnswer, Summary, Inv, Flows, Follows;
    if ts == [] {
      NotDialling(setup);
    } else {
      var p, u := ts[..|ts| - 1], ts[|ts| - 1];
      AlwaysLate(setup, p);
      InvHolds(setup, p);
      StepKeepsLate(setup, Exec(setup, p), LastTick(p), u);
    }
  }

  lemma NotDialling(setup: Setup)
    ensures LateAnswer(Exec(setup, []), 1)
  {
    hide Setup.SilenceLevel, Setup.SilenceMs;
  }

  lemma StepKeepsLate(setup: Setup, s: Call, t: Tick, u: Tick)
    requires LateAnswer(s, t.now) && Inv(setup, s, t) && Follows(t, u)
    ensures LateAnswer(Next(setup, s, u), u.now)
  {
    hide NextReg, NextDial, NextPlay, NextEnd, Summary, RegInv, DialInv, PlayInv, ListenInv, ClosingInv, ReturnedInv;
    if InDial(s.pc) {
      DialKeepsLate(setup, s, t, u);
    } else {
      NextLeads(setup, s, u);
      DialEntry(s.pc, Next(setup, s, u).pc, u.cancelled, u.event.Some?);
    }
  }

  /** A confirmed call is reported NO_ANSWER exactly when the run ends without a disconnect, which is the
      safety net: the confirmation came after the answer timeout, and no media. */
  lemma NoAnswerAfterConfirmation(setup: Setup, ts: seq<Tick>)
    requires Legal(ts) && Exec(setup, ts).pc == Returned && Exec(setup, ts).result.status != CANCELLED
    requires Summary(Exec(setup, ts).log).callStart > 0
    ensures var s, d := Exec(setup, ts), Summary(Exec(setup, ts).log);
            && (s.result.status == NO_ANSWER <==> d.line == Dialled)
            && (s.result.status == NO_ANSWER ==>
                  && s.timeoutHit && s.deadline <= d.callStart && !s.media
                  && Add64(s.deadline, SAFETY_NET_MS) <= LastTick(ts).now
                  && s.result.recordingPath == "" && s.result.billingSeconds == 0)
  {
    hide Exec, Next, Summary, Inv, Ending, Asks, LateAnswer, Legal, Follows, Add64;
    ReturnedHolds(setup, ts);
    OutcomeTable(setup, ts);
    if Exec(setup, ts).result.status == NO_ANSWER {
      SafetyNetAtLast(setup, ts);
    }
  }

  /** A confirmed call that ends as NO_ANSWER was given up at the safety net. */
  lemma SafetyNetAtLast(setup: Setup, ts: seq<Tick>)
    requires Legal(ts) && Exec(setup, ts).pc == Returned && Exec(setup, ts).result.status == NO_ANSWER
    requires Exec(setup, ts).connectedMs > 0
    ensures var s := Exec(setup, ts);
            s.deadline <= s.connectedMs && !s.media && Add64(s.deadline, SAFETY_NET_MS) <= LastTick(ts).now
  {
    hide Exec, Next, Summary, Inv, Asks, Add64;
    var k := LastRead(setup, ts);
    var s := Exec(setup, ts[..k]);
    NextConcludes(setup, s, ts[k]);
    AlwaysLate(setup, ts[..k]);
    InvHolds(setup, ts[..k]);
    assert ts[k].now <= LastTick(ts).now by { ClockRises(ts, k); }
    AtSafetyNet(setup, s, LastTick(ts[..k]));
  }

  lemma AtSafetyNet(setup: Setup, s: Call, t: Tick)
    requires Inv(setup, s, t)
    ensures s.pc.DialSafety? ==> s.timeoutHit && (s.connectedMs > 0 ==> s.answered)
    ensures !s.pc.Returned? ==> s.result.status != NO_ANSWER
    ensures s.pc.Bill? ==> s.connectedMs > 0
  {
    hide Summary, Setup.RecPath, Setup.CallId;
  }

  /** Nobody answers until the timeout. */
  lemma {:induction false} RunRingsOut(setup: Setup, ts: seq<Tick>) returns (us: seq<Tick>)
    requires Real(setup, ts) && LastTick(ts) == At(LastTick(ts).now)
    requires var s := Exec(setup, ts);
             && s.pc == DialLoop && !s.answered && !s.timeoutHit && !s.media && s.deadline < CLOCK_LIMIT - 1000
             && LastTick(ts).now < s.deadline + 500
    ensures Real(setup, us) && LastTick(us) == At(LastTick(us).now)
    ensures var s, s0 := Exec(setup, us), Exec(setup, ts);
            && s.pc == DialSafety && s.timeoutHit && !s.media && s.deadline == s0.deadline
            && s.deadline <= LastTick(us).now < s.deadline + 500
    decreases Exec(setup, ts).deadline + 500 - LastTick(ts).now
  {
    hide Next, Exec, Real;
    var now := LastTick(ts).now;
    NextInDial(setup, Exec(setup, ts), At(now));
    us := Now(setup, ts, At(now));
    ClockStep(setup, Exec(setup, us), At(now));
    us := Now(setup, us, At(now));
    if now < Exec(setup, ts).deadline {
      NextInDial(setup, Exec(setup, us), At(now + 500));
      us := Idle(setup, us, now + 500);
      us := RunRingsOut(setup, us);
    }
  }

  /** Confirmed too late, and no media until the safety net. */
  lemma {:induction false} RunFallsIntoNet(setup: Setup, ts: seq<Tick>) returns (us: seq<Tick>)
    requires Real(setup, ts) && LastTick(ts) == At(LastTick(ts).now)
    requires var s := Exec(setup, ts);
             && s.pc == DialLoop && s.answered && s.timeoutHit && !s.media && s.deadline < CLOCK_LIMIT - 20000
             && LastTick(ts).now < s.deadline + SAFETY_NET_MS + 500
    ensures Real(setup, us) && Exec(setup, us).pc == Returned && Exec(setup, us).result.status == NO_ANSWER
    ensures Exec(setup, us).connectedMs == Exec(setup, ts).connectedMs
    decreases Exec(setup, ts).deadline + SAFETY_NET_MS + 500 - LastTick(ts).now
  {
    hide Next, Exec, Real;
    var now := LastTick(ts).now;
    NextInDial(setup, Exec(setup, ts), At(now));
    us := Now(setup, ts, At(now));
    SafetyStep(setup, Exec(setup, us), At(now));
    us := Now(setup, us, At(now));
    if now < Exec(setup, ts).deadline + SAFETY_NET_MS {
      NextInDial(setup, Exec(setup, us), At(now + 500));
      us := Idle(setup, us, now + 500);
      us := RunFallsIntoNet(setup, us);
    }
  }

  lemma NoAnswerAfterConfirmationHappens(setup: Setup)
    requires setup.initOk
    ensures exists ts :: && Real(setup, ts) && Exec(setup, ts).pc == Returned
                         && Exec(setup, ts).result.status == NO_ANSWER && Exec(setup, ts).connectedMs > 0
  {
    hide Next, Exec, Real;
    var ts := RunToDial(setup);
    ts := RunRingsOut(setup, ts);
    SafetyStep(setup, Exec(setup, ts), LastTick(ts));
    ts := Now(setup, ts, LastTick(ts));
    ts := RunConfirms(setup, ts);
    ts := RunFallsIntoNet(setup, ts);
  }

  // ---- Cancelled and not hung up -----------------------------------------------------------------

  /** Cancelling hangs up the call, except while `run` listens for silence (`CancelledCallIsHungUp` has the exact
      condition): a call that was placed, answered and cancelled, and never hung up. */
  lemma CancelledButNotHungUpHappens(setup: Setup)
    requires setup.initOk && setup.config.answerTimeoutS > 0
    ensures exists ts :: && Real(setup, ts) && Exec(setup, ts).pc == Returned
                         && Exec(setup, ts).result.status == CANCELLED
                         && PlaceCall in Exec(setup, ts).log && Hangup !in Exec(setup, ts).log
  {
    hide Next, Exec, Punctual, Summary, ReturnCancelled, Stream;
    var ts := RunToListen(setup);
    var now := LastTick(ts).now;
    NextInEnd(setup, Exec(setup, ts), Cancelling(now));
    ts := Now(setup, ts, Cancelling(now));
    NextInEnd(setup, Exec(setup, ts), Cancelling(now));
    ts := Now(setup, ts, Cancelling(now));
    ExitsCancelled(setup, ts);
  }

  /** What is known of a run cancelled at the exit of the silence loop. */
  lemma ExitsCancelled(setup: Setup, ts: seq<Tick>)
    requires Legal(ts) && ts != [] && Exec(setup, ts[..|ts| - 1]).pc == SilExit && !Exec(setup, ts[..|ts| - 1]).timeoutHit
    requires Exec(setup, ts) == ReturnCancelled(Exec(setup, ts[..|ts| - 1]))
    ensures Exec(setup, ts).pc == Returned && Exec(setup, ts).result.status == CANCELLED
    ensures PlaceCall in Exec(setup, ts).log && Hangup !in Exec(setup, ts).log
  {
    hide Exec, Summary;
    var p := ts[..|ts| - 1];
    InvHolds(setup, p);
    AtSilenceExit(setup, Exec(setup, p), LastTick(p));
    LineMeans(Exec(setup, ts).log);
    ActionsNoted(Exec(setup, ts).log);
  }

  lemma AtSilenceExit(setup: Setup, s: Call, t: Tick)
    requires Inv(setup, s, t) && s.pc == SilExit && !s.timeoutHit
    ensures Summary(s.log).line == Dialled && !Summary(s.log).hungUp
  {
    hide Summary, Setup.RecPath, Setup.SilenceLevel, Setup.SilenceMs;
  }
}
