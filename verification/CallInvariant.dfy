/** What holds at every program point of every legal run. */
module CallInvariant {
  import opened MachineInts
  import opened Events
  import opened Silence
  import opened CallGrammar
  import opened CallMachine

  /** A result record nobody has filled in beyond status and recording path. */
  function Blank(status: CallStatus, path: string): AgentEvent {
    AgentEvent(status, "", path, 0, 0, "", false)
  }

  /** The emitted result carries the same figures as the returned record. */
  predicate Agrees(ev: AgentEvent, result: AgentEvent) {
    && IsResult(ev)
    && ev.status == result.status && ev.sipCode == result.sipCode && ev.reason == result.reason
    && ev.billingSeconds == result.billingSeconds && ev.recordingPath == result.recordingPath
  }

  /** What has not been done until the call is placed. */
  ghost predicate Untouched(d: Digest) {
    !d.hungUp && !d.armed && d.recorder == NeverStarted && d.polls == []
  }

  ghost predicate RegInv(s: Call, d: Digest, t: Tick) {
    && s.result == Blank(FAILED, "") && s.connectedMs == 0
    && !s.answered && !s.media && !s.timeoutHit && !s.played && !s.silent
    && d.line == NotDialled && Untouched(d)
    && (s.pc.RegInit? ==> d.stage == Start)
    && (s.pc.RegExit? ==> d.stage == Registered || (d.stage == Registering && t.cancelled))
    && (!s.pc.RegInit? && !s.pc.RegExit? ==> d.stage == Registering)
  }

  ghost predicate DialInv(s: Call, d: Digest, t: Tick) {
    && s.result == Blank(if s.answered then ANSWERED else FAILED, "")
    && (s.connectedMs > 0 ==> s.answered)
    && (s.answered && !s.pc.DialConfirm? ==> s.connectedMs > 0)
    && (s.pc.DialConfirm? ==> s.answered)
    && (s.pc.DialClock? ==> !s.answered && !s.media && !s.timeoutHit)
    && (s.pc.DialExit? ==> (s.answered && s.media) || t.cancelled)
    && (s.pc.DialSafety? ==> s.timeoutHit)
    && d.stage == (if s.connectedMs > 0 then Answered else Dialing)
    && d.line == Dialled && d.hungUp == s.timeoutHit
    && !d.armed && d.recorder == NeverStarted && d.polls == [] && !s.played && !s.silent
  }

  /** Everywhere past Step 4: answered, confirmed, recording. */
  ghost predicate Talking(setup: Setup, s: Call, d: Digest) {
    && s.result == Blank(ANSWERED, setup.RecPath())
    && s.connectedMs > 0 && s.answered && s.media
    && d.line == Dialled && d.recorder == Recording(setup.RecPath())
  }

  ghost predicate PlayInv(setup: Setup, s: Call, d: Digest, t: Tick) {
    && Talking(setup, s, d)
    && !d.armed && d.polls == [] && !s.silent
    && (s.played ==> s.pc.PlayExit?)
    && (if (s.pc.DelayClock? || s.pc.DelayLoop? || s.pc.DelaySleep? || s.pc.DelayExit?) then
          d.stage == Answered && d.hungUp == s.timeoutHit
        else if (s.pc.PlayClock? || s.pc.PlayLoop? || s.pc.PlayWait? || s.pc.PlayCap?) then
          d.stage == Playing && d.hungUp == s.timeoutHit
        else if (s.pc.DrainLoop? || s.pc.DrainWait?) then
          d.stage == Playing && d.hungUp
        else if s.played then
          d.stage == Played && d.hungUp == s.timeoutHit
        else
          d.stage == Playing && t.cancelled)
  }

  /** The polled levels end in the configured silence, or the call has hit its cap. */
  ghost predicate HangupDue(setup: Setup, s: Call, d: Digest, now: uint64) {
    EndsSilent(setup.SilenceLevel(), setup.SilenceMs(), d.polls) || now - s.connectedMs >= MAX_CALL_MS
  }

  ghost predicate ListenInv(setup: Setup, s: Call, d: Digest, t: Tick) {
    && Talking(setup, s, d) && d.armed
    && Ordered(d.polls) && s.markMs <= t.now
    && (d.polls != [] ==> s.markMs <= d.polls[0].now && d.polls[|d.polls| - 1].now <= t.now)
    && (if (s.pc.EndLoop? || s.pc.EndWait?) then
          d.stage == HangingUp && d.hungUp && HangupDue(setup, s, d, t.now)
        else
          && d.stage == Played && d.hungUp == s.timeoutHit
          && (if s.pc.SilExit? then
                if s.silent then HangupDue(setup, s, d, t.now) else t.cancelled
              else
                && s.detector == Replay(setup.SilenceLevel(), setup.SilenceMs(), d.polls)
                && (s.silent ==> s.pc.SilCap? && EndsSilent(setup.SilenceLevel(), setup.SilenceMs(), d.polls))))
  }

  /** What `handleDisconnect` is called with, given the event that triggered it. */
  predicate HangupArgs(s: Call, d: Digest, code: int32, reason: string) {
    && d.line.Disconnected? && IsDisconnect(d.line.ev)
    && if s.timeoutHit && d.recorder == NeverStarted
       then code == 487 && reason == AnswerTimedOut()
       else code == d.line.ev.code && reason == d.line.ev.why
  }

  /** The log ends with the first DISCONNECTED since the call was placed. */
  ghost predicate JustTook(log: seq<Action>, ev: InternalEvent) {
    log != [] && log[|log| - 1] == Took(ev) && Summary(log[..|log| - 1]).line == Dialled
  }

  /** On entry to `handleDisconnect`: the DISCONNECTED has just been taken. */
  ghost predicate ClosingInv(setup: Setup, s: Call, d: Digest, code: int32, reason: string) {
    && HangupArgs(s, d, code, reason) && JustTook(s.log, d.line.ev)
    && (if s.connectedMs == 0 then
          && !s.answered && s.result == Blank(FAILED, "") && d.stage == Dialing
        else
          && s.answered
          && s.result == Blank(ANSWERED, if d.recorder == NeverStarted then "" else setup.RecPath())
          && (if d.recorder == NeverStarted then d.stage.Answered?
              else d.stage.Playing? || d.stage.Played? || d.stage.HangingUp?))
    && d.recorder == (if s.result.recordingPath == "" then NeverStarted else Recording(setup.RecPath()))
  }

  /** The last actions of a run that ends on the DISCONNECTED `ev`. */
  function Ending(setup: Setup, result: AgentEvent, ev: InternalEvent): seq<Action> {
    [Took(ev), StopRecorder]
    + (if result.recordingPath == "" then []
       else [Emit(AgentEvent(RECORDING_READY, setup.CallId(), result.recordingPath, result.billingSeconds, 0, "", false))])
    + [Emit(result.(callId := setup.CallId(), isResult := true))]
  }

  /** The outcome, from what happened on the line. */
  ghost predicate OutcomeInv(setup: Setup, s: Call, d: Digest) {
    match d.line
    case NotDialled => s.result.status == FAILED && s.result.billingSeconds == 0 && s.connectedMs == 0 && !s.timeoutHit
    case Dialled =>
      && s.timeoutHit && s.result == Blank(NO_ANSWER, "").(reason := AnswerTimedOut())
    case Disconnected(ev) =>
      && s.result.status == (if s.connectedMs > 0 then ANSWERED else SipCodeToCallStatus(s.result.sipCode))
      && s.result.sipCode ==
           (if s.timeoutHit && s.result.recordingPath == "" then 487 else if ev.CallState? then ev.code else 0)
      && s.result.reason ==
           (if s.timeoutHit && s.result.recordingPath == "" then AnswerTimedOut() else if ev.CallState? then ev.why else "")
      && s.result.billingSeconds == (if s.connectedMs > 0 then BillSeconds(s.connectedMs, s.markMs) else 0)
      && (s.connectedMs > 0 ==> s.connectedMs <= s.markMs)
      && (s.result.recordingPath == "" || s.result.recordingPath == setup.RecPath())
      && (s.connectedMs == 0 ==> s.result.recordingPath == "")
      && IsDisconnect(ev) && d.recorder == Stopped
      && EndsWith(s.log, Ending(setup, s.result, ev), s.result.recordingPath)
  }

  /** The log is one that leaves the call dialled and recorded to `path`, if to any, and then `e`. */
  ghost predicate EndsWith(log: seq<Action>, e: seq<Action>, path: string) {
    && |e| <= |log| && log[|log| - |e|..] == e
    && var d := Summary(log[..|log| - |e|]);
       d.line == Dialled && d.recorder == RecorderFor(path)
  }

  function RecorderFor(path: string): Recorder {
    if path == "" then NeverStarted else Recording(path)
  }

  /** Where a cancelled stream may be cut off. */
  predicate Unfinished(q: Stage) {
    q.Registering? || q.Registered? || q.Dialing? || q.Answered? || q.Playing? || q.Played? || q.HangingUp?
  }

  ghost predicate ReturnedInv(setup: Setup, s: Call, d: Digest, t: Tick) {
    && s.result.callId == "" && !s.result.isResult
    && (s.answered <==> s.connectedMs > 0)
    && if s.result.status == CANCELLED then
         && t.cancelled && s.result.billingSeconds == 0 && s.result.sipCode == 0
         && Unfinished(d.stage)
         && !d.line.Disconnected?
         && (d.line == Dialled ==> (d.hungUp <==> s.timeoutHit || !d.armed || d.stage == HangingUp))
       else
         && d.stage.Ended? && Agrees(d.stage.final, s.result)
         && OutcomeInv(setup, s, d)
  }

  ghost predicate Inv(setup: Setup, s: Call, t: Tick) {
    var d := Summary(s.log);
    && 1 <= t.now < CLOCK_LIMIT && s.connectedMs <= t.now && d.callStart == s.connectedMs
    && s.detector.threshold == setup.SilenceLevel() && s.detector.timeoutMs == setup.SilenceMs()
    && (InReg(s.pc) ==> RegInv(s, d, t))
    && (InDial(s.pc) ==> DialInv(s, d, t))
    && (InPlay(s.pc) ==> PlayInv(setup, s, d, t))
    && (InListen(s.pc) ==> ListenInv(setup, s, d, t))
    && (s.pc.Bill? ==> s.connectedMs > 0 && ClosingInv(setup, s, d, s.hangupCode, s.hangupReason))
    && (s.pc.Returned? ==> ReturnedInv(setup, s, d, t))
  }

  // ---- Preservation -----------------------------------------------------------

  lemma SettleLog(setup: Setup, s: Call, code: int32, reason: string, bill: uint32, ev: InternalEvent)
    requires JustTook(s.log, ev) && s.result.callId == "" && !s.result.isResult
    requires Summary(s.log).recorder == RecorderFor(s.result.recordingPath)
    ensures var r := Settle(setup, s, code, reason, bill);
            EndsWith(r.log, Ending(setup, r.result, ev), r.result.recordingPath)
  {
    hide Summary, BillSeconds, Setup.RecPath, Setup.CallId, Absorb, SipCodeToCallStatus;
    var r := Settle(setup, s, code, reason, bill);
    var e := Ending(setup, r.result, ev);
    var p := s.log[..|s.log| - 1];
    assert s.log == p + [Took(ev)];
    TakingKeepsRecorder(s.log);
    if s.result.recordingPath == "" {
      assert r.log == p + e;
    } else {
      assert r.log == p + e;
    }
    assert r.log[|p|..] == e && r.log[..|p|] == p;
  }

  lemma TakingKeepsRecorder(log: seq<Action>)
    requires log != [] && log[|log| - 1].Took?
    ensures Summary(log).recorder == Summary(log[..|log| - 1]).recorder
  {
  }

  /** `handleDisconnect` leaves a complete stream, a record that agrees with it, and the outcome. */
  lemma SettleReturns(setup: Setup, s: Call, code: int32, reason: string, bill: uint32, t: Tick)
    requires ClosingInv(setup, s, Summary(s.log), code, reason)
    requires s.connectedMs > 0 ==> s.connectedMs <= s.markMs && bill == BillSeconds(s.connectedMs, s.markMs)
    requires s.connectedMs == 0 ==> bill == 0
    ensures var r := Settle(setup, s, code, reason, bill);
            && r.pc == Returned && ReturnedInv(setup, r, Summary(r.log), t)
            && r.connectedMs == s.connectedMs && Summary(r.log).callStart == Summary(s.log).callStart
            && r.detector == s.detector
  {
    hide Summary, BillSeconds, AnswerTimedOut, Setup.RecPath, Setup.CallId, Ending, EndsWith, Settle;
    hide SipCodeToCallStatus;
    SettleLog(setup, s, code, reason, bill, Summary(s.log).line.ev);
    SettleStage(setup, s, code, reason, bill);
    SettleRecord(setup, s, code, reason, bill);
  }

  lemma SettleRecord(setup: Setup, s: Call, code: int32, reason: string, bill: uint32)
    ensures var r, d := Settle(setup, s, code, reason, bill), Summary(s.log);
            && r == s.(result := r.result, log := r.log, pc := Returned)
            && r.result == s.result.(status := r.result.status, sipCode := code, reason := reason, billingSeconds := bill)
            && r.result.status == (if s.connectedMs > 0 then ANSWERED else SipCodeToCallStatus(code))
            && Summary(r.log).line == d.line && Summary(r.log).callStart == d.callStart
            && Summary(r.log).recorder == Stopped
  {
    hide Summary, Setup.CallId, Act, Delta, SipCodeToCallStatus;
  }

  lemma SettleStage(setup: Setup, s: Call, code: int32, reason: string, bill: uint32)
    requires ClosingInv(setup, s, Summary(s.log), code, reason)
    requires s.connectedMs == 0 ==> bill == 0
    ensures var r := Settle(setup, s, code, reason, bill);
            Summary(r.log).stage == Ended(r.result.(callId := setup.CallId(), isResult := true))
  {
    hide Summary, AnswerTimedOut, Setup.RecPath, Setup.CallId, Setup.SilenceLevel, Setup.SilenceMs, Act, JustTook;
    hide HangupArgs;
  }

  lemma DisconnectKeeps(setup: Setup, s: Call, code: int32, reason: string, t: Tick)
    requires ClosingInv(setup, s, Summary(s.log), code, reason)
    requires 1 <= t.now < CLOCK_LIMIT && s.connectedMs <= t.now && Summary(s.log).callStart == s.connectedMs
    requires s.detector.threshold == setup.SilenceLevel() && s.detector.timeoutMs == setup.SilenceMs()
    ensures Inv(setup, Disconnect(setup, s, code, reason), t)
  {
    hide Summary, ReturnedInv, RegInv, DialInv, PlayInv, ListenInv, Settle, Setup.RecPath, Setup.CallId;
    hide Setup.SilenceLevel, Setup.SilenceMs;
    if s.connectedMs == 0 {
      SettleReturns(setup, s, code, reason, 0, t);
    }
  }

  lemma FailKeeps(setup: Setup, s: Call, callId: string, code: int32, reason: string, t: Tick)
    requires Summary(s.log).stage == Start || Summary(s.log).stage == Registering
    requires Summary(s.log).line == NotDialled && Summary(s.log).callStart == s.connectedMs == 0
             && !s.answered && !s.timeoutHit
    requires s.result == Blank(FAILED, "") && 1 <= t.now < CLOCK_LIMIT
    requires s.detector.threshold == setup.SilenceLevel() && s.detector.timeoutMs == setup.SilenceMs()
    ensures Inv(setup, Fail(s, callId, code, reason), t)
  {
    hide Summary, RegInv, DialInv, PlayInv, ListenInv, ClosingInv;
  }

  lemma InitKeeps(setup: Setup, s: Call, t: Tick, u: Tick)
    requires Inv(setup, s, t) && Follows(t, u) && s.pc.RegInit?
    ensures Inv(setup, Init(setup, s), u)
  {
    hide Summary, Act, Setup.RecPath, Setup.CallId, Setup.SilenceLevel, Setup.SilenceMs, InitFailed, DialInv;
    hide PlayInv, ListenInv, ClosingInv, ReturnedInv, Fail;
    if !setup.initOk {
      FailKeeps(setup, s, "", 0, InitFailed(), u);
    }
  }

  lemma RegTakeKeeps(setup: Setup, s: Call, t: Tick, u: Tick, ev: InternalEvent)
    requires Inv(setup, s, t) && Follows(t, u) && s.pc.RegWait?
    ensures Inv(setup, RegTake(setup, s, ev), u)
  {
    hide Summary, Act, Setup.RecPath, Setup.CallId, Setup.SilenceLevel, Setup.SilenceMs;
    hide RegInv, DialInv, PlayInv, ListenInv, ClosingInv, ReturnedInv, Fail, EmitState;
    if ev.RegState? && !ev.connected {
      RegFailKeeps(setup, s, t, u, ev);
    } else if ev.RegState? {
      RegisteredKeeps(setup, s, t, u, ev);
    } else {
      RegIgnoreKeeps(setup, s, t, u, ev);
    }
  }

  lemma RegFailKeeps(setup: Setup, s: Call, t: Tick, u: Tick, ev: InternalEvent)
    requires Inv(setup, s, t) && Follows(t, u) && s.pc.RegWait? && ev.RegState?
    ensures Inv(setup, Fail(Act(s, Took(ev)), setup.CallId(), ev.code, ev.why), u)
  {
    hide Summary, Act, Setup.RecPath, Setup.CallId, Setup.SilenceLevel, Setup.SilenceMs, DialInv, PlayInv;
    hide ListenInv, ClosingInv, ReturnedInv, Fail;
    FailKeeps(setup, Act(s, Took(ev)), setup.CallId(), ev.code, ev.why, u);
  }

  lemma RegisteredKeeps(setup: Setup, s: Call, t: Tick, u: Tick, ev: InternalEvent)
    requires Inv(setup, s, t) && Follows(t, u) && s.pc.RegWait?
    ensures Inv(setup, EmitState(setup, Act(s, Took(ev)), REGISTERED).(pc := RegExit), u)
  {
    hide Summary, Act, Setup.RecPath, Setup.CallId, Setup.SilenceLevel, Setup.SilenceMs, DialInv, PlayInv;
    hide ListenInv, ClosingInv, ReturnedInv;
  }

  lemma RegIgnoreKeeps(setup: Setup, s: Call, t: Tick, u: Tick, ev: InternalEvent)
    requires Inv(setup, s, t) && Follows(t, u) && s.pc.RegWait?
    ensures Inv(setup, Act(s, Took(ev)).(pc := RegLoop), u)
  {
    hide Summary, Act, Setup.RecPath, Setup.CallId, Setup.SilenceLevel, Setup.SilenceMs, DialInv, PlayInv;
    hide ListenInv, ClosingInv, ReturnedInv;
  }

  lemma RegClockKeeps(setup: Setup, s: Call, t: Tick, u: Tick)
    requires Inv(setup, s, t) && Follows(t, u) && s.pc.RegClock?
    ensures Inv(setup, CheckRegClock(setup, s, u.now), u)
  {
    hide Summary, Act, Setup.RecPath, Setup.CallId, Setup.SilenceLevel, Setup.SilenceMs, RegTimedOut, DialInv;
    hide PlayInv, ListenInv, ClosingInv, ReturnedInv, Fail;
    if Sub64(u.now, s.regStart) >= REG_TIMEOUT_MS {
      FailKeeps(setup, s, setup.CallId(), 0, RegTimedOut(), u);
    }
  }

  lemma CancelEarlyKeeps(setup: Setup, s: Call, t: Tick, u: Tick)
    requires Inv(setup, s, t) && Follows(t, u) && s.pc.RegExit? && u.cancelled
    ensures Inv(setup, CancelEarly(s), u)
  {
    hide Summary, Act, Setup.RecPath, Setup.CallId, Setup.SilenceLevel, Setup.SilenceMs, CancelledEarly;
    hide DialInv, PlayInv, ListenInv, ClosingInv, OutcomeInv;
  }

  lemma DialStartKeeps(setup: Setup, s: Call, t: Tick, u: Tick)
    requires Inv(setup, s, t) && Follows(t, u) && s.pc.RegExit? && !u.cancelled
    ensures Inv(setup, Dial(setup, s), u)
  {
    hide Summary, Act, Setup.RecPath, Setup.CallId, Setup.SilenceLevel, Setup.SilenceMs, PlayInv, ListenInv;
    hide ClosingInv, ReturnedInv;
  }

  lemma RegMoves(setup: Setup, s: Call, t: Tick, u: Tick, r: Call)
    requires Inv(setup, s, t) && Follows(t, u) && (s.pc.RegStarted? || s.pc.RegLoop? || s.pc.RegWait?)
    requires r == s.(pc := r.pc, regStart := r.regStart, markMs := r.markMs)
    requires r.pc.RegLoop? || r.pc.RegWait? || r.pc.RegClock? || (r.pc.RegExit? && u.cancelled)
    ensures Inv(setup, r, u)
  {
    hide Summary, Act, Setup.RecPath, Setup.CallId, Setup.SilenceLevel, Setup.SilenceMs, DialInv, PlayInv;
    hide ListenInv, ClosingInv, ReturnedInv;
  }

  lemma RegKeeps(setup: Setup, s: Call, t: Tick, u: Tick)
    requires Inv(setup, s, t) && Follows(t, u) && InReg(s.pc)
    ensures Inv(setup, NextReg(setup, s, u), u)
  {
    hide Inv, Init, RegTake, CheckRegClock, CancelEarly, Dial;
    if s.pc.RegInit? {
      InitKeeps(setup, s, t, u);
    } else if s.pc.RegWait? && u.event.Some? {
      RegTakeKeeps(setup, s, t, u, u.event.value);
    } else if s.pc.RegClock? {
      RegClockKeeps(setup, s, t, u);
    } else if s.pc.RegExit? && u.cancelled {
      CancelEarlyKeeps(setup, s, t, u);
    } else if s.pc.RegExit? {
      DialStartKeeps(setup, s, t, u);
    } else {
      RegMoves(setup, s, t, u, NextReg(setup, s, u));
    }
  }

  lemma TimeoutKeeps(setup: Setup, s: Call, t: Tick, u: Tick)
    requires Inv(setup, s, t) && Follows(t, u) && s.pc.DialTimeout?
    ensures Inv(setup, CheckTimeout(s, u.now), u)
  {
    hide Summary, Act, Setup.RecPath, Setup.CallId, Setup.SilenceLevel, Setup.SilenceMs, RegInv, PlayInv;
    hide ListenInv, ClosingInv, ReturnedInv;
  }

  lemma SafetyNetKeeps(setup: Setup, s: Call, t: Tick, u: Tick)
    requires Inv(setup, s, t) && Follows(t, u) && s.pc.DialSafety?
    ensures Inv(setup, CheckSafetyNet(setup, s, u.now), u)
  {
    hide Summary, Act, Setup.RecPath, Setup.CallId, Setup.SilenceLevel, Setup.SilenceMs, AnswerTimedOut;
    hide RegInv, PlayInv, ListenInv, ClosingInv, Add64;
  }

  lemma DialDisconnectKeeps(setup: Setup, s: Call, t: Tick, u: Tick, ev: InternalEvent)
    requires Inv(setup, s, t) && Follows(t, u) && s.pc.DialWait? && IsDisconnect(ev)
    ensures Inv(setup, DialTake(setup, s, ev), u)
  {
    hide Summary, Setup.RecPath, Setup.CallId, Setup.SilenceLevel, Setup.SilenceMs, AnswerTimedOut;
    hide RegInv, PlayInv, ListenInv, ReturnedInv, Disconnect, EmitState, DialFoot;
    var s1 := Act(s, Took(ev));
    assert s1.log[..|s.log|] == s.log;
    if s.timeoutHit {
      DisconnectKeeps(setup, s1, 487, AnswerTimedOut(), u);
    } else {
      DisconnectKeeps(setup, s1, ev.code, ev.why, u);
    }
  }

  lemma RingingKeeps(setup: Setup, s: Call, t: Tick, u: Tick, ev: InternalEvent)
    requires Inv(setup, s, t) && Follows(t, u) && s.pc.DialWait? && IsState(ev, INV_STATE_EARLY)
    ensures Inv(setup, DialTake(setup, s, ev), u)
  {
    hide Summary, Act, Setup.RecPath, Setup.CallId, Setup.SilenceLevel, Setup.SilenceMs, AnswerTimedOut;
    hide RegInv, PlayInv, ListenInv, ReturnedInv, ClosingInv, Disconnect;
  }

  lemma PickUpKeeps(setup: Setup, s: Call, t: Tick, u: Tick, ev: InternalEvent)
    requires Inv(setup, s, t) && Follows(t, u) && s.pc.DialWait? && IsConfirm(ev)
    ensures Inv(setup, DialTake(setup, s, ev), u)
  {
    hide Summary, Act, Setup.RecPath, Setup.CallId, Setup.SilenceLevel, Setup.SilenceMs, AnswerTimedOut;
    hide RegInv, PlayInv, ListenInv, ReturnedInv, ClosingInv, Disconnect;
  }

  lemma DialIgnoreKeeps(setup: Setup, s: Call, t: Tick, u: Tick, ev: InternalEvent)
    requires Inv(setup, s, t) && Follows(t, u) && s.pc.DialWait? && !IsState(ev, INV_STATE_EARLY)
             && !IsConfirm(ev) && !IsDisconnect(ev)
    ensures Inv(setup, DialTake(setup, s, ev), u)
  {
    hide Summary, Act, Setup.RecPath, Setup.CallId, Setup.SilenceLevel, Setup.SilenceMs, AnswerTimedOut;
    hide RegInv, PlayInv, ListenInv, ReturnedInv, ClosingInv, Disconnect;
  }

  lemma ConfirmKeeps(setup: Setup, s: Call, t: Tick, u: Tick)
    requires Inv(setup, s, t) && Follows(t, u) && s.pc.DialConfirm?
    ensures Inv(setup, Confirm(setup, s, u.now), u)
  {
    hide Summary, Act, Setup.RecPath, Setup.CallId, Setup.SilenceLevel, Setup.SilenceMs, RegInv, PlayInv;
    hide ListenInv, ClosingInv, ReturnedInv;
  }

  lemma CancelByUserKeeps(setup: Setup, s: Call, t: Tick, u: Tick)
    requires Inv(setup, s, t) && Follows(t, u) && s.pc.DialExit? && u.cancelled
    ensures Inv(setup, CancelByUser(s), u)
  {
    hide Summary, Act, Setup.RecPath, Setup.CallId, Setup.SilenceLevel, Setup.SilenceMs, CancelledByUser;
    hide RegInv, PlayInv, ListenInv, ClosingInv, OutcomeInv;
  }

  lemma RecordingKeeps(setup: Setup, s: Call, t: Tick, u: Tick)
    requires Inv(setup, s, t) && Follows(t, u) && s.pc.DialExit? && !u.cancelled
    ensures Inv(setup, SetUpRecording(setup, s), u)
  {
    hide Summary, Act, Setup.RecPath, Setup.CallId, Setup.SilenceLevel, Setup.SilenceMs, RegInv, ListenInv;
    hide ClosingInv, ReturnedInv;
  }

  lemma DialMoves(setup: Setup, s: Call, t: Tick, u: Tick, r: Call)
    requires Inv(setup, s, t) && Follows(t, u) && (s.pc.DialClock? || s.pc.DialLoop? || s.pc.DialWait?)
    requires r == s.(pc := r.pc, deadline := r.deadline, markMs := r.markMs)
             || (s.pc.DialClock? && r == StartDeadline(setup, s, u.now))
    requires r.pc.DialLoop? || r.pc.DialTimeout? || r.pc.DialWait? || (r.pc.DialSafety? && s.timeoutHit)
             || (r.pc.DialExit? && u.cancelled)
    ensures Inv(setup, r, u)
  {
    hide Summary, Act, Setup.RecPath, Setup.CallId, Setup.SilenceLevel, Setup.SilenceMs, RegInv, PlayInv;
    hide ListenInv, ClosingInv, ReturnedInv;
  }

  lemma DialKeeps(setup: Setup, s: Call, t: Tick, u: Tick)
    requires Inv(setup, s, t) && Follows(t, u) && InDial(s.pc)
    ensures Inv(setup, NextDial(setup, s, u), u)
  {
    hide Inv, CheckTimeout, CheckSafetyNet, DialTake, Confirm, CancelByUser, SetUpRecording, Add64;
    if s.pc.DialTimeout? {
      TimeoutKeeps(setup, s, t, u);
    } else if s.pc.DialSafety? {
      SafetyNetKeeps(setup, s, t, u);
    } else if s.pc.DialWait? && u.event.Some? && IsDisconnect(u.event.value) {
      DialDisconnectKeeps(setup, s, t, u, u.event.value);
    } else if s.pc.DialWait? && u.event.Some? && IsState(u.event.value, INV_STATE_EARLY) {
      RingingKeeps(setup, s, t, u, u.event.value);
    } else if s.pc.DialWait? && u.event.Some? && IsConfirm(u.event.value) {
      PickUpKeeps(setup, s, t, u, u.event.value);
    } else if s.pc.DialWait? && u.event.Some? {
      DialIgnoreKeeps(setup, s, t, u, u.event.value);
    } else if s.pc.DialConfirm? {
      ConfirmKeeps(setup, s, t, u);
    } else if s.pc.DialExit? && u.cancelled {
      CancelByUserKeeps(setup, s, t, u);
    } else if s.pc.DialExit? {
      RecordingKeeps(setup, s, t, u);
    } else {
      DialMoves(setup, s, t, u, NextDial(setup, s, u));
    }
  }

  /** The four waits after Step 4 that end the run on a DISCONNECTED, and where they go otherwise. */
  ghost predicate WaitsFor(pc: Pc, other: Pc, event: Option<InternalEvent>) {
    || (pc.DrainWait? && other.DrainLoop?)
    || (pc.PlayWait? && other.PlayLoop? && event.Some?)
    || (pc.SilWait? && other.SilLevel?)
    || (pc.EndWait? && other.EndLoop?)
  }

  lemma HungUpKeeps(setup: Setup, s: Call, t: Tick, u: Tick, ev: InternalEvent)
    requires Inv(setup, s, t) && Follows(t, u) && IsDisconnect(ev)
    requires s.pc.DrainWait? || s.pc.PlayWait? || s.pc.SilWait? || s.pc.EndWait?
    ensures Inv(setup, Disconnect(setup, Act(s, Took(ev)), ev.code, ev.why), u)
  {
    hide Summary, Setup.RecPath, Setup.CallId, Setup.SilenceLevel, Setup.SilenceMs;
    hide RegInv, DialInv, OutcomeInv, ReturnedInv, Disconnect, Replay, EndsSilent;
    assert Act(s, Took(ev)).log[..|s.log|] == s.log;
    DisconnectKeeps(setup, Act(s, Took(ev)), ev.code, ev.why, u);
  }

  lemma WaitMoves(setup: Setup, s: Call, t: Tick, u: Tick, other: Pc)
    requires Inv(setup, s, t) && Follows(t, u) && WaitsFor(s.pc, other, u.event)
    ensures Inv(setup, s.(pc := other), u)
    ensures forall ev: InternalEvent :: !IsDisconnect(ev) ==> Inv(setup, Act(s, Took(ev)).(pc := other), u)
  {
    hide Summary, Act, Setup.RecPath, Setup.CallId, Setup.SilenceLevel, Setup.SilenceMs;
    hide RegInv, DialInv, ReturnedInv, ClosingInv, Replay, EndsSilent;
  }

  lemma TakeKeeps(setup: Setup, s: Call, t: Tick, u: Tick, other: Pc)
    requires Inv(setup, s, t) && Follows(t, u) && WaitsFor(s.pc, other, u.event)
    ensures Inv(setup, TakeOrDisconnect(setup, s, u.event, other), u)
  {
    hide Inv, Disconnect, Act;
    WaitMoves(setup, s, t, u, other);
    if u.event.Some? && IsDisconnect(u.event.value) {
      HungUpKeeps(setup, s, t, u, u.event.value);
    }
  }

  lemma HangUpKeeps(setup: Setup, s: Call, t: Tick, u: Tick)
    requires Inv(setup, s, t) && Follows(t, u) && (s.pc.DelayExit? || s.pc.PlayExit?) && u.cancelled
    ensures Inv(setup, HangUpCancelled(s), u)
  {
    hide Summary, Act, Setup.RecPath, Setup.CallId, Setup.SilenceLevel, Setup.SilenceMs, RegInv, DialInv;
    hide ListenInv, ClosingInv, OutcomeInv;
  }

  lemma PlayingKeeps(setup: Setup, s: Call, t: Tick, u: Tick)
    requires Inv(setup, s, t) && Follows(t, u) && s.pc.DelayExit? && !u.cancelled
    ensures Inv(setup, EmitState(setup, s, PLAYING).(pc := PlayClock), u)
  {
    hide Summary, Act, Setup.RecPath, Setup.CallId, Setup.SilenceLevel, Setup.SilenceMs, RegInv, DialInv;
    hide ListenInv, ClosingInv, ReturnedInv;
  }

  lemma PlaybackKeeps(setup: Setup, s: Call, t: Tick, u: Tick)
    requires Inv(setup, s, t) && Follows(t, u) && s.pc.PlayClock?
    ensures Inv(setup, StartPlayback(setup, s, u.now), u)
  {
    hide Summary, Act, Setup.RecPath, Setup.CallId, Setup.SilenceLevel, Setup.SilenceMs, RegInv, DialInv;
    hide ListenInv, ClosingInv, ReturnedInv, Setup.PlayPath;
  }

  lemma PlayedKeeps(setup: Setup, s: Call, t: Tick, u: Tick)
    requires Inv(setup, s, t) && Follows(t, u) && s.pc.PlayWait?
    ensures Inv(setup, FinishPlayback(setup, s), u)
  {
    hide Summary, Act, Setup.RecPath, Setup.CallId, Setup.SilenceLevel, Setup.SilenceMs, RegInv, DialInv;
    hide ListenInv, ClosingInv, ReturnedInv;
  }

  lemma CapKeeps(setup: Setup, s: Call, t: Tick, u: Tick)
    requires Inv(setup, s, t) && Follows(t, u) && s.pc.PlayCap?
    ensures Inv(setup, CheckCap(s, u.now), u)
  {
    hide Summary, Act, Setup.RecPath, Setup.CallId, Setup.SilenceLevel, Setup.SilenceMs, RegInv, DialInv;
    hide ListenInv, ClosingInv, ReturnedInv, Sub64;
  }

  lemma ListeningKeeps(setup: Setup, s: Call, t: Tick, u: Tick)
    requires Inv(setup, s, t) && Follows(t, u) && s.pc.PlayExit? && !u.cancelled
    ensures Inv(setup, StartListening(setup, s, u.now), u)
  {
    hide Summary, Act, Setup.RecPath, Setup.CallId, Setup.SilenceLevel, Setup.SilenceMs, RegInv, DialInv;
    hide ClosingInv, ReturnedInv, EndsSilent;
  }

  lemma PlayMoves(setup: Setup, s: Call, t: Tick, u: Tick, pc: Pc)
    requires Inv(setup, s, t) && Follows(t, u)
    requires s.pc.DelayClock? || s.pc.DelayLoop? || s.pc.DelaySleep? || s.pc.PlayLoop? || s.pc.PlayWait? || s.pc.DrainLoop?
    requires s.pc.DelayClock? || s.pc.DelayLoop? || s.pc.DelaySleep?
             <==> pc.DelayClock? || pc.DelayLoop? || pc.DelaySleep? || pc.DelayExit?
    requires s.pc.PlayLoop? || s.pc.PlayWait? ==>
               (pc.PlayExit? && u.cancelled) || pc.PlayLoop? || pc.PlayWait? || pc.PlayCap?
    requires s.pc.DrainLoop? ==> (pc.PlayExit? && u.cancelled) || pc.DrainWait?
    ensures Inv(setup, s.(pc := pc), u)
  {
    hide Summary, Act, Setup.RecPath, Setup.CallId, Setup.SilenceLevel, Setup.SilenceMs, RegInv, DialInv;
    hide ListenInv, ClosingInv, ReturnedInv;
  }

  lemma PlayKeeps(setup: Setup, s: Call, t: Tick, u: Tick)
    requires Inv(setup, s, t) && Follows(t, u) && InPlay(s.pc)
    ensures Inv(setup, NextPlay(setup, s, u), u)
  {
    hide Inv, TakeOrDisconnect, HangUpCancelled, EmitState, StartPlayback, FinishPlayback, CheckCap;
    hide StartListening, Add64;
    if s.pc.PlayWait? && u.event.Some? && u.event.value.PlaybackEof? {
      PlayedKeeps(setup, s, t, u);
    } else if s.pc.PlayWait? && u.event.Some? {
      TakeKeeps(setup, s, t, u, PlayLoop);
    } else if s.pc.DrainWait? {
      TakeKeeps(setup, s, t, u, DrainLoop);
    } else if (s.pc.DelayExit? || s.pc.PlayExit?) && u.cancelled {
      HangUpKeeps(setup, s, t, u);
    } else if s.pc.DelayExit? {
      PlayingKeeps(setup, s, t, u);
    } else if s.pc.PlayClock? {
      PlaybackKeeps(setup, s, t, u);
    } else if s.pc.PlayCap? {
      CapKeeps(setup, s, t, u);
    } else if s.pc.PlayExit? {
      ListeningKeeps(setup, s, t, u);
    } else {
      PlayMoves(setup, s, t, u, NextPlay(setup, s, u).pc);
    }
  }

  lemma FeedKeeps(setup: Setup, s: Call, t: Tick, u: Tick)
    requires Inv(setup, s, t) && Follows(t, u) && s.pc.SilFeed?
    ensures Inv(setup, FeedDetector(s, u.now), u)
  {
    hide Summary, Act, Setup.RecPath, Setup.CallId, Setup.SilenceLevel, Setup.SilenceMs, RegInv, DialInv;
    hide PlayInv, OutcomeInv, ReturnedInv, ClosingInv;
    hide Replay, EndsSilent, SilentBefore, Ordered, Feed;
    var polls, x := Summary(s.log).polls, Sample(s.level, u.now);
    OrderedSnoc(polls, x);
    ReplaySnoc(setup.SilenceLevel(), setup.SilenceMs(), polls, x);
    FeedFiresExactlyOnFirstSilence(setup.SilenceLevel(), setup.SilenceMs(), polls, x);
  }

  lemma SilenceKeeps(setup: Setup, s: Call, t: Tick, u: Tick)
    requires Inv(setup, s, t) && Follows(t, u) && s.pc.SilCap?
    ensures Inv(setup, CheckSilence(s, u.now), u)
  {
    hide Summary, Act, Setup.RecPath, Setup.CallId, Setup.SilenceLevel, Setup.SilenceMs, RegInv, DialInv;
    hide PlayInv, ClosingInv, Replay, EndsSilent, Ordered, ReturnedInv;
  }

  lemma StopListeningKeeps(setup: Setup, s: Call, t: Tick, u: Tick)
    requires Inv(setup, s, t) && Follows(t, u) && (s.pc.SilExit? || s.pc.EndLoop?) && u.cancelled
    ensures Inv(setup, ReturnCancelled(s), u)
  {
    hide Summary, Act, Setup.RecPath, Setup.CallId, Setup.SilenceLevel, Setup.SilenceMs, RegInv, DialInv;
    hide PlayInv, ClosingInv, Replay, EndsSilent, Ordered, OutcomeInv;
  }

  lemma HangUpOnSilenceDigest(setup: Setup, s: Call)
    requires Summary(s.log).stage == Played
    ensures var r, d := HangUpOnSilence(setup, s), Summary(s.log);
            && r == s.(log := r.log, pc := EndLoop)
            && Summary(r.log) == d.(emitted := Summary(r.log).emitted, stage := HangingUp, hungUp := true)
  {
    hide Summary, Act, Setup.CallId;
  }

  lemma HangUpOnSilenceKeeps(setup: Setup, s: Call, t: Tick, u: Tick)
    requires Inv(setup, s, t) && Follows(t, u) && s.pc.SilExit? && !u.cancelled
    ensures Inv(setup, HangUpOnSilence(setup, s), u)
  {
    hide Summary, Setup.RecPath, Setup.SilenceLevel, Setup.SilenceMs, HangUpOnSilence;
    hide RegInv, DialInv, PlayInv, ClosingInv, Replay, EndsSilent, Ordered, ReturnedInv;
    HangUpOnSilenceDigest(setup, s);
  }

  lemma ListenMoves(setup: Setup, s: Call, t: Tick, u: Tick, r: Call)
    requires Inv(setup, s, t) && Follows(t, u) && (s.pc.SilLoop? || s.pc.SilLevel? || s.pc.EndLoop?)
    requires r == s.(pc := r.pc, level := r.level)
    requires if s.pc.EndLoop? then r.pc.EndWait? else r.pc.SilWait? || r.pc.SilFeed? || (r.pc.SilExit? && u.cancelled)
    ensures Inv(setup, r, u)
  {
    hide Summary, Act, Setup.RecPath, Setup.CallId, Setup.SilenceLevel, Setup.SilenceMs, RegInv, DialInv;
    hide PlayInv, ClosingInv, Replay, EndsSilent, Ordered, ReturnedInv;
  }

  lemma ListenKeeps(setup: Setup, s: Call, t: Tick, u: Tick)
    requires Inv(setup, s, t) && Follows(t, u) && InListen(s.pc)
    ensures Inv(setup, NextEnd(setup, s, u), u)
  {
    hide Inv, TakeOrDisconnect, FeedDetector, CheckSilence, ReturnCancelled, HangUpOnSilence;
    if s.pc.SilWait? {
      TakeKeeps(setup, s, t, u, SilLevel);
    } else if s.pc.EndWait? {
      TakeKeeps(setup, s, t, u, EndLoop);
    } else if s.pc.SilFeed? {
      FeedKeeps(setup, s, t, u);
    } else if s.pc.SilCap? {
      SilenceKeeps(setup, s, t, u);
    } else if (s.pc.SilExit? || s.pc.EndLoop?) && u.cancelled {
      StopListeningKeeps(setup, s, t, u);
    } else if s.pc.SilExit? {
      HangUpOnSilenceKeeps(setup, s, t, u);
    } else {
      ListenMoves(setup, s, t, u, NextEnd(setup, s, u));
    }
  }

  lemma BillKeeps(setup: Setup, s: Call, t: Tick, u: Tick)
    requires Inv(setup, s, t) && Follows(t, u) && s.pc.Bill?
    ensures Inv(setup, NextEnd(setup, s, u), u)
  {
    hide Summary, RegInv, DialInv, PlayInv, ListenInv, ReturnedInv, Settle, BillSeconds;
    var s1 := s.(markMs := u.now);
    assert ClosingInv(setup, s1, Summary(s1.log), s.hangupCode, s.hangupReason);
    SettleReturns(setup, s1, s.hangupCode, s.hangupReason, BillSeconds(s.connectedMs, u.now), u);
  }

  lemma ReturnedKeeps(setup: Setup, s: Call, t: Tick, u: Tick)
    requires Inv(setup, s, t) && Follows(t, u) && s.pc.Returned?
    ensures Inv(setup, NextEnd(setup, s, u), u)
  {
    hide Summary, RegInv, DialInv, PlayInv, ListenInv, OutcomeInv;
  }

  lemma NextKeeps(setup: Setup, s: Call, t: Tick, u: Tick)
    requires Inv(setup, s, t) && Follows(t, u)
    ensures Inv(setup, Next(setup, s, u), u)
  {
    hide Inv, NextReg, NextDial, NextPlay, NextEnd;
    if InReg(s.pc) {
      RegKeeps(setup, s, t, u);
    } else if InDial(s.pc) {
      DialKeeps(setup, s, t, u);
    } else if InPlay(s.pc) {
      PlayKeeps(setup, s, t, u);
    } else if InListen(s.pc) {
      ListenKeeps(setup, s, t, u);
    } else if s.pc.Bill? {
      BillKeeps(setup, s, t, u);
    } else {
      ReturnedKeeps(setup, s, t, u);
    }
  }

  /** Every point of every legal run satisfies the invariant. */
  lemma {:induction false} InvHolds(setup: Setup, ts: seq<Tick>)
    requires Legal(ts)
    ensures Inv(setup, Exec(setup, ts), LastTick(ts))
  {
    if ts != [] {
      hide Inv, Next;
      var p := ts[..|ts| - 1];
      InvHolds(setup, p);
      NextKeeps(setup, Exec(setup, p), LastTick(p), ts[|ts| - 1]);
    }
  }
}
