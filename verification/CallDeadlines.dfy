/** Deadlines, for runs whose clock is punctual: a wait takes at most its timeout, and exactly
    that when it brings nothing and nobody cancels; a sleep takes what it asks for;
    everything else takes no time. */
module CallDeadlines {
  import opened MachineInts
  import opened Events
  import opened Silence
  import opened CallMachine
  import opened CallInvariant
  import opened CallCancellation

  /** The read at `pc` took the time from `t` to `u`. `SipAgent::init` may take any time,
      and only registration events arrive before the call is placed. */
  predicate PunctualStep(pc: Pc, t: Tick, u: Tick) {
    && (Asks(pc).AskEvent? ==>
          && u.now - t.now <= Asks(pc).timeoutMs
          && (u.event.None? && !u.cancelled ==> u.now - t.now == Asks(pc).timeoutMs))
    && (Asks(pc).AskSleep? ==> u.now - t.now == Asks(pc).ms)
    && (!Blocks(pc) && pc != RegInit ==> u.now == t.now)
    && (pc == RegWait && u.event.Some? ==> u.event.value.RegState?)
  }

  predicate Punctual(setup: Setup, ts: seq<Tick>) {
    ts == [] ||
    var p := ts[..|ts| - 1];
    Punctual(setup, p) && PunctualStep(Exec(setup, p).pc, LastTick(p), ts[|ts| - 1])
  }

  function Max(a: int, b: int): int {
    if a < b then b else a
  }

  /** When the loop that `s` is in is due to end because the call has lasted 600 s. */
  function CapDue(s: Call): int {
    Max(s.markMs, s.connectedMs + MAX_CALL_MS)
  }

  // ---- Where the clock can be ----------------------------------------------------------

  ghost predicate RegTime(s: Call, now: uint64) {
    && (s.pc.RegLoop? || s.pc.RegWait? || s.pc.RegClock? || s.pc.RegExit? ==> s.regStart <= now < s.regStart + 15500)
    && (s.pc.RegLoop? || s.pc.RegWait? ==> now < s.regStart + 15000)
  }

  ghost predicate DialTime(setup: Setup, s: Call, now: uint64) {
    && (s.pc.DialClock? ==> now < s.regStart + 15500)
    && (InDial(s.pc) && !s.pc.DialClock? ==>
      && s.markMs < s.regStart + 15500
      && s.deadline == s.markMs + setup.config.answerTimeoutS * 1000 < CLOCK_LIMIT + CLOCK_LIMIT && s.markMs <= now
      && (!s.answered ==>
            && now < s.deadline + 10500
            && (!s.timeoutHit ==> now < s.deadline + 500)
            && (s.pc.DialWait? && s.timeoutHit ==> now < s.deadline + 10000)
            && (s.pc.DialWait? && !s.timeoutHit ==> now < s.deadline)))
  }

  ghost predicate ListenTime(s: Call, now: uint64) {
    && (s.pc.SilLoop? || s.pc.SilWait? ==> now <= CapDue(s))
    && (s.pc.SilLevel? || s.pc.SilFeed? || s.pc.SilCap? || s.pc.SilExit? ==> now <= CapDue(s) + 100)
  }

  ghost predicate OnTime(setup: Setup, s: Call, now: uint64) {
    RegTime(s, now) && DialTime(setup, s, now) && ListenTime(s, now)
  }

  // ---- Preservation ------------------------------------------------------------------

  lemma RegTakeShape(setup: Setup, s: Call, ev: InternalEvent)
    ensures var r := RegTake(setup, s, ev);
            && r.regStart == s.regStart
            && if ev.RegState? then r.pc.RegExit? || r.pc.Returned? else r.pc.RegLoop?
  {
    hide Summary, Act, Absorb, Setup.CallId;
  }

  lemma DialTakeShape(setup: Setup, s: Call, ev: InternalEvent)
    ensures var r := DialTake(setup, s, ev);
            && r.deadline == s.deadline && r.markMs == s.markMs && r.timeoutHit == s.timeoutHit && r.regStart == s.regStart
            && r.answered == (s.answered || IsConfirm(ev))
            && (|| r.pc.DialLoop? || (r.pc.DialExit? && r.answered) || (r.pc.DialConfirm? && r.answered)
                || r.pc.Bill? || r.pc.Returned?)
  {
    hide Summary, Act, Absorb, Setup.CallId, AnswerTimedOut, Settle;
    SettleShape(setup, Act(s, Took(ev)), 487, AnswerTimedOut(), 0);
    if IsDisconnect(ev) {
      SettleShape(setup, Act(s, Took(ev)), ev.code, ev.why, 0);
    }
  }

  lemma SettleShape(setup: Setup, s: Call, code: int32, reason: string, bill: uint32)
    ensures var r := Settle(setup, s, code, reason, bill);
            && r.pc.Returned? && r.deadline == s.deadline && r.regStart == s.regStart
            && r.markMs == s.markMs && r.timeoutHit == s.timeoutHit
            && r.answered == s.answered && r.connectedMs == s.connectedMs
  {
    hide Summary, Act, Absorb, Setup.CallId, SipCodeToCallStatus;
  }

  lemma TakeShape(setup: Setup, s: Call, event: Option<InternalEvent>, other: Pc)
    ensures var r := TakeOrDisconnect(setup, s, event, other);
            && (r.pc == other || (event.Some? && r.pc.Bill?) || r.pc.Returned?)
            && (r.pc == other && other != Bill && other != Returned ==>
                  && r.markMs == s.markMs && r.connectedMs == s.connectedMs
                  && Taken(r) == Taken(s) + if event.Some? then 1 else 0)
  {
    hide Summary, Act, Absorb, Disconnect, Taken;
    if event.None? {
      SameLog(s, s.(pc := other));
    } else {
      var s1 := Act(s, Took(event.value));
      OneMoreTaken(s, event.value);
      SameLog(s1, s1.(pc := other));
      if IsDisconnect(event.value) {
        DisconnectShape(setup, s1, event.value.code, event.value.why);
      }
    }
  }

  lemma OneMoreTaken(s: Call, ev: InternalEvent)
    ensures Taken(Act(s, Took(ev))) == Taken(s) + 1
  {
    hide Summary;
  }

  lemma DisconnectShape(setup: Setup, s: Call, code: int32, reason: string)
    ensures Disconnect(setup, s, code, reason).pc.Bill? || Disconnect(setup, s, code, reason).pc.Returned?
  {
    hide Settle;
    SettleShape(setup, s, code, reason, 0);
  }

  /** Most points say nothing about the clock. */
  lemma ElsewhereOnTime(setup: Setup, s: Call, now: uint64)
    requires s.pc.Returned? || s.pc.Bill? || s.pc.RegInit? || s.pc.RegStarted? || InPlay(s.pc)
             || s.pc.EndLoop? || s.pc.EndWait?
    ensures OnTime(setup, s, now)
  {
    hide CapDue;
  }

  lemma FailShape(s: Call, callId: string, code: int32, reason: string)
    ensures Fail(s, callId, code, reason).pc.Returned?
  {
    hide Summary, Act;
  }

  /** Within registration only the clock and the program point matter. */
  lemma RegMovesOnTime(setup: Setup, r: Call, now: uint64)
    requires InReg(r.pc) && RegTime(r, now)
    ensures OnTime(setup, r, now)
  {
    hide CapDue;
  }

  lemma RegOnTime(setup: Setup, s: Call, t: Tick, u: Tick)
    requires s.pc.RegStarted? || s.pc.RegLoop? || s.pc.RegWait? || s.pc.RegClock?
    requires RegTime(s, t.now) && Follows(t, u) && PunctualStep(s.pc, t, u)
    ensures OnTime(setup, Next(setup, s, u), u.now)
  {
    hide Asks, Next, RegTake, Fail, Summary, Setup.CallId, RegTimedOut, OnTime;
    AsksForClock();
    AsksForFlag();
    AsksForEvent();
    NextInReg(setup, s, u);
    var r := Next(setup, s, u);
    if s.pc.RegWait? && u.event.Some? {
      RegTakeShape(setup, s, u.event.value);
    }
    FailShape(s, setup.CallId(), 0, RegTimedOut());
    if r.pc.Returned? {
      ElsewhereOnTime(setup, r, u.now);
    } else {
      RegMovesOnTime(setup, r, u.now);
    }
  }

  lemma DialMovesOnTime(setup: Setup, r: Call, now: uint64)
    requires InDial(r.pc) && DialTime(setup, r, now)
    ensures OnTime(setup, r, now)
  {
    hide CapDue;
  }

  lemma DialWaitOnTime(setup: Setup, s: Call, t: Tick, u: Tick)
    requires s.pc.DialClock? || s.pc.DialLoop? || s.pc.DialWait?
    requires DialInv(s, Summary(s.log), t) && DialTime(setup, s, t.now)
    requires Follows(t, u) && PunctualStep(s.pc, t, u)
    ensures OnTime(setup, Next(setup, s, u), u.now)
  {
    hide Asks, Next, DialTake, Summary, OnTime;
    AsksForClock();
    AsksForFlag();
    AsksForEvent();
    NextInDial(setup, s, u);
    var r := Next(setup, s, u);
    if s.pc.DialWait? && u.event.Some? {
      DialTakeShape(setup, s, u.event.value);
    }
    if r.pc.Returned? || r.pc.Bill? {
      ElsewhereOnTime(setup, r, u.now);
    } else {
      DialMovesOnTime(setup, r, u.now);
    }
  }

  lemma DialClockOnTime(setup: Setup, s: Call, t: Tick, u: Tick)
    requires s.pc.DialTimeout? || s.pc.DialSafety? || s.pc.DialConfirm?
    requires DialInv(s, Summary(s.log), t) && DialTime(setup, s, t.now)
    requires Follows(t, u) && u.now == t.now
    ensures OnTime(setup, NextDial(setup, s, u), u.now)
  {
    hide Summary, Absorb, Act, Setup.CallId, AnswerTimedOut, OnTime, StartDeadline, DialTake, CancelByUser;
    hide SetUpRecording;
    var r := NextDial(setup, s, u);
    if r.pc.Returned? {
      ElsewhereOnTime(setup, r, u.now);
    } else {
      DialMovesOnTime(setup, r, u.now);
    }
  }

  lemma DialExitShape(setup: Setup, s: Call)
    ensures CancelByUser(s).pc.Returned?
    ensures SetUpRecording(setup, s).pc.Returned? || SetUpRecording(setup, s).pc.DelayClock?
  {
    hide Summary, Act;
  }

  lemma DelayOnTime(setup: Setup, s: Call, u: Tick)
    requires s.pc.DialExit? || s.pc.DelayClock? || s.pc.DelayLoop? || s.pc.DelaySleep? || s.pc.DelayExit?
    ensures OnTime(setup, Next(setup, s, u), u.now)
  {
    hide Next, Summary, OnTime, CancelByUser, SetUpRecording, HangUpCancelled, EmitState, Add64;
    NextInDelay(setup, s, u);
    DialExitShape(setup, s);
    PlayExitShape(setup, s);
    ElsewhereOnTime(setup, Next(setup, s, u), u.now);
  }

  lemma PlayExitShape(setup: Setup, s: Call)
    ensures HangUpCancelled(s).pc.Returned? && FinishPlayback(setup, s).pc.PlayExit?
    ensures EmitState(setup, s, PLAYING).(pc := PlayClock).pc.PlayClock?
  {
    hide Summary, Act, Setup.CallId;
  }

  lemma StartPlaybackShape(setup: Setup, s: Call, now: uint64)
    ensures var r := StartPlayback(setup, s, now);
            r.pc.PlayLoop? && r.markMs == now
  {
    hide Summary, Act, Setup.PlayPath;
  }

  lemma CheckCapShape(s: Call, now: uint64)
    ensures var r := CheckCap(s, now);
            if Sub64(now, s.connectedMs) >= MAX_CALL_MS then r.pc.DrainLoop? else r == s.(pc := PlayLoop)
  {
    hide Summary, Act, Sub64;
  }

  lemma PlayWaitOnTime(setup: Setup, s: Call, u: Tick)
    requires s.pc.PlayWait? || s.pc.DrainWait?
    ensures OnTime(setup, Next(setup, s, u), u.now)
  {
    hide Next, TakeOrDisconnect, Summary, OnTime, FinishPlayback, Taken;
    NextInPlay(setup, s, u);
    PlayExitShape(setup, s);
    TakeShape(setup, s, u.event, if s.pc.PlayWait? then PlayLoop else DrainLoop);
    ElsewhereOnTime(setup, Next(setup, s, u), u.now);
  }

  lemma PlayOnTime(setup: Setup, s: Call, u: Tick)
    requires s.pc.PlayClock? || s.pc.PlayLoop? || s.pc.PlayCap? || s.pc.DrainLoop?
    ensures OnTime(setup, Next(setup, s, u), u.now)
  {
    hide Next, TakeOrDisconnect, Summary, OnTime, StartPlayback, CheckCap, Sub64;
    NextInPlay(setup, s, u);
    StartPlaybackShape(setup, s, u.now);
    CheckCapShape(s, u.now);
    ElsewhereOnTime(setup, Next(setup, s, u), u.now);
  }

  lemma ListenMovesOnTime(setup: Setup, r: Call, now: uint64)
    requires InListen(r.pc) && ListenTime(r, now)
    ensures OnTime(setup, r, now)
  {
    hide CapDue;
  }

  lemma StartListeningShape(setup: Setup, s: Call, now: uint64)
    ensures var r := StartListening(setup, s, now);
            r.pc.Returned? || (r.pc.SilLoop? && r.markMs == now && r.connectedMs == s.connectedMs)
  {
    hide Act, Setup.SilenceLevel, Setup.SilenceMs, GivenUp, Arm, EnterLoop;
    var d := Arm(Detector(setup.SilenceLevel(), setup.SilenceMs(), 0, false, false));
    EnterLoopShape(Act(s.(detector := d, silent := false), ArmDetector), SilLoop, now);
  }

  lemma EnterLoopShape(s: Call, pc: Pc, now: uint64)
    ensures var r := EnterLoop(s, pc, now);
            r.pc == pc && r.markMs == now && r.connectedMs == s.connectedMs
  {
    hide Summary;
  }

  lemma FeedShape(s: Call, now: uint64)
    ensures var r := FeedDetector(s, now);
            r.pc.SilCap? && r.markMs == s.markMs && r.connectedMs == s.connectedMs
  {
    hide Summary, Act, Feed;
  }

  lemma ListenExitShape(setup: Setup, s: Call)
    ensures ReturnCancelled(s).pc.Returned? && HangUpOnSilence(setup, s).pc.EndLoop?
  {
    hide Summary, Act, Setup.CallId;
  }

  lemma ListenOnTime(setup: Setup, s: Call, t: Tick, u: Tick)
    requires s.pc.SilLoop? || s.pc.SilLevel? || s.pc.SilFeed? || s.pc.SilCap? || s.pc.SilExit? || s.pc.EndLoop?
    requires s.connectedMs <= t.now && ListenTime(s, t.now) && Follows(t, u) && u.now == t.now
    ensures OnTime(setup, Next(setup, s, u), u.now)
  {
    hide Asks, Next, FeedDetector, ReturnCancelled, HangUpOnSilence, Summary, OnTime;
    NextInEnd(setup, s, u);
    FeedShape(s, u.now);
    ListenExitShape(setup, s);
    var r := Next(setup, s, u);
    if InListen(r.pc) {
      ListenMovesOnTime(setup, r, u.now);
    } else {
      ElsewhereOnTime(setup, r, u.now);
    }
  }

  lemma ListenWaitOnTime(setup: Setup, s: Call, t: Tick, u: Tick)
    requires s.pc.SilWait? || s.pc.EndWait?
    requires ListenTime(s, t.now) && Follows(t, u) && u.now <= t.now + Asks(s.pc).timeoutMs
    ensures OnTime(setup, Next(setup, s, u), u.now)
  {
    hide Asks, Next, TakeOrDisconnect, Summary, OnTime, Taken;
    AsksForEvent();
    NextInEnd(setup, s, u);
    var other := if s.pc.SilWait? then SilLevel else EndLoop;
    TakeShape(setup, s, u.event, other);
    var r := Next(setup, s, u);
    if r.pc.SilLevel? {
      ListenMovesOnTime(setup, r, u.now);
    } else {
      ElsewhereOnTime(setup, r, u.now);
    }
  }

  lemma PlayExitOnTime(setup: Setup, s: Call, u: Tick)
    requires s.pc.PlayExit?
    ensures OnTime(setup, Next(setup, s, u), u.now)
  {
    hide Next, HangUpCancelled, StartListening, Summary, OnTime;
    NextInPlay(setup, s, u);
    PlayExitShape(setup, s);
    StartListeningShape(setup, s, u.now);
    var r := Next(setup, s, u);
    if InListen(r.pc) {
      ListenMovesOnTime(setup, r, u.now);
    } else {
      ElsewhereOnTime(setup, r, u.now);
    }
  }

  lemma RegExitOnTime(setup: Setup, s: Call, t: Tick, u: Tick)
    requires s.pc.RegInit? || s.pc.RegExit?
    requires RegTime(s, t.now) && (s.pc.RegExit? ==> u.now == t.now)
    ensures OnTime(setup, NextReg(setup, s, u), u.now)
  {
    hide Summary, Act, OnTime, RegTake, CheckRegClock, EnterLoop, Setup.CallId, InitFailed, CancelledEarly;
    var r := NextReg(setup, s, u);
    if r.pc.DialClock? {
      DialMovesOnTime(setup, r, u.now);
    } else {
      ElsewhereOnTime(setup, r, u.now);
    }
  }

  lemma NextOnTime(setup: Setup, s: Call, t: Tick, u: Tick)
    requires Inv(setup, s, t) && OnTime(setup, s, t.now) && Follows(t, u) && PunctualStep(s.pc, t, u)
    ensures OnTime(setup, Next(setup, s, u), u.now)
  {
    hide Asks, NextReg, NextDial, NextPlay, NextEnd, Summary, RegTime, DialTime, ListenTime;
    hide RegInv, DialInv, PlayInv, ListenInv, ClosingInv, ReturnedInv;
    AsksForClock();
    AsksForFlag();
    AsksForEvent();
    if s.pc.RegInit? || s.pc.RegExit? {
      RegExitOnTime(setup, s, t, u);
    } else if InReg(s.pc) {
      RegOnTime(setup, s, t, u);
    } else if s.pc.DialClock? || s.pc.DialLoop? || s.pc.DialWait? {
      DialWaitOnTime(setup, s, t, u);
    } else if s.pc.DialTimeout? || s.pc.DialSafety? || s.pc.DialConfirm? {
      DialClockOnTime(setup, s, t, u);
    } else if s.pc.DialExit? || s.pc.DelayClock? || s.pc.DelayLoop? || s.pc.DelaySleep? || s.pc.DelayExit? {
      DelayOnTime(setup, s, u);
    } else if s.pc.PlayExit? {
      PlayExitOnTime(setup, s, u);
    } else if s.pc.PlayWait? || s.pc.DrainWait? {
      PlayWaitOnTime(setup, s, u);
    } else if InPlay(s.pc) {
      PlayOnTime(setup, s, u);
    } else if s.pc.SilWait? || s.pc.EndWait? {
      ListenWaitOnTime(setup, s, t, u);
    } else if InListen(s.pc) {
      ListenOnTime(setup, s, t, u);
    } else {
      LastOnTime(setup, s, u);
    }
  }

  lemma LastOnTime(setup: Setup, s: Call, u: Tick)
    requires s.pc.Bill? || s.pc.Returned?
    ensures OnTime(setup, Next(setup, s, u), u.now)
  {
    hide NextReg, NextDial, NextPlay, Settle, Summary, OnTime, BillSeconds;
    SettleShape(setup, s.(markMs := u.now), s.hangupCode, s.hangupReason, BillSeconds(s.connectedMs, u.now));
    ElsewhereOnTime(setup, Next(setup, s, u), u.now);
  }

  lemma {:induction false} OnTimeHolds(setup: Setup, ts: seq<Tick>)
    requires Legal(ts) && Punctual(setup, ts)
    ensures OnTime(setup, Exec(setup, ts), LastTick(ts).now)
  {
    hide Inv, Next, PunctualStep, Summary;
    if ts == [] {
      ElsewhereOnTime(setup, Begin(setup), BEFORE.now);
    } else {
      hide OnTime;
      var p := ts[..|ts| - 1];
      OnTimeHolds(setup, p);
      InvHolds(setup, p);
      NextOnTime(setup, Exec(setup, p), LastTick(p), ts[|ts| - 1]);
    }
  }

  // ---- The deadlines -------------------------------------------------------------------

  /** Registration is over in under 15500 ms. */
  lemma RegistrationDeadline(setup: Setup, ts: seq<Tick>)
    requires Legal(ts) && Punctual(setup, ts)
    ensures var s := Exec(setup, ts);
            s.pc.RegLoop? || s.pc.RegWait? || s.pc.RegClock? || s.pc.RegExit? ==>
              LastTick(ts).now - s.regStart < 15500
  {
    hide Exec, DialTime, ListenTime, Summary;
    OnTimeHolds(setup, ts);
  }

  lemma UnansweredStep(setup: Setup, s: Call, t: Tick, u: Tick)
    requires InDial(s.pc) && !s.pc.DialClock? && !s.answered
    requires DialTime(setup, s, t.now) && Follows(t, u) && PunctualStep(s.pc, t, u)
    ensures u.now < s.deadline + 10500
  {
    hide Asks;
    AsksForClock();
    AsksForFlag();
    AsksForEvent();
  }

  /** A call that is not confirmed is off Step 4 in under the answer timeout and 10500 ms,
      counted from the clock read right after dialling, and in under 15500 ms more since the start
      of registration; `u` is the read that may end it. */
  lemma NoAnswerDeadline(setup: Setup, ts: seq<Tick>, u: Tick)
    requires Legal(ts + [u]) && Punctual(setup, ts + [u])
    requires InDial(Exec(setup, ts).pc) && Exec(setup, ts).pc != DialClock && !Exec(setup, ts).answered
    ensures u.now - Exec(setup, ts).markMs < setup.config.answerTimeoutS * 1000 + 10500
    ensures u.now - Exec(setup, ts).regStart < 15500 + setup.config.answerTimeoutS * 1000 + 10500
  {
    hide Exec, Inv, RegTime, DialTime, ListenTime, Summary, Asks, PunctualStep;
    ExecSnoc(setup, ts, u);
    assert (ts + [u])[..|ts|] == ts;
    OnTimeHolds(setup, ts);
    UnansweredStep(setup, Exec(setup, ts), LastTick(ts), u);
    DialBounds(setup, Exec(setup, ts), LastTick(ts).now);
  }

  lemma DialBounds(setup: Setup, s: Call, now: uint64)
    requires DialTime(setup, s, now) && InDial(s.pc) && !s.pc.DialClock?
    ensures s.deadline == s.markMs + setup.config.answerTimeoutS * 1000 && s.markMs < s.regStart + 15500
  {
  }

  /** The silence loop is left no later than 100 ms after the later of its start and the moment
      the call has lasted 600 s. */
  lemma SilenceLoopCap(setup: Setup, ts: seq<Tick>)
    requires Legal(ts) && Punctual(setup, ts)
    ensures var s := Exec(setup, ts);
            s.pc.SilLoop? || s.pc.SilWait? || s.pc.SilLevel? || s.pc.SilFeed? || s.pc.SilCap? || s.pc.SilExit? ==>
              LastTick(ts).now <= Max(s.markMs, s.connectedMs + MAX_CALL_MS) + 100
  {
    hide Exec, DialTime, RegTime, Summary;
    OnTimeHolds(setup, ts);
  }
}
