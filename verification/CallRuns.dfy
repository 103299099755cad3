/** Concrete runs, built read by read, whose clock is punctual: what the lemmas about surprises and
    missing deadlines start from. */
module CallRuns {
  import opened MachineInts
  import opened Events
  import opened Silence
  import opened CallMachine
  import opened CallInvariant
  import opened CallTheorems
  import opened CallCancellation
  import opened CallDeadlines

  // ---- Read by read -------------------------------------------------------------------------

  /** A run of the program on a punctual clock. */
  ghost predicate Real(setup: Setup, ts: seq<Tick>) {
    Legal(ts) && Punctual(setup, ts)
  }

  function At(now: uint64): Tick {
    Tick(now, false, None, 0)
  }

  function Bringing(now: uint64, ev: InternalEvent): Tick {
    Tick(now, false, Some(ev), 0)
  }

  function Cancelling(now: uint64): Tick {
    Tick(now, true, None, 0)
  }

  predicate IsWait(pc: Pc) {
    pc.RegWait? || pc.DialWait? || pc.PlayWait? || pc.DrainWait? || pc.SilWait? || pc.EndWait?
  }

  lemma Extend(setup: Setup, ts: seq<Tick>, u: Tick) returns (us: seq<Tick>)
    requires Real(setup, ts) && Follows(LastTick(ts), u) && PunctualStep(Exec(setup, ts).pc, LastTick(ts), u)
    ensures us == ts + [u] && Real(setup, us) && LastTick(us) == u
    ensures Exec(setup, us) == Next(setup, Exec(setup, ts), u)
  {
    hide Exec, Next, Follows, PunctualStep;
    us := ts + [u];
    ExecSnoc(setup, ts, u);
    assert us[..|ts|] == ts;
  }

  lemma Punctually(pc: Pc, t: Tick, u: Tick)
    requires t.now <= u.now
    ensures !IsWait(pc) && !pc.DelaySleep? && u.now == t.now ==> PunctualStep(pc, t, u)
    ensures IsWait(pc) && u.event.Some? && (pc.RegWait? ==> u.event.value.RegState?) && u.now <= t.now + 100 ==>
              PunctualStep(pc, t, u)
    ensures IsWait(pc) && u.event.Some? && !pc.RegWait? && !pc.SilWait? && u.now <= t.now + 500 ==>
              PunctualStep(pc, t, u)
    ensures IsWait(pc) && u.event.None? && u.now == t.now + (if pc.SilWait? then 100 else 500) ==>
              PunctualStep(pc, t, u)
    ensures pc.DelaySleep? && u.now == t.now + 50 ==> PunctualStep(pc, t, u)
  {
    hide Asks, Blocks;
    AsksForClock();
    AsksForFlag();
    AsksForEvent();
    BlocksAtWaits(pc);
    AsksAtWaits(pc);
  }

  lemma BlocksAtWaits(pc: Pc)
    ensures Blocks(pc) <==> IsWait(pc) || pc.DelaySleep?
  {
  }

  lemma AsksAtWaits(pc: Pc)
    ensures Asks(pc).AskEvent? <==> IsWait(pc)
    ensures Asks(pc).AskSleep? <==> pc.DelaySleep?
    ensures IsWait(pc) ==> Asks(pc).timeoutMs == if pc.SilWait? then 100 else 500
    ensures pc.DelaySleep? ==> Asks(pc).ms == 50
  {
  }

  /** A read that takes no time, or an event that is already there. */
  lemma Now(setup: Setup, ts: seq<Tick>, u: Tick) returns (us: seq<Tick>)
    requires Real(setup, ts) && u.now == LastTick(ts).now < CLOCK_LIMIT && (LastTick(ts).cancelled ==> u.cancelled)
    requires !Exec(setup, ts).pc.DelaySleep?
    requires IsWait(Exec(setup, ts).pc) ==> u.event.Some? && (Exec(setup, ts).pc.RegWait? ==> u.event.value.RegState?)
    ensures us == ts + [u] && Real(setup, us) && LastTick(us) == u
    ensures Exec(setup, us) == Next(setup, Exec(setup, ts), u)
  {
    hide Exec, Next, Real, PunctualStep;
    Punctually(Exec(setup, ts).pc, LastTick(ts), u);
    us := Extend(setup, ts, u);
  }

  /** A wait that brings nothing, or a sleep. */
  lemma Idle(setup: Setup, ts: seq<Tick>, now: uint64) returns (us: seq<Tick>)
    requires Real(setup, ts) && !LastTick(ts).cancelled && now < CLOCK_LIMIT
    requires var pc := Exec(setup, ts).pc;
             && (IsWait(pc) || pc.DelaySleep?)
             && now == LastTick(ts).now + if pc.DelaySleep? then 50 else if pc.SilWait? then 100 else 500
    ensures us == ts + [At(now)] && Real(setup, us) && LastTick(us) == At(now)
    ensures Exec(setup, us) == Next(setup, Exec(setup, ts), At(now))
  {
    hide Exec, Next, Real, PunctualStep;
    Punctually(Exec(setup, ts).pc, LastTick(ts), At(now));
    us := Extend(setup, ts, At(now));
  }

  // ---- Up to the answer ------------------------------------------------------------------------

  /** Registering, at the first read of the flag. */
  lemma RunToRegister(setup: Setup) returns (ts: seq<Tick>)
    requires setup.initOk
    ensures Real(setup, ts) && LastTick(ts) == At(1) && Exec(setup, ts).pc == RegLoop
  {
    hide Next, Exec, Summary, Act, Setup.CallId, Init;
    InitSteps(setup);
    ts := Now(setup, [], At(1));
    ts := Now(setup, ts, At(1));
    NextInReg(setup, Init(setup, Begin(setup)), At(1));
  }

  lemma InitSteps(setup: Setup)
    requires setup.initOk
    ensures Exec(setup, []) == Begin(setup) && Real(setup, []) && Begin(setup).pc == RegInit
    ensures Next(setup, Begin(setup), At(1)) == Init(setup, Begin(setup)) && Init(setup, Begin(setup)).pc == RegStarted
  {
    hide Summary, Act, Setup.CallId, Setup.SilenceLevel, Setup.SilenceMs;
  }

  /** Dialled at time 1, waiting for the answer. */
  lemma RunToDial(setup: Setup) returns (ts: seq<Tick>)
    requires setup.initOk
    ensures Real(setup, ts) && LastTick(ts) == At(1)
    ensures var s := Exec(setup, ts);
            && s.pc == DialLoop && s.deadline == 1 + setup.config.answerTimeoutS * 1000
            && !s.answered && !s.media && !s.timeoutHit
  {
    hide Next, Exec, Real, RegTake, Dial;
    ts := RunToRegister(setup);
    NextInReg(setup, Exec(setup, ts), At(1));
    ts := Now(setup, ts, At(1));
    var ok := RegState(true, 200, "OK");
    NextInReg(setup, Exec(setup, ts), Bringing(1, ok));
    RegTaken(setup, Exec(setup, ts), ok);
    ts := Now(setup, ts, Bringing(1, ok));
    DialStep(setup, Exec(setup, ts), At(1));
    ts := Now(setup, ts, At(1));
    NextInDial(setup, Exec(setup, ts), At(1));
    ts := Now(setup, ts, At(1));
  }

  lemma RegTaken(setup: Setup, s: Call, ev: InternalEvent)
    requires ev.RegState? && ev.connected
    ensures RegTake(setup, s, ev).pc == RegExit
  {
    hide Summary, Act, Setup.CallId;
  }

  lemma DialStep(setup: Setup, s: Call, u: Tick)
    requires s.pc == RegExit && !u.cancelled
    ensures Next(setup, s, u).pc == DialClock
  {
    hide Summary, Act, Setup.CallId, EmitState;
  }

  /** Past the check of the answer timeout, which is due at once if it is zero. */
  lemma RunToAnswerWait(setup: Setup) returns (ts: seq<Tick>)
    requires setup.initOk
    ensures Real(setup, ts) && LastTick(ts) == At(1) && Exec(setup, ts).pc == DialWait
    ensures var s := Exec(setup, ts);
            && s.deadline == 1 + setup.config.answerTimeoutS * 1000 && !s.answered && !s.media
            && s.timeoutHit == (setup.config.answerTimeoutS == 0) && s.connectedMs == 0
  {
    hide Next, Exec, Summary, Inv, Punctual;
    ts := RunToDial(setup);
    NextInDial(setup, Exec(setup, ts), At(1));
    ts := Now(setup, ts, At(1));
    ClockStep(setup, Exec(setup, ts), At(1));
    ts := Now(setup, ts, At(1));
    if setup.config.answerTimeoutS == 0 {
      SafetyStep(setup, Exec(setup, ts), At(1));
      ts := Now(setup, ts, At(1));
    }
    InvHolds(setup, ts);
    Unanswered(setup, Exec(setup, ts), At(1));
  }

  lemma Unanswered(setup: Setup, s: Call, t: Tick)
    requires Inv(setup, s, t) && s.pc == DialWait && !s.answered
    ensures s.connectedMs == 0
  {
    hide Summary;
  }

  lemma ClockStep(setup: Setup, s: Call, u: Tick)
    requires s.pc == DialTimeout
    ensures u.now < s.deadline ==> Next(setup, s, u) == s.(pc := DialWait)
    ensures u.now >= s.deadline ==> var r := Next(setup, s, u);
              && r.pc == DialSafety && r.timeoutHit && r.answered == s.answered && r.media == s.media
              && r.deadline == s.deadline
  {
    hide Summary, Act;
  }

  lemma SafetyStep(setup: Setup, s: Call, u: Tick)
    requires s.pc == DialSafety && s.deadline < CLOCK_LIMIT
    ensures u.now < s.deadline + SAFETY_NET_MS ==> Next(setup, s, u) == s.(pc := DialWait)
    ensures u.now >= s.deadline + SAFETY_NET_MS ==> var r := Next(setup, s, u);
              r.pc == Returned && r.result.status == NO_ANSWER && r.connectedMs == s.connectedMs
  {
    hide Summary, Act, Setup.CallId, AnswerTimedOut;
  }

  /** A CONFIRMED, before there is media. */
  lemma RunConfirms(setup: Setup, ts: seq<Tick>) returns (us: seq<Tick>)
    requires Real(setup, ts) && LastTick(ts) == At(LastTick(ts).now) && Exec(setup, ts).pc == DialWait
    requires 0 < LastTick(ts).now < CLOCK_LIMIT && !Exec(setup, ts).media
    ensures Real(setup, us) && LastTick(us) == LastTick(ts) && Exec(setup, us).pc == DialLoop
    ensures var s, s0 := Exec(setup, us), Exec(setup, ts);
            && s.answered && !s.media && s.timeoutHit == s0.timeoutHit && s.deadline == s0.deadline
            && s.connectedMs == LastTick(ts).now
  {
    hide Next, Exec, Real, DialTake;
    var now := LastTick(ts).now;
    var ev := CallState(INV_STATE_CONFIRMED, 200, "OK");
    NextInDial(setup, Exec(setup, ts), Bringing(now, ev));
    ConfirmTaken(setup, Exec(setup, ts), ev);
    us := Now(setup, ts, Bringing(now, ev));
    ConfirmStep(setup, Exec(setup, us), At(now));
    us := Now(setup, us, At(now));
  }

  lemma ConfirmTaken(setup: Setup, s: Call, ev: InternalEvent)
    requires IsConfirm(ev)
    ensures var r := DialTake(setup, s, ev);
            && r.pc == DialConfirm && r.answered && r.media == s.media && r.timeoutHit == s.timeoutHit
            && r.deadline == s.deadline
  {
    hide Summary, Act, Setup.CallId;
  }

  lemma ConfirmStep(setup: Setup, s: Call, u: Tick)
    requires s.pc == DialConfirm && s.answered && !s.media
    ensures var r := Next(setup, s, u);
            && r.pc == DialLoop && r.answered && !r.media && r.timeoutHit == s.timeoutHit && r.deadline == s.deadline
            && r.connectedMs == u.now
  {
    hide Summary, Act, Setup.CallId;
  }

  /** Confirmed at time 1. */
  lemma RunToConfirmed(setup: Setup) returns (ts: seq<Tick>)
    requires setup.initOk
    ensures Real(setup, ts) && LastTick(ts) == At(1)
    ensures var s := Exec(setup, ts);
            && s.pc == DialLoop && s.answered && !s.media && s.connectedMs == 1
            && s.timeoutHit == (setup.config.answerTimeoutS == 0)
            && s.deadline == 1 + setup.config.answerTimeoutS * 1000
  {
    hide Next, Exec, Real;
    ts := RunToAnswerWait(setup);
    ts := RunConfirms(setup, ts);
  }

  // ---- Up to the playback loop --------------------------------------------------------------------

  /** Confirmed, and at a wait. */
  lemma RunToMediaWait(setup: Setup) returns (ts: seq<Tick>)
    requires setup.initOk
    ensures Real(setup, ts) && LastTick(ts) == At(1)
    ensures var s := Exec(setup, ts);
            && s.pc == DialWait && s.answered && s.connectedMs == 1 && s.timeoutHit == (setup.config.answerTimeoutS == 0)
  {
    hide Next, Exec, Real;
    ts := RunToConfirmed(setup);
    NextInDial(setup, Exec(setup, ts), At(1));
    ts := Now(setup, ts, At(1));
    if setup.config.answerTimeoutS == 0 {
      SafetyStep(setup, Exec(setup, ts), At(1));
      ts := Now(setup, ts, At(1));
    }
  }

  /** With media at time 1, the recorder running. */
  lemma RunToRecord(setup: Setup) returns (ts: seq<Tick>)
    requires setup.initOk
    ensures Real(setup, ts) && LastTick(ts) == At(1)
    ensures var s := Exec(setup, ts);
            s.pc == DelayClock && s.timeoutHit == (setup.config.answerTimeoutS == 0) && s.connectedMs == 1
  {
    hide Next, Exec, Punctual, Summary, DialTake, SetUpRecording;
    ts := RunToMediaWait(setup);
    NextInDial(setup, Exec(setup, ts), Bringing(1, MediaState(true)));
    MediaTaken(setup, Exec(setup, ts));
    ts := Now(setup, ts, Bringing(1, MediaState(true)));
    NextInDelay(setup, Exec(setup, ts), At(1));
    RecordStep(setup, ts);
    ts := Now(setup, ts, At(1));
  }

  lemma MediaTaken(setup: Setup, s: Call)
    requires s.answered
    ensures var r := DialTake(setup, s, MediaState(true));
            r.pc == DialExit && r.timeoutHit == s.timeoutHit && r.connectedMs == s.connectedMs && r.answered
  {
    hide Summary, Act;
  }

  lemma RecordStep(setup: Setup, ts: seq<Tick>)
    requires Legal(ts) && Exec(setup, ts).pc == DialExit && Exec(setup, ts).answered
    ensures var s := Exec(setup, ts);
            var r := SetUpRecording(setup, s);
            r.pc == DelayClock && r.timeoutHit == s.timeoutHit && r.connectedMs == s.connectedMs
  {
    hide Exec, Summary, Act, Setup.RecPath;
    InvHolds(setup, ts);
  }

  /** The answer delay, slept through in steps of 50 ms, of which `slept` are over. */
  lemma {:induction false} RunThroughDelay(setup: Setup, ts: seq<Tick>, slept: nat) returns (us: seq<Tick>)
    requires slept <= 20 * setup.config.answerDelayS
    requires Real(setup, ts) && LastTick(ts) == At(1 + 50 * slept)
    requires Exec(setup, ts).pc == DelayClock && Exec(setup, ts).connectedMs == 1
    ensures Real(setup, us) && LastTick(us) == At(1 + setup.config.answerDelayS * 1000)
    ensures Exec(setup, us) == Exec(setup, ts).(pc := DelayExit)
    decreases 20 * setup.config.answerDelayS - slept
  {
    hide Next, Exec, Real;
    var now := LastTick(ts).now;
    NextInDelay(setup, Exec(setup, ts), At(now));
    us := Now(setup, ts, At(now));
    if slept < 20 * setup.config.answerDelayS {
      NextInDelay(setup, Exec(setup, us), At(now));
      us := Now(setup, us, At(now));
      NextInDelay(setup, Exec(setup, us), At(now + 50));
      us := Idle(setup, us, now + 50);
      us := RunThroughDelay(setup, us, slept + 1);
    }
  }

  lemma RunToPlayClock(setup: Setup) returns (ts: seq<Tick>)
    requires setup.initOk
    ensures Real(setup, ts) && LastTick(ts) == At(1 + setup.config.answerDelayS * 1000)
    ensures Exec(setup, ts).pc == PlayClock && Exec(setup, ts).connectedMs == 1
    ensures Exec(setup, ts).timeoutHit == (setup.config.answerTimeoutS == 0)
  {
    hide Next, Exec, Real, EmitState;
    ts := RunToRecord(setup);
    ts := RunThroughDelay(setup, ts, 0);
    var now := LastTick(ts).now;
    NextInDelay(setup, Exec(setup, ts), At(now));
    PlayingState(setup, Exec(setup, ts));
    ts := Now(setup, ts, At(now));
  }

  /** In the playback loop, right after the answer delay. */
  lemma RunToPlay(setup: Setup) returns (ts: seq<Tick>)
    requires setup.initOk
    ensures Real(setup, ts) && LastTick(ts) == At(1 + setup.config.answerDelayS * 1000)
    ensures Exec(setup, ts).pc == PlayLoop && Exec(setup, ts).connectedMs == 1
    ensures Exec(setup, ts).timeoutHit == (setup.config.answerTimeoutS == 0)
  {
    hide Next, Exec, Real, StartPlayback;
    ts := RunToPlayClock(setup);
    var now := LastTick(ts).now;
    NextInPlay(setup, Exec(setup, ts), At(now));
    PlaySteps(setup, Exec(setup, ts), now);
    ts := Now(setup, ts, At(now));
  }

  lemma PlayingState(setup: Setup, s: Call)
    ensures var r := EmitState(setup, s, PLAYING);
            r.timeoutHit == s.timeoutHit && r.connectedMs == s.connectedMs
  {
    hide Summary, Act, Setup.CallId;
  }

  lemma PlaySteps(setup: Setup, s: Call, now: uint64)
    ensures var r := StartPlayback(setup, s, now);
            r.pc == PlayLoop && r.timeoutHit == s.timeoutHit && r.connectedMs == s.connectedMs
    ensures var r := FinishPlayback(setup, s);
            r.pc == PlayExit && r.timeoutHit == s.timeoutHit && r.connectedMs == s.connectedMs
  {
    hide Summary, Act, Setup.CallId, Setup.PlayPath;
  }

  // ---- Up to the silence loop ------------------------------------------------------------------------

  /** Played to the end. */
  lemma RunToPlayed(setup: Setup) returns (ts: seq<Tick>)
    requires setup.initOk
    ensures Real(setup, ts) && !LastTick(ts).cancelled && LastTick(ts).now == 1 + setup.config.answerDelayS * 1000
    ensures Exec(setup, ts).pc == PlayExit && Exec(setup, ts).connectedMs == 1
    ensures Exec(setup, ts).timeoutHit == (setup.config.answerTimeoutS == 0)
  {
    hide Next, Exec, Real, FinishPlayback, TakeOrDisconnect;
    ts := RunToPlay(setup);
    var now := LastTick(ts).now;
    NextInPlay(setup, Exec(setup, ts), At(now));
    ts := Now(setup, ts, At(now));
    NextInPlay(setup, Exec(setup, ts), Bringing(now, PlaybackEof));
    PlaySteps(setup, Exec(setup, ts), now);
    ts := Now(setup, ts, Bringing(now, PlaybackEof));
  }

  /** ... and listening. */
  lemma RunToListen(setup: Setup) returns (ts: seq<Tick>)
    requires setup.initOk
    ensures Real(setup, ts) && LastTick(ts) == At(1 + setup.config.answerDelayS * 1000)
    ensures var s := Exec(setup, ts);
            && s.pc == SilLoop && s.connectedMs == 1 && s.timeoutHit == (setup.config.answerTimeoutS == 0) && !s.silent
            && s.detector == Detector(setup.SilenceLevel(), setup.SilenceMs(), 0, true, false)
  {
    hide Next, Exec, Punctual, Legal, StartListening, Setup.SilenceLevel, Setup.SilenceMs;
    ts := RunToPlayed(setup);
    var now := LastTick(ts).now;
    NextInPlay(setup, Exec(setup, ts), At(now));
    ListenEntry(setup, ts, now);
    ts := Now(setup, ts, At(now));
  }

  lemma ListenEntry(setup: Setup, ts: seq<Tick>, now: uint64)
    requires Legal(ts) && Exec(setup, ts).pc == PlayExit
    ensures var s, r := Exec(setup, ts), StartListening(setup, Exec(setup, ts), now);
            && r.pc == SilLoop && r.timeoutHit == s.timeoutHit && r.connectedMs == s.connectedMs && !r.silent
            && r.detector == Detector(setup.SilenceLevel(), setup.SilenceMs(), 0, true, false)
  {
    hide Exec, Summary, Act, Setup.SilenceLevel, Setup.SilenceMs, Inv;
    AnsweredPastStep4(setup, ts);
  }

  lemma PollTaken(setup: Setup, s: Call, ev: InternalEvent)
    requires !IsDisconnect(ev)
    ensures var r := TakeOrDisconnect(setup, s, Some(ev), SilLevel);
            && r.pc == SilLevel && r.silent == s.silent && r.detector == s.detector
            && r.connectedMs == s.connectedMs && r.timeoutHit == s.timeoutHit
  {
    hide Summary, Act;
  }

  /** Half a turn of the silence loop: an event after `wait` ms, and the level has been polled. */
  lemma RunToFeed(setup: Setup, ts: seq<Tick>, level: uint32, wait: nat) returns (us: seq<Tick>)
    requires Real(setup, ts) && LastTick(ts) == At(LastTick(ts).now) && LastTick(ts).now + 100 < CLOCK_LIMIT
    requires Exec(setup, ts).pc == SilLoop && wait <= 100
    ensures Real(setup, us) && LastTick(us) == Tick(LastTick(ts).now + wait, false, None, level)
    ensures var s, r := Exec(setup, ts), Exec(setup, us);
            && r.pc == SilFeed && r.level == level && r.silent == s.silent && r.detector == s.detector
            && r.connectedMs == s.connectedMs && r.timeoutHit == s.timeoutHit
  {
    hide Next, Exec, Real, TakeOrDisconnect;
    var now := LastTick(ts).now;
    NextInEnd(setup, Exec(setup, ts), At(now));
    us := Now(setup, ts, At(now));
    var busy := Bringing(now + wait, MediaState(true));
    Punctually(SilWait, LastTick(us), busy);
    NextInEnd(setup, Exec(setup, us), busy);
    PollTaken(setup, Exec(setup, us), MediaState(true));
    us := Extend(setup, us, busy);
    var polled := Tick(now + wait, false, None, level);
    NextInEnd(setup, Exec(setup, us), polled);
    us := Now(setup, us, polled);
  }

  /** One turn of the silence loop on a given level, `wait` ms long. */
  lemma RunPolls(setup: Setup, ts: seq<Tick>, level: uint32, wait: nat) returns (us: seq<Tick>)
    requires Real(setup, ts) && LastTick(ts) == At(LastTick(ts).now) && LastTick(ts).now + 100 < CLOCK_LIMIT
    requires Exec(setup, ts).pc == SilLoop && !Exec(setup, ts).silent && Exec(setup, ts).connectedMs == 1
    requires wait <= 100 && LastTick(ts).now >= 1
    ensures Real(setup, us) && LastTick(us) == At(LastTick(ts).now + wait)
    ensures var s, r := Exec(setup, ts), Exec(setup, us);
            var (d, fired) := Feed(s.detector, Sample(level, LastTick(us).now));
            && r.detector == d && r.connectedMs == 1 && r.timeoutHit == s.timeoutHit
            && (if fired || LastTick(us).now - 1 >= MAX_CALL_MS then r.pc == SilExit && r.silent
                else r.pc == SilLoop && !r.silent)
  {
    hide Next, Exec, Real, Feed, FeedDetector;
    us := RunToFeed(setup, ts, level, wait);
    var now := LastTick(us).now;
    NextInEnd(setup, Exec(setup, us), At(now));
    FeedStep(Exec(setup, us), now);
    us := Now(setup, us, At(now));
    NextInEnd(setup, Exec(setup, us), At(now));
    us := Now(setup, us, At(now));
  }

  lemma FeedStep(s: Call, now: uint64)
    ensures var r := FeedDetector(s, now);
            && r.pc == SilCap && r.connectedMs == s.connectedMs && r.timeoutHit == s.timeoutHit
            && r.detector == Feed(s.detector, Sample(s.level, now)).0
            && r.silent == (s.silent || Feed(s.detector, Sample(s.level, now)).1)
  {
    hide Summary, Act, Feed;
  }
}
