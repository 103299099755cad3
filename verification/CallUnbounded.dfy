/** Runs without end: for every moment there is a run on a punctual clock, never cancelled, that is
    still in the same loop then. `CallLoops` says exactly when each loop is left. */
module CallUnbounded {
  import opened MachineInts
  import opened Events
  import opened Silence
  import opened CallMachine
  import opened CallDeadlines
  import opened CallLoops
  import opened CallRuns

  /** At the flag of a loop, uncancelled, not before `until`. */
  ghost predicate StillAt(setup: Setup, ts: seq<Tick>, pc: Pc, until: int) {
    Real(setup, ts) && !LastTick(ts).cancelled && Exec(setup, ts).pc == pc && LastTick(ts).now >= until
  }

  /** The clock can go on. */
  predicate InReach(until: int) {
    until < CLOCK_LIMIT - 1000
  }

  // ---- Playback ---------------------------------------------------------------------------------

  /** An event every 400 ms keeps the playback loop from ever looking at the cap. */
  lemma {:induction false} RunPlaysOn(setup: Setup, ts: seq<Tick>, until: int) returns (us: seq<Tick>)
    requires StillAt(setup, ts, PlayLoop, 0) && InReach(until)
    ensures StillAt(setup, us, PlayLoop, until) && Exec(setup, us).connectedMs == Exec(setup, ts).connectedMs
    decreases until - LastTick(ts).now
  {
    hide Next, Exec, Real, TakeOrDisconnect;
    us := ts;
    var now := LastTick(ts).now;
    if now < until {
      NextInPlay(setup, Exec(setup, ts), At(now));
      us := Now(setup, ts, At(now));
      var busy := Bringing(now + 400, MediaState(true));
      Punctually(PlayWait, LastTick(us), busy);
      NextInPlay(setup, Exec(setup, us), busy);
      PlayIgnores(setup, Exec(setup, us), MediaState(true));
      us := Extend(setup, us, busy);
      us := RunPlaysOn(setup, us, until);
    }
  }

  lemma PlaybackOutlivesAnyMoment(setup: Setup, until: int)
    requires setup.initOk && InReach(until)
    ensures exists ts :: StillAt(setup, ts, PlayLoop, until) && Exec(setup, ts).connectedMs == 1
  {
    hide Next, Exec, Real;
    var ts := RunToPlay(setup);
    ts := RunPlaysOn(setup, ts, until);
  }

  // ---- After the cap -------------------------------------------------------------------------------

  /** A wait of the playback loop that brings nothing. */
  lemma RunToCheck(setup: Setup, ts: seq<Tick>) returns (us: seq<Tick>)
    requires StillAt(setup, ts, PlayLoop, 1) && LastTick(ts).now + 500 < CLOCK_LIMIT
    ensures StillAt(setup, us, PlayCap, 1) && LastTick(us).now == LastTick(ts).now + 500
    ensures Exec(setup, us).connectedMs == Exec(setup, ts).connectedMs
  {
    hide Next, Exec, Real, TakeOrDisconnect;
    var now := LastTick(ts).now;
    NextInPlay(setup, Exec(setup, ts), At(now));
    us := Now(setup, ts, At(now));
    NextInPlay(setup, Exec(setup, us), At(now + 500));
    us := Idle(setup, us, now + 500);
  }

  /** Without events, playback ends at the cap. */
  lemma {:induction false} RunToCap(setup: Setup, ts: seq<Tick>) returns (us: seq<Tick>)
    requires StillAt(setup, ts, PlayLoop, 1) && Exec(setup, ts).connectedMs == 1
    requires LastTick(ts).now < CLOCK_LIMIT - 2 * MAX_CALL_MS
    ensures StillAt(setup, us, DrainLoop, 0)
    decreases 1 + MAX_CALL_MS - LastTick(ts).now
  {
    hide Next, Exec, Real, CheckCap;
    us := RunToCheck(setup, ts);
    var now := LastTick(us).now;
    NextInPlay(setup, Exec(setup, us), At(now));
    CheckCapShape(Exec(setup, us), now);
    us := Now(setup, us, At(now));
    if Exec(setup, us).pc == PlayLoop {
      us := RunToCap(setup, us);
    }
  }

  /** Without events, the drain goes on. */
  lemma {:induction false} RunDrains(setup: Setup, ts: seq<Tick>, until: int) returns (us: seq<Tick>)
    requires StillAt(setup, ts, DrainLoop, 0) && InReach(until)
    ensures StillAt(setup, us, DrainLoop, until)
    decreases until - LastTick(ts).now
  {
    hide Next, Exec, Real, Disconnect, Summary;
    us := ts;
    var now := LastTick(ts).now;
    if now < until {
      NextInPlay(setup, Exec(setup, ts), At(now));
      us := Now(setup, ts, At(now));
      NextInPlay(setup, Exec(setup, us), At(now + 500));
      us := Idle(setup, us, now + 500);
      us := RunDrains(setup, us, until);
    }
  }

  lemma DrainOutlivesAnyMoment(setup: Setup, until: int)
    requires setup.initOk && InReach(until)
    ensures exists ts :: StillAt(setup, ts, DrainLoop, until)
  {
    hide Next, Exec, Real;
    var ts := RunToPlay(setup);
    ts := RunToCap(setup, ts);
    ts := RunDrains(setup, ts, until);
  }

  // ---- Answered without media -------------------------------------------------------------------------

  lemma {:induction false} RunAwaitsMedia(setup: Setup, ts: seq<Tick>, until: int) returns (us: seq<Tick>)
    requires StillAt(setup, ts, DialLoop, 0) && AwaitsMedia(Exec(setup, ts)) && InReach(until)
    ensures StillAt(setup, us, DialLoop, until) && AwaitsMedia(Exec(setup, us))
    decreases until - LastTick(ts).now
  {
    hide Next, Exec, Real;
    us := ts;
    var now := LastTick(ts).now;
    if now < until {
      NextInDial(setup, Exec(setup, ts), At(now));
      us := Now(setup, ts, At(now));
      NextInDial(setup, Exec(setup, us), At(now + 500));
      us := Idle(setup, us, now + 500);
      us := RunAwaitsMedia(setup, us, until);
    }
  }

  /** Long after the answer timeout and its safety net: they are for calls not confirmed in time. */
  lemma AnswerOutlivesAnyMoment(setup: Setup, until: int)
    requires setup.initOk && setup.config.answerTimeoutS > 0 && InReach(until)
    ensures exists ts :: StillAt(setup, ts, DialLoop, until) && AwaitsMedia(Exec(setup, ts))
  {
    hide Next, Exec, Real;
    var ts := RunToConfirmed(setup);
    ts := RunAwaitsMedia(setup, ts, until);
  }

  // ---- After hanging up ---------------------------------------------------------------------------------

  lemma LoudIsNotSilent(d: Detector, now: uint64)
    ensures var (e, fired) := Feed(d, Sample(0xFFFF_FFFF, now)); !fired
  {
  }

  /** A loud line, until the cap. */
  lemma {:induction false} RunLoudToCap(setup: Setup, ts: seq<Tick>) returns (us: seq<Tick>)
    requires StillAt(setup, ts, SilLoop, 1) && !Exec(setup, ts).silent && Exec(setup, ts).connectedMs == 1
    requires LastTick(ts) == At(LastTick(ts).now) && LastTick(ts).now < CLOCK_LIMIT - 2 * MAX_CALL_MS
    ensures StillAt(setup, us, SilExit, 0) && LastTick(us).now < CLOCK_LIMIT
    decreases 1 + MAX_CALL_MS - LastTick(ts).now
  {
    hide Next, Exec, Real, Feed;
    us := RunPolls(setup, ts, 0xFFFF_FFFF, 100);
    LoudIsNotSilent(Exec(setup, ts).detector, LastTick(us).now);
    if Exec(setup, us).pc == SilLoop {
      us := RunLoudToCap(setup, us);
    }
  }

  lemma {:induction false} RunAwaitsDisconnect(setup: Setup, ts: seq<Tick>, until: int) returns (us: seq<Tick>)
    requires StillAt(setup, ts, EndLoop, 0) && InReach(until)
    ensures StillAt(setup, us, EndLoop, until)
    decreases until - LastTick(ts).now
  {
    hide Next, Exec, Real, Disconnect, Summary;
    us := ts;
    var now := LastTick(ts).now;
    if now < until {
      NextInEnd(setup, Exec(setup, ts), At(now));
      us := Now(setup, ts, At(now));
      NextInEnd(setup, Exec(setup, us), At(now + 500));
      us := Idle(setup, us, now + 500);
      us := RunAwaitsDisconnect(setup, us, until);
    }
  }

  lemma HangupOutlivesAnyMoment(setup: Setup, until: int)
    requires setup.initOk && InReach(until)
    ensures exists ts :: StillAt(setup, ts, EndLoop, until)
  {
    hide Next, Exec, Real, HangUpOnSilence;
    var ts := RunToListen(setup);
    ts := RunLoudToCap(setup, ts);
    var now := LastTick(ts).now;
    NextInEnd(setup, Exec(setup, ts), At(now));
    ListenExitShape(setup, Exec(setup, ts));
    ts := Now(setup, ts, At(now));
    ts := RunAwaitsDisconnect(setup, ts, until);
  }
}
