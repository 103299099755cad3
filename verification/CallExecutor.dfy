/** src/call_executor.cpp in its own form: `run` with its members, locals and loops,
    against a script of what the outside world answers. It is proved to compute, read
    for read, what the machine computes; a script that ends before
    `run` does leaves the result pending, so the scripts cover every prefix of every run. */
module CallExecutor {
  import opened MachineInts
  import opened Events
  import opened Silence
  import opened CallMachine

  /** Pending: the script has ended and `run` is still at a read. */
  datatype Outcome<+T> = Pending | Got(value: T) {
    predicate IsFailure() { Pending? }

    function PropagateFailure<U>(): Outcome<U>
      requires Pending?
    {
      Pending
    }

    function Extract(): T
      requires Got?
    {
      value
    }
  }

  /** How one turn of a polling loop ends. */
  datatype Round = Again | Leave | Over

  class Executor {
    const setup: Setup
    const script: seq<Tick>
    var pos: nat                   // how much of the script has been used up
    var result: AgentEvent         // result_
    var callConnectedMs: uint64    // call_connected_ms_
    var playbackStartedMs: uint64  // playback_started_ms_
    var log: seq<Action>           // what went to the sink and to the SIP agent
    ghost var machine: Call        // the machine on the same script

    ghost predicate Tracks()
      reads `pos, `machine
      ensures Tracks() ==> pos <= |script|
    {
      pos <= |script| && machine == Exec(setup, script[..pos])
    }

    /** At a read: everything `run` has done so far is what the machine has done. */
    ghost predicate Synced()
      reads this
    {
      && Tracks()
      && log == machine.log && result == machine.result
      && callConnectedMs == machine.connectedMs && playbackStartedMs == machine.playbackMs
    }

    /** The answer just given. */
    ghost function Last(): Tick
      reads this
      requires 0 < pos <= |script|
    {
      script[pos - 1]
    }

    /** One more answer has been used up, or there is none left. */
    twostate predicate Advanced(got: bool)
      reads this
    {
      && Tracks()
      && if got then pos == old(pos) + 1 && machine == Next(setup, old(machine), Last())
         else pos == old(pos) == |script| && machine == old(machine)
    }

    ghost predicate StillRunning(pending: bool)
      reads this
    {
      pending ==> pos == |script| && machine.pc != Returned
    }

    /** What a step leaves: pending, the run over, or on to `next`. */
    ghost predicate Ends(over: Outcome<bool>, next: Pc)
      reads this
    {
      && Synced() && StillRunning(over.Pending?)
      && (over.Got? ==> machine.pc == if over.value then Returned else next)
    }

    constructor (setup: Setup, script: seq<Tick>)
      ensures this.setup == setup && this.script == script && pos == 0
      ensures Synced() && machine == Begin(setup)
    {
      this.setup, this.script := setup, script;
      pos := 0;
      result := AgentEvent(FAILED, "", "", 0, 0, "", false);
      callConnectedMs, playbackStartedMs := 0, 0;
      log := [];
      machine := Begin(setup);
    }

    // ---- Reads ------------------------------------------------------------------

    method Observe() returns (t: Outcome<Tick>)
      requires Synced()
      modifies this`pos, this`machine
      ensures Advanced(t.Got?) && (t.Got? ==> t.value == Last())
    {
      hide Next;
      if pos == |script| {
        return Pending;
      }
      t := Got(script[pos]);
      assert script[..pos + 1][..pos] == script[..pos];
      machine := Next(setup, machine, script[pos]);
      pos := pos + 1;
    }

    method NowMs() returns (now: Outcome<uint64>)
      requires Synced() && Asks(machine.pc) == AskClock
      modifies this`pos, this`machine
      ensures Advanced(now.Got?) && (now.Got? ==> now.value == Last().now)
    {
      hide Next, Exec, Tracks, Asks;
      var t :- Observe();
      now := Got(t.now);
    }

    method Cancelled() returns (c: Outcome<bool>)
      requires Synced() && Asks(machine.pc) == AskCancelled
      modifies this`pos, this`machine
      ensures Advanced(c.Got?) && (c.Got? ==> c.value == Last().cancelled)
    {
      hide Next, Exec, Tracks, Asks;
      var t :- Observe();
      c := Got(t.cancelled);
    }

    method WaitEvent(timeoutMs: uint32) returns (ev: Outcome<Option<InternalEvent>>)
      requires Synced() && Asks(machine.pc) == AskEvent(timeoutMs)
      modifies this`pos, this`machine
      ensures Advanced(ev.Got?) && (ev.Got? ==> ev.value == Last().event)
    {
      hide Next, Exec, Tracks, Asks;
      var t :- Observe();
      ev := Got(t.event);
    }

    method RxLevel() returns (level: Outcome<uint32>)
      requires Synced() && Asks(machine.pc) == AskLevel
      modifies this`pos, this`machine
      ensures Advanced(level.Got?) && (level.Got? ==> level.value == Last().level)
    {
      hide Next, Exec, Tracks, Asks;
      var t :- Observe();
      level := Got(t.level);
    }

    method SleepMs(ms: uint32) returns (slept: Outcome<()>)
      requires Synced() && Asks(machine.pc) == AskSleep(ms)
      modifies this`pos, this`machine
      ensures Advanced(slept.Got?)
    {
      hide Next, Exec, Tracks, Asks;
      var _ :- Observe();
      slept := Got(());
    }

    // ---- Effects ------------------------------------------------------------------

    /** The fields are still what the machine had in state `m`. */
    ghost predicate At(m: Call)
      reads `log, `result, `callConnectedMs, `playbackStartedMs
    {
      && log == m.log && result == m.result
      && callConnectedMs == m.connectedMs && playbackStartedMs == m.playbackMs
    }

    method EmitEvent(ev: AgentEvent)
      modifies this`log
      ensures log == old(log) + [Emit(ev)]
    {
      log := log + [Emit(ev)];
    }

    method EmitStatus(status: CallStatus)
      modifies this`log
      ensures log == old(log) + [Emit(AgentEvent(status, setup.CallId(), "", 0, 0, "", false))]
    {
      EmitEvent(AgentEvent(status, setup.CallId(), "", 0, 0, "", false));
    }

    /** `handleDisconnect` */
    method HandleDisconnect(ghost m: Call, code: int32, reason: string) returns (done: Outcome<()>)
      requires At(m) && Tracks() && machine == Disconnect(setup, m, code, reason)
      modifies this
      ensures Synced() && StillRunning(done.Pending?) && pos >= old(pos)
      ensures done.Got? ==> machine.pc == Returned
    {
      hide Tracks, Exec, Asks, Summary, Absorb, Setup.CallId, NextReg, NextDial, NextPlay, BillSeconds, Settle;
      AsksForClock();
      if callConnectedMs > 0 {
        var now :- NowMs();
        ghost var m1 := m.(hangupCode := code, hangupReason := reason, markMs := now, pc := Bill);
        Conclude(m1, code, reason, BillSeconds(callConnectedMs, now));
      } else {
        Conclude(m, code, reason, 0);
      }
      done := Got(());
    }

    method Conclude(ghost m: Call, code: int32, reason: string, billSec: uint32)
      requires At(m) && Tracks() && machine == Settle(setup, m, code, reason, billSec)
      modifies this`log, this`result
      ensures Synced() && machine.pc == Returned
    {
      hide Tracks, Exec, Asks, Summary, Absorb, Setup.CallId, SipCodeToCallStatus;
      var status := if callConnectedMs > 0 then ANSWERED else SipCodeToCallStatus(code);
      result := result.(status := status, sipCode := code, reason := reason, billingSeconds := billSec);
      log := log + [StopRecorder];
      if result.recordingPath != "" {
        EmitEvent(AgentEvent(RECORDING_READY, setup.CallId(), result.recordingPath, billSec, 0, "", false));
      }
      EmitEvent(AgentEvent(status, setup.CallId(), result.recordingPath, billSec, code, reason, true));
    }

    /** A DISCONNECTED ends the run; true when it was one. */
    method EndOnDisconnect(ghost m: Call, ev: InternalEvent, ghost other: Pc) returns (over: Outcome<bool>)
      requires At(m) && Tracks() && machine == TakeOrDisconnect(setup, m, Some(ev), other)
      requires other != Returned && other != Bill
      modifies this
      ensures Synced() && StillRunning(over.Pending?) && pos >= old(pos)
      ensures over.Got? ==> over.value == IsDisconnect(ev) && machine.pc == (if over.value then Returned else other)
      ensures over.Got? && !over.value ==> machine == Act(m, Took(ev)).(pc := other)
    {
      hide Tracks, Exec, Asks, Summary, Absorb, Setup.CallId, Disconnect;
      log := log + [Took(ev)];
      if IsDisconnect(ev) {
        var _ :- HandleDisconnect(Act(m, Took(ev)), ev.code, ev.why);
        return Got(true);
      }
      return Got(false);
    }

    /** The same for what a wait brought, if anything. */
    method EndOnEvent(ghost m: Call, event: Option<InternalEvent>, ghost other: Pc) returns (over: Outcome<bool>)
      requires At(m) && Tracks() && machine == TakeOrDisconnect(setup, m, event, other)
      requires other != Returned && other != Bill
      modifies this
      ensures Ends(over, other) && pos >= old(pos)
      ensures over.Got? && !over.value ==> machine.silent == m.silent && machine.detector == m.detector
    {
      hide Tracks, Exec, Asks, Summary, Absorb, Disconnect;
      if event.None? {
        return Got(false);
      }
      over := EndOnDisconnect(m, event.value, other);
    }

    method MarkCancelled(ghost m: Call)
      requires At(m) && Tracks() && machine == ReturnCancelled(m)
      modifies this`result
      ensures Synced() && machine.pc == Returned
    {
      hide Tracks, Exec, Summary;
      result := result.(status := CANCELLED);
    }

    /** A registration failure: the record, and an event that carries the same. */
    method FailWith(ghost m: Call, callId: string, code: int32, reason: string)
      requires At(m) && Tracks() && machine == Fail(m, callId, code, reason)
      modifies this`log, this`result
      ensures Synced() && machine.pc == Returned
    {
      hide Tracks, Exec, Asks, Summary, Absorb, Setup.CallId;
      result := result.(status := FAILED, sipCode := code, reason := reason);
      EmitEvent(AgentEvent(FAILED, callId, "", 0, code, reason, false));
    }

    // ---- Steps 1 to 3. A step answers true when the run is over. -----------------------

    method Initialise() returns (over: Outcome<bool>)
      requires Synced() && machine == Begin(setup)
      modifies this
      ensures Ends(over, RegStarted)
    {
      hide Tracks, Exec, Asks, Summary, Absorb, Setup.CallId, NextDial, NextPlay, NextEnd, RegTake;
      hide CheckRegClock, CancelEarly, Dial, EnterLoop, InitFailed;
      result := result.(status := FAILED);
      var _ :- Observe();
      if !setup.initOk {
        FailWith(Begin(setup), "", 0, InitFailed());
        return Got(true);
      }
      EmitStatus(REGISTERING);
      return Got(false);
    }

    /** A registration event; `over` when it was a failure, `ok` when a success. */
    method TakeRegEvent(ghost m: Call, ev: InternalEvent) returns (over: bool, ok: bool)
      requires At(m) && Tracks() && machine == RegTake(setup, m, ev)
      modifies this`log, this`result
      ensures Synced()
      ensures machine.pc == if over then Returned else if ok then RegExit else RegLoop
      ensures !over && !ok ==> machine.regStart == m.regStart
    {
      hide Tracks, Exec, Asks, Summary, Absorb, Setup.CallId, Fail;
      log := log + [Took(ev)];
      over, ok := false, false;
      if ev.RegState? {
        if ev.connected {
          EmitStatus(REGISTERED);
          ok := true;
        } else {
          FailWith(Act(m, Took(ev)), setup.CallId(), ev.code, ev.why);
          over := true;
        }
      }
    }

    method CheckRegTimeout(regStart: uint64) returns (over: Outcome<bool>)
      requires Synced() && machine.pc == RegClock && machine.regStart == regStart
      modifies this
      ensures Ends(over, RegLoop) && pos >= old(pos)
      ensures over.Got? && !over.value ==> machine.regStart == regStart
    {
      hide Tracks, Exec, Asks, Next, Summary, Absorb, Setup.CallId, RegTimedOut, Fail, Sub64;
      AsksForClock();
      ghost var m := machine;
      var now :- NowMs();
      NextInReg(setup, m, Last());
      if Sub64(now, regStart) >= REG_TIMEOUT_MS {
        FailWith(m, setup.CallId(), 0, RegTimedOut());
        return Got(true);
      }
      return Got(false);
    }

    method StartRegClock() returns (regStart: Outcome<uint64>)
      requires Synced() && machine.pc == RegStarted
      modifies this
      ensures Synced() && StillRunning(regStart.Pending?)
      ensures regStart.Got? ==> machine.pc == RegLoop && machine.regStart == regStart.value
    {
      hide Tracks, Exec, Asks, Next, Summary;
      AsksForClock();
      ghost var m := machine;
      regStart := NowMs();
      if regStart.Got? {
        NextInReg(setup, m, Last());
      }
    }

    /** The rest of a turn of the registration loop, once the flag has been found unset. */
    method AwaitRegEvent(regStart: uint64) returns (round: Outcome<Round>)
      requires Synced() && machine.pc == RegWait && machine.regStart == regStart
      modifies this
      ensures Synced() && StillRunning(round.Pending?) && pos >= old(pos)
      ensures round.Got? ==>
                machine.pc == match round.value case Again => RegLoop case Leave => RegExit case Over => Returned
      ensures round.Got? && round.value.Again? ==> machine.regStart == regStart
    {
      hide Tracks, Exec, Asks, Next, Summary, Absorb, RegTake, CheckRegClock;
      AsksForEvent();
      ghost var m := machine;
      var ev :- WaitEvent(500);
      NextInReg(setup, m, Last());
      if ev.None? {
        var expired :- CheckRegTimeout(regStart);
        return Got(if expired then Over else Again);
      }
      var failed, ok := TakeRegEvent(m, ev.value);
      return Got(if failed then Over else if ok then Leave else Again);
    }

    method AwaitRegistration() returns (over: Outcome<bool>)
      requires Synced() && machine.pc == RegStarted
      modifies this
      ensures Ends(over, RegExit)
    {
      hide Tracks, Exec, Asks, Next, Summary, Absorb, RegTake, CheckRegClock, EnterLoop;
      AsksForFlag();
      var regStart :- StartRegClock();
      while true
        invariant Synced() && machine.pc == RegLoop && machine.regStart == regStart
        decreases |script| - pos
      {
        ghost var m := machine;
        var cancelled :- Cancelled();
        NextInReg(setup, m, Last());
        if cancelled {
          break;
        }
        var round :- AwaitRegEvent(regStart);
        if round == Over {
          return Got(true);
        } else if round == Leave {
          break;
        }
      }
      return Got(false);
    }

    method DialOut() returns (over: Outcome<bool>)
      requires Synced() && machine.pc == RegExit
      modifies this
      ensures Ends(over, DialClock)
    {
      hide Tracks, Exec, Asks, Summary, Absorb, Setup.CallId, NextDial, NextPlay, NextEnd, Init, RegTake;
      hide CheckRegClock, EnterLoop, CancelledEarly;
      AsksForFlag();
      var cancelled :- Cancelled();
      if cancelled {
        result := result.(status := CANCELLED, reason := CancelledEarly());
        return Got(true);
      }
      EmitStatus(DIALING);
      log := log + [PlaceCall];
      return Got(false);
    }

    // ---- Step 4 ------------------------------------------------------------------

    /** CONFIRMED: the provisional status is set, and now the start of billing. */
    method PickUp()
      returns (over: Outcome<bool>)
      requires Tracks() && machine.pc == DialConfirm && Synced()
      modifies this
      ensures Synced() && StillRunning(over.Pending?) && pos >= old(pos)
      ensures over.Got? ==> !over.value && machine.pc == if machine.answered && machine.media then DialExit else DialLoop
      ensures over.Got? ==> SameLocals(old(machine), machine)
    {
      hide Tracks, Exec, Asks, Summary, Absorb, Setup.CallId, NextReg, NextPlay, NextEnd;
      hide DialTake, CheckTimeout, CheckSafetyNet, CancelByUser, SetUpRecording, StartDeadline;
      AsksForClock();
      var now :- NowMs();
      callConnectedMs := now;
      log := log + [SetCallStart(now)];
      EmitStatus(ANSWERED);
      over := Got(false);
    }

    ghost predicate SameLocals(m: Call, r: Call) {
      r.answered == m.answered && r.media == m.media && r.timeoutHit == m.timeoutHit && r.deadline == m.deadline
    }

    /** An event while waiting for the answer; CONFIRMED is left to `PickUp`. */
    method TakeDialEvent(ghost m: Call, ev: InternalEvent, media0: bool, timeoutHit: bool)
      returns (over: Outcome<bool>, mediaActive: bool)
      requires At(m) && Tracks() && machine == DialTake(setup, m, ev) && !IsConfirm(ev)
      requires media0 == m.media && timeoutHit == m.timeoutHit
      modifies this
      ensures Synced() && StillRunning(over.Pending?) && pos >= old(pos)
      ensures over.Got? ==>
                machine.pc == if over.value then Returned else if m.answered && mediaActive then DialExit else DialLoop
      ensures over.Got? && !over.value ==> SameLocals(m.(media := mediaActive), machine)
    {
      hide Tracks, Exec, Asks, Summary, Absorb, Setup.CallId, Next, Disconnect, AnswerTimedOut;
      mediaActive := media0;
      log := log + [Took(ev)];
      over := Got(false);
      if IsState(ev, INV_STATE_EARLY) {
        EmitStatus(RINGING);
      } else if IsDisconnect(ev) {
        if timeoutHit {
          var _ :- HandleDisconnect(Act(m, Took(ev)), 487, AnswerTimedOut());
        } else {
          var _ :- HandleDisconnect(Act(m, Took(ev)), ev.code, ev.why);
        }
        over := Got(true);
      } else if ev.MediaState? && ev.active {
        mediaActive := true;
      }
    }

    /** The answer timeout at the head of the loop. */
    method CheckAnswerTimeout(deadline: uint64) returns (hit: Outcome<bool>)
      requires Synced() && machine.pc == DialTimeout && machine.deadline == deadline && !machine.timeoutHit
      modifies this
      ensures Synced() && StillRunning(hit.Pending?) && pos >= old(pos)
      ensures hit.Got? ==> machine.pc == (if hit.value then DialSafety else DialWait)
                           && SameLocals(old(machine).(timeoutHit := hit.value), machine)
    {
      hide Tracks, Exec, Asks, Summary, Absorb, Setup.CallId, NextReg, NextPlay, NextEnd;
      hide DialTake, Confirm, CancelByUser, SetUpRecording, StartDeadline, CheckSafetyNet;
      AsksForClock();
      var now :- NowMs();
      if now >= deadline {
        log := log + [Hangup];
      }
      hit := Got(now >= deadline);
    }

    /** The safety net below it. */
    method CheckSafety(deadline: uint64) returns (over: Outcome<bool>)
      requires Synced() && machine.pc == DialSafety && machine.deadline == deadline
      modifies this
      ensures Ends(over, DialWait) && pos >= old(pos)
      ensures over.Got? && !over.value ==> SameLocals(old(machine), machine)
    {
      hide Tracks, Exec, Asks, Summary, Absorb, Setup.CallId, NextReg, NextPlay, NextEnd;
      hide DialTake, Confirm, CancelByUser, SetUpRecording, StartDeadline, CheckTimeout, AnswerTimedOut, Add64;
      AsksForClock();
      var now :- NowMs();
      if now >= Add64(deadline, SAFETY_NET_MS) {
        result := result.(status := NO_ANSWER, reason := AnswerTimedOut());
        EmitEvent(AgentEvent(NO_ANSWER, setup.CallId(), "", 0, 0, AnswerTimedOut(), true));
        return Got(true);
      }
      return Got(false);
    }

    /** The wait at the foot of the loop and what it brings. */
    method AwaitDialEvent(answered0: bool, media0: bool, timeoutHit: bool)
      returns (round: Outcome<Round>, answered: bool, mediaActive: bool)
      requires Synced() && machine.pc == DialWait
      requires machine.answered == answered0 && machine.media == media0 && machine.timeoutHit == timeoutHit
      modifies this
      ensures Synced() && StillRunning(round.Pending?) && pos >= old(pos)
      ensures round.Got? ==>
                machine.pc == match round.value case Again => DialLoop case Leave => DialExit case Over => Returned
      ensures round.Got? && !round.value.Over? ==>
                SameLocals(old(machine).(answered := answered, media := mediaActive), machine)
    {
      hide Tracks, Exec, Asks, Next, Summary, Absorb, DialTake;
      AsksForEvent();
      answered, mediaActive := answered0, media0;
      ghost var m := machine;
      var ev :- WaitEvent(500);
      NextInDial(setup, m, Last());
      if ev.None? {
        round := Got(Again);
        return;
      }
      if IsConfirm(ev.value) {
        answered := true;
        Provisional(m, ev.value);
        var _ :- PickUp();
      } else {
        var ended;
        ended, mediaActive := TakeDialEvent(m, ev.value, mediaActive, timeoutHit);
        var disconnected :- ended;
        if disconnected {
          round := Got(Over);
          return;
        }
      }
      round := Got(if answered && mediaActive then Leave else Again);
    }

    method AwaitAnswer() returns (over: Outcome<bool>)
      requires Synced() && machine.pc == DialClock
      modifies this
      ensures Ends(over, DialExit)
    {
      hide Tracks, Exec, Asks, Next, Summary, Absorb, DialTake, Add64;
      AsksForClock();
      AsksForFlag();
      var answered, mediaActive, timeoutHit := false, false, false;
      ghost var m := machine;
      var now :- NowMs();
      NextInDial(setup, m, Last());
      var deadline := Add64(now, setup.config.answerTimeoutS * 1000);
      while true
        invariant Synced() && machine.pc == DialLoop && machine.deadline == deadline
        invariant machine.answered == answered && machine.media == mediaActive && machine.timeoutHit == timeoutHit
        decreases |script| - pos
      {
        m := machine;
        var cancelled :- Cancelled();
        NextInDial(setup, m, Last());
        if cancelled {
          break;
        }
        if !answered && !timeoutHit {
          timeoutHit :- CheckAnswerTimeout(deadline);
        }
        if timeoutHit {
          var givenUp :- CheckSafety(deadline);
          if givenUp {
            return Got(true);
          }
        }
        var ended;
        ended, answered, mediaActive := AwaitDialEvent(answered, mediaActive, timeoutHit);
        var round :- ended;
        if round.Over? {
          return Got(true);
        }
        if round.Leave? {
          break;
        }
      }
      return Got(false);
    }

    /** CONFIRMED: the provisional status, refined by `handleDisconnect` later. */
    method Provisional(ghost m: Call, ev: InternalEvent)
      requires At(m) && Tracks() && machine == DialTake(setup, m, ev) && IsConfirm(ev)
      modifies this`log, this`result
      ensures Synced() && machine.pc == DialConfirm && SameLocals(m.(answered := true), machine)
    {
      hide Tracks, Exec, Summary, Absorb;
      log := log + [Took(ev)];
      result := result.(status := ANSWERED);
    }

    // ---- Step 5 ------------------------------------------------------------------

    method SetUp() returns (over: Outcome<bool>)
      requires Synced() && machine.pc == DialExit
      modifies this
      ensures Ends(over, DelayClock)
    {
      hide Tracks, Exec, Asks, Next, Summary, Absorb, CancelledByUser, SetUpRecording;
      AsksForFlag();
      ghost var m := machine;
      var cancelled :- Cancelled();
      NextInDelay(setup, m, Last());
      if cancelled {
        log := log + [Hangup];
        result := result.(status := CANCELLED, reason := CancelledByUser());
        return Got(true);
      }
      var givenUp := Record(m);
      return Got(givenUp);
    }

    /** Nothing to do for a call that is already over; else the recorder. */
    method Record(ghost m: Call) returns (over: bool)
      requires At(m) && Tracks() && machine == SetUpRecording(setup, m)
      modifies this`log, this`result
      ensures Synced() && machine.pc == if over then Returned else DelayClock
    {
      hide Tracks, Exec, Summary, Absorb, Setup.RecPath;
      if result.status == FAILED || result.status == BUSY || result.status == NO_ANSWER {
        return true;
      }
      var recPath := setup.RecPath();
      log := log + [StartRecorder(recPath)];
      result := result.(recordingPath := recPath);
      return false;
    }

    method AnswerDelay() returns (done: Outcome<()>)
      requires Synced() && machine.pc == DelayClock
      modifies this
      ensures Synced() && StillRunning(done.Pending?)
      ensures done.Got? ==> machine.pc == DelayExit
    {
      hide Tracks, Exec, Asks, Next, Summary, Absorb, Add64, HangUpCancelled, EmitState;
      AsksForClock();
      AsksForFlag();
      AsksForEvent();
      var playAt := Add64(callConnectedMs, setup.config.answerDelayS * 1000);
      ghost var m;
      while true
        invariant Synced() && machine.pc == DelayClock && playAt == Add64(callConnectedMs, setup.config.answerDelayS * 1000)
        decreases |script| - pos
      {
        m := machine;
        var now :- NowMs();
        NextInDelay(setup, m, Last());
        if now >= playAt {
          break;
        }
        m := machine;
        var stop :- Cancelled();
        NextInDelay(setup, m, Last());
        if stop {
          break;
        }
        m := machine;
        var _ :- SleepMs(50);
        NextInDelay(setup, m, Last());
      }
      return Got(());
    }

    method AnnouncePlaying() returns (over: Outcome<bool>)
      requires Synced() && machine.pc == DelayExit
      modifies this
      ensures Ends(over, PlayClock)
    {
      hide Tracks, Exec, Asks, Next, Summary, Absorb, Setup.CallId, HangUpCancelled;
      AsksForFlag();
      ghost var m := machine;
      var cancelled :- Cancelled();
      NextInDelay(setup, m, Last());
      if cancelled {
        HangUpAsCancelled(m);
        return Got(true);
      }
      EmitStatus(PLAYING);
      return Got(false);
    }

    // ---- Step 6 ------------------------------------------------------------------

    method StartPlaying() returns (started: Outcome<()>)
      requires Synced() && machine.pc == PlayClock
      modifies this
      ensures Synced() && StillRunning(started.Pending?)
      ensures started.Got? ==> machine.pc == PlayLoop
    {
      hide Tracks, Exec, Asks, Next, Summary, Absorb, Setup.PlayPath;
      AsksForClock();
      ghost var m := machine;
      var now :- NowMs();
      NextInPlay(setup, m, Last());
      playbackStartedMs := now;
      log := log + [StartPlayer(setup.PlayPath())];
      started := Got(());
    }

    /** After the cap: waits for the DISCONNECTED, or to be cancelled. */
    method Drain() returns (over: Outcome<bool>)
      requires Synced() && machine.pc == DrainLoop
      modifies this
      ensures Ends(over, PlayExit) && pos >= old(pos)
    {
      hide Tracks, Exec, Asks, Next, Summary, Absorb, TakeOrDisconnect;
      AsksForFlag();
      AsksForEvent();
      ghost var m;
      while true
        invariant Synced() && machine.pc == DrainLoop && pos >= old(pos)
        decreases |script| - pos
      {
        m := machine;
        var cancelled :- Cancelled();
        NextInPlay(setup, m, Last());
        if cancelled {
          break;
        }
        m := machine;
        var ev :- WaitEvent(500);
        NextInPlay(setup, m, Last());
        var ended :- EndOnEvent(m, ev, DrainLoop);
        if ended {
          return Got(true);
        }
      }
      return Got(false);
    }

    method CheckCallCap() returns (capped: Outcome<bool>)
      requires Synced() && machine.pc == PlayCap
      modifies this
      ensures Synced() && StillRunning(capped.Pending?) && pos >= old(pos)
      ensures capped.Got? ==> machine.pc == if capped.value then DrainLoop else PlayLoop
    {
      hide Tracks, Exec, Asks, Next, Summary, Absorb, Sub64;
      AsksForClock();
      ghost var m := machine;
      var now :- NowMs();
      NextInPlay(setup, m, Last());
      if Sub64(now, callConnectedMs) >= MAX_CALL_MS {
        log := log + [Hangup];
        return Got(true);
      }
      return Got(false);
    }

    method Finished(ghost m: Call)
      requires At(m) && Tracks() && machine == FinishPlayback(setup, m)
      modifies this`log
      ensures Synced() && machine.pc == PlayExit
    {
      hide Tracks, Exec, Summary, Absorb;
      log := log + [Took(PlaybackEof)];
      EmitStatus(PLAYED);
    }

    method AwaitPlayed() returns (over: Outcome<bool>)
      requires Synced() && machine.pc == PlayLoop
      modifies this
      ensures Ends(over, PlayExit)
    {
      hide Tracks, Exec, Asks, Next, Summary, Absorb, TakeOrDisconnect, FinishPlayback;
      AsksForFlag();
      AsksForEvent();
      ghost var m;
      while true
        invariant Synced() && machine.pc == PlayLoop
        decreases |script| - pos
      {
        m := machine;
        var cancelled :- Cancelled();
        NextInPlay(setup, m, Last());
        if cancelled {
          break;
        }
        m := machine;
        var ev :- WaitEvent(500);
        NextInPlay(setup, m, Last());
        if ev.None? {
          var capped :- CheckCallCap();
          if capped {
            var ended :- Drain();
            return Got(ended);
          }
          continue;
        }
        if ev.value.PlaybackEof? {
          Finished(m);
          break;
        }
        var ended :- EndOnEvent(m, ev, PlayLoop);
        if ended {
          return Got(true);
        }
      }
      return Got(false);
    }

    // ---- Step 7 ------------------------------------------------------------------

    method StartToListen() returns (over: Outcome<bool>)
      requires Synced() && machine.pc == PlayExit
      modifies this
      ensures Ends(over, SilLoop)
      ensures over.Got? && !over.value ==>
                && !machine.silent
                && machine.detector == Arm(Detector(setup.SilenceLevel(), setup.SilenceMs(), 0, false, false))
    {
      hide Tracks, Exec, Asks, Next, Summary, Absorb, HangUpCancelled, Setup.SilenceLevel, Setup.SilenceMs;
      AsksForFlag();
      ghost var m := machine;
      var cancelled :- Cancelled();
      NextInPlay(setup, m, Last());
      if cancelled {
        HangUpAsCancelled(m);
        return Got(true);
      }
      if result.status == FAILED || result.status == BUSY || result.status == NO_ANSWER {
        return Got(true);
      }
      log := log + [ArmDetector];
      return Got(false);
    }

    method HangUpAsCancelled(ghost m: Call)
      requires At(m) && Tracks() && machine == HangUpCancelled(m)
      modifies this`log, this`result
      ensures Synced() && machine.pc == Returned
    {
      hide Tracks, Exec, Summary, Absorb;
      log := log + [Hangup];
      result := result.(status := CANCELLED);
    }

    /** Polls the level and feeds the detector. */
    method PollLevel(sd: SilenceDetector) returns (fired: Outcome<bool>)
      requires Synced() && machine.pc == SilLevel && !machine.silent
      requires sd.Valid() && sd.Value() == machine.detector
      modifies this, sd
      ensures Synced() && pos >= old(pos) && sd.Valid()
      ensures fired.Pending? ==> pos == |script| && machine.pc != Returned
      ensures fired.Got? ==> machine.pc == SilCap && sd.Value() == machine.detector && machine.silent == fired.value
    {
      hide Tracks, Exec, Asks, Next, Summary, Absorb, FeedDetector;
      AsksForClock();
      AsksForEvent();
      ghost var m := machine;
      var level :- RxLevel();
      NextInEnd(setup, m, Last());
      m := machine;
      var now :- NowMs();
      NextInEnd(setup, m, Last());
      var silent := FeedAt(m, sd, level, now);
      fired := Got(silent);
    }

    method FeedAt(ghost m: Call, sd: SilenceDetector, level: uint32, now: uint64) returns (fired: bool)
      requires At(m) && Tracks() && machine == FeedDetector(m, now) && m.level == level && !m.silent
      requires sd.Valid() && sd.Value() == m.detector
      modifies this`log, sd
      ensures Synced() && sd.Valid()
      ensures machine.pc == SilCap && sd.Value() == machine.detector && machine.silent == fired
    {
      hide Tracks, Exec, Summary, Absorb, Feed, Replay;
      log := log + [Poll(Sample(level, now))];
      fired := sd.FeedLevel(level, now);
    }

    /** The cap on the call, checked after every poll; true when it is time to hang up. */
    method CheckListening(fired: bool) returns (silent: Outcome<bool>)
      requires Synced() && machine.pc == SilCap && machine.silent == fired
      modifies this
      ensures Synced() && StillRunning(silent.Pending?) && pos >= old(pos)
      ensures silent.Got? ==> machine.pc == if silent.value then SilExit else SilLoop
      ensures silent.Got? && !silent.value ==> machine.detector == old(machine.detector) && !machine.silent
    {
      hide Tracks, Exec, Asks, Next, Summary, Absorb, Sub64;
      AsksForClock();
      ghost var m := machine;
      var now :- NowMs();
      NextInEnd(setup, m, Last());
      silent := Got(Sub64(now, callConnectedMs) >= MAX_CALL_MS || fired);
    }

    /** The rest of a turn of the silence loop, once the flag has been found unset. */
    method ListenOnce(sd: SilenceDetector) returns (round: Outcome<Round>)
      requires Synced() && machine.pc == SilWait && !machine.silent
      requires sd.Valid() && sd.Value() == machine.detector
      modifies this, sd
      ensures Synced() && StillRunning(round.Pending?) && pos >= old(pos) && sd.Valid()
      ensures round.Got? ==>
                machine.pc == match round.value case Again => SilLoop case Leave => SilExit case Over => Returned
      ensures round.Got? && round.value.Again? ==> sd.Value() == machine.detector && !machine.silent
    {
      hide Tracks, Exec, Asks, Next, Summary, Absorb, TakeOrDisconnect;
      AsksForEvent();
      ghost var m := machine;
      var ev :- WaitEvent(100);
      NextInEnd(setup, m, Last());
      var ended :- EndOnEvent(m, ev, SilLevel);
      if ended {
        return Got(Over);
      }
      var fired :- PollLevel(sd);
      var silent :- CheckListening(fired);
      return Got(if silent then Leave else Again);
    }

    method AwaitSilence(sd: SilenceDetector) returns (over: Outcome<bool>)
      requires Synced() && machine.pc == SilLoop && !machine.silent
      requires sd.Valid() && sd.Value() == machine.detector
      modifies this, sd
      ensures Ends(over, SilExit)
    {
      hide Tracks, Exec, Asks, Next, Summary, Absorb, TakeOrDisconnect;
      AsksForFlag();
      while true
        invariant Synced() && machine.pc == SilLoop && !machine.silent
        invariant sd.Valid() && sd.Value() == machine.detector
        decreases |script| - pos
      {
        ghost var m := machine;
        var cancelled :- Cancelled();
        NextInEnd(setup, m, Last());
        if cancelled {
          break;
        }
        var round :- ListenOnce(sd);
        if round == Over {
          return Got(true);
        } else if round == Leave {
          break;
        }
      }
      return Got(false);
    }

    method HangUpSilent() returns (over: Outcome<bool>)
      requires Synced() && machine.pc == SilExit
      modifies this
      ensures Ends(over, EndLoop)
    {
      hide Tracks, Exec, Asks, Next, Summary, Absorb, HangUpOnSilence, ReturnCancelled;
      AsksForFlag();
      ghost var m := machine;
      var cancelled :- Cancelled();
      NextInEnd(setup, m, Last());
      if cancelled {
        MarkCancelled(m);
        return Got(true);
      }
      AnnounceSilence(m);
      return Got(false);
    }

    method AnnounceSilence(ghost m: Call)
      requires At(m) && Tracks() && machine == HangUpOnSilence(setup, m)
      modifies this`log
      ensures Synced() && machine.pc == EndLoop
    {
      hide Tracks, Exec, Summary, Absorb, Setup.CallId;
      EmitEvent(AgentEvent(SILENCE_DETECTED, setup.CallId(), "", setup.config.silenceS, 0, "", false));
      EmitStatus(HANGING_UP);
      log := log + [Hangup];
    }

    // ---- Step 8 ------------------------------------------------------------------

    method AwaitDisconnect() returns (done: Outcome<()>)
      requires Synced() && machine.pc == EndLoop
      modifies this
      ensures Synced() && StillRunning(done.Pending?)
      ensures done.Got? ==> machine.pc == Returned
    {
      hide Tracks, Exec, Asks, Next, Summary, Absorb, TakeOrDisconnect, ReturnCancelled;
      AsksForFlag();
      AsksForEvent();
      ghost var m;
      while true
        invariant Synced() && machine.pc == EndLoop
        decreases |script| - pos
      {
        m := machine;
        var cancelled :- Cancelled();
        NextInEnd(setup, m, Last());
        if cancelled {
          break;
        }
        m := machine;
        var ev :- WaitEvent(500);
        NextInEnd(setup, m, Last());
        var ended :- EndOnEvent(m, ev, EndLoop);
        if ended {
          return Got(());
        }
      }
      MarkCancelled(m);
      return Got(());
    }

    // ---- run ---------------------------------------------------------------------

    /** Steps 1 to 4 */
    method Connect() returns (over: Outcome<bool>)
      requires Synced() && machine == Begin(setup)
      modifies this
      ensures Ends(over, DialExit)
    {
      hide Tracks, Exec, Begin, Summary;
      var failed :- Initialise();
      if failed { return Got(true); }
      failed :- AwaitRegistration();
      if failed { return Got(true); }
      failed :- DialOut();
      if failed { return Got(true); }
      over := AwaitAnswer();
    }

    /** Steps 5 and 6 */
    method Play() returns (over: Outcome<bool>)
      requires Synced() && machine.pc == DialExit
      modifies this
      ensures Ends(over, PlayExit)
    {
      hide Tracks, Exec, Summary;
      var stopped :- SetUp();
      if stopped { return Got(true); }
      var _ :- AnswerDelay();
      stopped :- AnnouncePlaying();
      if stopped { return Got(true); }
      var _ :- StartPlaying();
      over := AwaitPlayed();
    }

    /** Steps 7 and 8 */
    method Listen() returns (done: Outcome<()>)
      requires Synced() && machine.pc == PlayExit
      modifies this
      ensures Synced() && StillRunning(done.Pending?)
      ensures done.Got? ==> machine.pc == Returned
    {
      hide Tracks, Exec, Summary, Setup.SilenceLevel, Setup.SilenceMs;
      var over :- StartToListen();
      if over { return Got(()); }
      var sd := new SilenceDetector(setup.SilenceLevel(), setup.SilenceMs());
      sd.Rearm();
      over :- AwaitSilence(sd);
      if over { return Got(()); }
      over :- HangUpSilent();
      if over { return Got(()); }
      done := AwaitDisconnect();
    }

    /** `run`: on every script it does exactly what the machine does, in the same order,
        and returns the machine's record; it is pending exactly when the machine,
        having used up the script, has not returned. */
    method Run() returns (r: Outcome<AgentEvent>)
      requires Synced() && pos == 0
      modifies this
      ensures pos <= |script|
      ensures var s := Exec(setup, script[..pos]);
              && log == s.log && result == s.result
              && callConnectedMs == s.connectedMs && playbackStartedMs == s.playbackMs
              && (r.Pending? ==> pos == |script| && s.pc != Returned)
              && (r.Got? ==> s.pc == Returned && r.value == s.result)
    {
      hide Begin, Summary, Next;
      var over :- Connect();
      if over { return Got(result); }
      over :- Play();
      if over { return Got(result); }
      var _ :- Listen();
      return Got(result);
    }
  }
}
