/** What one read does to the log: it only grows, what is taken is exactly what the wait handed
    over, and every action is made at the program point where it belongs. */
module CallIntake {
  import opened MachineInts
  import opened Events
  import opened Silence
  import opened CallGrammar
  import opened CallMachine

  /** A read: the state in which `run` makes it, and the answer. */
  datatype Spot = Spot(call: Call, tick: Tick)

  /** Where `handleDisconnect` may be under way: at a wait that can bring a DISCONNECTED, or billing. */
  predicate EndsCall(pc: Pc) {
    pc.Bill? || pc.DialWait? || pc.PlayWait? || pc.DrainWait? || pc.SilWait? || pc.EndWait?
  }

  /** The reads at which an action may be done, and what it carries from there. */
  predicate Belongs(setup: Setup, at: Spot, a: Action) {
    var s, u := at.call, at.tick;
    match a
    case Emit(ev) => EventBelongs(setup, at, ev)
    case Took(ev) => Asks(s.pc).AskEvent? && u.event == Some(ev)
    case PlaceCall => s.pc.RegExit? && !u.cancelled
    case Hangup =>
      || (s.pc.DialTimeout? && s.deadline <= u.now)
      || ((s.pc.DialExit? || s.pc.DelayExit? || s.pc.PlayExit?) && u.cancelled)
      || (s.pc.PlayCap? && Sub64(u.now, s.connectedMs) >= 600000)
      || (s.pc.SilExit? && !u.cancelled)
    case SetCallStart(ms) => s.pc.DialConfirm? && ms == u.now
    case StartRecorder(path) => s.pc.DialExit? && !u.cancelled && path == RecordingOf(setup)
    case StopRecorder => EndsCall(s.pc)
    case StartPlayer(path) => s.pc.PlayClock? && path == setup.PlayPath()
    case ArmDetector => s.pc.PlayExit? && !u.cancelled
    case Poll(sample) => s.pc.SilFeed? && sample == Sample(s.level, u.now)
  }

  /** The call id, and with it the path of the recording. */
  function CallIdOf(setup: Setup): string {
    setup.config.destination + "@" + setup.config.sipHost
  }

  function RecordingOf(setup: Setup): string {
    setup.config.recordDir + "/" + CallIdOf(setup) + ".wav"
  }

  predicate EventBelongs(setup: Setup, at: Spot, ev: AgentEvent) {
    && ev.callId == (if at.call.pc.RegInit? && ev.status == FAILED then "" else CallIdOf(setup))
    && if ev.isResult
       then (EndsCall(at.call.pc) && FourOutcomes(ev.status)) || (at.call.pc.DialSafety? && ev.status == NO_ANSWER)
       else StateBelongs(setup, at, ev)
  }

  /** Events that are not flagged as results. */
  predicate StateBelongs(setup: Setup, at: Spot, ev: AgentEvent) {
    var pc, u := at.call.pc, at.tick;
    match ev.status
    case REGISTERING => pc.RegInit?
    case REGISTERED => pc.RegWait? && u.event.Some? && u.event.value.RegState? && u.event.value.connected
    case DIALING => pc.RegExit? && !u.cancelled
    case RINGING => pc.DialWait? && u.event.Some? && IsState(u.event.value, 3)
    case ANSWERED => pc.DialConfirm?
    case PLAYING => pc.DelayExit? && !u.cancelled
    case PLAYED => pc.PlayWait? && u.event == Some(PlaybackEof)
    case SILENCE_DETECTED => pc.SilExit? && !u.cancelled && ev.billingSeconds == setup.config.silenceS
    case HANGING_UP => pc.SilExit? && !u.cancelled
    case RECORDING_READY => EndsCall(pc)
    case FAILED => RegistrationFails(setup, at, ev.sipCode, ev.reason)
    case BUSY => false
    case NO_ANSWER => false
    case CANCELLED => false
    case DISCONNECTED => false
  }

  /** Why Step 1 or 2 may fail, and what the record has to say about it. */
  predicate RegistrationFails(setup: Setup, at: Spot, code: int32, reason: string) {
    var s, u := at.call, at.tick;
    || (s.pc.RegInit? && !setup.initOk && code == 0 && reason == InitFailed())
    || (s.pc.RegWait? && u.event == Some(RegState(false, code, reason)))
    || (s.pc.RegClock? && Sub64(u.now, s.regStart) >= 15000 && code == 0 && reason == RegTimedOut())
  }

  lemma Ids(setup: Setup)
    ensures setup.CallId() == CallIdOf(setup) && setup.RecPath() == RecordingOf(setup)
  {
  }

  /** At `at` the log has grown from `p` to `q`, and `evs` have been taken. */
  ghost predicate Grown(setup: Setup, at: Spot, p: seq<Action>, q: seq<Action>, evs: seq<InternalEvent>) {
    && p <= q && Summary(q).taken == Summary(p).taken + evs
    && forall i :: |p| <= i < |q| ==> Belongs(setup, at, q[i])
  }

  lemma Acts(setup: Setup, at: Spot, s: Call, a: Action)
    requires Belongs(setup, at, a)
    ensures Grown(setup, at, s.log, Act(s, a).log, if a.Took? then [a.taken] else [])
  {
    hide Summary, Delta, Belongs;
  }

  lemma Stays(setup: Setup, at: Spot, p: seq<Action>)
    ensures Grown(setup, at, p, p, [])
  {
    hide Summary;
  }

  lemma GrownTwice(setup: Setup, at: Spot, p: seq<Action>, q: seq<Action>, r: seq<Action>, evs: seq<InternalEvent>)
    requires Grown(setup, at, p, q, evs) && Grown(setup, at, q, r, [])
    ensures Grown(setup, at, p, r, evs)
  {
    hide Summary, Belongs;
  }

  // ---- Step by step -------------------------------------------------------------------------

  lemma GrownFail(setup: Setup, at: Spot, s: Call, callId: string, code: int32, reason: string)
    requires callId == (if at.call.pc.RegInit? then "" else setup.CallId())
    requires RegistrationFails(setup, at, code, reason)
    ensures Grown(setup, at, s.log, Fail(s, callId, code, reason).log, [])
  {
    hide Grown, Act, Setup.CallId;
    Ids(setup);
    var s1 := s.(result := s.result.(status := FAILED, sipCode := code, reason := reason));
    Acts(setup, at, s1, Emit(AgentEvent(FAILED, callId, "", 0, code, reason, false)));
  }

  lemma GrownState(setup: Setup, at: Spot, s: Call, status: CallStatus)
    requires StateBelongs(setup, at, AgentEvent(status, setup.CallId(), "", 0, 0, "", false)) && status != FAILED
    ensures Grown(setup, at, s.log, EmitState(setup, s, status).log, [])
  {
    hide Grown, Act, Setup.CallId;
    Ids(setup);
    Acts(setup, at, s, Emit(AgentEvent(status, setup.CallId(), "", 0, 0, "", false)));
  }

  lemma GrownSettle(setup: Setup, at: Spot, s: Call, code: int32, reason: string, bill: uint32)
    requires EndsCall(at.call.pc)
    ensures Grown(setup, at, s.log, Settle(setup, s, code, reason, bill).log, [])
  {
    hide Grown, Act, Setup.CallId, SipCodeToCallStatus;
    Ids(setup);
    var status := if s.connectedMs > 0 then ANSWERED else SipCodeToCallStatus(code);
    var path := s.result.recordingPath;
    var s1 := s.(result := s.result.(status := status, sipCode := code, reason := reason, billingSeconds := bill));
    var s3 := GrownReady(setup, at, s1, path, bill);
    var final := Emit(AgentEvent(status, setup.CallId(), path, bill, code, reason, true));
    Acts(setup, at, s3, final);
    GrownTwice(setup, at, s.log, s3.log, Act(s3, final).log, []);
  }

  lemma GrownReady(setup: Setup, at: Spot, s: Call, path: string, bill: uint32) returns (r: Call)
    requires EndsCall(at.call.pc)
    ensures Grown(setup, at, s.log, r.log, [])
    ensures r == if path == "" then Act(s, StopRecorder)
                 else Act(Act(s, StopRecorder), Emit(AgentEvent(RECORDING_READY, setup.CallId(), path, bill, 0, "", false)))
  {
    hide Grown, Act, Setup.CallId;
    Ids(setup);
    var s2 := Act(s, StopRecorder);
    Acts(setup, at, s, StopRecorder);
    r := s2;
    if path != "" {
      var ready := Emit(AgentEvent(RECORDING_READY, setup.CallId(), path, bill, 0, "", false));
      Acts(setup, at, s2, ready);
      r := Act(s2, ready);
      GrownTwice(setup, at, s.log, s2.log, r.log, []);
    }
  }

  lemma GrownDisconnect(setup: Setup, at: Spot, s: Call, code: int32, reason: string)
    requires EndsCall(at.call.pc)
    ensures Grown(setup, at, s.log, Disconnect(setup, s, code, reason).log, [])
  {
    hide Grown, Settle;
    Stays(setup, at, s.log);
    GrownSettle(setup, at, s, code, reason, 0);
  }

  function Brought(event: Option<InternalEvent>): seq<InternalEvent> {
    if event.Some? then [event.value] else []
  }

  lemma GrownTake(setup: Setup, at: Spot, s: Call, event: Option<InternalEvent>, other: Pc)
    requires at.call.pc.PlayWait? || at.call.pc.DrainWait? || at.call.pc.SilWait? || at.call.pc.EndWait?
    requires at.tick.event == event
    ensures Grown(setup, at, s.log, TakeOrDisconnect(setup, s, event, other).log, Brought(event))
  {
    hide Grown, Act, Disconnect, Summary;
    if event.None? {
      Stays(setup, at, s.log);
    } else {
      var s1 := Act(s, Took(event.value));
      Acts(setup, at, s, Took(event.value));
      if IsDisconnect(event.value) {
        var ev := event.value;
        GrownDisconnect(setup, at, s1, ev.code, ev.why);
        GrownTwice(setup, at, s.log, s1.log, Disconnect(setup, s1, ev.code, ev.why).log, [ev]);
      }
    }
  }

  lemma GrownInit(setup: Setup, at: Spot, s: Call)
    requires at.call.pc.RegInit?
    ensures Grown(setup, at, s.log, Init(setup, s).log, [])
  {
    hide Grown, EmitState, Fail, InitFailed;
    if setup.initOk {
      GrownState(setup, at, s, REGISTERING);
    } else {
      GrownFail(setup, at, s, "", 0, InitFailed());
    }
  }

  lemma GrownRegTake(setup: Setup, at: Spot, s: Call, ev: InternalEvent)
    requires at.call.pc.RegWait? && at.tick.event == Some(ev)
    ensures Grown(setup, at, s.log, RegTake(setup, s, ev).log, [ev])
  {
    hide Grown, Act, EmitState, Fail, Setup.CallId;
    var s1 := Act(s, Took(ev));
    Acts(setup, at, s, Took(ev));
    if ev.RegState? && ev.connected {
      GrownState(setup, at, s1, REGISTERED);
      GrownTwice(setup, at, s.log, s1.log, EmitState(setup, s1, REGISTERED).log, [ev]);
    } else if ev.RegState? {
      GrownFail(setup, at, s1, setup.CallId(), ev.code, ev.why);
      GrownTwice(setup, at, s.log, s1.log, Fail(s1, setup.CallId(), ev.code, ev.why).log, [ev]);
    }
  }

  lemma GrownRegClock(setup: Setup, at: Spot, s: Call, now: uint64)
    requires at.call.pc.RegClock? && at.call.regStart == s.regStart && at.tick.now == now
    ensures Grown(setup, at, s.log, CheckRegClock(setup, s, now).log, [])
  {
    hide Grown, Fail, Sub64, Setup.CallId, RegTimedOut;
    Stays(setup, at, s.log);
    if Sub64(now, s.regStart) >= REG_TIMEOUT_MS {
      GrownFail(setup, at, s, setup.CallId(), 0, RegTimedOut());
    }
  }

  lemma GrownDial(setup: Setup, at: Spot, s: Call)
    requires at.call.pc.RegExit? && !at.tick.cancelled
    ensures Grown(setup, at, s.log, Dial(setup, s).log, [])
  {
    hide Grown, Act, EmitState;
    GrownState(setup, at, s, DIALING);
    Acts(setup, at, EmitState(setup, s, DIALING), PlaceCall);
    GrownTwice(setup, at, s.log, EmitState(setup, s, DIALING).log, Dial(setup, s).log, []);
  }

  lemma GrownReg(setup: Setup, s: Call, u: Tick)
    requires InReg(s.pc)
    ensures Grown(setup, Spot(s, u), s.log, NextReg(setup, s, u).log,
                  if s.pc.RegWait? then Brought(u.event) else [])
  {
    hide Grown, Init, RegTake, CheckRegClock, Dial, CancelledEarly, Summary, Asks;
    var at := Spot(s, u);
    Stays(setup, at, s.log);
    if s.pc.RegInit? {
      GrownInit(setup, at, s);
    } else if s.pc.RegWait? && u.event.Some? {
      AsksForEvent();
      GrownRegTake(setup, at, s, u.event.value);
    } else if s.pc.RegExit? && !u.cancelled {
      GrownDial(setup, at, s);
    } else if s.pc.RegClock? {
      GrownRegClock(setup, at, s, u.now);
    }
  }

  lemma GrownDialTake(setup: Setup, at: Spot, s: Call, ev: InternalEvent)
    requires at.call.pc.DialWait? && at.tick.event == Some(ev)
    ensures Grown(setup, at, s.log, DialTake(setup, s, ev).log, [ev])
  {
    hide Grown, Act, EmitState, Disconnect, AnswerTimedOut;
    var s1 := Act(s, Took(ev));
    Acts(setup, at, s, Took(ev));
    if IsState(ev, INV_STATE_EARLY) {
      GrownState(setup, at, s1, RINGING);
      GrownTwice(setup, at, s.log, s1.log, EmitState(setup, s1, RINGING).log, [ev]);
    } else if IsDisconnect(ev) {
      GrownDisconnect(setup, at, s1, 487, AnswerTimedOut());
      GrownTwice(setup, at, s.log, s1.log, Disconnect(setup, s1, 487, AnswerTimedOut()).log, [ev]);
      GrownDisconnect(setup, at, s1, ev.code, ev.why);
      GrownTwice(setup, at, s.log, s1.log, Disconnect(setup, s1, ev.code, ev.why).log, [ev]);
    }
  }

  lemma GrownConfirm(setup: Setup, at: Spot, s: Call, now: uint64)
    requires at.call.pc.DialConfirm? && at.tick.now == now
    ensures Grown(setup, at, s.log, Confirm(setup, s, now).log, [])
  {
    hide Grown, Act, EmitState;
    var s1 := Act(s.(connectedMs := now), SetCallStart(now));
    Acts(setup, at, s.(connectedMs := now), SetCallStart(now));
    GrownState(setup, at, s1, ANSWERED);
    GrownTwice(setup, at, s.log, s1.log, EmitState(setup, s1, ANSWERED).log, []);
  }

  lemma GrownTimeout(setup: Setup, at: Spot, s: Call, now: uint64)
    requires at.call == s && s.pc.DialTimeout? && at.tick.now == now
    ensures Grown(setup, at, s.log, CheckTimeout(s, now).log, [])
  {
    hide Grown, Act;
    Stays(setup, at, s.log);
    if now >= s.deadline {
      Acts(setup, at, s.(timeoutHit := true), Hangup);
    }
  }

  lemma GrownSafetyNet(setup: Setup, at: Spot, s: Call, now: uint64)
    requires at.call.pc.DialSafety?
    ensures Grown(setup, at, s.log, CheckSafetyNet(setup, s, now).log, [])
  {
    hide Grown, Act, Setup.CallId, AnswerTimedOut, Add64;
    Ids(setup);
    Stays(setup, at, s.log);
    Acts(setup, at, s.(result := s.result.(status := NO_ANSWER, reason := AnswerTimedOut())),
         Emit(AgentEvent(NO_ANSWER, setup.CallId(), "", 0, 0, AnswerTimedOut(), true)));
  }

  lemma GrownCancelByUser(setup: Setup, at: Spot, s: Call)
    requires at.call.pc.DialExit? && at.tick.cancelled
    ensures Grown(setup, at, s.log, CancelByUser(s).log, [])
  {
    hide Grown, Act, CancelledByUser;
    Acts(setup, at, s, Hangup);
  }

  lemma GrownSetUp(setup: Setup, at: Spot, s: Call)
    requires at.call.pc.DialExit? && !at.tick.cancelled
    ensures Grown(setup, at, s.log, SetUpRecording(setup, s).log, [])
  {
    hide Grown, Act, Setup.RecPath;
    Ids(setup);
    Stays(setup, at, s.log);
    Acts(setup, at, s, StartRecorder(setup.RecPath()));
  }

  lemma GrownDialling(setup: Setup, s: Call, u: Tick)
    requires InDial(s.pc)
    ensures Grown(setup, Spot(s, u), s.log, NextDial(setup, s, u).log,
                  if s.pc.DialWait? then Brought(u.event) else [])
  {
    hide Grown, CheckTimeout, CheckSafetyNet, DialTake, Confirm, CancelByUser, SetUpRecording, Summary, Add64, Asks;
    var at := Spot(s, u);
    Stays(setup, at, s.log);
    if s.pc.DialWait? && u.event.Some? {
      AsksForEvent();
      GrownDialTake(setup, at, s, u.event.value);
    } else if s.pc.DialConfirm? {
      GrownConfirm(setup, at, s, u.now);
    } else if s.pc.DialExit? {
      if u.cancelled {
        GrownCancelByUser(setup, at, s);
      } else {
        GrownSetUp(setup, at, s);
      }
    } else if s.pc.DialTimeout? {
      GrownTimeout(setup, at, s, u.now);
    } else if s.pc.DialSafety? {
      GrownSafetyNet(setup, at, s, u.now);
    }
  }

  lemma GrownHangUp(setup: Setup, at: Spot, s: Call)
    requires (at.call.pc.DelayExit? || at.call.pc.PlayExit?) && at.tick.cancelled
    ensures Grown(setup, at, s.log, HangUpCancelled(s).log, [])
  {
    hide Grown, Act, Summary;
    Acts(setup, at, s, Hangup);
  }

  lemma GrownCap(setup: Setup, at: Spot, s: Call, now: uint64)
    requires at.call == s && s.pc.PlayCap? && at.tick.now == now
    ensures Grown(setup, at, s.log, CheckCap(s, now).log, [])
  {
    hide Grown, Act, Summary, Sub64;
    Stays(setup, at, s.log);
    if Sub64(now, s.connectedMs) >= MAX_CALL_MS {
      Acts(setup, at, s, Hangup);
    }
  }

  lemma GrownPlayback(setup: Setup, at: Spot, s: Call, now: uint64)
    requires at.call.pc.PlayClock?
    ensures Grown(setup, at, s.log, StartPlayback(setup, s, now).log, [])
  {
    hide Grown, Act, Summary, Setup.PlayPath;
    Acts(setup, at, s.(playbackMs := now, played := false), StartPlayer(setup.PlayPath()));
  }

  lemma GrownPlayed(setup: Setup, at: Spot, s: Call)
    requires at.call.pc.PlayWait? && at.tick.event == Some(PlaybackEof)
    ensures Grown(setup, at, s.log, FinishPlayback(setup, s).log, [PlaybackEof])
  {
    hide Grown, Act, EmitState;
    var s1 := Act(s.(played := true), Took(PlaybackEof));
    Acts(setup, at, s.(played := true), Took(PlaybackEof));
    GrownState(setup, at, s1, PLAYED);
    GrownTwice(setup, at, s.log, s1.log, EmitState(setup, s1, PLAYED).log, [PlaybackEof]);
  }

  lemma GrownListening(setup: Setup, at: Spot, s: Call, now: uint64)
    requires at.call.pc.PlayExit? && !at.tick.cancelled
    ensures Grown(setup, at, s.log, StartListening(setup, s, now).log, [])
  {
    hide Grown, Act, Summary, GivenUp, Setup.SilenceLevel, Setup.SilenceMs, Arm;
    Stays(setup, at, s.log);
    var d := Arm(Detector(setup.SilenceLevel(), setup.SilenceMs(), 0, false, false));
    Acts(setup, at, s.(detector := d, silent := false), ArmDetector);
  }

  lemma GrownPlay(setup: Setup, s: Call, u: Tick)
    requires InPlay(s.pc)
    ensures Grown(setup, Spot(s, u), s.log, NextPlay(setup, s, u).log,
                  if s.pc.PlayWait? || s.pc.DrainWait? then Brought(u.event) else [])
  {
    hide Grown, HangUpCancelled, StartPlayback, FinishPlayback, CheckCap, StartListening, EmitState;
    hide TakeOrDisconnect, Summary, Add64, Asks;
    var at := Spot(s, u);
    Stays(setup, at, s.log);
    if s.pc.PlayWait? || s.pc.DrainWait? {
      AsksForEvent();
      if s.pc.PlayWait? && u.event == Some(PlaybackEof) {
        GrownPlayed(setup, at, s);
      }
      GrownTake(setup, at, s, u.event, if s.pc.PlayWait? then PlayLoop else DrainLoop);
    } else if s.pc.PlayClock? {
      GrownPlayback(setup, at, s, u.now);
    } else if s.pc.PlayCap? {
      GrownCap(setup, at, s, u.now);
    } else if s.pc.DelayExit? {
      if u.cancelled {
        GrownHangUp(setup, at, s);
      } else {
        GrownState(setup, at, s, PLAYING);
      }
    } else if s.pc.PlayExit? {
      if u.cancelled {
        GrownHangUp(setup, at, s);
      } else {
        GrownListening(setup, at, s, u.now);
      }
    }
  }

  lemma GrownFeed(setup: Setup, at: Spot, s: Call, now: uint64)
    requires at.call == s && s.pc.SilFeed? && at.tick.now == now
    ensures Grown(setup, at, s.log, FeedDetector(s, now).log, [])
  {
    hide Grown, Act, Feed;
    var x := Sample(s.level, now);
    var (d, fired) := Feed(s.detector, x);
    Acts(setup, at, s.(detector := d, silent := s.silent || fired), Poll(x));
  }

  lemma GrownAnnouncement(setup: Setup, at: Spot, s: Call)
    requires at.call.pc.SilExit? && !at.tick.cancelled
    ensures Grown(setup, at, s.log, HangUpOnSilence(setup, s).log, [])
  {
    hide Grown, Act, EmitState, Setup.CallId;
    Ids(setup);
    var s1 := Act(s, Emit(AgentEvent(SILENCE_DETECTED, setup.CallId(), "", setup.config.silenceS, 0, "", false)));
    Acts(setup, at, s, Emit(AgentEvent(SILENCE_DETECTED, setup.CallId(), "", setup.config.silenceS, 0, "", false)));
    var s2 := EmitState(setup, s1, HANGING_UP);
    GrownState(setup, at, s1, HANGING_UP);
    GrownTwice(setup, at, s.log, s1.log, s2.log, []);
    Acts(setup, at, s2, Hangup);
    GrownTwice(setup, at, s.log, s2.log, Act(s2, Hangup).log, []);
  }

  lemma GrownEnd(setup: Setup, s: Call, u: Tick)
    requires InListen(s.pc) || s.pc.Bill? || s.pc.Returned?
    ensures Grown(setup, Spot(s, u), s.log, NextEnd(setup, s, u).log,
                  if s.pc.SilWait? || s.pc.EndWait? then Brought(u.event) else [])
  {
    hide Grown, TakeOrDisconnect, FeedDetector, HangUpOnSilence, Settle, BillSeconds, Summary, Sub64, Asks;
    var at := Spot(s, u);
    Stays(setup, at, s.log);
    if s.pc.SilWait? || s.pc.EndWait? {
      AsksForEvent();
      GrownTake(setup, at, s, u.event, if s.pc.SilWait? then SilLevel else EndLoop);
    } else if s.pc.Bill? {
      GrownSettle(setup, at, s.(markMs := u.now), s.hangupCode, s.hangupReason, BillSeconds(s.connectedMs, u.now));
    } else if s.pc.SilFeed? {
      GrownFeed(setup, at, s, u.now);
    } else if s.pc.SilExit? && !u.cancelled {
      GrownAnnouncement(setup, at, s);
    }
  }

  /** What `run` takes at a read is what the wait handed it, nothing is ever taken back, and
      what it does it does where it belongs. */
  lemma NextTakes(setup: Setup, s: Call, u: Tick)
    ensures Grown(setup, Spot(s, u), s.log, Next(setup, s, u).log,
                  if Asks(s.pc).AskEvent? then Brought(u.event) else [])
  {
    hide Grown, NextReg, NextDial, NextPlay, NextEnd, Summary;
    if InReg(s.pc) {
      GrownReg(setup, s, u);
    } else if InDial(s.pc) {
      GrownDialling(setup, s, u);
    } else if InPlay(s.pc) {
      GrownPlay(setup, s, u);
    } else {
      GrownEnd(setup, s, u);
    }
  }

  /** Every action of a run was done at one of its reads, where it belongs. */
  lemma {:induction false} DoneAt(setup: Setup, ts: seq<Tick>, j: nat) returns (k: nat)
    requires j < |Exec(setup, ts).log|
    ensures k < |ts| && |Exec(setup, ts[..k]).log| <= j < |Next(setup, Exec(setup, ts[..k]), ts[k]).log|
    ensures Exec(setup, ts[..k]).log <= Next(setup, Exec(setup, ts[..k]), ts[k]).log <= Exec(setup, ts).log
    ensures Belongs(setup, Spot(Exec(setup, ts[..k]), ts[k]), Exec(setup, ts).log[j])
  {
    hide Next, Summary, Belongs, Begin;
    NothingAtFirst(setup);
    k := |ts| - 1;
    var p := ts[..k];
    NextTakes(setup, Exec(setup, p), ts[k]);
    if j < |Exec(setup, p).log| {
      k := DoneAt(setup, p, j);
      assert p[..k] == ts[..k];
    }
  }

  lemma NothingAtFirst(setup: Setup)
    ensures Exec(setup, []).log == []
  {
  }

  lemma {:induction false} EmittedInLog(log: seq<Action>, e: nat) returns (j: nat)
    requires e < |Summary(log).emitted|
    ensures j < |log| && log[j] == Emit(Summary(log).emitted[e])
  {
    hide Delta;
    j := |log| - 1;
    if e < |Summary(log[..j]).emitted| {
      j := EmittedInLog(log[..j], e);
    }
  }

  lemma {:induction false} StreamGrows(p: seq<Action>, q: seq<Action>)
    requires p <= q
    ensures Summary(p).emitted <= Summary(q).emitted
  {
    hide Delta;
    if p != q {
      assert p <= q[..|q| - 1];
      StreamGrows(p, q[..|q| - 1]);
    } else {
      assert p == q;
    }
  }
}
