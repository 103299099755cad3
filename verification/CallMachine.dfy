/** src/call_executor.cpp as a small-step machine. Every read `run` makes of the
    outside world (the clock, the cancel flag, the event queue, the audio level,
    a sleep) is one step; a step takes the answer from a `Tick` and goes on to
    the next read. What `run` does to the outside world is appended to a log. */
module CallMachine {
  import opened MachineInts
  import opened Events
  import opened Silence
  import opened CallGrammar
  import Tts

  datatype Config = Config(
    destination: string, sipHost: string,
    answerTimeoutS: uint32, answerDelayS: uint32, silenceS: uint32, silenceThreshold: int32,
    recordDir: string, audioType: string, audioPathOrText: string)

  /** The configuration, and whether `SipAgent::init` succeeds. */
  datatype Setup = Setup(config: Config, initOk: bool) {
    function CallId(): string { config.destination + "@" + config.sipHost }

    function RecPath(): (path: string)
      ensures path != ""
    {
      config.recordDir + "/" + CallId() + ".wav"
    }

    function PlayPath(): string {
      if config.audioType == "wav" then config.audioPathOrText
      else if config.audioType == "text" then Tts.SynthPath(config.audioPathOrText, config.recordDir)
      else ""
    }

    function SilenceLevel(): uint32 { Wrap32(config.silenceThreshold) }
    function SilenceMs(): uint32 { Wrap32(config.silenceS * 1000) }
  }

  /** What the outside world answers at one step; a step uses the part it asks for.
      `event` is what `waitEvent` hands over, None when it returns false. */
  datatype Tick = Tick(now: uint64, cancelled: bool, event: Option<InternalEvent>, level: uint32)

  // The reasons `run` writes itself.
  function InitFailed(): string { "failed to initialize SIP agent" }
  function RegTimedOut(): string { "registration timeout" }
  function CancelledEarly(): string { "cancelled before call placed" }
  function CancelledByUser(): string { "cancelled by user" }
  function AnswerTimedOut(): string { "answer timeout" }

  const REG_TIMEOUT_MS: uint64 := 15000
  const SAFETY_NET_MS: uint64 := 10000
  const MAX_CALL_MS: uint64 := 600000

  /** The program points at which `run` reads. */
  datatype Pc =
    | RegInit | RegStarted | RegLoop | RegWait | RegClock | RegExit
    | DialClock | DialLoop | DialTimeout | DialSafety | DialWait | DialConfirm | DialExit
    | DelayClock | DelayLoop | DelaySleep | DelayExit
    | PlayClock | PlayLoop | PlayWait | PlayCap | DrainLoop | DrainWait | PlayExit
    | SilLoop | SilWait | SilLevel | SilFeed | SilCap | SilExit
    | EndLoop | EndWait
    | Bill
    | Returned

  datatype Ask =
    | AskInit | AskClock | AskCancelled | AskEvent(timeoutMs: uint32) | AskLevel | AskSleep(ms: uint32)
    | AskNothing

  /** Which read happens at which point. */
  function Asks(pc: Pc): Ask {
    if pc.RegStarted? || pc.RegClock? || pc.DialClock? || pc.DialTimeout? || pc.DialSafety? || pc.DialConfirm?
       || pc.DelayClock? || pc.PlayClock? || pc.PlayCap? || pc.SilFeed? || pc.SilCap? || pc.Bill? then AskClock
    else if pc.RegLoop? || pc.RegExit? || pc.DialLoop? || pc.DialExit? || pc.DelayLoop? || pc.DelayExit?
            || pc.PlayLoop? || pc.DrainLoop? || pc.PlayExit? || pc.SilLoop? || pc.SilExit? || pc.EndLoop? then AskCancelled
    else if pc.RegWait? || pc.DialWait? || pc.PlayWait? || pc.DrainWait? || pc.EndWait? then AskEvent(500)
    else if pc.SilWait? then AskEvent(100)
    else if pc.SilLevel? then AskLevel
    else if pc.DelaySleep? then AskSleep(50)
    else if pc.RegInit? then AskInit
    else AskNothing
  }

  // The same, spelled out for proofs that hide the function.

  lemma AsksForClock()
    ensures Asks(RegStarted) == Asks(RegClock) == AskClock
    ensures Asks(DialClock) == Asks(DialTimeout) == Asks(DialSafety) == Asks(DialConfirm) == AskClock
    ensures Asks(DelayClock) == Asks(PlayClock) == Asks(PlayCap) == Asks(SilFeed) == Asks(SilCap) == Asks(Bill) == AskClock
  {
  }

  lemma AsksForFlag()
    ensures Asks(RegLoop) == Asks(RegExit) == Asks(DialLoop) == Asks(DialExit) == AskCancelled
    ensures Asks(DelayLoop) == Asks(DelayExit) == Asks(PlayLoop) == Asks(DrainLoop) == Asks(PlayExit) == AskCancelled
    ensures Asks(SilLoop) == Asks(SilExit) == Asks(EndLoop) == AskCancelled
  {
  }

  lemma AsksForEvent()
    ensures Asks(RegWait) == Asks(DialWait) == Asks(PlayWait) == Asks(DrainWait) == Asks(EndWait) == AskEvent(500)
    ensures Asks(SilWait) == AskEvent(100) && Asks(SilLevel) == AskLevel && Asks(DelaySleep) == AskSleep(50)
  {
  }

  // ---- The log and its digest ---------------------------------------------------

  datatype Action =
    | Emit(event: AgentEvent)
    | Took(taken: InternalEvent)
    | PlaceCall
    | Hangup
    | SetCallStart(ms: uint64)
    | StartRecorder(path: string)
    | StopRecorder
    | StartPlayer(path: string)
    | ArmDetector
    | Poll(sample: Sample)

  /** Dialled, and then the first DISCONNECTED taken off the queue. */
  datatype Line = NotDialled | Dialled | Disconnected(ev: InternalEvent)

  datatype Recorder = NeverStarted | Recording(path: string) | Stopped

  /** What a bystander notes down while reading a log from the front. */
  datatype Digest = Digest(
    emitted: seq<AgentEvent>, stage: Stage, taken: seq<InternalEvent>, polls: seq<Sample>,
    line: Line, hungUp: bool, armed: bool, callStart: uint64, recorder: Recorder)

  function Absorb(d: Digest, a: Action): Digest {
    Digest(
      if a.Emit? then d.emitted + [a.event] else d.emitted,
      if a.Emit? then Delta(d.stage, a.event) else d.stage,
      if a.Took? then d.taken + [a.taken] else d.taken,
      if a.Poll? then d.polls + [a.sample] else d.polls,
      if a.PlaceCall? && d.line.NotDialled? then Dialled
      else if a.Took? && d.line.Dialled? && IsDisconnect(a.taken) then Disconnected(a.taken)
      else d.line,
      d.hungUp || a.Hangup?,
      d.armed || a.ArmDetector?,
      if a.SetCallStart? then a.ms else d.callStart,
      if a.StartRecorder? then Recording(a.path) else if a.StopRecorder? then Stopped else d.recorder)
  }

  const NOTHING_YET: Digest := Digest([], Start, [], [], NotDialled, false, false, 0, NeverStarted)

  function Summary(log: seq<Action>): Digest {
    if log == [] then NOTHING_YET else Absorb(Summary(log[..|log| - 1]), log[|log| - 1])
  }

  // ---- State ------------------------------------------------------------------

  /** Members and locals of `run` (`result_`, `call_connected_ms_`, `answered`, ...) and the log.
      `hangupCode` and `hangupReason` are the arguments of a `handleDisconnect` under way.
      No branch reads `markMs`, the clock on entry to the current loop and, once the call has
      been billed, the clock that `handleDisconnect` read. */
  datatype Call = Call(
    pc: Pc, result: AgentEvent, connectedMs: uint64, playbackMs: uint64,
    regStart: uint64, deadline: uint64, answered: bool, media: bool, timeoutHit: bool, played: bool,
    silent: bool, level: uint32, detector: Detector,
    hangupCode: int32, hangupReason: string,
    log: seq<Action>, markMs: uint64)

  function Act(s: Call, a: Action): (r: Call)
    ensures Summary(r.log) == Absorb(Summary(s.log), a)
    ensures r == s.(log := r.log)
  {
    assert (s.log + [a])[..|s.log|] == s.log;
    s.(log := s.log + [a])
  }

  /** `emitEvent` of a state without payload. */
  function EmitState(setup: Setup, s: Call, status: CallStatus): Call {
    Act(s, Emit(AgentEvent(status, setup.CallId(), "", 0, 0, "", false)))
  }

  function EnterLoop(s: Call, pc: Pc, now: uint64): Call {
    s.(pc := pc, markMs := now)
  }

  function Begin(setup: Setup): Call {
    Call(RegInit, AgentEvent(FAILED, "", "", 0, 0, "", false), 0, 0, 0, 0, false, false, false, false, false, 0,
         Detector(setup.SilenceLevel(), setup.SilenceMs(), 0, false, false), 0, "", [], 0)
  }

  /** A registration failure: the result, and an event that carries the same. */
  function Fail(s: Call, callId: string, code: int32, reason: string): Call {
    var s1 := s.(result := s.result.(status := FAILED, sipCode := code, reason := reason));
    Act(s1, Emit(AgentEvent(FAILED, callId, "", 0, code, reason, false))).(pc := Returned)
  }

  function ReturnCancelled(s: Call): Call {
    s.(result := s.result.(status := CANCELLED), pc := Returned)
  }

  // ---- handleDisconnect ---------------------------------------------------------

  /** Enters `handleDisconnect`, which reads the clock only if the call was confirmed. */
  function Disconnect(setup: Setup, s: Call, code: int32, reason: string): Call {
    if s.connectedMs > 0
    then s.(hangupCode := code, hangupReason := reason, pc := Bill)
    else Settle(setup, s, code, reason, 0)
  }

  function BillSeconds(connectedMs: uint64, now: uint64): uint32 {
    Wrap32(Add64(Sub64(now, connectedMs), 999) / 1000)
  }

  /** The rest of `handleDisconnect`, with the billed seconds known. */
  function Settle(setup: Setup, s: Call, code: int32, reason: string, bill: uint32): Call {
    var status := if s.connectedMs > 0 then ANSWERED else SipCodeToCallStatus(code);
    var path := s.result.recordingPath;
    var s1 := s.(result := s.result.(status := status, sipCode := code, reason := reason, billingSeconds := bill));
    var s2 := Act(s1, StopRecorder);
    var s3 := if path == "" then s2
              else Act(s2, Emit(AgentEvent(RECORDING_READY, setup.CallId(), path, bill, 0, "", false)));
    Act(s3, Emit(AgentEvent(status, setup.CallId(), path, bill, code, reason, true))).(pc := Returned)
  }

  /** Takes an event; a DISCONNECTED ends the run, anything else goes to `other`. */
  function TakeOrDisconnect(setup: Setup, s: Call, event: Option<InternalEvent>, other: Pc): Call {
    match event
    case None => s.(pc := other)
    case Some(ev) =>
      var s1 := Act(s, Took(ev));
      if IsDisconnect(ev) then Disconnect(setup, s1, ev.code, ev.why) else s1.(pc := other)
  }

  // ---- Steps 1 to 3: registration and dialling ------------------------------------

  function Init(setup: Setup, s: Call): Call {
    if setup.initOk then EmitState(setup, s, REGISTERING).(pc := RegStarted) else Fail(s, "", 0, InitFailed())
  }

  function RegTake(setup: Setup, s: Call, ev: InternalEvent): Call {
    var s1 := Act(s, Took(ev));
    if !ev.RegState? then s1.(pc := RegLoop)
    else if ev.connected then EmitState(setup, s1, REGISTERED).(pc := RegExit)
    else Fail(s1, setup.CallId(), ev.code, ev.why)
  }

  function CheckRegClock(setup: Setup, s: Call, now: uint64): Call {
    if Sub64(now, s.regStart) >= REG_TIMEOUT_MS
    then Fail(s, setup.CallId(), 0, RegTimedOut()) else s.(pc := RegLoop)
  }

  function CancelEarly(s: Call): Call {
    ReturnCancelled(s.(result := s.result.(reason := CancelledEarly())))
  }

  function Dial(setup: Setup, s: Call): Call {
    Act(EmitState(setup, s, DIALING), PlaceCall).(pc := DialClock)
  }

  function NextReg(setup: Setup, s: Call, t: Tick): Call {
    if s.pc.RegInit? then Init(setup, s)
    else if s.pc.RegStarted? then EnterLoop(s, RegLoop, t.now).(regStart := t.now)
    else if s.pc.RegLoop? then s.(pc := if t.cancelled then RegExit else RegWait)
    else if s.pc.RegWait? then
      if t.event.None? then s.(pc := RegClock) else RegTake(setup, s, t.event.value)
    else if s.pc.RegClock? then CheckRegClock(setup, s, t.now)
    else if s.pc.RegExit? then
      if t.cancelled then CancelEarly(s) else Dial(setup, s)
    else s
  }

  // ---- Step 4: waiting for the answer ------------------------------------------------

  function StartDeadline(setup: Setup, s: Call, now: uint64): Call {
    EnterLoop(s, DialLoop, now).(
      deadline := Add64(now, setup.config.answerTimeoutS * 1000), answered := false, media := false, timeoutHit := false)
  }

  function CheckTimeout(s: Call, now: uint64): Call {
    if now >= s.deadline then Act(s.(timeoutHit := true), Hangup).(pc := DialSafety) else s.(pc := DialWait)
  }

  function CheckSafetyNet(setup: Setup, s: Call, now: uint64): Call {
    if now >= Add64(s.deadline, SAFETY_NET_MS) then
      var s1 := s.(result := s.result.(status := NO_ANSWER, reason := AnswerTimedOut()));
      Act(s1, Emit(AgentEvent(NO_ANSWER, setup.CallId(), "", 0, 0, AnswerTimedOut(), true))).(pc := Returned)
    else s.(pc := DialWait)
  }

  /** The foot of the loop: `if (answered && media_active) break`. */
  function DialFoot(s: Call): Call {
    s.(pc := if s.answered && s.media then DialExit else DialLoop)
  }

  function DialTake(setup: Setup, s: Call, ev: InternalEvent): Call {
    var s1 := Act(s, Took(ev));
    if IsState(ev, INV_STATE_EARLY) then DialFoot(EmitState(setup, s1, RINGING))
    else if IsConfirm(ev) then
      s1.(answered := true, result := s1.result.(status := ANSWERED), pc := DialConfirm)
    else if IsDisconnect(ev) then
      if s.timeoutHit then Disconnect(setup, s1, 487, AnswerTimedOut()) else Disconnect(setup, s1, ev.code, ev.why)
    else if ev.MediaState? then DialFoot(s1.(media := s.media || ev.active))
    else DialFoot(s1)
  }

  function Confirm(setup: Setup, s: Call, now: uint64): Call {
    DialFoot(EmitState(setup, Act(s.(connectedMs := now), SetCallStart(now)), ANSWERED))
  }

  function CancelByUser(s: Call): Call {
    ReturnCancelled(Act(s, Hangup).(result := s.result.(reason := CancelledByUser())))
  }

  /** The guards after Steps 4 and 6. */
  predicate GivenUp(s: Call) {
    s.result.status == FAILED || s.result.status == BUSY || s.result.status == NO_ANSWER
  }

  function SetUpRecording(setup: Setup, s: Call): Call {
    if GivenUp(s) then s.(pc := Returned)
    else Act(s, StartRecorder(setup.RecPath())).(result := s.result.(recordingPath := setup.RecPath()), pc := DelayClock)
  }

  function NextDial(setup: Setup, s: Call, t: Tick): Call {
    if s.pc.DialClock? then StartDeadline(setup, s, t.now)
    else if s.pc.DialLoop? then
      s.(pc := if t.cancelled then DialExit
               else if !s.answered && !s.timeoutHit then DialTimeout
               else if s.timeoutHit then DialSafety else DialWait)
    else if s.pc.DialTimeout? then CheckTimeout(s, t.now)
    else if s.pc.DialSafety? then CheckSafetyNet(setup, s, t.now)
    else if s.pc.DialWait? then
      if t.event.None? then s.(pc := DialLoop) else DialTake(setup, s, t.event.value)
    else if s.pc.DialConfirm? then Confirm(setup, s, t.now)
    else if s.pc.DialExit? then
      if t.cancelled then CancelByUser(s) else SetUpRecording(setup, s)
    else s
  }

  // ---- Steps 5 and 6: answer delay and playback ----------------------------------------

  function HangUpCancelled(s: Call): Call {
    ReturnCancelled(Act(s, Hangup))
  }

  function StartPlayback(setup: Setup, s: Call, now: uint64): Call {
    EnterLoop(Act(s.(playbackMs := now, played := false), StartPlayer(setup.PlayPath())), PlayLoop, now)
  }

  function FinishPlayback(setup: Setup, s: Call): Call {
    EmitState(setup, Act(s.(played := true), Took(PlaybackEof)), PLAYED).(pc := PlayExit)
  }

  function CheckCap(s: Call, now: uint64): Call {
    if Sub64(now, s.connectedMs) >= MAX_CALL_MS then Act(s, Hangup).(pc := DrainLoop) else s.(pc := PlayLoop)
  }

  function StartListening(setup: Setup, s: Call, now: uint64): Call {
    if GivenUp(s) then s.(pc := Returned)
    else
      var d := Arm(Detector(setup.SilenceLevel(), setup.SilenceMs(), 0, false, false));
      EnterLoop(Act(s.(detector := d, silent := false), ArmDetector), SilLoop, now)
  }

  function NextPlay(setup: Setup, s: Call, t: Tick): Call {
    if s.pc.DelayClock? then
      s.(pc := if t.now < Add64(s.connectedMs, setup.config.answerDelayS * 1000) then DelayLoop else DelayExit)
    else if s.pc.DelayLoop? then s.(pc := if t.cancelled then DelayExit else DelaySleep)
    else if s.pc.DelaySleep? then s.(pc := DelayClock)
    else if s.pc.DelayExit? then
      if t.cancelled then HangUpCancelled(s) else EmitState(setup, s, PLAYING).(pc := PlayClock)
    else if s.pc.PlayClock? then StartPlayback(setup, s, t.now)
    else if s.pc.PlayLoop? then s.(pc := if t.cancelled then PlayExit else PlayWait)
    else if s.pc.PlayWait? then
      if t.event.None? then s.(pc := PlayCap)
      else if t.event.value.PlaybackEof? then FinishPlayback(setup, s)
      else TakeOrDisconnect(setup, s, t.event, PlayLoop)
    else if s.pc.PlayCap? then CheckCap(s, t.now)
    else if s.pc.DrainLoop? then s.(pc := if t.cancelled then PlayExit else DrainWait)
    else if s.pc.DrainWait? then TakeOrDisconnect(setup, s, t.event, DrainLoop)
    else if s.pc.PlayExit? then
      if t.cancelled then HangUpCancelled(s) else StartListening(setup, s, t.now)
    else s
  }

  // ---- Steps 7 and 8: silence and the final disconnect -----------------------------------

  function FeedDetector(s: Call, now: uint64): Call {
    var x := Sample(s.level, now);
    var (d, fired) := Feed(s.detector, x);
    Act(s.(detector := d, silent := s.silent || fired), Poll(x)).(pc := SilCap)
  }

  function CheckSilence(s: Call, now: uint64): Call {
    if Sub64(now, s.connectedMs) >= MAX_CALL_MS then s.(silent := true, pc := SilExit)
    else s.(pc := if s.silent then SilExit else SilLoop)
  }

  function HangUpOnSilence(setup: Setup, s: Call): Call {
    var s1 := Act(s, Emit(AgentEvent(SILENCE_DETECTED, setup.CallId(), "", setup.config.silenceS, 0, "", false)));
    Act(EmitState(setup, s1, HANGING_UP), Hangup).(pc := EndLoop)
  }

  function BillAndSettle(setup: Setup, s: Call, now: uint64): Call {
    Settle(setup, s.(markMs := now), s.hangupCode, s.hangupReason, BillSeconds(s.connectedMs, now))
  }

  function NextEnd(setup: Setup, s: Call, t: Tick): Call {
    if s.pc.SilLoop? then s.(pc := if t.cancelled then SilExit else SilWait)
    else if s.pc.SilWait? then TakeOrDisconnect(setup, s, t.event, SilLevel)
    else if s.pc.SilLevel? then s.(level := t.level, pc := SilFeed)
    else if s.pc.SilFeed? then FeedDetector(s, t.now)
    else if s.pc.SilCap? then CheckSilence(s, t.now)
    else if s.pc.SilExit? then
      if t.cancelled then ReturnCancelled(s) else HangUpOnSilence(setup, s)
    else if s.pc.EndLoop? then
      if t.cancelled then ReturnCancelled(s) else s.(pc := EndWait)
    else if s.pc.EndWait? then TakeOrDisconnect(setup, s, t.event, EndLoop)
    else if s.pc.Bill? then BillAndSettle(setup, s, t.now)
    else s
  }

  // ---- Whole runs ----------------------------------------------------------------

  predicate InReg(pc: Pc) {
    pc.RegInit? || pc.RegStarted? || pc.RegLoop? || pc.RegWait? || pc.RegClock? || pc.RegExit?
  }

  predicate InDial(pc: Pc) {
    || pc.DialClock? || pc.DialLoop? || pc.DialTimeout? || pc.DialSafety? || pc.DialWait? || pc.DialConfirm?
    || pc.DialExit?
  }

  predicate InPlay(pc: Pc) {
    || pc.DelayClock? || pc.DelayLoop? || pc.DelaySleep? || pc.DelayExit?
    || pc.PlayClock? || pc.PlayLoop? || pc.PlayWait? || pc.PlayCap? || pc.DrainLoop? || pc.DrainWait? || pc.PlayExit?
  }

  predicate InListen(pc: Pc) {
    || pc.SilLoop? || pc.SilWait? || pc.SilLevel? || pc.SilFeed? || pc.SilCap? || pc.SilExit?
    || pc.EndLoop? || pc.EndWait?
  }

  function Next(setup: Setup, s: Call, t: Tick): Call {
    if InReg(s.pc) then NextReg(setup, s, t)
    else if InDial(s.pc) then NextDial(setup, s, t)
    else if InPlay(s.pc) then NextPlay(setup, s, t)
    else NextEnd(setup, s, t)
  }

  // The reads of each loop, one line each, for proofs that hide `Next`.

  /** The reads of Step 2. */
  lemma NextInReg(setup: Setup, s: Call, t: Tick)
    requires s.pc.RegStarted? || s.pc.RegLoop? || s.pc.RegWait? || s.pc.RegClock?
    ensures s.pc.RegStarted? ==> Next(setup, s, t) == EnterLoop(s, RegLoop, t.now).(regStart := t.now)
    ensures s.pc.RegLoop? ==> Next(setup, s, t) == s.(pc := if t.cancelled then RegExit else RegWait)
    ensures s.pc.RegWait? ==>
              Next(setup, s, t) == if t.event.None? then s.(pc := RegClock) else RegTake(setup, s, t.event.value)
    ensures s.pc.RegClock? ==> Next(setup, s, t) == CheckRegClock(setup, s, t.now)
  {
    hide RegTake, CheckRegClock, NextDial, NextPlay, NextEnd;
  }

  /** The reads of the loop of Step 4. */
  lemma NextInDial(setup: Setup, s: Call, t: Tick)
    requires s.pc.DialClock? || s.pc.DialLoop? || s.pc.DialWait?
    ensures s.pc.DialClock? ==> Next(setup, s, t) == StartDeadline(setup, s, t.now)
    ensures s.pc.DialLoop? ==>
              Next(setup, s, t) == s.(pc := if t.cancelled then DialExit
                                            else if !s.answered && !s.timeoutHit then DialTimeout
                                            else if s.timeoutHit then DialSafety else DialWait)
    ensures s.pc.DialWait? ==>
              Next(setup, s, t) == if t.event.None? then s.(pc := DialLoop) else DialTake(setup, s, t.event.value)
  {
    hide StartDeadline, DialTake;
  }

  /** The reads around the answer delay. */
  lemma NextInDelay(setup: Setup, s: Call, t: Tick)
    requires s.pc.DialExit? || s.pc.DelayClock? || s.pc.DelayLoop? || s.pc.DelaySleep? || s.pc.DelayExit?
    ensures s.pc.DialExit? ==> Next(setup, s, t) == if t.cancelled then CancelByUser(s) else SetUpRecording(setup, s)
    ensures s.pc.DelayClock? ==>
              Next(setup, s, t) == s.(pc := if t.now < Add64(s.connectedMs, setup.config.answerDelayS * 1000)
                                            then DelayLoop else DelayExit)
    ensures s.pc.DelayLoop? ==> Next(setup, s, t) == s.(pc := if t.cancelled then DelayExit else DelaySleep)
    ensures s.pc.DelaySleep? ==> Next(setup, s, t) == s.(pc := DelayClock)
    ensures s.pc.DelayExit? ==>
              Next(setup, s, t) == if t.cancelled
                 then HangUpCancelled(s) else EmitState(setup, s, PLAYING).(pc := PlayClock)
  {
    hide CancelByUser, SetUpRecording, HangUpCancelled, EmitState, Add64, NextReg, NextEnd;
  }

  /** The reads of Step 6. */
  lemma NextInPlay(setup: Setup, s: Call, t: Tick)
    requires s.pc.PlayClock? || s.pc.PlayLoop? || s.pc.PlayWait? || s.pc.PlayCap? || s.pc.DrainLoop?
             || s.pc.DrainWait? || s.pc.PlayExit?
    ensures s.pc.PlayClock? ==> Next(setup, s, t) == StartPlayback(setup, s, t.now)
    ensures s.pc.PlayLoop? ==> Next(setup, s, t) == s.(pc := if t.cancelled then PlayExit else PlayWait)
    ensures s.pc.PlayWait? ==>
              Next(setup, s, t) == if t.event.None? then s.(pc := PlayCap)
                                   else if t.event.value.PlaybackEof? then FinishPlayback(setup, s)
                                   else TakeOrDisconnect(setup, s, t.event, PlayLoop)
    ensures s.pc.PlayCap? ==> Next(setup, s, t) == CheckCap(s, t.now)
    ensures s.pc.DrainLoop? ==> Next(setup, s, t) == s.(pc := if t.cancelled then PlayExit else DrainWait)
    ensures s.pc.DrainWait? ==> Next(setup, s, t) == TakeOrDisconnect(setup, s, t.event, DrainLoop)
    ensures s.pc.PlayExit? ==> Next(setup, s, t) == if t.cancelled
            then HangUpCancelled(s) else StartListening(setup, s, t.now)
  {
    hide StartPlayback, FinishPlayback, TakeOrDisconnect, CheckCap, HangUpCancelled, StartListening;
    hide EmitState, Add64;
    hide NextReg, NextDial, NextEnd;
  }

  /** The reads of Steps 7 and 8. */
  lemma NextInEnd(setup: Setup, s: Call, t: Tick)
    requires InListen(s.pc)
    ensures s.pc.SilLoop? ==> Next(setup, s, t) == s.(pc := if t.cancelled then SilExit else SilWait)
    ensures s.pc.SilWait? ==> Next(setup, s, t) == TakeOrDisconnect(setup, s, t.event, SilLevel)
    ensures s.pc.SilLevel? ==> Next(setup, s, t) == s.(level := t.level, pc := SilFeed)
    ensures s.pc.SilFeed? ==> Next(setup, s, t) == FeedDetector(s, t.now)
    ensures s.pc.SilCap? ==> Next(setup, s, t) == CheckSilence(s, t.now)
    ensures s.pc.SilExit? ==> Next(setup, s, t) == if t.cancelled then ReturnCancelled(s) else HangUpOnSilence(setup, s)
    ensures s.pc.EndLoop? ==> Next(setup, s, t) == if t.cancelled then ReturnCancelled(s) else s.(pc := EndWait)
    ensures s.pc.EndWait? ==> Next(setup, s, t) == TakeOrDisconnect(setup, s, t.event, EndLoop)
  {
    hide TakeOrDisconnect, FeedDetector, CheckSilence, ReturnCancelled, HangUpOnSilence, BillAndSettle;
    hide NextReg, NextDial, NextPlay;
  }

  /** Continuing from `s` with the answers `ts`. */
  function From(setup: Setup, s: Call, ts: seq<Tick>): Call {
    if ts == [] then s else Next(setup, From(setup, s, ts[..|ts| - 1]), ts[|ts| - 1])
  }

  /** `run` from its start: the state once the answers `ts` have been used up. */
  function Exec(setup: Setup, ts: seq<Tick>): Call {
    From(setup, Begin(setup), ts)
  }

  /** The clock starts positive, never runs back and stays far from overflow; the flag is never unset. */
  const CLOCK_LIMIT: int := 0x4000_0000_0000_0000

  predicate Follows(t: Tick, u: Tick) {
    t.now <= u.now < CLOCK_LIMIT && (t.cancelled ==> u.cancelled)
  }

  const BEFORE: Tick := Tick(1, false, None, 0)

  function LastTick(ts: seq<Tick>): Tick {
    if ts == [] then BEFORE else ts[|ts| - 1]
  }

  predicate Legal(ts: seq<Tick>) {
    ts == [] || (Legal(ts[..|ts| - 1]) && Follows(LastTick(ts[..|ts| - 1]), ts[|ts| - 1]))
  }

  lemma ExecSnoc(setup: Setup, ts: seq<Tick>, u: Tick)
    ensures Exec(setup, ts + [u]) == Next(setup, Exec(setup, ts), u)
    ensures Legal(ts + [u]) <==> Legal(ts) && Follows(LastTick(ts), u)
  {
    assert (ts + [u])[..|ts|] == ts;
  }

  lemma {:induction false} LegalSplits(ts: seq<Tick>, k: nat)
    requires Legal(ts) && k < |ts|
    ensures Legal(ts[..k]) && Follows(LastTick(ts[..k]), ts[k])
  {
    if k < |ts| - 1 {
      var p := ts[..|ts| - 1];
      LegalSplits(p, k);
      assert p[..k] == ts[..k];
    }
  }

  lemma {:induction false} ClockRises(ts: seq<Tick>, k: nat)
    requires Legal(ts) && k < |ts|
    ensures ts[k].now <= LastTick(ts).now
  {
    if k < |ts| - 1 {
      ClockRises(ts[..|ts| - 1], k);
    }
  }
}
