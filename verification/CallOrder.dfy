/** RINGING and ANSWERED echo the call states PJSIP reports while the answer is awaited, one
    for one and in order; so when those states arrive in order, the stream never goes back. */
module CallOrder {
  import opened MachineInts
  import opened Events
  import opened Silence
  import opened CallGrammar
  import opened CallMachine
  import opened CallInvariant
  import opened CallTheorems
  import opened CallDeadlines
  import opened CallPace

  // ---- What is heard and what is announced ------------------------------------------------

  function Heard(ev: InternalEvent): seq<CallStatus> {
    if IsState(ev, INV_STATE_EARLY) then [RINGING] else if IsConfirm(ev) then [ANSWERED] else []
  }

  function Rung(ev: AgentEvent): seq<CallStatus> {
    if IsStateEvent(ev, RINGING) then [RINGING] else if IsStateEvent(ev, ANSWERED) then [ANSWERED] else []
  }

  /** Dialled, and not yet recording: the events taken now are those of Step 4. */
  predicate Awaiting(d: Digest) {
    d.line == Dialled && d.recorder == NeverStarted
  }

  function HeardBy(d: Digest, a: Action): seq<CallStatus> {
    if a.Took? && Awaiting(d) then Heard(a.taken) else []
  }

  function RungBy(a: Action): seq<CallStatus> {
    if a.Emit? then Rung(a.event) else []
  }

  /** The call states taken while the answer was awaited, as far as they are to be announced. */
  function Called(log: seq<Action>): seq<CallStatus> {
    if log == [] then []
    else Called(log[..|log| - 1]) + HeardBy(Summary(log[..|log| - 1]), log[|log| - 1])
  }

  /** The RINGING and ANSWERED states of a stream. */
  function Announced(evs: seq<AgentEvent>): seq<CallStatus> {
    if evs == [] then [] else Announced(evs[..|evs| - 1]) + Rung(evs[|evs| - 1])
  }

  function AnnouncedIn(log: seq<Action>): seq<CallStatus> {
    if log == [] then [] else AnnouncedIn(log[..|log| - 1]) + RungBy(log[|log| - 1])
  }

  lemma {:induction false} AnnouncedInIsAnnounced(log: seq<Action>)
    ensures AnnouncedIn(log) == Announced(Summary(log).emitted)
  {
    if log != [] {
      var p, a := log[..|log| - 1], log[|log| - 1];
      AnnouncedInIsAnnounced(p);
      if a.Emit? {
        assert (Summary(p).emitted + [a.event])[..|Summary(p).emitted|] == Summary(p).emitted;
      }
    }
  }

  // ---- One step ------------------------------------------------------------------------------

  lemma Acted(s: Call, a: Action)
    ensures Called(Act(s, a).log) == Called(s.log) + HeardBy(Summary(s.log), a)
    ensures AnnouncedIn(Act(s, a).log) == AnnouncedIn(s.log) + RungBy(a)
  {
    hide Summary, HeardBy, RungBy;
    assert (s.log + [a])[..|s.log|] == s.log;
  }

  /** Nothing heard and nothing announced between the two. */
  ghost predicate Unheard(s: Call, r: Call) {
    Called(r.log) == Called(s.log) && AnnouncedIn(r.log) == AnnouncedIn(s.log)
  }

  lemma QuietAct(s: Call, a: Action)
    requires a.Took? ==> !Awaiting(Summary(s.log)) || Heard(a.taken) == []
    requires a.Emit? ==> Rung(a.event) == []
    ensures Unheard(s, Act(s, a))
  {
    hide Called, AnnouncedIn, Act;
    Acted(s, a);
  }

  lemma QuietState(setup: Setup, s: Call, status: CallStatus)
    requires status != RINGING && status != ANSWERED
    ensures Unheard(s, EmitState(setup, s, status))
  {
    hide Called, AnnouncedIn, Act, Setup.CallId;
    QuietAct(s, Emit(AgentEvent(status, setup.CallId(), "", 0, 0, "", false)));
  }

  lemma QuietFail(s: Call, callId: string, code: int32, reason: string)
    ensures Unheard(s, Fail(s, callId, code, reason))
  {
    hide Called, AnnouncedIn, Act;
    var s1 := s.(result := s.result.(status := FAILED, sipCode := code, reason := reason));
    QuietAct(s1, Emit(AgentEvent(FAILED, callId, "", 0, code, reason, false)));
  }

  lemma QuietSettle(setup: Setup, s: Call, code: int32, reason: string, bill: uint32)
    ensures Unheard(s, Settle(setup, s, code, reason, bill))
  {
    hide Called, AnnouncedIn, Act, Setup.CallId, SipCodeToCallStatus;
    var status := if s.connectedMs > 0 then ANSWERED else SipCodeToCallStatus(code);
    var path := s.result.recordingPath;
    var s1 := s.(result := s.result.(status := status, sipCode := code, reason := reason, billingSeconds := bill));
    QuietAct(s1, StopRecorder);
    var s2 := Act(s1, StopRecorder);
    var ready := Emit(AgentEvent(RECORDING_READY, setup.CallId(), path, bill, 0, "", false));
    QuietAct(s2, ready);
    var s3 := if path == "" then s2 else Act(s2, ready);
    QuietAct(s3, Emit(AgentEvent(status, setup.CallId(), path, bill, code, reason, true)));
  }

  lemma QuietDisconnect(setup: Setup, s: Call, code: int32, reason: string)
    ensures Unheard(s, Disconnect(setup, s, code, reason))
  {
    hide Called, AnnouncedIn, Settle;
    QuietSettle(setup, s, code, reason, 0);
  }

  lemma QuietTake(setup: Setup, s: Call, event: Option<InternalEvent>, other: Pc)
    requires !Awaiting(Summary(s.log))
    ensures Unheard(s, TakeOrDisconnect(setup, s, event, other))
  {
    hide Called, AnnouncedIn, Act, Disconnect, Summary;
    if event.Some? {
      QuietAct(s, Took(event.value));
      if IsDisconnect(event.value) {
        QuietDisconnect(setup, Act(s, Took(event.value)), event.value.code, event.value.why);
      }
    }
  }

  lemma QuietRegTake(setup: Setup, s: Call, ev: InternalEvent)
    requires !Awaiting(Summary(s.log))
    ensures Unheard(s, RegTake(setup, s, ev))
  {
    hide Called, AnnouncedIn, Act, Fail, EmitState, Summary, Setup.CallId;
    QuietAct(s, Took(ev));
    QuietState(setup, Act(s, Took(ev)), REGISTERED);
    if ev.RegState? {
      QuietFail(Act(s, Took(ev)), setup.CallId(), ev.code, ev.why);
    }
  }

  lemma QuietInit(setup: Setup, s: Call)
    ensures Unheard(s, Init(setup, s))
  {
    hide Called, AnnouncedIn, Fail, EmitState, InitFailed;
    QuietState(setup, s, REGISTERING);
    QuietFail(s, "", 0, InitFailed());
  }

  lemma QuietDial(setup: Setup, s: Call)
    ensures Unheard(s, Dial(setup, s))
  {
    hide Called, AnnouncedIn, EmitState, Act;
    QuietState(setup, s, DIALING);
    QuietAct(EmitState(setup, s, DIALING), PlaceCall);
  }

  lemma QuietRegClock(setup: Setup, s: Call, now: uint64)
    ensures Unheard(s, CheckRegClock(setup, s, now))
  {
    hide Called, AnnouncedIn, Fail, Sub64, Setup.CallId, RegTimedOut;
    QuietFail(s, setup.CallId(), 0, RegTimedOut());
  }

  /** Every call state heard has been announced; between a confirmation and its
      announcement one is outstanding. */
  ghost predicate Echoes(s: Call) {
    Called(s.log) == AnnouncedIn(s.log) + if s.pc.DialConfirm? then [ANSWERED] else []
  }

  lemma RegEchoes(setup: Setup, s: Call, t: Tick, u: Tick)
    requires InReg(s.pc) && Echoes(s) && RegInv(s, Summary(s.log), t)
    ensures Unheard(s, NextReg(setup, s, u))
  {
    hide Called, AnnouncedIn, Init, RegTake, CheckRegClock, Dial, CancelledEarly, Summary;
    QuietInit(setup, s);
    if u.event.Some? {
      QuietRegTake(setup, s, u.event.value);
    }
    QuietRegClock(setup, s, u.now);
    QuietDial(setup, s);
  }

  lemma DialTakeEchoes(setup: Setup, s: Call, ev: InternalEvent)
    requires s.pc.DialWait? && Echoes(s) && Awaiting(Summary(s.log))
    ensures Echoes(DialTake(setup, s, ev))
  {
    hide Called, AnnouncedIn, Act, Disconnect, Summary, Setup.CallId, AnswerTimedOut;
    var s1 := Act(s, Took(ev));
    Acted(s, Took(ev));
    Acted(s1, Emit(AgentEvent(RINGING, setup.CallId(), "", 0, 0, "", false)));
    if IsDisconnect(ev) {
      QuietDisconnect(setup, s1, 487, AnswerTimedOut());
      QuietDisconnect(setup, s1, ev.code, ev.why);
      DisconnectShape(setup, s1, 487, AnswerTimedOut());
      DisconnectShape(setup, s1, ev.code, ev.why);
    }
  }

  lemma ConfirmEchoes(setup: Setup, s: Call, now: uint64)
    requires s.pc.DialConfirm? && Echoes(s)
    ensures Echoes(Confirm(setup, s, now))
  {
    hide Called, AnnouncedIn, Act, Summary, Setup.CallId;
    var s1 := Act(s.(connectedMs := now), SetCallStart(now));
    QuietAct(s.(connectedMs := now), SetCallStart(now));
    Acted(s1, Emit(AgentEvent(ANSWERED, setup.CallId(), "", 0, 0, "", false)));
  }

  lemma ClockQuietSteps(setup: Setup, s: Call, now: uint64)
    ensures Unheard(s, CheckTimeout(s, now)) && !CheckTimeout(s, now).pc.DialConfirm?
    ensures Unheard(s, CheckSafetyNet(setup, s, now)) && !CheckSafetyNet(setup, s, now).pc.DialConfirm?
  {
    hide Called, AnnouncedIn, Act, Summary, Setup.CallId, AnswerTimedOut, Add64;
    QuietAct(s.(timeoutHit := true), Hangup);
    QuietAct(s.(result := s.result.(status := NO_ANSWER, reason := AnswerTimedOut())),
             Emit(AgentEvent(NO_ANSWER, setup.CallId(), "", 0, 0, AnswerTimedOut(), true)));
  }

  lemma ExitQuietSteps(setup: Setup, s: Call)
    ensures Unheard(s, CancelByUser(s)) && CancelByUser(s).pc.Returned?
    ensures Unheard(s, SetUpRecording(setup, s)) && !SetUpRecording(setup, s).pc.DialConfirm?
  {
    hide Called, AnnouncedIn, Act, Summary, Setup.RecPath, CancelledByUser;
    QuietAct(s, Hangup);
    QuietAct(s, StartRecorder(setup.RecPath()));
  }

  lemma DialEchoes(setup: Setup, s: Call, t: Tick, u: Tick)
    requires InDial(s.pc) && Echoes(s) && DialInv(s, Summary(s.log), t)
    ensures Echoes(NextDial(setup, s, u))
  {
    hide Called, AnnouncedIn, CheckTimeout, CheckSafetyNet, CancelByUser, SetUpRecording, DialTake, Confirm;
    hide Summary, Add64;
    ClockQuietSteps(setup, s, u.now);
    ExitQuietSteps(setup, s);
    if s.pc.DialWait? && u.event.Some? {
      DialTakeEchoes(setup, s, u.event.value);
    } else if s.pc.DialConfirm? {
      ConfirmEchoes(setup, s, u.now);
    }
  }

  lemma PlayQuietSteps(setup: Setup, s: Call, now: uint64)
    requires !Awaiting(Summary(s.log))
    ensures Unheard(s, HangUpCancelled(s)) && Unheard(s, StartPlayback(setup, s, now))
            && Unheard(s, FinishPlayback(setup, s))
    ensures Unheard(s, CheckCap(s, now))
  {
    hide Called, AnnouncedIn, Act, Summary, EmitState, Setup.PlayPath, Sub64;
    QuietAct(s, Hangup);
    QuietAct(s.(playbackMs := now, played := false), StartPlayer(setup.PlayPath()));
    QuietAct(s.(played := true), Took(PlaybackEof));
    QuietState(setup, Act(s.(played := true), Took(PlaybackEof)), PLAYED);
  }

  lemma QuietListening(setup: Setup, s: Call, now: uint64)
    ensures Unheard(s, StartListening(setup, s, now))
  {
    hide Called, AnnouncedIn, Act, Summary, GivenUp, Setup.SilenceLevel, Setup.SilenceMs, Arm;
    var d := Arm(Detector(setup.SilenceLevel(), setup.SilenceMs(), 0, false, false));
    QuietAct(s.(detector := d, silent := false), ArmDetector);
  }

  lemma PlayEchoes(setup: Setup, s: Call, t: Tick, u: Tick)
    requires InPlay(s.pc) && PlayInv(setup, s, Summary(s.log), t)
    ensures Unheard(s, NextPlay(setup, s, u))
  {
    hide Called, AnnouncedIn, HangUpCancelled, StartPlayback, FinishPlayback, CheckCap, StartListening, EmitState;
    hide TakeOrDisconnect, Summary, Add64, Setup.RecPath;
    PlayQuietSteps(setup, s, u.now);
    QuietListening(setup, s, u.now);
    QuietState(setup, s, PLAYING);
    QuietTake(setup, s, u.event, PlayLoop);
    QuietTake(setup, s, u.event, DrainLoop);
  }

  lemma QuietAnnouncement(setup: Setup, s: Call)
    ensures Unheard(s, HangUpOnSilence(setup, s))
  {
    hide Called, AnnouncedIn, Act, EmitState, Setup.CallId;
    var a := Emit(AgentEvent(SILENCE_DETECTED, setup.CallId(), "", setup.config.silenceS, 0, "", false));
    QuietAct(s, a);
    QuietState(setup, Act(s, a), HANGING_UP);
    QuietAct(EmitState(setup, Act(s, a), HANGING_UP), Hangup);
  }

  lemma QuietFeed(s: Call, now: uint64)
    ensures Unheard(s, FeedDetector(s, now))
  {
    hide Called, AnnouncedIn, Act, Feed;
    var x := Sample(s.level, now);
    var (d, fired) := Feed(s.detector, x);
    QuietAct(s.(detector := d, silent := s.silent || fired), Poll(x));
  }

  lemma EndEchoes(setup: Setup, s: Call, u: Tick)
    requires InListen(s.pc) || s.pc.Bill? || s.pc.Returned?
    requires InListen(s.pc) ==> !Awaiting(Summary(s.log))
    ensures Unheard(s, NextEnd(setup, s, u))
  {
    hide Called, AnnouncedIn, TakeOrDisconnect, FeedDetector, HangUpOnSilence, Settle, BillSeconds, Summary, Sub64;
    if InListen(s.pc) {
      QuietTake(setup, s, u.event, SilLevel);
      QuietTake(setup, s, u.event, EndLoop);
    }
    QuietFeed(s, u.now);
    QuietAnnouncement(setup, s);
    QuietSettle(setup, s.(markMs := u.now), s.hangupCode, s.hangupReason, BillSeconds(s.connectedMs, u.now));
  }

  lemma NextEchoes(setup: Setup, s: Call, t: Tick, u: Tick)
    requires Echoes(s) && Inv(setup, s, t)
    ensures Echoes(Next(setup, s, u))
  {
    hide NextReg, NextDial, NextPlay, NextEnd, Summary, RegInv, DialInv, PlayInv, ReturnedInv, ClosingInv;
    hide Called, AnnouncedIn, Setup.RecPath, Setup.SilenceLevel, Setup.SilenceMs, Replay, EndsSilent;
    MovesOn(setup, s, u);
    if InReg(s.pc) {
      RegEchoes(setup, s, t, u);
    } else if InDial(s.pc) {
      DialEchoes(setup, s, t, u);
    } else if InPlay(s.pc) {
      PlayEchoes(setup, s, t, u);
    } else {
      EndEchoes(setup, s, u);
    }
  }

  lemma {:induction false} EchoesHold(setup: Setup, ts: seq<Tick>)
    requires Legal(ts)
    ensures Echoes(Exec(setup, ts))
  {
    hide Next, Inv, Follows, Summary;
    if ts != [] {
      hide Called, AnnouncedIn;
      var p := ts[..|ts| - 1];
      EchoesHold(setup, p);
      InvHolds(setup, p);
      NextEchoes(setup, Exec(setup, p), LastTick(p), ts[|ts| - 1]);
    }
  }

  /** In the order in which they were taken, every EARLY and CONFIRMED of Step 4 is announced, once
      each, and nothing else is announced as RINGING or ANSWERED; only while the clock is being
      read for a confirmation is that one still to come. */
  lemma CallStatesAreEchoed(setup: Setup, ts: seq<Tick>)
    requires Legal(ts)
    ensures var s := Exec(setup, ts);
            Called(s.log) == Announced(Stream(s)) + if s.pc == DialConfirm then [ANSWERED] else []
  {
    hide Exec, Called, AnnouncedIn, Announced, Summary;
    EchoesHold(setup, ts);
    AnnouncedInIsAnnounced(Exec(setup, ts).log);
  }

  // ---- Order -----------------------------------------------------------------------------------

  /** PJSIP reports call states in order, CONFIRMED at most once. */
  ghost predicate InOrder(taken: seq<InternalEvent>) {
    forall i, j :: 0 <= i < j < |taken| && taken[i].CallState? && taken[j].CallState? ==>
      taken[i].state <= taken[j].state && !(IsConfirm(taken[i]) && IsConfirm(taken[j]))
  }

  /** RINGING any number of times, then ANSWERED at most once. */
  predicate RingThenAnswer(ks: seq<CallStatus>) {
    forall i :: 0 <= i < |ks| - 1 ==> ks[i] == RINGING
  }

  lemma RingsOn(ks: seq<CallStatus>, more: seq<CallStatus>)
    requires RingThenAnswer(ks) && (forall k :: k in ks ==> k == RINGING || k == ANSWERED)
    requires |more| <= 1 && (more != [] ==> ANSWERED !in ks)
    ensures RingThenAnswer(ks + more)
  {
    if ks != [] {
      assert ks[|ks| - 1] in ks;
    }
  }

  lemma {:induction false} CalledInOrder(log: seq<Action>)
    requires InOrder(Summary(log).taken)
    ensures RingThenAnswer(Called(log)) && (forall k :: k in Called(log) ==> k == RINGING || k == ANSWERED)
    ensures ANSWERED in Called(log) ==> exists i :: 0 <= i < |Summary(log).taken| && IsConfirm(Summary(log).taken[i])
  {
    if log != [] {
      var p, a := log[..|log| - 1], log[|log| - 1];
      var before, after := Summary(p).taken, Summary(log).taken;
      assert forall i :: 0 <= i < |before| ==> after[i] == before[i];
      CalledInOrder(p);
      if a.Took? {
        var n := |before|;
        assert after == before + [a.taken];
        if ANSWERED in Called(p) {
          var i :| 0 <= i < n && IsConfirm(before[i]);
          assert IsConfirm(after[i]) && Heard(after[n]) == [];
        }
        if IsConfirm(a.taken) {
          assert IsConfirm(after[n]);
        }
        if Awaiting(Summary(p)) {
          RingsOn(Called(p), Heard(a.taken));
        }
      }
    }
  }

  /** The stage of a call that an event belongs to. */
  function Rank(ev: AgentEvent): nat {
    if IsResult(ev) then 10
    else if ev.status == REGISTERING then 0
    else if ev.status == REGISTERED then 1
    else if ev.status == DIALING then 2
    else if ev.status == RINGING then 3
    else if ev.status == ANSWERED then 4
    else if ev.status == PLAYING then 5
    else if ev.status == PLAYED then 6
    else if ev.status == SILENCE_DETECTED then 7
    else if ev.status == HANGING_UP then 8
    else 9
  }

  /** The highest rank on the way to a stage. */
  function Top(q: Stage): int {
    match q
    case Start => -1
    case Registering => 0
    case Registered => 1
    case Dialing => 3
    case Answered => 4
    case Playing => 5
    case Played => 6
    case Silent => 7
    case HangingUp => 8
    case Recorded(_) => 9
    case Ended(_) => 10
    case Rejected => 10
  }

  lemma DeltaRises(q: Stage, ev: AgentEvent)
    requires Delta(q, ev) != Rejected
    ensures Rank(ev) <= Top(Delta(q, ev)) && Top(q) <= Top(Delta(q, ev))
    ensures Top(q) < Rank(ev) || Top(q) == Rank(ev) == 3 || (q == Answered && Rung(ev) != [])
    ensures Delta(q, ev) == Answered ==> (q == Dialing && Rung(ev) == [ANSWERED]) || (q == Answered && Rung(ev) != [])
  {
  }

  lemma NothingAfterAnswer(ks: seq<CallStatus>, more: seq<CallStatus>)
    requires ks != [] && ks[|ks| - 1] == ANSWERED && RingThenAnswer(ks + more)
    ensures more == []
  {
    assert (ks + more)[|ks| - 1] == ANSWERED;
  }

  lemma NoWayBack(ev: AgentEvent)
    ensures Delta(Rejected, ev) == Rejected
  {
  }

  /** What is announced is in order, so every event of the stream belongs to a stage no earlier
      than the ones before it, and to the same stage only if both are RINGING. */
  lemma {:induction false} InOrderStreamNeverGoesBack(evs: seq<AgentEvent>)
    requires Accepts(evs) && RingThenAnswer(Announced(evs))
    ensures forall i, j :: 0 <= i < j < |evs| ==> Rank(evs[i]) < Rank(evs[j]) || Rank(evs[i]) == Rank(evs[j]) == 3
    ensures forall i :: 0 <= i < |evs| ==> Rank(evs[i]) <= Top(Scan(evs))
    ensures Scan(evs) == Answered ==> Announced(evs) != [] && Announced(evs)[|Announced(evs)| - 1] == ANSWERED
  {
    hide Delta, Rank, Top;
    if evs != [] {
      var n := |evs| - 1;
      var p := evs[..n];
      assert Scan(p) != Rejected by { NoWayBack(evs[n]); }
      assert forall i :: 0 <= i < n ==> evs[i] == p[i];
      assert forall i :: 0 <= i < |Announced(p)| ==> Announced(evs)[i] == Announced(p)[i];
      InOrderStreamNeverGoesBack(p);
      DeltaRises(Scan(p), evs[n]);
      if Scan(p) == Answered {
        NothingAfterAnswer(Announced(p), Rung(evs[n]));
      }
    }
  }

  /** When PJSIP reports call states in order and CONFIRMED at most once, the stream of a run never
      goes back: stages only rise, RINGING alone may repeat, and ANSWERED occurs
      as a state at most once. */
  lemma StagesNeverGoBack(setup: Setup, ts: seq<Tick>)
    requires Legal(ts) && InOrder(Summary(Exec(setup, ts).log).taken)
    ensures var evs := Stream(Exec(setup, ts));
            && (forall i, j :: 0 <= i < j < |evs| ==> Rank(evs[i]) < Rank(evs[j]) || Rank(evs[i]) == Rank(evs[j]) == 3)
            && (forall i, j :: 0 <= i < j < |evs| ==> !(IsAnsweredState(evs[i]) && IsAnsweredState(evs[j])))
  {
    hide Exec, Called, Announced, Summary, Scan;
    var s := Exec(setup, ts);
    StreamFollowsGrammar(setup, ts);
    CallStatesAreEchoed(setup, ts);
    CalledInOrder(s.log);
    assert forall i :: 0 <= i < |Announced(Stream(s))| ==> Announced(Stream(s))[i] == Called(s.log)[i];
    InOrderStreamNeverGoesBack(Stream(s));
  }
}
