/** Why a run fails to register, hangs up, gives up or is recorded as it is: in terms of the answers it was
    given, with the numbers of the source. */
module CallReasons {
  import opened MachineInts
  import opened Events
  import opened Silence
  import opened CallGrammar
  import opened CallMachine
  import opened CallInvariant
  import opened CallTheorems
  import opened CallEndings
  import opened CallDeadlines
  import opened CallPace
  import opened CallIntake
  import opened CallReturns
  import opened CallLoops
  import opened CallSurprises
  import opened CallMedia

  // ---- The constants of the source ------------------------------------------------------------

  lemma Numbers()
    ensures REG_TIMEOUT_MS == 15000 && SAFETY_NET_MS == 10000 && MAX_CALL_MS == 600000
    ensures INV_STATE_EARLY == 3 && INV_STATE_CONFIRMED == 5 && INV_STATE_DISCONNECTED == 6
    ensures InitFailed() == "failed to initialize SIP agent" && RegTimedOut() == "registration timeout"
    ensures CancelledEarly() == "cancelled before call placed" && CancelledByUser() == "cancelled by user"
    ensures AnswerTimedOut() == "answer timeout"
  {
  }

  // ---- Registration -----------------------------------------------------------------------------

  /** Read `m` is the one that starts the registration clock. */
  predicate StartsRegistration(setup: Setup, ts: seq<Tick>, m: nat) {
    m < |ts| && Exec(setup, ts[..m]).pc == RegStarted
  }

  lemma RegEntry(from: Pc, to: Pc, cancelled: bool, got: bool)
    requires to.Returned? || Flows(from, to, cancelled, got)
    ensures InReg(to) && !to.RegStarted? ==> InReg(from) && !from.RegInit? && !from.RegExit?
    ensures to.RegStarted? ==> from.RegInit?
  {
  }

  lemma RegStartKept(setup: Setup, s: Call, u: Tick)
    requires s.pc.RegStarted? || s.pc.RegLoop? || s.pc.RegWait? || s.pc.RegClock?
    ensures InReg(Next(setup, s, u).pc) ==> Next(setup, s, u).regStart == if s.pc.RegStarted? then u.now else s.regStart
  {
    hide Next, RegTake, Summary, Fail, Setup.CallId, RegTimedOut, Sub64;
    NextInReg(setup, s, u);
    FailShape(s, setup.CallId(), 0, RegTimedOut());
    if u.event.Some? {
      RegTakeShape(setup, s, u.event.value);
    }
  }

  lemma {:induction false} RegistrationStart(setup: Setup, ts: seq<Tick>) returns (m: nat)
    requires InReg(Exec(setup, ts).pc) && Exec(setup, ts).pc != RegInit && Exec(setup, ts).pc != RegStarted
    ensures StartsRegistration(setup, ts, m) && ts[m].now == Exec(setup, ts).regStart
  {
    hide Next, Flows, Begin;
    AtInit(setup);
    m := |ts| - 1;
    var p := ts[..m];
    var s := Exec(setup, p);
    NextLeads(setup, s, ts[m]);
    RegEntry(s.pc, Exec(setup, ts).pc, ts[m].cancelled, ts[m].event.Some?);
    RegStartKept(setup, s, ts[m]);
    if s.pc != RegStarted {
      m := RegistrationStart(setup, p);
      assert p[..m] == ts[..m];
    }
  }

  lemma AtInit(setup: Setup)
    ensures Exec(setup, []).pc == RegInit
  {
  }

  /** What each read of the registration loop decides: an empty wait gives up once 15000 ms have passed since the
      start of registration, and not before; a registration event ends the loop one way or the other; any other
      event is ignored. */
  lemma RegistrationDecides(setup: Setup, ts: seq<Tick>, k: nat)
    requires Legal(ts) && k < |ts|
    ensures Exec(setup, ts[..k]).pc == RegClock ==>
              exists m: nat :: m < k && StartsRegistration(setup, ts, m)
                && Exec(setup, ts[..k + 1]).pc == if ts[k].now - ts[m].now >= 15000 then Returned else RegLoop
    ensures Exec(setup, ts[..k]).pc == RegWait ==>
              var pc := Exec(setup, ts[..k + 1]).pc;
              match ts[k].event
              case None => pc == RegClock
              case Some(ev) => pc == if !ev.RegState? then RegLoop else if ev.connected then RegExit else Returned
  {
    hide Next, Legal, Follows, Begin, RegTake, Summary, Inv;
    var s := Exec(setup, ts[..k]);
    assert ts[..k + 1][..k] == ts[..k];
    LegalSplits(ts, k);
    if s.pc == RegClock {
      var m := RegistrationStart(setup, ts[..k]);
      assert ts[..k][..m] == ts[..m];
      NextInReg(setup, s, ts[k]);
      ClockRises(ts[..k], m);
      RegClockDecides(setup, s, ts[k].now);
      assert StartsRegistration(setup, ts, m);
    } else if s.pc == RegWait {
      NextInReg(setup, s, ts[k]);
      if ts[k].event.Some? {
        RegTakeDecides(setup, s, ts[k].event.value);
      }
    }
  }

  lemma RegClockDecides(setup: Setup, s: Call, now: uint64)
    requires s.regStart <= now
    ensures CheckRegClock(setup, s, now).pc == if now - s.regStart >= 15000 then Returned else RegLoop
  {
    hide Summary, Act, Setup.CallId, RegTimedOut;
  }

  lemma RegTakeDecides(setup: Setup, s: Call, ev: InternalEvent)
    ensures RegTake(setup, s, ev).pc == if !ev.RegState? then RegLoop else if ev.connected then RegExit else Returned
  {
    hide Summary, Act, Setup.CallId;
  }

  /** At read `k` the run fails before dialling, and the record says why. */
  ghost predicate FailsAt(setup: Setup, ts: seq<Tick>, k: nat, record: AgentEvent) {
    && k < |ts|
    && var pc := Exec(setup, ts[..k]).pc;
       || (pc == RegInit && !setup.initOk && record.sipCode == 0 && record.reason == InitFailed())
       || (pc == RegWait && ts[k].event == Some(RegState(false, record.sipCode, record.reason)))
       || (pc == RegClock && record.sipCode == 0 && record.reason == RegTimedOut()
           && exists m: nat :: m < k && StartsRegistration(setup, ts, m) && ts[k].now - ts[m].now >= 15000)
  }

  /** A run that fails before dialling had no agent, was refused by the registrar, whose code and reason it reports,
      or had waited 15000 ms since the start of registration. */
  lemma WhyRegistrationFails(setup: Setup, ts: seq<Tick>)
    requires Legal(ts) && Exec(setup, ts).pc == Returned && Exec(setup, ts).result.status == FAILED
    requires PlaceCall !in Exec(setup, ts).log
    ensures exists k: nat :: FailsAt(setup, ts, k, Exec(setup, ts).result)
  {
    hide Exec, Next, Legal, Follows, Summary, Inv, FailsAt, Scan;
    var s, evs := Exec(setup, ts), Stream(Exec(setup, ts));
    RecordAgreesWithStream(setup, ts);
    var e := |evs| - 1;
    var j := EmittedInLog(s.log, e);
    var k := DoneAt(setup, ts, j);
    var c := Exec(setup, ts[..k]);
    LegalSplits(ts, k);
    InvHolds(setup, ts[..k]);
    Placed(setup, c, LastTick(ts[..k]));
    assert PlaceCall in c.log ==> PlaceCall in s.log;
    AfterDialling(setup, c, LastTick(ts[..k]));
    if c.pc == RegClock {
      var m := RegistrationStart(setup, ts[..k]);
      assert ts[..k][..m] == ts[..m];
      ClockRises(ts[..k], m);
      assert StartsRegistration(setup, ts, m);
    }
    FailedAt(setup, ts, k, evs[e], s.result);
  }

  lemma AfterDialling(setup: Setup, s: Call, t: Tick)
    requires Inv(setup, s, t)
    ensures s.pc.Bill? ==> PlaceCall in s.log
  {
    hide Summary, Setup.RecPath, Setup.SilenceLevel, Setup.SilenceMs, Replay, EndsSilent;
    LineMeans(s.log);
  }

  lemma FailedAt(setup: Setup, ts: seq<Tick>, k: nat, ev: AgentEvent, record: AgentEvent)
    requires k < |ts| && EventBelongs(setup, Spot(Exec(setup, ts[..k]), ts[k]), ev)
    requires ev.status == FAILED && ev.sipCode == record.sipCode && ev.reason == record.reason
    requires !EndsCall(Exec(setup, ts[..k]).pc)
    requires Exec(setup, ts[..k]).pc == RegClock ==>
               exists m: nat :: m < k && StartsRegistration(setup, ts, m)
                                && ts[m].now == Exec(setup, ts[..k]).regStart <= ts[k].now
    ensures FailsAt(setup, ts, k, record)
  {
    hide Exec, InitFailed, RegTimedOut, CallIdOf;
  }

  // ---- The answer timeout ------------------------------------------------------------------------

  /** At read `k` the answer timeout fires: the configured seconds after the call was placed, and not confirmed. */
  ghost predicate TimesOutAt(setup: Setup, ts: seq<Tick>, k: nat) {
    && k < |ts| && Exec(setup, ts[..k]).pc == DialTimeout && !Heard(Exec(setup, ts[..k]).log, IsConfirm)
    && exists m: nat :: m < k && Exec(setup, ts[..m]).pc == DialClock
                        && ts[k].now - ts[m].now >= setup.config.answerTimeoutS * 1000
  }

  ghost predicate Fired(setup: Setup, ts: seq<Tick>) {
    exists k: nat :: TimesOutAt(setup, ts, k)
  }

  lemma TimeoutDecides(setup: Setup, ts: seq<Tick>, k: nat)
    requires Legal(ts) && k < |ts| && Exec(setup, ts[..k]).pc == DialTimeout
    ensures TimesOutAt(setup, ts, k) <==> Exec(setup, ts[..k]).deadline <= ts[k].now
  {
    hide Exec, Next, Legal, Follows, Heard, Inv, Flows;
    var m := DialledAt(setup, ts[..k]);
    assert ts[..k][..m] == ts[..m];
    LegalSplits(ts, k);
    LegalSplits(ts, m);
    InRangeAt(ts[..k], m);
    AlwaysLate(setup, ts[..k]);
    AlwaysRemembers(setup, ts[..k]);
    forall n: nat | n < k && Exec(setup, ts[..n]).pc == DialClock
      ensures n == m
    {
      assert ts[..k][..n] == ts[..n];
      OneDialClock(setup, ts[..k], m, n);
    }
  }

  lemma InRangeAt(ts: seq<Tick>, m: nat)
    requires Legal(ts) && m < |ts|
    ensures ts[m].now < CLOCK_LIMIT
  {
    LegalSplits(ts, m);
  }

  /** The clock is read once for the deadline. */
  lemma OneDialClock(setup: Setup, ts: seq<Tick>, m: nat, n: nat)
    requires m < |ts| && n < |ts| && Exec(setup, ts[..m]).pc == DialClock && Exec(setup, ts[..n]).pc == DialClock
    ensures m == n
  {
    hide Exec, Next, Phase;
    if m < n {
      AfterDialClock(setup, ts, m, n);
    } else if n < m {
      AfterDialClock(setup, ts, n, m);
    }
  }

  lemma AfterDialClock(setup: Setup, ts: seq<Tick>, m: nat, n: nat)
    requires m < n < |ts| && Exec(setup, ts[..m]).pc == DialClock
    ensures Exec(setup, ts[..n]).pc != DialClock
  {
    hide Next, Flows, Summary;
    assert ts[..m + 1][..m] == ts[..m] && ts[..n][..m + 1] == ts[..m + 1];
    NextInDial(setup, Exec(setup, ts[..m]), ts[m]);
    PhasesRise(setup, ts[..n], m + 1);
  }

  /** The flag of Step 4 is set exactly if the timeout has fired. */
  lemma {:induction false} TimedOutIffFired(setup: Setup, ts: seq<Tick>)
    requires Legal(ts) && InDial(Exec(setup, ts).pc) && Exec(setup, ts).pc != DialClock
    ensures Exec(setup, ts).timeoutHit <==> Fired(setup, ts)
  {
    hide Next, Heard, Flows, Follows, Add64;
    var n := |ts| - 1;
    assert n >= 0 by { AtInit(setup); }
    var p := ts[..n];
    var s := Exec(setup, p);
    NextLeads(setup, s, ts[n]);
    DialEntry(s.pc, Exec(setup, ts).pc, ts[n].cancelled, ts[n].event.Some?);
    DialMark(setup, s, ts[n]);
    if s.pc == DialClock {
      NoTimeoutYet(setup, ts);
    } else {
      TimedOutIffFired(setup, p);
      FiredSoFar(setup, ts);
      if s.pc == DialTimeout {
        TimeoutDecides(setup, ts, n);
      }
    }
  }

  lemma NoTimeoutYet(setup: Setup, ts: seq<Tick>)
    requires ts != [] && Exec(setup, ts[..|ts| - 1]).pc == DialClock
    ensures forall k: nat :: !TimesOutAt(setup, ts, k)
  {
    hide Exec, Next, Heard;
    var n := |ts| - 1;
    forall k: nat | k < n && Exec(setup, ts[..k]).pc == DialTimeout
      ensures false
    {
      assert ts[..n][..k] == ts[..k];
      PhasesRise(setup, ts[..n], k);
      assert false;
    }
  }

  lemma FiredSoFar(setup: Setup, ts: seq<Tick>)
    requires ts != []
    ensures Fired(setup, ts) <==> Fired(setup, ts[..|ts| - 1]) || TimesOutAt(setup, ts, |ts| - 1)
  {
    hide Exec, Heard;
    var n := |ts| - 1;
    var p := ts[..n];
    forall k: nat | k < n
      ensures TimesOutAt(setup, ts, k) <==> TimesOutAt(setup, p, k)
    {
      assert p[..k] == ts[..k];
      assert forall m: nat :: m < k ==> p[..m] == ts[..m] && p[m] == ts[m];
    }
    if k: nat :| TimesOutAt(setup, p, k) {
      assert TimesOutAt(setup, ts, k);
    }
    if k: nat :| TimesOutAt(setup, ts, k) {
      assert k < n ==> TimesOutAt(setup, p, k);
    }
  }

  // ---- Hanging up --------------------------------------------------------------------------------

  /** At read `k` there is a reason to hang up: the answer timeout, the flag, the cap of 600 s, or the end of
      listening. */
  ghost predicate MustHangUp(setup: Setup, ts: seq<Tick>, k: nat) {
    && k < |ts|
    && var s := Exec(setup, ts[..k]);
       || TimesOutAt(setup, ts, k)
       || ((s.pc == DialExit || s.pc == DelayExit || s.pc == PlayExit) && ts[k].cancelled)
       || (s.pc == PlayCap && ts[k].now - Summary(s.log).callStart >= 600000)
       || (s.pc == SilExit && !ts[k].cancelled)
  }

  /** Every hangup has its reason, at the read at which it is done. */
  lemma HangupHasReason(setup: Setup, ts: seq<Tick>, j: nat)
    requires Legal(ts) && j < |Exec(setup, ts).log| && Exec(setup, ts).log[j] == Action.Hangup
    ensures exists k: nat ::
              MustHangUp(setup, ts, k) && |Exec(setup, ts[..k]).log| <= j < |Exec(setup, ts[..k + 1]).log|
  {
    hide Exec, Next, Legal, Follows, Summary, Inv, TimesOutAt;
    var k := DoneAt(setup, ts, j);
    OneMore(setup, ts, k);
    var s := Exec(setup, ts[..k]);
    LegalSplits(ts, k);
    InvHolds(setup, ts[..k]);
    StartIsConnected(setup, s, LastTick(ts[..k]));
    if s.pc == DialTimeout {
      TimeoutDecides(setup, ts, k);
    }
    assert MustHangUp(setup, ts, k);
  }

  lemma StartIsConnected(setup: Setup, s: Call, t: Tick)
    requires Inv(setup, s, t)
    ensures Summary(s.log).callStart == s.connectedMs <= t.now
  {
    hide Summary, RegInv, DialInv, PlayInv, ListenInv, ClosingInv, ReturnedInv;
  }

  /** And whenever there is a reason `run` does hang up, there and then. */
  lemma MustHangUpIsDone(setup: Setup, ts: seq<Tick>, k: nat)
    requires Legal(ts) && MustHangUp(setup, ts, k)
    ensures var log := Exec(setup, ts[..k + 1]).log;
            exists l: nat :: |Exec(setup, ts[..k]).log| <= l < |log| && log[l] == Action.Hangup
  {
    hide Exec, Next, Legal, Follows, Summary, Inv, TimesOutAt;
    var s := Exec(setup, ts[..k]);
    var r := Exec(setup, ts[..k + 1]);
    LegalSplits(ts, k);
    InvHolds(setup, ts[..k]);
    StartIsConnected(setup, s, LastTick(ts[..k]));
    OneMore(setup, ts, k);
    if s.pc == DialTimeout {
      TimeoutDecides(setup, ts, k);
    }
    TimesOutWhere(setup, ts, k);
    var l := HangsUp(setup, s, ts[k]);
    assert r.log[l] == Action.Hangup;
  }

  lemma TimesOutWhere(setup: Setup, ts: seq<Tick>, k: nat)
    ensures TimesOutAt(setup, ts, k) ==> k < |ts| && Exec(setup, ts[..k]).pc == DialTimeout
  {
    hide Exec;
  }

  lemma OneMore(setup: Setup, ts: seq<Tick>, k: nat)
    requires k < |ts|
    ensures Exec(setup, ts[..k + 1]) == Next(setup, Exec(setup, ts[..k]), ts[k])
  {
    hide Next, Begin;
    assert ts[..k + 1][..k] == ts[..k];
  }

  lemma HangsUp(setup: Setup, s: Call, u: Tick) returns (l: nat)
    requires || (s.pc == DialTimeout && s.deadline <= u.now)
             || ((s.pc == DialExit || s.pc == DelayExit || s.pc == PlayExit) && u.cancelled)
             || (s.pc == PlayCap && s.connectedMs + 600000 <= u.now)
             || (s.pc == SilExit && !u.cancelled)
    ensures |s.log| <= l < |Next(setup, s, u).log| && Next(setup, s, u).log[l] == Action.Hangup
  {
    hide Next, Summary, EmitState, SetUpRecording, StartListening, StartPlayback, Setup.CallId, CancelledByUser;
    l := |s.log|;
    if s.pc == DialTimeout {
      TimeoutHangsUp(setup, s, u);
    } else if s.pc == PlayCap || s.pc == PlayExit {
      NextInPlay(setup, s, u);
    } else if s.pc == SilExit {
      NextInEnd(setup, s, u);
      l := SilenceHangsUp(setup, s);
    } else {
      NextInDelay(setup, s, u);
    }
  }

  lemma TimeoutHangsUp(setup: Setup, s: Call, u: Tick)
    requires s.pc == DialTimeout && s.deadline <= u.now
    ensures Next(setup, s, u).log == s.log + [Action.Hangup]
  {
    hide Summary;
  }

  lemma SilenceHangsUp(setup: Setup, s: Call) returns (l: nat)
    ensures |s.log| <= l < |HangUpOnSilence(setup, s).log| && HangUpOnSilence(setup, s).log[l] == Action.Hangup
  {
    hide Summary, Setup.CallId;
    l := |s.log| + 2;
  }

  // ---- The record ---------------------------------------------------------------------------------

  function WhyOf(ev: InternalEvent): string {
    match ev
    case CallState(_, _, why) => why
    case _ => ""
  }

  lemma HeardDisconnect(log: seq<Action>)
    ensures Heard(log, IsDisconnect) <==> exists j: nat :: LateDisconnect(log, j)
  {
    assert forall j: nat :: TakenAt(log, j, IsDisconnect) <==> LateDisconnect(log, j);
  }

  /** A DISCONNECTED that has been taken since the call was placed stays noted. */
  lemma NotDisconnected(setup: Setup, s: Call, t: Tick, u: Tick)
    requires Inv(setup, s, t) && Summary(Next(setup, s, u).log).line == Dialled
    ensures !s.pc.Bill?
    ensures PlaceCall in s.log && Asks(s.pc).AskEvent? && u.event.Some? ==> !IsDisconnect(u.event.value)
  {
    hide Next, Summary, Asks, Inv, Heard, LateDisconnect;
    var r := Next(setup, s, u);
    LineMeans(s.log);
    LineMeans(r.log);
    HeardDisconnect(s.log);
    HeardDisconnect(r.log);
    if s.pc.Bill? {
      BillIsDisconnected(setup, s, t);
    }
    if PlaceCall in s.log {
      NextHears(setup, s, u, IsDisconnect);
    }
  }

  lemma BillIsDisconnected(setup: Setup, s: Call, t: Tick)
    requires Inv(setup, s, t) && s.pc.Bill?
    ensures Summary(s.log).line.Disconnected? && s.connectedMs > 0
  {
    hide Summary, Setup.RecPath;
  }

  /** Giving up without a disconnect comes no earlier than 10000 ms after the answer timeout. */
  lemma GivingUpIsLate(setup: Setup, ts: seq<Tick>)
    requires Legal(ts) && Exec(setup, ts).pc == Returned && Exec(setup, ts).result.status == NO_ANSWER
    requires Summary(Exec(setup, ts).log).line == Dialled
    ensures exists m: nat, k: nat :: && m < k < |ts| && Exec(setup, ts[..m]).pc == DialClock
                                     && ts[k].now - ts[m].now >= setup.config.answerTimeoutS * 1000 + 10000
  {
    hide Exec, Next, Legal, Follows, Summary, Inv, Asks, Heard;
    var k := LastRead(setup, ts);
    var s := Exec(setup, ts[..k]);
    NextConcludes(setup, s, ts[k]);
    InvHolds(setup, ts[..k]);
    AtSafetyNet(setup, s, LastTick(ts[..k]));
    NotDisconnected(setup, s, LastTick(ts[..k]), ts[k]);
    Placed(setup, s, LastTick(ts[..k]));
    AsksForEvent();
    AtWaits(s.pc);
    var m := DialledAt(setup, ts[..k]);
    assert ts[..k][..m] == ts[..m];
    InRangeAt(ts[..k], m);
  }

  /** A wait is that of the registration, or comes after the call was placed. */
  lemma AtWaits(pc: Pc)
    ensures Asks(pc).AskEvent? ==> pc.RegWait? || InDial(pc) || PastStep4(pc)
  {
  }

  lemma {:induction false} FiredBefore(setup: Setup, ts: seq<Tick>, k: nat)
    requires k < |ts| && Exec(setup, ts[..k + 1]).pc == Returned && Exec(setup, ts[..k]).pc != DialTimeout
    ensures Fired(setup, ts) <==> Fired(setup, ts[..k])
  {
    hide Exec, Fired, TimesOutAt;
    var n := |ts| - 1;
    FiredSoFar(setup, ts);
    TimesOutWhere(setup, ts, n);
    if k < n {
      assert ts[..n][..k] == ts[..k] && ts[..n][..k + 1] == ts[..k + 1];
      FiredBefore(setup, ts[..n], k);
      ReturnedForGood(setup, ts[..n], k + 1);
    }
  }

  /** The call is placed at the end of Step 2 and nowhere else. */
  lemma NotPlacedYet(setup: Setup, s: Call, u: Tick)
    requires PlaceCall !in s.log && !s.pc.RegExit?
    ensures PlaceCall !in Next(setup, s, u).log
  {
    hide Next, Asks, Summary, EventBelongs;
    NextTakes(setup, s, u);
    var q := Next(setup, s, u).log;
    forall i | 0 <= i < |q|
      ensures q[i] != PlaceCall
    {
      if i < |s.log| {
        assert q[i] == s.log[i] && s.log[i] in s.log;
      } else {
        assert Belongs(setup, Spot(s, u), q[i]);
      }
    }
  }

  /** A DISCONNECTED is noted at the wait that brings it. */
  lemma DisconnectIsTaken(setup: Setup, s: Call, t: Tick, u: Tick)
    requires Inv(setup, s, t) && Summary(Next(setup, s, u).log).line.Disconnected?
    requires !s.pc.Returned? && !s.pc.Bill? && !s.pc.RegExit?
    ensures !InReg(s.pc) && Asks(s.pc).AskEvent? && u.event.Some? && IsDisconnect(u.event.value)
  {
    hide Next, Summary, Asks, Inv, Heard, LateDisconnect;
    var r := Next(setup, s, u);
    Placed(setup, s, t);
    LineMeans(r.log);
    LineMeans(s.log);
    if InReg(s.pc) {
      NotPlacedYet(setup, s, u);
    } else {
      NextHears(setup, s, u, IsDisconnect);
      DialledSoFar(setup, s, t);
      HeardDisconnect(s.log);
      HeardDisconnect(r.log);
    }
  }

  lemma DialledSoFar(setup: Setup, s: Call, t: Tick)
    requires Inv(setup, s, t) && !InReg(s.pc) && !s.pc.Returned? && !s.pc.Bill?
    ensures Summary(s.log).line == Dialled
    ensures Asks(s.pc).AskEvent? && s.connectedMs == 0 ==> s.pc.DialWait?
  {
    hide Summary, Setup.RecPath, Setup.SilenceLevel, Setup.SilenceMs, Replay, EndsSilent;
  }

  lemma RecordOfDisconnect(setup: Setup, s: Call, t: Tick, ev: InternalEvent)
    requires ReturnedInv(setup, s, Summary(s.log), t) && s.connectedMs == 0 && s.result.status != CANCELLED
    requires Summary(s.log).line == Disconnected(ev)
    ensures s.result ==
              if s.timeoutHit then AgentEvent(NO_ANSWER, "", "", 0, 487, AnswerTimedOut(), false)
              else AgentEvent(SipCodeToCallStatus(CodeOf(ev)), "", "", 0, CodeOf(ev), WhyOf(ev), false)
  {
    hide Summary, Ending, AnswerTimedOut, Setup.RecPath;
  }

  /** The record of a call nobody confirmed and that was disconnected: NO_ANSWER with 487 if the answer timeout had
      fired, else what the code of the DISCONNECTED maps to, with that code and reason. It is not billed. */
  lemma UnconfirmedRecord(setup: Setup, ts: seq<Tick>, ev: InternalEvent)
    requires Legal(ts) && Exec(setup, ts).pc == Returned && Exec(setup, ts).result.status != CANCELLED
    requires Summary(Exec(setup, ts).log).line == Disconnected(ev) && Summary(Exec(setup, ts).log).callStart == 0
    ensures Exec(setup, ts).result ==
              if Fired(setup, ts) then AgentEvent(NO_ANSWER, "", "", 0, 487, AnswerTimedOut(), false)
              else AgentEvent(SipCodeToCallStatus(CodeOf(ev)), "", "", 0, CodeOf(ev), WhyOf(ev), false)
  {
    hide Exec, Next, Legal, Follows, Summary, Inv, Asks, AnswerTimedOut, Fired, ReturnedInv, Flows;
    var s := Exec(setup, ts);
    ReturnedHolds(setup, ts);
    RecordOfDisconnect(setup, s, LastTick(ts), ev);
    var k := LastRead(setup, ts);
    var c := Exec(setup, ts[..k]);
    InvHolds(setup, ts[..k]);
    UnconfirmedAt(setup, c, LastTick(ts[..k]), ts[k]);
    FiredBefore(setup, ts, k);
    TimedOutIffFired(setup, ts[..k]);
  }

  /** Such a run ends at the wait of Step 4. */
  lemma UnconfirmedAt(setup: Setup, s: Call, t: Tick, u: Tick)
    requires Inv(setup, s, t) && !s.pc.Returned?
    requires var r := Next(setup, s, u);
             && r.pc.Returned? && r.result.status != CANCELLED && r.connectedMs == 0 && Summary(r.log).line.Disconnected?
    ensures s.pc.DialWait? && Next(setup, s, u).timeoutHit == s.timeoutHit
  {
    hide Next, Summary, Inv, Asks;
    NextConcludes(setup, s, u);
    AsksForFlag();
    if s.pc.Bill? {
      BillIsDisconnected(setup, s, t);
    } else if !s.pc.RegExit? {
      DisconnectIsTaken(setup, s, t, u);
      DialledSoFar(setup, s, t);
      AsksForClock();
      AsksForEvent();
    } else if !u.cancelled {
      DialEnters(setup, s, u);
      InitShape(setup, s);
    }
  }

  lemma BillComesFrom(from: Pc, to: Pc, cancelled: bool, got: bool)
    requires Flows(from, to, cancelled, got) && to.Bill?
    ensures got && (from.DialWait? || from.PlayWait? || from.DrainWait? || from.SilWait? || from.EndWait?)
  {
  }

  lemma BillEntry(setup: Setup, s: Call, u: Tick)
    requires Next(setup, s, u).pc == Bill
    ensures s.pc.DialWait? || s.pc.PlayWait? || s.pc.DrainWait? || s.pc.SilWait? || s.pc.EndWait?
    ensures Next(setup, s, u).timeoutHit == s.timeoutHit
    ensures Next(setup, s, u).result.recordingPath == s.result.recordingPath
  {
    hide Next, Flows, Summary, DialTake, TakeOrDisconnect, FinishPlayback;
    NextLeads(setup, s, u);
    BillComesFrom(s.pc, Bill, u.cancelled, u.event.Some?);
    var ev := u.event.value;
    if s.pc.DialWait? {
      NextInDial(setup, s, u);
      DialToBill(setup, s, ev);
    } else if s.pc.PlayWait? || s.pc.DrainWait? {
      NextInPlay(setup, s, u);
      PlayExitShape(setup, s);
      TakeToBill(setup, s, ev, if s.pc.PlayWait? then PlayLoop else DrainLoop);
    } else {
      NextInEnd(setup, s, u);
      TakeToBill(setup, s, ev, if s.pc.SilWait? then SilLevel else EndLoop);
    }
  }

  lemma DialToBill(setup: Setup, s: Call, ev: InternalEvent)
    requires DialTake(setup, s, ev).pc == Bill
    ensures DialTake(setup, s, ev).timeoutHit == s.timeoutHit
    ensures DialTake(setup, s, ev).result.recordingPath == s.result.recordingPath
  {
    hide Summary, Act, Disconnect, Setup.CallId, AnswerTimedOut;
    if IsDisconnect(ev) {
      ToBill(setup, Act(s, Took(ev)), 487, AnswerTimedOut());
      ToBill(setup, Act(s, Took(ev)), ev.code, ev.why);
    }
  }

  lemma TakeToBill(setup: Setup, s: Call, ev: InternalEvent, other: Pc)
    requires TakeOrDisconnect(setup, s, Some(ev), other).pc == Bill && other != Bill
    ensures TakeOrDisconnect(setup, s, Some(ev), other).timeoutHit == s.timeoutHit
    ensures TakeOrDisconnect(setup, s, Some(ev), other).result.recordingPath == s.result.recordingPath
  {
    hide Summary, Act, Disconnect;
    if IsDisconnect(ev) {
      ToBill(setup, Act(s, Took(ev)), ev.code, ev.why);
    }
  }

  lemma ToBill(setup: Setup, s: Call, code: int32, reason: string)
    ensures var r := Disconnect(setup, s, code, reason);
            r.pc == Bill ==> r.timeoutHit == s.timeoutHit && r.result.recordingPath == s.result.recordingPath
  {
    hide Settle;
    SettleConcludes(setup, s, code, reason, 0);
  }

  lemma RecordOfConfirmed(setup: Setup, s: Call, t: Tick, ev: InternalEvent)
    requires ReturnedInv(setup, s, Summary(s.log), t) && s.connectedMs > 0 && s.result.status != CANCELLED
    requires Summary(s.log).line == Disconnected(ev)
    ensures s.result.status == ANSWERED
    ensures var late := s.timeoutHit && s.result.recordingPath == "";
            && s.result.sipCode == (if late then 487 else CodeOf(ev))
            && s.result.reason == (if late then AnswerTimedOut() else WhyOf(ev))
  {
    hide Summary, Ending, AnswerTimedOut, Setup.RecPath, BillSeconds;
  }

  lemma RecordingPastStep4(setup: Setup, s: Call, t: Tick)
    requires Inv(setup, s, t) && PastStep4(s.pc)
    ensures s.result.recordingPath != ""
  {
    hide Summary, Setup.SilenceLevel, Setup.SilenceMs, Replay, EndsSilent, Setup.CallId;
  }

  lemma SettleKeepsPath(setup: Setup, s: Call, u: Tick)
    requires s.pc == Bill
    ensures Next(setup, s, u).result.recordingPath == s.result.recordingPath
  {
    hide NextReg, NextDial, NextPlay, Settle, Summary, BillSeconds;
    SettleRecord(setup, s.(markMs := u.now), s.hangupCode, s.hangupReason, BillSeconds(s.connectedMs, u.now));
  }

  /** The record of a confirmed call that was disconnected: ANSWERED, with the code and reason of the DISCONNECTED,
      unless the answer timeout had fired before and there was no recording yet. */
  lemma ConfirmedRecord(setup: Setup, ts: seq<Tick>, ev: InternalEvent)
    requires Legal(ts) && Exec(setup, ts).pc == Returned && Exec(setup, ts).result.status != CANCELLED
    requires Summary(Exec(setup, ts).log).line == Disconnected(ev) && Summary(Exec(setup, ts).log).callStart > 0
    ensures var r := Exec(setup, ts).result;
            var late := Fired(setup, ts) && r.recordingPath == "";
            && r.status == ANSWERED
            && r.sipCode == (if late then 487 else CodeOf(ev))
            && r.reason == (if late then AnswerTimedOut() else WhyOf(ev))
  {
    hide Exec, Next, Legal, Follows, Summary, Inv, Asks, AnswerTimedOut, Fired, ReturnedInv, Flows;
    var s := Exec(setup, ts);
    ReturnedHolds(setup, ts);
    RecordOfConfirmed(setup, s, LastTick(ts), ev);
    if s.result.recordingPath == "" {
      var k := BilledLast(setup, ts);
      BillBefore(setup, ts, k);
    }
  }

  lemma BillBefore(setup: Setup, ts: seq<Tick>, k: nat)
    requires Legal(ts) && Billing(setup, ts, k) && Exec(setup, ts).result.recordingPath == ""
    requires Exec(setup, ts).pc == Returned
    ensures Exec(setup, ts).timeoutHit <==> Fired(setup, ts)
  {
    hide Exec, Next, Legal, Follows, Summary, Inv, Asks, Fired, Flows;
    var c := Exec(setup, ts[..k]);
    BillNotFirst(setup, ts, k);
    var n := k - 1;
    var b := Exec(setup, ts[..n]);
    OneMore(setup, ts, n);
    OneMore(setup, ts, k);
    NextLeads(setup, c, ts[k]);
    BillLeadsOut(c, ts[k], Next(setup, c, ts[k]));
    ReturnedForGood(setup, ts, k + 1);
    NextConcludes(setup, c, ts[k]);
    SettleKeepsPath(setup, c, ts[k]);
    BillEntry(setup, b, ts[n]);
    LegalSplits(ts, n);
    InvHolds(setup, ts[..n]);
    if PastStep4(b.pc) {
      RecordingPastStep4(setup, b, LastTick(ts[..n]));
    }
    TimedOutIffFired(setup, ts[..n]);
    FiredBefore(setup, ts, k);
    FiredSoFar(setup, ts[..k]);
    assert ts[..k][..n] == ts[..n];
    TimesOutWhere(setup, ts[..k], n);
  }

  lemma BillLeadsOut(s: Call, u: Tick, r: Call)
    requires s.pc == Bill && Leads(s, r, u)
    ensures r.pc == Returned
  {
  }

  lemma BillNotFirst(setup: Setup, ts: seq<Tick>, k: nat)
    requires Billing(setup, ts, k)
    ensures k > 0
  {
    hide Next;
    AtInit(setup);
  }

  lemma CancelledAs(setup: Setup, s: Call, u: Tick)
    requires Asks(s.pc).AskCancelled? && u.cancelled && Next(setup, s, u).pc == Returned
    ensures Next(setup, s, u).result ==
              s.result.(status := CANCELLED,
                        reason := if s.pc == RegExit then CancelledEarly()
                                  else if s.pc == DialExit then CancelledByUser() else s.result.reason)
  {
    hide Next, Summary, CancelledEarly, CancelledByUser, Flows, SetUpRecording, StartListening, HangUpOnSilence, EmitState;
    FlagLeadsOut(setup, s, u);
    FlagExits(setup, s, u);
    if s.pc == RegExit {
      EarlyNext(setup, s, u);
    } else if s.pc == DialExit || s.pc == DelayExit {
      NextInDelay(setup, s, u);
    } else if s.pc == PlayExit {
      NextInPlay(setup, s, u);
    } else {
      NextInEnd(setup, s, u);
    }
  }

  /** The reads of the flag at which `run` can return. */
  lemma FlagExits(setup: Setup, s: Call, u: Tick)
    requires Asks(s.pc).AskCancelled? && u.cancelled && Next(setup, s, u).pc == Returned
    ensures AtExit(s.pc) || s.pc == EndLoop
  {
    hide Next, Summary;
    if s.pc == RegLoop {
      NextInReg(setup, s, u);
    } else if s.pc == DialLoop {
      NextInDial(setup, s, u);
    } else if s.pc == DelayLoop {
      NextInDelay(setup, s, u);
    } else if s.pc == PlayLoop || s.pc == DrainLoop {
      NextInPlay(setup, s, u);
    } else if s.pc == SilLoop {
      NextInEnd(setup, s, u);
    }
  }

  lemma EarlyNext(setup: Setup, s: Call, u: Tick)
    requires s.pc == RegExit && u.cancelled
    ensures Next(setup, s, u) == CancelEarly(s)
  {
    hide CancelEarly, NextDial, NextPlay, NextEnd, Init, RegTake, CheckRegClock, EnterLoop, Dial;
  }

  lemma BlankSoFar(setup: Setup, s: Call, t: Tick)
    requires Inv(setup, s, t) && !s.pc.Returned?
    ensures s.result == Blank(s.result.status, if PastStep4(s.pc) then RecordingOf(setup) else s.result.recordingPath)
    ensures InReg(s.pc) || InDial(s.pc) ==> s.result.recordingPath == ""
  {
    hide Summary, Setup.SilenceLevel, Setup.SilenceMs, Replay, EndsSilent, Setup.CallId, Setup.RecPath, RecordingOf;
    Ids(setup);
  }

  /** The record of a cancelled call: the path of the recording once it has been set up, and a reason for a
      cancellation before the call was placed or in Step 4. */
  lemma CancelledRecord(setup: Setup, ts: seq<Tick>)
    requires Legal(ts) && Exec(setup, ts).pc == Returned && Exec(setup, ts).result.status == CANCELLED
    ensures exists k: nat :: SawFlag(setup, ts, k)
              && var pc := Exec(setup, ts[..k]).pc;
                 Exec(setup, ts).result ==
                   AgentEvent(CANCELLED, "", if PastStep4(pc) then RecordingOf(setup) else "", 0, 0,
                              if pc == RegExit then CancelledEarly() else if pc == DialExit then CancelledByUser() else "",
                              false)
  {
    hide Exec, Next, Legal, Follows, Summary, Inv, Asks, CancelledEarly, CancelledByUser, RecordingOf;
    var k := LastRead(setup, ts);
    var s := Exec(setup, ts[..k]);
    NextConcludes(setup, s, ts[k]);
    InvHolds(setup, ts[..k]);
    NotYetCancelled(setup, s, LastTick(ts[..k]));
    BlankSoFar(setup, s, LastTick(ts[..k]));
    CancelledAs(setup, s, ts[k]);
    FlagPlaces(s.pc);
    assert SawFlag(setup, ts, k);
  }

  lemma FlagPlaces(pc: Pc)
    ensures Asks(pc).AskCancelled? ==> InReg(pc) || InDial(pc) || PastStep4(pc)
  {
  }
}
