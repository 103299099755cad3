/** `run` never spins: in a punctual run that is not cancelled, the number of reads is
    bounded by the time that has passed and the number of events taken. */
module CallPace {
  import opened MachineInts
  import opened Events
  import opened CallMachine
  import opened CallInvariant
  import opened CallCancellation
  import opened CallDeadlines
  import opened CallIntake

  // ---- The flow of control -----------------------------------------------------------------

  /** Where one read leads, short of a return: `got` if it brought an event. */
  predicate Flows(from: Pc, to: Pc, cancelled: bool, got: bool) {
    match from
    case RegInit => to.RegStarted?
    case RegStarted => to.RegLoop?
    case RegLoop => if cancelled then to.RegExit? else to.RegWait?
    case RegWait => if got then to.RegLoop? || to.RegExit? else to.RegClock?
    case RegClock => to.RegLoop?
    case RegExit => !cancelled && to.DialClock?
    case DialClock => to.DialLoop?
    case DialLoop => if cancelled then to.DialExit? else to.DialTimeout? || to.DialSafety? || to.DialWait?
    case DialTimeout => to.DialSafety? || to.DialWait?
    case DialSafety => to.DialWait?
    case DialWait => if got then to.DialLoop? || to.DialConfirm? || to.DialExit? || to.Bill? else to.DialLoop?
    case DialConfirm => to.DialLoop? || to.DialExit?
    case DialExit => !cancelled && to.DelayClock?
    case DelayClock => to.DelayLoop? || to.DelayExit?
    case DelayLoop => if cancelled then to.DelayExit? else to.DelaySleep?
    case DelaySleep => to.DelayClock?
    case DelayExit => !cancelled && to.PlayClock?
    case PlayClock => to.PlayLoop?
    case PlayLoop => if cancelled then to.PlayExit? else to.PlayWait?
    case PlayWait => if got then to.PlayLoop? || to.PlayExit? || to.Bill? else to.PlayCap?
    case PlayCap => to.PlayLoop? || to.DrainLoop?
    case DrainLoop => if cancelled then to.PlayExit? else to.DrainWait?
    case DrainWait => to.DrainLoop? || (got && to.Bill?)
    case PlayExit => !cancelled && to.SilLoop?
    case SilLoop => if cancelled then to.SilExit? else to.SilWait?
    case SilWait => to.SilLevel? || (got && to.Bill?)
    case SilLevel => to.SilFeed?
    case SilFeed => to.SilCap?
    case SilCap => to.SilLoop? || to.SilExit?
    case SilExit => !cancelled && to.EndLoop?
    case EndLoop => !cancelled && to.EndWait?
    case EndWait => to.EndLoop? || (got && to.Bill?)
    case Bill => false
    case Returned => false
  }

  ghost predicate Leads(s: Call, r: Call, u: Tick) {
    r.pc.Returned? || Flows(s.pc, r.pc, u.cancelled, u.event.Some?)
  }

  lemma InitShape(setup: Setup, s: Call)
    ensures Init(setup, s).pc.RegStarted? || Init(setup, s).pc.Returned?
    ensures Dial(setup, s).pc.DialClock?
  {
    hide Summary, Act, Setup.CallId, InitFailed;
  }

  lemma RegEndsLead(setup: Setup, s: Call, u: Tick)
    requires s.pc.RegInit? || s.pc.RegExit?
    ensures Leads(s, NextReg(setup, s, u), u)
  {
    hide Summary, Init, Dial, CancelledEarly;
    InitShape(setup, s);
  }

  lemma RegClockShape(setup: Setup, s: Call, now: uint64)
    ensures CheckRegClock(setup, s, now).pc.Returned? || CheckRegClock(setup, s, now).pc.RegLoop?
  {
    hide Summary, Act, Setup.CallId, RegTimedOut, Sub64;
  }

  lemma RegLeads(setup: Setup, s: Call, u: Tick)
    requires s.pc.RegStarted? || s.pc.RegLoop? || s.pc.RegWait? || s.pc.RegClock?
    ensures Leads(s, Next(setup, s, u), u)
  {
    hide Next, Summary, RegTake, CheckRegClock;
    NextInReg(setup, s, u);
    RegClockShape(setup, s, u.now);
    if u.event.Some? {
      RegTakeShape(setup, s, u.event.value);
    }
  }

  lemma DialLeads(setup: Setup, s: Call, u: Tick)
    requires s.pc.DialClock? || s.pc.DialLoop? || s.pc.DialWait?
    ensures Leads(s, Next(setup, s, u), u)
  {
    hide Next, Summary, DialTake, Add64;
    NextInDial(setup, s, u);
    if u.event.Some? {
      DialTakeShape(setup, s, u.event.value);
    }
  }

  lemma DialClockLeads(setup: Setup, s: Call, u: Tick)
    requires s.pc.DialTimeout? || s.pc.DialSafety? || s.pc.DialConfirm?
    ensures Leads(s, NextDial(setup, s, u), u)
  {
    hide Summary, Act, Setup.CallId, AnswerTimedOut, StartDeadline, DialTake, CancelByUser, SetUpRecording, Add64;
  }

  lemma DelayLeads(setup: Setup, s: Call, u: Tick)
    requires s.pc.DialExit? || s.pc.DelayClock? || s.pc.DelayLoop? || s.pc.DelaySleep? || s.pc.DelayExit?
    ensures Leads(s, Next(setup, s, u), u)
  {
    hide Next, Summary, SetUpRecording, CancelByUser, HangUpCancelled, EmitState, Add64;
    NextInDelay(setup, s, u);
    DelayTargets(setup, s);
  }

  lemma DelayTargets(setup: Setup, s: Call)
    ensures CancelByUser(s).pc.Returned? && HangUpCancelled(s).pc.Returned?
    ensures SetUpRecording(setup, s).pc.Returned? || SetUpRecording(setup, s).pc.DelayClock?
  {
    hide Summary, CancelByUser, SetUpRecording, HangUpCancelled, EmitState;
    DialExitShape(setup, s);
    PlayExitShape(setup, s);
  }

  lemma TakeLeads(setup: Setup, s: Call, event: Option<InternalEvent>, other: Pc)
    ensures var pc := TakeOrDisconnect(setup, s, event, other).pc;
            pc == other || (event.Some? && pc.Bill?) || pc.Returned?
  {
    hide TakeOrDisconnect, Taken;
    TakeShape(setup, s, event, other);
  }

  lemma PlayWaitLeads(setup: Setup, s: Call, u: Tick)
    requires s.pc.PlayWait? || s.pc.DrainWait?
    ensures Leads(s, Next(setup, s, u), u)
  {
    hide Next, Summary, FinishPlayback, TakeOrDisconnect, EmitState, HangUpCancelled;
    NextInPlay(setup, s, u);
    TakeLeads(setup, s, u.event, if s.pc.PlayWait? then PlayLoop else DrainLoop);
    PlayExitShape(setup, s);
  }

  lemma PlayTargets(setup: Setup, s: Call, now: uint64)
    ensures StartPlayback(setup, s, now).pc.PlayLoop?
    ensures CheckCap(s, now).pc.DrainLoop? || CheckCap(s, now).pc.PlayLoop?
    ensures StartListening(setup, s, now).pc.SilLoop? || StartListening(setup, s, now).pc.Returned?
    ensures HangUpCancelled(s).pc.Returned?
  {
    hide StartPlayback, CheckCap, StartListening, HangUpCancelled, Summary, Sub64;
    StartPlaybackShape(setup, s, now);
    CheckCapShape(s, now);
    StartListeningShape(setup, s, now);
    PlayExitShape(setup, s);
  }

  lemma PlayLeads(setup: Setup, s: Call, u: Tick)
    requires s.pc.PlayClock? || s.pc.PlayLoop? || s.pc.PlayCap? || s.pc.DrainLoop? || s.pc.PlayExit?
    ensures Leads(s, Next(setup, s, u), u)
  {
    hide Next, Summary, StartPlayback, CheckCap, HangUpCancelled, StartListening;
    NextInPlay(setup, s, u);
    PlayTargets(setup, s, u.now);
  }

  lemma ListenWaitLeads(setup: Setup, s: Call, u: Tick)
    requires s.pc.SilWait? || s.pc.EndWait?
    ensures Leads(s, Next(setup, s, u), u)
  {
    hide Next, Summary, TakeOrDisconnect;
    NextInEnd(setup, s, u);
    TakeLeads(setup, s, u.event, if s.pc.SilWait? then SilLevel else EndLoop);
  }

  lemma ListenLeads(setup: Setup, s: Call, u: Tick)
    requires InListen(s.pc) && !s.pc.SilWait? && !s.pc.EndWait?
    ensures Leads(s, Next(setup, s, u), u)
  {
    hide Next, Summary, FeedDetector, HangUpOnSilence, ReturnCancelled, Sub64;
    NextInEnd(setup, s, u);
    ListenTargets(setup, s, u.now);
  }

  lemma ListenTargets(setup: Setup, s: Call, now: uint64)
    ensures FeedDetector(s, now).pc.SilCap? && HangUpOnSilence(setup, s).pc.EndLoop? && ReturnCancelled(s).pc.Returned?
  {
    hide FeedDetector, HangUpOnSilence, Summary;
    FeedShape(s, now);
    ListenExitShape(setup, s);
  }

  lemma LastLeads(setup: Setup, s: Call, u: Tick)
    requires s.pc.Bill? || s.pc.Returned?
    ensures Leads(s, Next(setup, s, u), u)
  {
    hide NextReg, NextDial, NextPlay, Settle, Summary, BillSeconds;
    SettleShape(setup, s.(markMs := u.now), s.hangupCode, s.hangupReason, BillSeconds(s.connectedMs, u.now));
  }

  /** `run` follows its flow of control. */
  lemma NextLeads(setup: Setup, s: Call, u: Tick)
    ensures Leads(s, Next(setup, s, u), u)
  {
    hide NextReg, NextDial, NextPlay, NextEnd, Leads;
    if s.pc.RegInit? || s.pc.RegExit? {
      RegEndsLead(setup, s, u);
    } else if InReg(s.pc) {
      RegLeads(setup, s, u);
    } else if s.pc.DialClock? || s.pc.DialLoop? || s.pc.DialWait? {
      DialLeads(setup, s, u);
    } else if s.pc.DialTimeout? || s.pc.DialSafety? || s.pc.DialConfirm? {
      DialClockLeads(setup, s, u);
    } else if s.pc.DialExit? || s.pc.DelayClock? || s.pc.DelayLoop? || s.pc.DelaySleep? || s.pc.DelayExit? {
      DelayLeads(setup, s, u);
    } else if s.pc.PlayWait? || s.pc.DrainWait? {
      PlayWaitLeads(setup, s, u);
    } else if InPlay(s.pc) {
      PlayLeads(setup, s, u);
    } else if s.pc.SilWait? || s.pc.EndWait? {
      ListenWaitLeads(setup, s, u);
    } else if InListen(s.pc) {
      ListenLeads(setup, s, u);
    } else {
      LastLeads(setup, s, u);
    }
  }

  /** The machine starts only once, and confirmations are announced only in Step 4. */
  lemma MovesOn(setup: Setup, s: Call, u: Tick)
    ensures Next(setup, s, u).pc != RegInit
    ensures !InDial(s.pc) ==> Next(setup, s, u).pc != DialConfirm
  {
    hide Next;
    NextLeads(setup, s, u);
  }

  // ---- Paying for reads ----------------------------------------------------------------------

  /** How many reads a program point may be ahead of the clock. A read that blocks and brings
      nothing takes at least 50 ms, and one that brings an event counts as 50 ms;
      both let the point fall back by four. */
  function Ahead(pc: Pc): int {
    match pc
    case RegInit => 0
    case RegStarted => 1
    case RegLoop => 2
    case RegWait => 3
    case RegClock => 1
    case RegExit => 0
    case DialClock => 1
    case DialLoop => 2
    case DialTimeout => 3
    case DialSafety => 4
    case DialWait => 5
    case DialConfirm => 1
    case DialExit => 2
    case DelayClock => 3
    case DelayLoop => 4
    case DelaySleep => 5
    case DelayExit => 4
    case PlayClock => 5
    case PlayLoop => 6
    case PlayWait => 7
    case PlayCap => 5
    case DrainLoop => 6
    case DrainWait => 7
    case PlayExit => 3
    case SilLoop => 4
    case SilWait => 5
    case SilLevel => 1
    case SilFeed => 2
    case SilCap => 3
    case SilExit => 4
    case EndLoop => 5
    case EndWait => 6
    case Bill => 3
    case Returned => 0
  }

  lemma SmallLead(pc: Pc)
    ensures 0 <= Ahead(pc) <= 7
  {
  }

  /** A read is paid for in time, by an event, or by running ahead. */
  predicate Pays(from: Pc, to: Pc, ms: int, got: bool) {
    10 * (1 + Ahead(from) - Ahead(to)) <= ms + if got then 50 else 0
  }

  lemma GoesAhead(from: Pc, to: Pc, got: bool)
    requires Flows(from, to, false, got) && !Blocks(from)
    ensures Ahead(from) < Ahead(to)
  {
  }

  lemma FallsBack(from: Pc, to: Pc, got: bool)
    requires Flows(from, to, false, got) && Blocks(from)
    ensures got && Asks(from).AskEvent? ==> Ahead(from) <= Ahead(to) + 4
    ensures !got && Asks(from).AskEvent? ==> 10 * (1 + Ahead(from) - Ahead(to)) <= Asks(from).timeoutMs
    ensures Asks(from).AskSleep? ==> 10 * (1 + Ahead(from) - Ahead(to)) <= Asks(from).ms
  {
  }

  lemma FlowPays(from: Pc, to: Pc, t: Tick, u: Tick)
    requires Flows(from, to, false, u.event.Some?) && t.now <= u.now && !u.cancelled && PunctualStep(from, t, u)
    ensures Pays(from, to, u.now - t.now, Asks(from).AskEvent? && u.event.Some?)
  {
    hide Ahead, Flows, Asks;
    if Blocks(from) {
      FallsBack(from, to, u.event.Some?);
    } else {
      GoesAhead(from, to, u.event.Some?);
    }
  }

  /** Between any two moments of a punctual run that goes on uncancelled: at most one read
      per 10 ms, five per event taken, and seven more. So the run cannot spin, and it
      can outlast a deadline only by taking events without end. */
  lemma {:induction false} ReadsArePaced(setup: Setup, ts: seq<Tick>, i: nat)
    requires Legal(ts) && Punctual(setup, ts) && i <= |ts|
    requires !LastTick(ts).cancelled && Exec(setup, ts).pc != Returned
    ensures LastTick(ts[..i]).now <= LastTick(ts).now
    ensures 10 * (|ts| - i) <= LastTick(ts).now - LastTick(ts[..i]).now
                               + 50 * (Taken(Exec(setup, ts)) - Taken(Exec(setup, ts[..i]))) + 70
  {
    hide Next, Summary, PunctualStep, Taken, Ahead;
    PacedBetween(setup, ts, i);
    SmallLead(Exec(setup, ts).pc);
    SmallLead(Exec(setup, ts[..i]).pc);
  }

  lemma {:induction false} PacedBetween(setup: Setup, ts: seq<Tick>, i: nat)
    requires Legal(ts) && Punctual(setup, ts) && i <= |ts|
    requires !LastTick(ts).cancelled && Exec(setup, ts).pc != Returned
    ensures LastTick(ts[..i]).now <= LastTick(ts).now
    ensures var s, s0 := Exec(setup, ts), Exec(setup, ts[..i]);
            10 * (|ts| - i) + 10 * Ahead(s0.pc) <=
              LastTick(ts).now - LastTick(ts[..i]).now + 50 * (Taken(s) - Taken(s0)) + 10 * Ahead(s.pc)
  {
    hide Next, Summary, PunctualStep, Flows, Ahead, Asks;
    if i == |ts| {
      assert ts[..i] == ts;
    } else {
      var p := ts[..|ts| - 1];
      assert p[..i] == ts[..i];
      if Exec(setup, p).pc == Returned {
        ReturnedStays(setup, Exec(setup, p), ts[|ts| - 1]);
      } else {
        PacedBetween(setup, p, i);
        NextLeads(setup, Exec(setup, p), ts[|ts| - 1]);
        FlowPays(Exec(setup, p).pc, Exec(setup, ts).pc, LastTick(p), ts[|ts| - 1]);
        NextTakes(setup, Exec(setup, p), ts[|ts| - 1]);
      }
    }
  }

  // ---- A call that is never answered -------------------------------------------------------

  /** A punctual run that stays unanswered and uncancelled leaves Step 4, unless events are
      pushed without end: counted from any moment `i` not before the start of registration,
      it makes one read per 10 ms of both timeouts, five per event taken, and seven more. */
  lemma UnansweredRunEnds(setup: Setup, ts: seq<Tick>, i: nat)
    requires Legal(ts) && Punctual(setup, ts) && !LastTick(ts).cancelled
    requires var s := Exec(setup, ts);
             !s.answered && ((InReg(s.pc) && !s.pc.RegInit? && !s.pc.RegStarted?) || InDial(s.pc))
    requires i <= |ts| && Exec(setup, ts).regStart <= LastTick(ts[..i]).now
    ensures 10 * (|ts| - i) < 15500 + setup.config.answerTimeoutS * 1000 + 10500
                              + 50 * (Taken(Exec(setup, ts)) - Taken(Exec(setup, ts[..i]))) + 70
  {
    hide Exec, Summary, ListenTime, Taken, Inv, Punctual;
    ReadsArePaced(setup, ts, i);
    OnTimeHolds(setup, ts);
  }

  // ---- A call that is cancelled --------------------------------------------------------------

  lemma {:induction false} ExecSplits(setup: Setup, ts: seq<Tick>, i: nat)
    requires i <= |ts|
    ensures Exec(setup, ts) == From(setup, Exec(setup, ts[..i]), ts[i..])
  {
    hide Next, Begin;
    if i == |ts| {
      assert ts[..i] == ts;
    } else {
      var n := |ts| - 1;
      assert ts[..n][..i] == ts[..i] && ts[i..][..n - i] == ts[..n][i..];
      ExecSplits(setup, ts[..n], i);
    }
  }

  /** Once cancelled, a punctual run has used at most 500 ms when it returns, whatever it was
      waiting for, and at most six reads. */
  lemma {:induction false} CancelledRunIsQuick(setup: Setup, ts: seq<Tick>, i: nat)
    requires Legal(ts) && Punctual(setup, ts) && i <= |ts| && Exec(setup, ts[..i]).pc != RegInit
    requires AllCancelled(ts[i..])
    ensures |ts| - i >= 6 ==> Exec(setup, ts).pc == Returned
    ensures LastTick(ts).now - LastTick(ts[..i]).now <= 500
  {
    hide Next, Exec, From, Taken, Legal, Punctual, BlockingReads;
    ExecSplits(setup, ts, i);
    CancellationIsPrompt(setup, Exec(setup, ts[..i]), ts[i..]);
    WaitsTakeTheTime(setup, ts, i);
  }

  lemma WaitsAreShort(pc: Pc, t: Tick, u: Tick)
    requires PunctualStep(pc, t, u) && pc != RegInit
    ensures u.now - t.now <= if Blocks(pc) then 500 else 0
  {
  }

  lemma {:induction false} WaitsTakeTheTime(setup: Setup, ts: seq<Tick>, i: nat)
    requires Punctual(setup, ts) && i <= |ts| && Exec(setup, ts[..i]).pc != RegInit
    ensures LastTick(ts).now - LastTick(ts[..i]).now <= 500 * BlockingReads(setup, Exec(setup, ts[..i]), ts[i..])
    ensures Exec(setup, ts).pc != RegInit
  {
    hide Next, PunctualStep, Blocks, Taken;
    if i == |ts| {
      assert ts[..i] == ts;
    } else {
      var n := |ts| - 1;
      assert ts[..n][..i] == ts[..i] && ts[i..][..n - i] == ts[..n][i..];
      WaitsTakeTheTime(setup, ts[..n], i);
      ExecSplits(setup, ts[..n], i);
      WaitsAreShort(Exec(setup, ts[..n]).pc, LastTick(ts[..n]), ts[n]);
      MovesOn(setup, Exec(setup, ts[..n]), ts[n]);
    }
  }
}
