/** Bounded cancellation: once the flag is set, `run` is over after at most one more
    blocking wait or sleep, whatever state it was in and whatever is in the queue. */
module CallCancellation {
  import opened MachineInts
  import opened Events
  import opened Silence
  import opened CallGrammar
  import opened CallMachine
  import opened CallTheorems

  predicate Blocks(pc: Pc) {
    Asks(pc).AskEvent? || Asks(pc).AskSleep?
  }

  /** What is still possible, at most, from a program point on when every read of the flag is
      true: reads, blocking reads, events emitted. */
  datatype Budget = Budget(steps: nat, waits: nat, emits: nat)

  function Left(pc: Pc): Budget {
    match pc
    case RegInit => Budget(4, 0, 1)
    case RegStarted => Budget(3, 0, 0)
    case RegLoop => Budget(2, 0, 0)
    case RegWait => Budget(4, 1, 1)
    case RegClock => Budget(3, 0, 1)
    case RegExit => Budget(1, 0, 0)
    case DialClock => Budget(3, 0, 0)
    case DialLoop => Budget(2, 0, 0)
    case DialTimeout => Budget(6, 1, 2)
    case DialSafety => Budget(5, 1, 2)
    case DialWait => Budget(4, 1, 2)
    case DialConfirm => Budget(3, 0, 1)
    case DialExit => Budget(1, 0, 0)
    case DelayClock => Budget(3, 0, 0)
    case DelayLoop => Budget(2, 0, 0)
    case DelaySleep => Budget(4, 1, 0)
    case DelayExit => Budget(1, 0, 0)
    case PlayClock => Budget(3, 0, 0)
    case PlayLoop => Budget(2, 0, 0)
    case PlayWait => Budget(4, 1, 2)
    case PlayCap => Budget(3, 0, 0)
    case DrainLoop => Budget(2, 0, 0)
    case DrainWait => Budget(3, 1, 2)
    case PlayExit => Budget(1, 0, 0)
    case SilLoop => Budget(2, 0, 0)
    case SilWait => Budget(6, 1, 2)
    case SilLevel => Budget(5, 0, 0)
    case SilFeed => Budget(4, 0, 0)
    case SilCap => Budget(3, 0, 0)
    case SilExit => Budget(1, 0, 0)
    case EndLoop => Budget(1, 0, 0)
    case EndWait => Budget(2, 1, 2)
    case Bill => Budget(1, 0, 2)
    case Returned => Budget(0, 0, 0)
  }

  // The table again, phase by phase, for proofs that hide the function.

  lemma RegBudgets()
    ensures Left(RegInit) == Budget(4, 0, 1)
    ensures Left(RegStarted) == Budget(3, 0, 0)
    ensures Left(RegLoop) == Budget(2, 0, 0)
    ensures Left(RegWait) == Budget(4, 1, 1)
    ensures Left(RegClock) == Budget(3, 0, 1)
    ensures Left(RegExit) == Budget(1, 0, 0)
    ensures Left(Returned) == Budget(0, 0, 0)
  {
  }

  lemma DialBudgets()
    ensures Left(DialClock) == Budget(3, 0, 0)
    ensures Left(DialLoop) == Budget(2, 0, 0)
    ensures Left(DialTimeout) == Budget(6, 1, 2)
    ensures Left(DialSafety) == Budget(5, 1, 2)
    ensures Left(DialWait) == Budget(4, 1, 2)
    ensures Left(DialConfirm) == Budget(3, 0, 1)
    ensures Left(DialExit) == Budget(1, 0, 0)
    ensures Left(Bill) == Budget(1, 0, 2)
    ensures Left(Returned) == Budget(0, 0, 0)
  {
  }

  lemma PlayBudgets()
    ensures Left(DelayClock) == Left(PlayClock) == Left(PlayCap) == Budget(3, 0, 0)
    ensures Left(DelayLoop) == Left(PlayLoop) == Budget(2, 0, 0)
    ensures Left(DelaySleep) == Budget(4, 1, 0)
    ensures Left(DelayExit) == Left(PlayExit) == Budget(1, 0, 0)
    ensures Left(PlayWait) == Budget(4, 1, 2)
  {
  }

  lemma EndBudgets()
    ensures Left(SilLoop) == Budget(2, 0, 0) && Left(SilWait) == Budget(6, 1, 2) && Left(SilLevel) == Budget(5, 0, 0)
    ensures Left(SilFeed) == Budget(4, 0, 0) && Left(SilCap) == Budget(3, 0, 0)
    ensures Left(SilExit) == Left(EndLoop) == Budget(1, 0, 0) && Left(EndWait) == Budget(2, 1, 2)
  {
    hide Left;
    ListenBudgets();
    EndLoopBudgets();
  }

  lemma ListenBudgets()
    ensures Left(SilLoop) == Budget(2, 0, 0) && Left(SilWait) == Budget(6, 1, 2) && Left(SilLevel) == Budget(5, 0, 0)
    ensures Left(SilFeed) == Budget(4, 0, 0)
  {
  }

  lemma EndLoopBudgets()
    ensures Left(SilCap) == Budget(3, 0, 0)
    ensures Left(SilExit) == Left(EndLoop) == Budget(1, 0, 0) && Left(EndWait) == Budget(2, 1, 2)
  {
  }

  lemma CloseBudgets()
    ensures Left(DrainLoop) == Budget(2, 0, 0)
    ensures Left(DrainWait) == Budget(3, 1, 2)
    ensures Left(Bill) == Budget(1, 0, 2)
    ensures Left(Returned) == Budget(0, 0, 0)
  {
  }

  lemma SmallBudgets(pc: Pc)
    ensures Left(pc).steps <= 6 && Left(pc).waits <= 1 && Left(pc).emits <= 2
    ensures Left(pc).steps == 0 ==> pc == Returned
  {
  }

  function Taken(s: Call): nat {
    |Summary(s.log).taken|
  }

  ghost predicate Progress(s: Call, r: Call) {
    && (!s.pc.Returned? ==> Left(r.pc).steps < Left(s.pc).steps)
    && (if Blocks(s.pc) then 1 else 0) + Left(r.pc).waits <= Left(s.pc).waits
    && |Stream(r)| + Left(r.pc).emits <= |Stream(s)| + Left(s.pc).emits
    && Taken(r) + Left(r.pc).waits <= Taken(s) + Left(s.pc).waits
  }

  lemma SettleProgress(setup: Setup, s: Call, code: int32, reason: string, bill: uint32)
    ensures var r := Settle(setup, s, code, reason, bill);
            r.pc == Returned && |Stream(r)| <= |Stream(s)| + 2 && Taken(r) == Taken(s)
  {
    hide Summary, Act, Delta, Setup.CallId, SipCodeToCallStatus;
  }

  lemma DisconnectProgress(setup: Setup, s: Call, code: int32, reason: string)
    ensures var r := Disconnect(setup, s, code, reason);
            (r.pc == Bill || r.pc == Returned) && |Stream(r)| + Left(r.pc).emits <= |Stream(s)| + 2 && Taken(r) == Taken(s)
  {
    hide Summary, Settle, Taken, Stream;
    SettleProgress(setup, s, code, reason, 0);
    assert Disconnect(setup, s, code, reason).pc.Bill? ==> Disconnect(setup, s, code, reason).log == s.log;
    assert Disconnect(setup, s, code, reason).pc.Bill? ==> Stream(Disconnect(setup, s, code, reason)) == Stream(s) by {
      SameLog(s, Disconnect(setup, s, code, reason));
    }
    assert Disconnect(setup, s, code, reason).pc.Bill? ==> Taken(Disconnect(setup, s, code, reason)) == Taken(s) by {
      SameLog(s, Disconnect(setup, s, code, reason));
    }
  }

  lemma SameLog(s: Call, r: Call)
    ensures r.log == s.log ==> Stream(r) == Stream(s) && Taken(r) == Taken(s)
  {
  }

  lemma InitProgress(setup: Setup, s: Call)
    requires s.pc.RegInit?
    ensures Progress(s, Init(setup, s))
  {
    hide Summary, Act, Delta, Setup.CallId, InitFailed, Left;
    RegBudgets();
  }

  lemma RegTakeProgress(setup: Setup, s: Call, ev: InternalEvent)
    requires s.pc.RegWait?
    ensures Progress(s, RegTake(setup, s, ev))
  {
    hide Summary, Act, Delta, Setup.CallId, Left, Blocks;
    RegBudgets();
    assert Blocks(RegWait) by { RegWaitBlocks(); }
  }

  lemma RegWaitBlocks()
    ensures Blocks(RegWait)
  {
  }

  lemma RegClockProgress(setup: Setup, s: Call, now: uint64)
    requires s.pc.RegClock?
    ensures Progress(s, CheckRegClock(setup, s, now))
  {
    hide Summary, Act, Delta, Setup.CallId, RegTimedOut, Sub64, Left;
    RegBudgets();
  }

  /** A step that only moves on: nothing is emitted or taken. */
  lemma MoveProgress(s: Call, r: Call)
    requires r.log == s.log && !Blocks(s.pc) && !s.pc.DialSafety? && !s.pc.DialTimeout?
    requires Left(r.pc).steps < Left(s.pc).steps && Left(r.pc).waits == 0 && Left(r.pc).emits <= Left(s.pc).emits
    ensures Progress(s, r)
  {
    hide Summary, Left, Blocks;
  }

  /** ... or a wait that timed out. */
  lemma IdleProgress(s: Call, r: Call)
    requires r.log == s.log && Left(s.pc).waits == 1 && Left(r.pc).waits == 0
    requires Left(r.pc).steps < Left(s.pc).steps && Left(r.pc).emits <= Left(s.pc).emits
    ensures Progress(s, r)
  {
    hide Summary, Left, Blocks;
  }

  lemma RegProgress(setup: Setup, s: Call, u: Tick)
    requires InReg(s.pc) && u.cancelled
    ensures Progress(s, NextReg(setup, s, u))
  {
    hide Progress, Init, RegTake, CheckRegClock, Dial, CancelledEarly, Summary, Left;
    RegBudgets();
    if s.pc.RegInit? {
      InitProgress(setup, s);
    } else if s.pc.RegWait? && u.event.Some? {
      RegTakeProgress(setup, s, u.event.value);
    } else if s.pc.RegWait? {
      IdleProgress(s, NextReg(setup, s, u));
    } else if s.pc.RegClock? {
      RegClockProgress(setup, s, u.now);
    } else {
      MoveProgress(s, NextReg(setup, s, u));
    }
  }

  lemma TimeoutProgress(setup: Setup, s: Call, now: uint64)
    requires s.pc.DialTimeout?
    ensures Progress(s, CheckTimeout(s, now))
  {
    hide Summary, Act, Delta, Setup.CallId, Left;
    DialBudgets();
  }

  lemma SafetyNetProgress(setup: Setup, s: Call, now: uint64)
    requires s.pc.DialSafety?
    ensures Progress(s, CheckSafetyNet(setup, s, now))
  {
    hide Summary, Act, Delta, Setup.CallId, AnswerTimedOut, Add64, Left;
    DialBudgets();
  }

  lemma DialTakeProgress(setup: Setup, s: Call, ev: InternalEvent)
    requires s.pc.DialWait? && !IsDisconnect(ev)
    ensures Progress(s, DialTake(setup, s, ev))
  {
    hide Summary, Act, Delta, Setup.CallId, AnswerTimedOut, Disconnect, Left;
    DialBudgets();
  }

  lemma DialDisconnectProgress(setup: Setup, s: Call, ev: InternalEvent)
    requires s.pc.DialWait? && IsDisconnect(ev)
    ensures Progress(s, DialTake(setup, s, ev))
  {
    hide Summary, Act, Delta, Setup.CallId, AnswerTimedOut, Disconnect, EmitState, DialFoot, Left;
    DialBudgets();
    var s1 := Act(s, Took(ev));
    if s.timeoutHit {
      DisconnectProgress(setup, s1, 487, AnswerTimedOut());
    } else {
      DisconnectProgress(setup, s1, ev.code, ev.why);
    }
  }

  lemma ConfirmProgress(setup: Setup, s: Call, now: uint64)
    requires s.pc.DialConfirm?
    ensures Progress(s, Confirm(setup, s, now))
  {
    hide Summary, Act, Delta, Setup.CallId, Left;
    DialBudgets();
  }

  lemma CancelByUserProgress(setup: Setup, s: Call)
    requires s.pc.DialExit?
    ensures Progress(s, CancelByUser(s))
  {
    hide Summary, Act, Delta, Setup.CallId, CancelledByUser, Left;
    DialBudgets();
  }

  lemma DialProgress(setup: Setup, s: Call, u: Tick)
    requires InDial(s.pc) && u.cancelled
    ensures Progress(s, NextDial(setup, s, u))
  {
    hide Progress, CheckTimeout, CheckSafetyNet, DialTake, Confirm, CancelByUser, SetUpRecording, Summary;
    hide Add64, Left;
    DialBudgets();
    if s.pc.DialTimeout? {
      TimeoutProgress(setup, s, u.now);
    } else if s.pc.DialSafety? {
      SafetyNetProgress(setup, s, u.now);
    } else if s.pc.DialWait? && u.event.Some? && IsDisconnect(u.event.value) {
      DialDisconnectProgress(setup, s, u.event.value);
    } else if s.pc.DialWait? && u.event.Some? {
      DialTakeProgress(setup, s, u.event.value);
    } else if s.pc.DialWait? {
      IdleProgress(s, NextDial(setup, s, u));
    } else if s.pc.DialConfirm? {
      ConfirmProgress(setup, s, u.now);
    } else if s.pc.DialExit? {
      CancelByUserProgress(setup, s);
    } else {
      MoveProgress(s, NextDial(setup, s, u));
    }
  }

  lemma TakeProgress(setup: Setup, s: Call, event: Option<InternalEvent>, other: Pc)
    requires Left(s.pc).waits == 1 && Blocks(s.pc) && Left(s.pc).emits == 2 && Left(s.pc).steps >= 2
    requires Left(other).steps < Left(s.pc).steps && Left(other).waits == 0 && Left(other).emits == 0
    ensures Progress(s, TakeOrDisconnect(setup, s, event, other))
  {
    hide Summary, Act, Delta, Disconnect, Left, Blocks;
    CloseBudgets();
    if event.Some? && IsDisconnect(event.value) {
      DisconnectProgress(setup, Act(s, Took(event.value)), event.value.code, event.value.why);
    }
  }

  lemma HangUpProgress(setup: Setup, s: Call)
    requires s.pc.DelayExit? || s.pc.PlayExit?
    ensures Progress(s, HangUpCancelled(s))
  {
    hide Summary, Act, Delta, Setup.CallId, Left;
    PlayBudgets();
    CloseBudgets();
  }

  lemma PlaybackProgress(setup: Setup, s: Call, now: uint64)
    requires s.pc.PlayClock?
    ensures Progress(s, StartPlayback(setup, s, now))
  {
    hide Summary, Act, Delta, Setup.CallId, Setup.PlayPath, Left;
    PlayBudgets();
    CloseBudgets();
  }

  lemma PlayedProgress(setup: Setup, s: Call)
    requires s.pc.PlayWait?
    ensures Progress(s, FinishPlayback(setup, s))
  {
    hide Summary, Act, Delta, Setup.CallId, Left;
    PlayBudgets();
    CloseBudgets();
  }

  lemma CapProgress(setup: Setup, s: Call, now: uint64)
    requires s.pc.PlayCap?
    ensures Progress(s, CheckCap(s, now))
  {
    hide Summary, Act, Delta, Setup.CallId, Sub64, Left;
    PlayBudgets();
    CloseBudgets();
  }

  lemma PlayProgress(setup: Setup, s: Call, u: Tick)
    requires InPlay(s.pc) && u.cancelled
    ensures Progress(s, NextPlay(setup, s, u))
  {
    hide Progress, HangUpCancelled, StartPlayback, FinishPlayback, CheckCap, TakeOrDisconnect, StartListening;
    hide Summary, Add64, Left;
    PlayBudgets();
    CloseBudgets();
    hide EmitState;
    if s.pc.PlayWait? && u.event.Some? && u.event.value.PlaybackEof? {
      PlayedProgress(setup, s);
    } else if s.pc.PlayWait? && u.event.Some? {
      TakeProgress(setup, s, u.event, PlayLoop);
    } else if s.pc.DrainWait? {
      TakeProgress(setup, s, u.event, DrainLoop);
    } else if s.pc.PlayWait? || s.pc.DelaySleep? {
      IdleProgress(s, NextPlay(setup, s, u));
    } else if s.pc.DelayExit? || s.pc.PlayExit? {
      HangUpProgress(setup, s);
    } else if s.pc.PlayClock? {
      PlaybackProgress(setup, s, u.now);
    } else if s.pc.PlayCap? {
      CapProgress(setup, s, u.now);
    } else {
      MoveProgress(s, NextPlay(setup, s, u));
    }
  }

  lemma FeedProgress(setup: Setup, s: Call, now: uint64)
    requires s.pc.SilFeed?
    ensures Progress(s, FeedDetector(s, now))
  {
    hide Summary, Act, Delta, Setup.CallId, Feed, Left;
    EndBudgets();
    CloseBudgets();
  }

  lemma BillProgress(setup: Setup, s: Call, now: uint64)
    requires s.pc.Bill?
    ensures Progress(s, BillAndSettle(setup, s, now))
  {
    hide Summary, Act, Delta, Setup.CallId, BillSeconds, Settle, Left;
    EndBudgets();
    CloseBudgets();
    SettleProgress(setup, s.(markMs := now), s.hangupCode, s.hangupReason, BillSeconds(s.connectedMs, now));
  }

  lemma EndProgress(setup: Setup, s: Call, u: Tick)
    requires (InListen(s.pc) || s.pc.Bill? || s.pc.Returned?) && u.cancelled
    ensures Progress(s, NextEnd(setup, s, u))
  {
    hide Progress, TakeOrDisconnect, FeedDetector, BillAndSettle, HangUpOnSilence, Summary, Sub64, Left;
    EndBudgets();
    CloseBudgets();
    if s.pc.SilWait? {
      TakeProgress(setup, s, u.event, SilLevel);
    } else if s.pc.EndWait? {
      TakeProgress(setup, s, u.event, EndLoop);
    } else if s.pc.SilFeed? {
      FeedProgress(setup, s, u.now);
    } else if s.pc.Bill? {
      BillProgress(setup, s, u.now);
    } else if s.pc.Returned? {
      StillProgress(s);
    } else {
      MoveProgress(s, NextEnd(setup, s, u));
    }
  }

  lemma StillProgress(s: Call)
    requires s.pc.Returned?
    ensures Progress(s, s)
  {
  }

  lemma CancelledStep(setup: Setup, s: Call, u: Tick)
    requires u.cancelled
    ensures Progress(s, Next(setup, s, u))
  {
    hide Progress, NextReg, NextDial, NextPlay, NextEnd;
    if InReg(s.pc) {
      RegProgress(setup, s, u);
    } else if InDial(s.pc) {
      DialProgress(setup, s, u);
    } else if InPlay(s.pc) {
      PlayProgress(setup, s, u);
    } else {
      EndProgress(setup, s, u);
    }
  }

  /** Blocking reads made while using up `us`, starting from `s`. */
  function BlockingReads(setup: Setup, s: Call, us: seq<Tick>): nat {
    if us == [] then 0
    else
      var p := us[..|us| - 1];
      BlockingReads(setup, s, p) + if Blocks(From(setup, s, p).pc) then 1 else 0
  }

  predicate AllCancelled(us: seq<Tick>) {
    forall i :: 0 <= i < |us| ==> us[i].cancelled
  }

  /** From any state at all: with the flag set, `run` makes at most six more reads, at most one
      of them blocking, takes at most one more event, emits at most two, and returns. */
  lemma {:induction false} CancellationIsPrompt(setup: Setup, s: Call, us: seq<Tick>)
    requires AllCancelled(us)
    ensures var r := From(setup, s, us);
            && (|us| >= 6 ==> r.pc == Returned)
            && BlockingReads(setup, s, us) <= 1
            && Taken(r) <= Taken(s) + 1
            && |Stream(r)| <= |Stream(s)| + 2
  {
    hide Summary, Left, From, BlockingReads;
    CancellationBudget(setup, s, us);
    SmallBudgets(s.pc);
    SmallBudgets(From(setup, s, us).pc);
    CloseBudgets();
  }

  lemma {:induction false} CancellationBudget(setup: Setup, s: Call, us: seq<Tick>)
    requires AllCancelled(us)
    ensures var r := From(setup, s, us);
            && (r.pc == Returned || Left(r.pc).steps + |us| <= Left(s.pc).steps)
            && BlockingReads(setup, s, us) + Left(r.pc).waits <= Left(s.pc).waits
            && Taken(r) + Left(r.pc).waits <= Taken(s) + Left(s.pc).waits
            && |Stream(r)| + Left(r.pc).emits <= |Stream(s)| + Left(s.pc).emits
  {
    hide Next, Summary, Left, Blocks;
    CloseBudgets();
    if us != [] {
      var p := us[..|us| - 1];
      CancellationBudget(setup, s, p);
      CancelledStep(setup, From(setup, s, p), us[|us| - 1]);
      if From(setup, s, p).pc == Returned {
        ReturnedStays(setup, From(setup, s, p), us[|us| - 1]);
      }
    }
  }

  lemma ReturnedStays(setup: Setup, s: Call, u: Tick)
    requires s.pc == Returned
    ensures Next(setup, s, u) == s
  {
  }
}
