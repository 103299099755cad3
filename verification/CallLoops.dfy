/** How long the loops of `run` last: what the 600 s cap bounds, and exactly when the loops
    without a deadline are left. */
module CallLoops {
  import opened MachineInts
  import opened Events
  import opened CallMachine
  import opened CallInvariant
  import opened CallCancellation
  import opened CallDeadlines
  import opened CallPace

  // ---- Phases -------------------------------------------------------------------------------

  /** The loops of `run` in the order in which they are entered. */
  function Phase(pc: Pc): nat {
    if InReg(pc) then 0
    else if pc.DialClock? then 1
    else if InDial(pc) && !pc.DialExit? then 2
    else if pc.DialExit? || pc.DelayClock? || pc.DelayLoop? || pc.DelaySleep? || pc.DelayExit? || pc.PlayClock? then 3
    else if pc.PlayLoop? || pc.PlayWait? || pc.PlayCap? then 4
    else if pc.DrainLoop? || pc.DrainWait? then 5
    else if pc.PlayExit? then 6
    else if pc.EndLoop? || pc.EndWait? then 8
    else if InListen(pc) then 7
    else if pc.Bill? then 9
    else 10
  }

  lemma PhaseRises(from: Pc, to: Pc, cancelled: bool, got: bool)
    requires to.Returned? || Flows(from, to, cancelled, got)
    ensures Phase(from) <= Phase(to)
  {
  }

  lemma StepRises(setup: Setup, s: Call, u: Tick)
    ensures Phase(s.pc) <= Phase(Next(setup, s, u).pc)
  {
    hide Next, Flows, Phase;
    NextLeads(setup, s, u);
    PhaseRises(s.pc, Next(setup, s, u).pc, u.cancelled, u.event.Some?);
  }

  /** A loop that has been left is not entered again. */
  lemma {:induction false} PhasesRise(setup: Setup, ts: seq<Tick>, i: nat)
    requires i <= |ts|
    ensures Phase(Exec(setup, ts[..i]).pc) <= Phase(Exec(setup, ts).pc)
  {
    hide Next, Phase;
    if i == |ts| {
      assert ts[..i] == ts;
    } else {
      var n := |ts| - 1;
      assert ts[..n][..i] == ts[..i];
      PhasesRise(setup, ts[..n], i);
      StepRises(setup, Exec(setup, ts[..n]), ts[n]);
    }
  }

  // ---- Waiting for the disconnect -------------------------------------------------------------

  /** Draining after the cap, or Step 8. */
  predicate AwaitsDisconnect(pc: Pc) {
    pc.DrainLoop? || pc.DrainWait? || pc.EndLoop? || pc.EndWait?
  }

  /** The read at `k` finds the flag set, or takes a DISCONNECTED. */
  predicate FlagOrDisconnect(setup: Setup, ts: seq<Tick>, k: nat)
    requires k < |ts|
  {
    var pc := Exec(setup, ts[..k]).pc;
    || (Asks(pc).AskCancelled? && ts[k].cancelled)
    || (Asks(pc).AskEvent? && ts[k].event.Some? && IsDisconnect(ts[k].event.value))
  }

  lemma DisconnectLeaves(setup: Setup, s: Call, u: Tick, other: Pc)
    requires other.DrainLoop? || other.EndLoop?
    ensures var pc := TakeOrDisconnect(setup, s, u.event, other).pc;
            if u.event.Some? && IsDisconnect(u.event.value) then pc.Bill? || pc.Returned? else pc == other
  {
    hide Disconnect, Summary;
    if u.event.Some? && IsDisconnect(u.event.value) {
      DisconnectShape(setup, Act(s, Took(u.event.value)), u.event.value.code, u.event.value.why);
    }
  }

  lemma DrainStep(setup: Setup, s: Call, u: Tick)
    requires s.pc.DrainLoop? || s.pc.DrainWait?
    ensures var pc := Next(setup, s, u).pc;
            if s.pc.DrainLoop? then (if u.cancelled then pc.PlayExit? else pc.DrainWait?)
            else if u.event.Some? && IsDisconnect(u.event.value) then pc.Bill? || pc.Returned? else pc.DrainLoop?
  {
    hide Next, TakeOrDisconnect, Summary;
    NextInPlay(setup, s, u);
    DisconnectLeaves(setup, s, u, DrainLoop);
  }

  lemma EndStep(setup: Setup, s: Call, u: Tick)
    requires s.pc.EndLoop? || s.pc.EndWait?
    ensures var pc := Next(setup, s, u).pc;
            if s.pc.EndLoop? then (if u.cancelled then pc.Returned? else pc.EndWait?)
            else if u.event.Some? && IsDisconnect(u.event.value) then pc.Bill? || pc.Returned? else pc.EndLoop?
  {
    hide Next, TakeOrDisconnect, Summary;
    NextInEnd(setup, s, u);
    DisconnectLeaves(setup, s, u, EndLoop);
  }

  lemma AwaitStep(setup: Setup, s: Call, u: Tick)
    requires AwaitsDisconnect(s.pc)
    ensures Phase(Next(setup, s, u).pc) == Phase(s.pc) <==>
              !(Asks(s.pc).AskCancelled? && u.cancelled)
              && !(Asks(s.pc).AskEvent? && u.event.Some? && IsDisconnect(u.event.value))
  {
    hide Next, Summary, Asks;
    AsksForFlag();
    AsksForEvent();
    if s.pc.DrainLoop? || s.pc.DrainWait? {
      DrainStep(setup, s, u);
    } else {
      EndStep(setup, s, u);
    }
  }

  /** After the cap and in Step 8 `run` waits for the flag or a DISCONNECTED, and for nothing else: there
      is no deadline. */
  lemma {:induction false} OnlyFlagOrDisconnect(setup: Setup, ts: seq<Tick>, i: nat)
    requires i <= |ts| && AwaitsDisconnect(Exec(setup, ts[..i]).pc)
    ensures Phase(Exec(setup, ts).pc) == Phase(Exec(setup, ts[..i]).pc) <==>
              forall k: nat :: i <= k < |ts| ==> !FlagOrDisconnect(setup, ts, k)
  {
    hide Next, Asks, Phase;
    if i == |ts| {
      assert ts[..i] == ts;
    } else {
      var n := |ts| - 1;
      var p := ts[..n];
      assert forall k: nat :: k <= n ==> p[..k] == ts[..k];
      assert forall k: nat :: k < n ==> (FlagOrDisconnect(setup, ts, k) <==> FlagOrDisconnect(setup, p, k));
      assert (forall k: nat :: i <= k < |ts| ==> !FlagOrDisconnect(setup, ts, k)) <==>
               (forall k: nat :: i <= k < n ==> !FlagOrDisconnect(setup, p, k)) && !FlagOrDisconnect(setup, ts, n);
      OnlyFlagOrDisconnect(setup, p, i);
      StepRises(setup, Exec(setup, p), ts[n]);
      PhasesRise(setup, p, i);
      if Phase(Exec(setup, p).pc) == Phase(Exec(setup, ts[..i]).pc) {
        SamePhase(Exec(setup, p).pc, Exec(setup, ts[..i]).pc);
        AwaitStep(setup, Exec(setup, p), ts[n]);
      }
    }
  }

  lemma SamePhase(pc: Pc, other: Pc)
    requires Phase(pc) == Phase(other)
    ensures AwaitsDisconnect(pc) <==> AwaitsDisconnect(other)
  {
  }

  // ---- Answered, and waiting for media ---------------------------------------------------------------

  /** In Step 4 with a confirmation in time, and no media. */
  predicate AwaitsMedia(s: Call) {
    (s.pc.DialLoop? || s.pc.DialWait? || s.pc.DialConfirm?) && s.answered && !s.timeoutHit && !s.media
  }

  predicate FlagDisconnectOrMedia(setup: Setup, ts: seq<Tick>, k: nat)
    requires k < |ts|
  {
    FlagOrDisconnect(setup, ts, k)
    || (Asks(Exec(setup, ts[..k]).pc).AskEvent? && ts[k].event == Some(MediaState(true)))
  }

  lemma MediaTake(setup: Setup, s: Call, ev: InternalEvent)
    requires AwaitsMedia(s) && s.pc == DialWait
    ensures var r := DialTake(setup, s, ev);
            if IsDisconnect(ev) || ev == MediaState(true) then Phase(r.pc) > 2 else AwaitsMedia(r)
  {
    hide Summary, Act, Disconnect, Setup.CallId, AnswerTimedOut;
    if IsDisconnect(ev) {
      DisconnectShape(setup, Act(s, Took(ev)), ev.code, ev.why);
    }
  }

  lemma MediaStep(setup: Setup, s: Call, u: Tick)
    requires AwaitsMedia(s)
    ensures var r := Next(setup, s, u);
            if (Asks(s.pc).AskCancelled? && u.cancelled)
               || (Asks(s.pc).AskEvent? && u.event.Some?
                   && (IsDisconnect(u.event.value) || u.event.value == MediaState(true)))
            then Phase(r.pc) > 2 else AwaitsMedia(r)
  {
    hide Summary, Act, DialTake, Setup.CallId, Asks, CheckTimeout, CheckSafetyNet, StartDeadline;
    hide CancelByUser, SetUpRecording;
    AsksForFlag();
    AsksForEvent();
    AsksForClock();
    if s.pc.DialWait? && u.event.Some? {
      MediaTake(setup, s, u.event.value);
    }
  }

  /** Once confirmed in time, Step 4 waits for media, the flag or a DISCONNECTED, and for nothing else: neither
      the answer timeout nor the safety net applies. */
  lemma {:induction false} OnlyFlagDisconnectOrMedia(setup: Setup, ts: seq<Tick>, i: nat)
    requires i <= |ts| && AwaitsMedia(Exec(setup, ts[..i]))
    ensures Phase(Exec(setup, ts).pc) == 2 <==> AwaitsMedia(Exec(setup, ts))
    ensures AwaitsMedia(Exec(setup, ts)) <==>
              forall k: nat :: i <= k < |ts| ==> !FlagDisconnectOrMedia(setup, ts, k)
  {
    hide Next, Asks;
    if i == |ts| {
      assert ts[..i] == ts;
    } else {
      var n := |ts| - 1;
      var p := ts[..n];
      assert forall k: nat :: k <= n ==> p[..k] == ts[..k];
      assert forall k: nat :: k < n ==> (FlagDisconnectOrMedia(setup, ts, k) <==> FlagDisconnectOrMedia(setup, p, k));
      assert (forall k: nat :: i <= k < |ts| ==> !FlagDisconnectOrMedia(setup, ts, k)) <==>
               (forall k: nat :: i <= k < n ==> !FlagDisconnectOrMedia(setup, p, k))
               && !FlagDisconnectOrMedia(setup, ts, n);
      OnlyFlagDisconnectOrMedia(setup, p, i);
      PhasesRise(setup, p, i);
      StepRises(setup, Exec(setup, p), ts[n]);
      if AwaitsMedia(Exec(setup, p)) {
        MediaStep(setup, Exec(setup, p), ts[n]);
      }
    }
  }

  // ---- Playing past the cap -----------------------------------------------------------------------------

  predicate Playing(pc: Pc) {
    pc.PlayLoop? || pc.PlayWait?
  }

  predicate PastCap(s: Call, now: uint64) {
    s.connectedMs + MAX_CALL_MS <= now
  }

  /** An answer that playback does not survive once the cap has passed: the flag is set, a wait has brought
      nothing, or the end of playback or of the call. */
  predicate Stops(pc: Pc, u: Tick) {
    || (pc.PlayLoop? && u.cancelled)
    || (pc.PlayWait? && (u.event.None? || u.event.value == PlaybackEof || IsDisconnect(u.event.value)))
  }

  predicate PlaybackStops(setup: Setup, ts: seq<Tick>, k: nat)
    requires k < |ts|
  {
    Stops(Exec(setup, ts[..k]).pc, ts[k])
  }

  lemma PlayingStep(setup: Setup, s: Call, u: Tick)
    requires Playing(s.pc)
    ensures var r := Next(setup, s, u);
            && (Playing(r.pc) <==> !Stops(s.pc, u))
            && (Playing(r.pc) || r.pc.PlayCap? ==> r.connectedMs == s.connectedMs)
  {
    hide Next, TakeOrDisconnect, FinishPlayback, Summary;
    NextInPlay(setup, s, u);
    PlayExitShape(setup, s);
    if u.event.Some? && IsDisconnect(u.event.value) {
      PlayDisconnect(setup, s, u.event.value);
    } else if u.event.Some? {
      PlayIgnores(setup, s, u.event.value);
    }
  }

  lemma PlayDisconnect(setup: Setup, s: Call, ev: InternalEvent)
    requires IsDisconnect(ev)
    ensures var pc := TakeOrDisconnect(setup, s, Some(ev), PlayLoop).pc; pc.Bill? || pc.Returned?
  {
    hide Disconnect, Summary;
    DisconnectShape(setup, Act(s, Took(ev)), ev.code, ev.why);
  }

  lemma PlayIgnores(setup: Setup, s: Call, ev: InternalEvent)
    requires !IsDisconnect(ev)
    ensures var r := TakeOrDisconnect(setup, s, Some(ev), PlayLoop);
            r.pc.PlayLoop? && r.connectedMs == s.connectedMs
  {
    hide Summary;
  }

  lemma CapStep(setup: Setup, s: Call, u: Tick)
    requires s.pc == PlayCap && PastCap(s, u.now)
    ensures Next(setup, s, u).pc.DrainLoop?
  {
    hide Next, Summary;
    NextInPlay(setup, s, u);
    CheckCapShape(s, u.now);
  }

  /** In the playback loop with the cap passed: what is still true later. */
  ghost predicate Overdue(s: Call, now: uint64) {
    Phase(s.pc) >= 4 && (Phase(s.pc) == 4 ==> PastCap(s, now))
  }

  lemma OverdueStep(setup: Setup, s: Call, t: Tick, u: Tick)
    requires Overdue(s, t.now) && Follows(t, u)
    ensures Overdue(Next(setup, s, u), u.now)
    ensures Playing(Next(setup, s, u).pc) <==> Playing(s.pc) && !Stops(s.pc, u)
  {
    hide Next, Stops;
    StepRises(setup, s, u);
    if Playing(s.pc) {
      PlayingStep(setup, s, u);
    } else if s.pc.PlayCap? {
      CapStep(setup, s, u);
    }
  }

  /** Once the cap has passed, playback goes on if and only if every wait brings an event, one that
      ends neither playback nor the call, and the flag is not seen. */
  lemma {:induction false} PlaybackOutlivesCap(setup: Setup, ts: seq<Tick>, i: nat)
    requires Legal(ts) && i <= |ts|
    requires Playing(Exec(setup, ts[..i]).pc) && PastCap(Exec(setup, ts[..i]), LastTick(ts[..i]).now)
    ensures Playing(Exec(setup, ts).pc) <==> forall k: nat :: i <= k < |ts| ==> !PlaybackStops(setup, ts, k)
    ensures Overdue(Exec(setup, ts), LastTick(ts).now)
  {
    hide Next, Stops, Follows;
    if i == |ts| {
      assert ts[..i] == ts;
    } else {
      var n := |ts| - 1;
      var p := ts[..n];
      assert forall k: nat :: k <= n ==> p[..k] == ts[..k];
      assert forall k: nat :: k < n ==> (PlaybackStops(setup, ts, k) <==> PlaybackStops(setup, p, k));
      assert (forall k: nat :: i <= k < |ts| ==> !PlaybackStops(setup, ts, k)) <==>
               (forall k: nat :: i <= k < n ==> !PlaybackStops(setup, p, k)) && !PlaybackStops(setup, ts, n);
      PlaybackOutlivesCap(setup, p, i);
      OverdueStep(setup, Exec(setup, p), LastTick(p), ts[n]);
    }
  }

  // ---- The bound that holds -------------------------------------------------------------------------

  /** When the last event was taken; 0 before the first. */
  function LastEventMs(setup: Setup, ts: seq<Tick>): int {
    if ts == [] then 0
    else
      var n := |ts| - 1;
      if Asks(Exec(setup, ts[..n]).pc).AskEvent? && ts[n].event.Some? then ts[n].now else LastEventMs(setup, ts[..n])
  }

  ghost predicate PlayDue(s: Call, now: uint64, last: int) {
    && (s.pc.PlayLoop? || s.pc.PlayWait? ==> now <= Max(CapDue(s), last))
    && (s.pc.PlayCap? ==> now <= Max(CapDue(s), last) + 500)
  }

  lemma DueWait(setup: Setup, s: Call, t: Tick, u: Tick, last: int)
    requires s.pc.PlayWait? && PlayDue(s, t.now, last) && u.now <= t.now + 500
    ensures PlayDue(Next(setup, s, u), u.now, if u.event.Some? then u.now else last)
  {
    hide Next, TakeOrDisconnect, FinishPlayback, Summary, Taken;
    NextInPlay(setup, s, u);
    PlayExitShape(setup, s);
    TakeShape(setup, s, u.event, PlayLoop);
  }

  lemma DueMove(setup: Setup, s: Call, t: Tick, u: Tick, last: int)
    requires s.pc.PlayClock? || s.pc.PlayLoop? || s.pc.PlayCap?
    requires PlayDue(s, t.now, last) && u.now == t.now && s.connectedMs <= t.now
    ensures PlayDue(Next(setup, s, u), u.now, last)
  {
    hide Next, StartPlayback, CheckCap, Summary;
    NextInPlay(setup, s, u);
    StartPlaybackShape(setup, s, u.now);
    CheckCapShape(s, u.now);
  }

  /** The playback loop is entered at its start. */
  lemma PlaybackEntry(from: Pc, to: Pc, cancelled: bool, got: bool)
    requires to.Returned? || Flows(from, to, cancelled, got)
    ensures Phase(to) == 4 ==> from.PlayClock? || Phase(from) == 4
  {
  }

  lemma DueStep(setup: Setup, s: Call, t: Tick, u: Tick, last: int)
    requires PlayDue(s, t.now, last) && s.connectedMs <= t.now && PunctualStep(s.pc, t, u)
    ensures PlayDue(Next(setup, s, u), u.now, if Asks(s.pc).AskEvent? && u.event.Some? then u.now else last)
  {
    hide Next, Asks, CapDue, Flows;
    AsksForClock();
    AsksForFlag();
    AsksForEvent();
    if s.pc.PlayWait? {
      DueWait(setup, s, t, u, last);
    } else if s.pc.PlayClock? || s.pc.PlayLoop? || s.pc.PlayCap? {
      DueMove(setup, s, t, u, last);
    } else {
      NextLeads(setup, s, u);
      PlaybackEntry(s.pc, Next(setup, s, u).pc, u.cancelled, u.event.Some?);
    }
  }

  lemma {:induction false} AlwaysDue(setup: Setup, ts: seq<Tick>)
    requires Legal(ts) && Punctual(setup, ts)
    ensures PlayDue(Exec(setup, ts), LastTick(ts).now, LastEventMs(setup, ts))
  {
    hide Next, PlayDue, PunctualStep, Inv, Asks;
    if ts == [] {
      NotPlaying(setup);
    } else {
      var n := |ts| - 1;
      var p := ts[..n];
      AlwaysDue(setup, p);
      InvHolds(setup, p);
      NotYetConnected(setup, Exec(setup, p), LastTick(p));
      DueStep(setup, Exec(setup, p), LastTick(p), ts[n], LastEventMs(setup, p));
    }
  }

  lemma NotPlaying(setup: Setup)
    ensures PlayDue(Exec(setup, []), LastTick([]).now, LastEventMs(setup, []))
  {
  }

  lemma NotYetConnected(setup: Setup, s: Call, t: Tick)
    requires Inv(setup, s, t)
    ensures s.connectedMs <= t.now
  {
    hide Summary, RegInv, DialInv, PlayInv, ListenInv, ClosingInv, ReturnedInv;
  }

  /** The playback loop is left no later than 500 ms after the latest of its start, the moment the call has lasted
      600 s and the last event taken; while it is at a wait the clock is not past that latest moment. Events that
      keep coming put it off without end. */
  lemma PlaybackLoopCap(setup: Setup, ts: seq<Tick>)
    requires Legal(ts) && Punctual(setup, ts)
    ensures var s := Exec(setup, ts);
            var due := Max(Max(s.markMs, s.connectedMs + MAX_CALL_MS), LastEventMs(setup, ts));
            && (s.pc.PlayLoop? || s.pc.PlayWait? ==> LastTick(ts).now <= due)
            && (s.pc.PlayCap? ==> LastTick(ts).now <= due + 500)
  {
    hide Exec, LastEventMs, Legal, Punctual;
    AlwaysDue(setup, ts);
  }

  // ---- Where the marks come from ---------------------------------------------------------------------

  /** What one read of Step 4 does to the mark, the deadline and the timeout flag. */
  predicate Marked(setup: Setup, s: Call, u: Tick, r: Call) {
    && r.markMs == (if s.pc.DialClock? then u.now else s.markMs)
    && r.deadline == (if s.pc.DialClock? then Add64(u.now, setup.config.answerTimeoutS * 1000) else s.deadline)
    && (r.timeoutHit <==> !s.pc.DialClock? && (s.timeoutHit || (s.pc.DialTimeout? && s.deadline <= u.now)))
  }

  lemma DialWaitMark(setup: Setup, s: Call, u: Tick)
    requires s.pc.DialClock? || s.pc.DialLoop? || s.pc.DialWait?
    ensures InDial(Next(setup, s, u).pc) ==> Marked(setup, s, u, Next(setup, s, u))
  {
    hide Next, DialTake, Add64, Summary;
    NextInDial(setup, s, u);
    if u.event.Some? {
      DialTakeShape(setup, s, u.event.value);
    }
  }

  lemma TimeoutMark(s: Call, now: uint64)
    ensures var r := CheckTimeout(s, now);
            r.markMs == s.markMs && r.deadline == s.deadline && r.timeoutHit == (s.timeoutHit || s.deadline <= now)
  {
    hide Summary, Act;
  }

  lemma SafetyMark(setup: Setup, s: Call, now: uint64)
    ensures var r := CheckSafetyNet(setup, s, now);
            r.markMs == s.markMs && r.deadline == s.deadline && r.timeoutHit == s.timeoutHit
  {
    hide Summary, Act, Setup.CallId, AnswerTimedOut, Add64;
  }

  lemma CheckMark(setup: Setup, s: Call, u: Tick)
    requires s.pc.DialTimeout? || s.pc.DialSafety?
    ensures InDial(NextDial(setup, s, u).pc) ==> Marked(setup, s, u, NextDial(setup, s, u))
  {
    hide CheckTimeout, CheckSafetyNet, Confirm, StartDeadline, DialTake, CancelByUser, SetUpRecording, Add64;
    TimeoutMark(s, u.now);
    SafetyMark(setup, s, u.now);
  }

  lemma ConfirmMark(setup: Setup, s: Call, u: Tick)
    requires s.pc.DialConfirm? || s.pc.DialExit?
    ensures InDial(NextDial(setup, s, u).pc) ==> Marked(setup, s, u, NextDial(setup, s, u))
  {
    hide Summary, Act, DialTake, StartDeadline, CancelByUser, SetUpRecording, CheckTimeout, CheckSafetyNet, Setup.CallId;
    hide Add64;
    DialExitShape(setup, s);
  }

  lemma DialMark(setup: Setup, s: Call, u: Tick)
    requires InDial(s.pc)
    ensures InDial(Next(setup, s, u).pc) ==> Marked(setup, s, u, Next(setup, s, u))
  {
    hide NextReg, NextDial, NextPlay, NextEnd, Marked;
    if s.pc.DialClock? || s.pc.DialLoop? || s.pc.DialWait? {
      DialWaitMark(setup, s, u);
    } else if s.pc.DialTimeout? || s.pc.DialSafety? {
      CheckMark(setup, s, u);
    } else {
      ConfirmMark(setup, s, u);
    }
  }

  lemma PlayMark(setup: Setup, s: Call, u: Tick)
    requires s.pc.PlayClock? || s.pc.PlayLoop? || s.pc.PlayWait? || s.pc.PlayCap?
    ensures var r := Next(setup, s, u);
            Phase(r.pc) == 4 ==> r.markMs == if s.pc.PlayClock? then u.now else s.markMs
  {
    hide Next, StartPlayback, CheckCap, TakeOrDisconnect, FinishPlayback, Summary, Taken;
    NextInPlay(setup, s, u);
    StartPlaybackShape(setup, s, u.now);
    CheckCapShape(s, u.now);
    PlayExitShape(setup, s);
    TakeShape(setup, s, u.event, PlayLoop);
  }

  /** Step 4 is entered at its start. */
  lemma DialEntry(from: Pc, to: Pc, cancelled: bool, got: bool)
    requires to.Returned? || Flows(from, to, cancelled, got)
    ensures InDial(to) && !to.DialClock? ==> InDial(from)
  {
  }

  /** The mark of Step 4 is the clock read right after dialling, and the deadline is the answer timeout later. */
  lemma {:induction false} DialledAt(setup: Setup, ts: seq<Tick>) returns (m: nat)
    requires InDial(Exec(setup, ts).pc) && Exec(setup, ts).pc != DialClock
    ensures m < |ts| && Exec(setup, ts[..m]).pc == DialClock && ts[m].now == Exec(setup, ts).markMs
    ensures Exec(setup, ts).deadline == Add64(ts[m].now, setup.config.answerTimeoutS * 1000)
  {
    hide Next, Flows, Add64;
    m := |ts| - 1;
    var p := ts[..m];
    var s := Exec(setup, p);
    NextLeads(setup, s, ts[m]);
    DialEntry(s.pc, Exec(setup, ts).pc, ts[m].cancelled, ts[m].event.Some?);
    DialMark(setup, s, ts[m]);
    if s.pc != DialClock {
      m := DialledAt(setup, p);
      assert p[..m] == ts[..m];
    }
  }

  /** The mark of the playback loop is the clock read at its start. */
  lemma {:induction false} PlayingSince(setup: Setup, ts: seq<Tick>) returns (m: nat)
    requires Phase(Exec(setup, ts).pc) == 4
    ensures m < |ts| && Exec(setup, ts[..m]).pc == PlayClock && ts[m].now == Exec(setup, ts).markMs
  {
    hide Next, Flows;
    m := |ts| - 1;
    var p := ts[..m];
    var s := Exec(setup, p);
    NextLeads(setup, s, ts[m]);
    PlaybackEntry(s.pc, Exec(setup, ts).pc, ts[m].cancelled, ts[m].event.Some?);
    PlayMark(setup, s, ts[m]);
    if s.pc != PlayClock {
      m := PlayingSince(setup, p);
      assert p[..m] == ts[..m];
    }
  }
}
