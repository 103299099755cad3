/** Step 4 read off the log: which events it has heard since the call was placed, and that it goes on to
    Step 5 once it has heard a confirmation and active media, in either order. */
module CallMedia {
  import opened MachineInts
  import opened Events
  import opened Silence
  import opened CallMachine
  import opened CallInvariant
  import opened CallEndings
  import opened CallDeadlines
  import opened CallPace
  import opened CallIntake
  import opened CallReturns
  import opened CallSurprises

  // ---- Heard ---------------------------------------------------------------------------------

  /** The event at `j` was taken after the call was placed. */
  predicate TakenAt(log: seq<Action>, j: nat, what: InternalEvent -> bool) {
    j < |log| && log[j].Took? && what(log[j].taken) && PlaceCall in log[..j]
  }

  ghost predicate Heard(log: seq<Action>, what: InternalEvent -> bool) {
    exists j: nat :: TakenAt(log, j, what)
  }

  predicate IsActiveMedia(ev: InternalEvent) {
    ev.MediaState? && ev.active
  }

  lemma HeardOnce(log: seq<Action>, a: Action, what: InternalEvent -> bool)
    ensures Heard(log + [a], what) <==> Heard(log, what) || (a.Took? && what(a.taken) && PlaceCall in log)
  {
    var q := log + [a];
    assert forall j: nat :: j <= |log| ==> q[..j] == log[..j];
    assert forall j: nat :: j < |log| ==> (TakenAt(q, j, what) <==> TakenAt(log, j, what));
    assert log[..|log|] == log;
    assert TakenAt(q, |log|, what) <==> a.Took? && what(a.taken) && PlaceCall in log;
  }

  /** One of the events from `from` on is such. */
  ghost predicate Brings(evs: seq<InternalEvent>, from: nat, what: InternalEvent -> bool) {
    exists i: nat :: from <= i < |evs| && what(evs[i])
  }

  lemma BringsOnce(evs: seq<InternalEvent>, more: seq<InternalEvent>, from: nat, what: InternalEvent -> bool)
    requires from <= |evs| && |more| <= 1
    ensures Brings(evs + more, from, what) <==> Brings(evs, from, what) || (more != [] && what(more[0]))
  {
    var all := evs + more;
    if Brings(evs, from, what) {
      var i: nat :| from <= i < |evs| && what(evs[i]);
      assert what(all[i]);
    }
    if more != [] && what(more[0]) {
      assert what(all[|evs|]);
    }
  }

  /** Once the call is placed, what is heard is what is taken. */
  lemma {:induction false} HeardBetween(p: seq<Action>, q: seq<Action>, what: InternalEvent -> bool)
    requires p <= q && PlaceCall in p
    ensures Heard(q, what) <==> Heard(p, what) || Brings(Summary(q).taken, |Summary(p).taken|, what)
  {
    hide Heard, Brings;
    if p == q {
      NoneBrought(Summary(p).taken, what);
    } else {
      var n := |q| - 1;
      var r, a := q[..n], q[n];
      assert q == r + [a] && p <= r;
      TakenGrows(p, r);
      HeardBetween(p, r, what);
      HeardOnce(r, a, what);
      assert PlaceCall in r;
      BringsOnce(Summary(r).taken, if a.Took? then [a.taken] else [], |Summary(p).taken|, what);
    }
  }

  lemma NoneBrought(evs: seq<InternalEvent>, what: InternalEvent -> bool)
    ensures !Brings(evs, |evs|, what)
  {
  }

  lemma {:induction false} TakenGrows(p: seq<Action>, q: seq<Action>)
    requires p <= q
    ensures Summary(p).taken <= Summary(q).taken
  {
    if p != q {
      assert p <= q[..|q| - 1];
      TakenGrows(p, q[..|q| - 1]);
    } else {
      assert p == q;
    }
  }

  // ---- What Step 4 remembers ------------------------------------------------------------------

  /** In Step 5 or later, short of a return. */
  predicate PastStep4(pc: Pc) {
    InPlay(pc) || InListen(pc)
  }

  /** The two local flags of Step 4 are latches: each is set exactly if its event has been heard. */
  ghost predicate Remembers(s: Call) {
    && (s.pc.DialClock? ==> !Heard(s.log, IsActiveMedia) && !Heard(s.log, IsConfirm))
    && (InDial(s.pc) && !s.pc.DialClock? ==>
          && (s.media <==> Heard(s.log, IsActiveMedia))
          && (s.answered <==> Heard(s.log, IsConfirm)))
    && (PastStep4(s.pc) ==> Heard(s.log, IsActiveMedia) && Heard(s.log, IsConfirm))
  }

  lemma DialTakeFlags(setup: Setup, s: Call, ev: InternalEvent)
    ensures var r := DialTake(setup, s, ev);
            InDial(r.pc) ==> r.media == (s.media || IsActiveMedia(ev)) && r.answered == (s.answered || IsConfirm(ev))
  {
    hide Summary, Act, Disconnect, Setup.CallId, AnswerTimedOut;
    if IsDisconnect(ev) {
      DisconnectShape(setup, Act(s, Took(ev)), 487, AnswerTimedOut());
      DisconnectShape(setup, Act(s, Took(ev)), ev.code, ev.why);
    }
  }

  lemma TimeoutFlags(s: Call, now: uint64)
    ensures var r := CheckTimeout(s, now); r.media == s.media && r.answered == s.answered
  {
    hide Summary;
  }

  lemma SafetyNetFlags(setup: Setup, s: Call, now: uint64)
    ensures var r := CheckSafetyNet(setup, s, now); r.media == s.media && r.answered == s.answered
  {
    hide Summary, Setup.CallId, AnswerTimedOut, Add64;
  }

  lemma ConfirmFlags(setup: Setup, s: Call, now: uint64)
    ensures var r := Confirm(setup, s, now); r.media == s.media && r.answered == s.answered
  {
    hide Summary, Setup.CallId;
  }

  lemma DialClockFlags(setup: Setup, s: Call, u: Tick)
    requires s.pc.DialTimeout? || s.pc.DialSafety? || s.pc.DialConfirm? || s.pc.DialExit?
    ensures var r := NextDial(setup, s, u);
            InDial(r.pc) ==> r.media == s.media && r.answered == s.answered
  {
    hide Summary, DialTake, StartDeadline, CancelByUser, SetUpRecording, CheckTimeout, CheckSafetyNet, Confirm;
    DialExitShape(setup, s);
    TimeoutFlags(s, u.now);
    SafetyNetFlags(setup, s, u.now);
    ConfirmFlags(setup, s, u.now);
  }

  lemma DialWaitFlags(setup: Setup, s: Call, u: Tick)
    requires s.pc.DialLoop? || s.pc.DialWait?
    ensures var r := Next(setup, s, u);
            InDial(r.pc) ==>
              && r.media == (s.media || (s.pc.DialWait? && u.event.Some? && IsActiveMedia(u.event.value)))
              && r.answered == (s.answered || (s.pc.DialWait? && u.event.Some? && IsConfirm(u.event.value)))
  {
    hide Next, DialTake, Summary;
    NextInDial(setup, s, u);
    if u.event.Some? {
      DialTakeFlags(setup, s, u.event.value);
    }
  }

  lemma DialFlags(setup: Setup, s: Call, u: Tick)
    requires InDial(s.pc) && !s.pc.DialClock?
    ensures var r := Next(setup, s, u);
            InDial(r.pc) ==>
              && r.media == (s.media || (s.pc.DialWait? && u.event.Some? && IsActiveMedia(u.event.value)))
              && r.answered == (s.answered || (s.pc.DialWait? && u.event.Some? && IsConfirm(u.event.value)))
  {
    hide NextReg, NextDial, NextPlay, NextEnd;
    if s.pc.DialLoop? || s.pc.DialWait? {
      DialWaitFlags(setup, s, u);
    } else {
      DialClockFlags(setup, s, u);
    }
  }

  /** One read hears what it takes. */
  lemma NextHears(setup: Setup, s: Call, u: Tick, what: InternalEvent -> bool)
    requires PlaceCall in s.log
    ensures Heard(Next(setup, s, u).log, what) <==>
              Heard(s.log, what) || (Asks(s.pc).AskEvent? && u.event.Some? && what(u.event.value))
  {
    hide Next, Asks, Summary, Belongs, Heard, Brings;
    NextTakes(setup, s, u);
    HeardBetween(s.log, Next(setup, s, u).log, what);
    var t := Summary(s.log).taken;
    NoneBrought(t, what);
    BringsOnce(t, if Asks(s.pc).AskEvent? then Brought(u.event) else [], |t|, what);
  }

  lemma NothingHeardYet(setup: Setup, s: Call, what: InternalEvent -> bool)
    requires PlaceCall !in s.log
    ensures !Heard(Dial(setup, s).log, what)
  {
    hide Summary, Setup.CallId;
    var emit := Emit(AgentEvent(DIALING, setup.CallId(), "", 0, 0, "", false));
    assert forall j: nat :: !TakenAt(s.log, j, what) by {
      assert forall j: nat, a :: j <= |s.log| && a in s.log[..j] ==> a in s.log;
    }
    HeardOnce(s.log, emit, what);
    HeardOnce(s.log + [emit], PlaceCall, what);
    assert Dial(setup, s).log == s.log + [emit] + [PlaceCall];
  }

  lemma Placed(setup: Setup, s: Call, t: Tick)
    requires Inv(setup, s, t)
    ensures InDial(s.pc) || PastStep4(s.pc) ==> PlaceCall in s.log
    ensures InReg(s.pc) ==> PlaceCall !in s.log
    ensures s.pc.DialExit? ==> (s.answered && s.media) || t.cancelled
    ensures s.pc.DialClock? ==> !s.answered && !s.media
  {
    hide Summary, Setup.RecPath, Setup.SilenceLevel, Setup.SilenceMs, Replay, EndsSilent;
    LineMeans(s.log);
  }

  /** Step 4 is entered from Step 3, Step 5 from Step 4. */
  lemma Entries(from: Pc, to: Pc, cancelled: bool, got: bool)
    requires to.Returned? || Flows(from, to, cancelled, got)
    ensures to.DialClock? ==> from.RegExit? && !cancelled
    ensures InDial(to) && !to.DialClock? ==> InDial(from)
    ensures PastStep4(to) ==> PastStep4(from) || (from.DialExit? && !cancelled)
  {
  }

  lemma DialEnters(setup: Setup, s: Call, u: Tick)
    requires s.pc.RegExit? && !u.cancelled
    ensures Next(setup, s, u) == Dial(setup, s)
  {
    hide Dial, NextDial, NextPlay, NextEnd, Init, RegTake, CheckRegClock, EnterLoop;
  }

  lemma DeadlineStarts(setup: Setup, s: Call, u: Tick)
    requires s.pc.DialClock?
    ensures var r := Next(setup, s, u); r.log == s.log && !r.media && !r.answered
  {
    hide Next, Summary, Add64;
    NextInDial(setup, s, u);
  }

  lemma NextRemembers(setup: Setup, s: Call, t: Tick, u: Tick)
    requires Remembers(s) && Inv(setup, s, t) && Follows(t, u)
    ensures Remembers(Next(setup, s, u))
  {
    hide Next, Inv, Heard, Flows, Asks, Dial, Summary;
    var r := Next(setup, s, u);
    NextLeads(setup, s, u);
    Entries(s.pc, r.pc, u.cancelled, u.event.Some?);
    Placed(setup, s, t);
    AsksForClock();
    AsksForFlag();
    AsksForEvent();
    if s.pc.RegExit? && !u.cancelled {
      DialEnters(setup, s, u);
      NothingHeardYet(setup, s, IsActiveMedia);
      NothingHeardYet(setup, s, IsConfirm);
    } else if s.pc.DialClock? {
      DeadlineStarts(setup, s, u);
    } else if InDial(s.pc) || PastStep4(s.pc) {
      NextHears(setup, s, u, IsActiveMedia);
      NextHears(setup, s, u, IsConfirm);
      if InDial(s.pc) {
        DialFlags(setup, s, u);
      }
    }
  }

  lemma {:induction false} AlwaysRemembers(setup: Setup, ts: seq<Tick>)
    requires Legal(ts)
    ensures Remembers(Exec(setup, ts))
  {
    hide Next, Inv, Remembers, Follows;
    if ts == [] {
      NothingDialled(setup);
    } else {
      var p := ts[..|ts| - 1];
      AlwaysRemembers(setup, p);
      InvHolds(setup, p);
      NextRemembers(setup, Exec(setup, p), LastTick(p), ts[|ts| - 1]);
    }
  }

  lemma NothingDialled(setup: Setup)
    ensures Remembers(Exec(setup, []))
  {
  }

  /** Step 4 goes round exactly as long as it has not heard both a confirmation and active media since the call
      was placed, in whatever order they came and whatever came between; once it has, it is left at that
      very read (or, for the confirmation, once its clock has been read). It is left without them only by the
      flag, and Step 5 is reached only with them. */
  lemma Step4WaitsForBoth(setup: Setup, ts: seq<Tick>)
    requires Legal(ts)
    ensures var s := Exec(setup, ts);
            var both := Heard(s.log, IsActiveMedia) && Heard(s.log, IsConfirm);
            && (s.pc.DialLoop? || s.pc.DialTimeout? || s.pc.DialSafety? || s.pc.DialWait? ==> !both)
            && (s.pc.DialExit? ==> both || (ts != [] && SawFlag(setup, ts, |ts| - 1)))
            && (PastStep4(s.pc) ==> both)
  {
    hide Exec, Next, Heard, Summary, Asks, Inv;
    AlwaysRemembers(setup, ts);
    AlwaysLate(setup, ts);
    InvHolds(setup, ts);
    var s := Exec(setup, ts);
    if s.pc.DialExit? && !(s.answered && s.media) {
      LeftByFlag(setup, ts);
    }
  }

  lemma LeftByFlag(setup: Setup, ts: seq<Tick>)
    requires Legal(ts) && Exec(setup, ts).pc == DialExit && !(Exec(setup, ts).answered && Exec(setup, ts).media)
    ensures ts != [] && SawFlag(setup, ts, |ts| - 1)
  {
    hide Next, Summary, Asks, Begin;
    NotAtExitYet(setup);
    var n := |ts| - 1;
    var s := Exec(setup, ts[..n]);
    NextLeads(setup, s, ts[n]);
    AsksForFlag();
    ExitWithBoth(setup, s, ts[n]);
  }

  lemma NotAtExitYet(setup: Setup)
    ensures Exec(setup, []).pc != DialExit
  {
  }

  lemma ToExit(setup: Setup, s: Call, ev: InternalEvent, now: uint64)
    ensures DialTake(setup, s, ev).pc.DialExit? ==> DialTake(setup, s, ev).answered && DialTake(setup, s, ev).media
    ensures Confirm(setup, s, now).pc.DialExit? ==> Confirm(setup, s, now).answered && Confirm(setup, s, now).media
  {
    hide Summary, Act, Disconnect, Setup.CallId, AnswerTimedOut;
    if IsDisconnect(ev) {
      DisconnectShape(setup, Act(s, Took(ev)), 487, AnswerTimedOut());
      DisconnectShape(setup, Act(s, Took(ev)), ev.code, ev.why);
    }
  }

  lemma ComesToExit(from: Pc, to: Pc, cancelled: bool, got: bool)
    requires Flows(from, to, cancelled, got) && to.DialExit?
    ensures (from.DialLoop? && cancelled) || (from.DialWait? && got) || from.DialConfirm?
  {
  }

  lemma ConfirmNext(setup: Setup, s: Call, u: Tick)
    requires s.pc.DialConfirm?
    ensures Next(setup, s, u) == Confirm(setup, s, u.now)
  {
    hide Confirm, NextReg, NextPlay, NextEnd, CheckTimeout, CheckSafetyNet, DialTake, CancelByUser, SetUpRecording;
    hide StartDeadline;
  }

  /** Only the flag takes the loop to its exit without both flags. */
  lemma ExitWithBoth(setup: Setup, s: Call, u: Tick)
    requires Next(setup, s, u).pc == DialExit
    ensures (s.pc.DialLoop? && u.cancelled) || (Next(setup, s, u).answered && Next(setup, s, u).media)
  {
    hide Next, Flows, DialTake, Confirm, Summary;
    NextLeads(setup, s, u);
    ComesToExit(s.pc, DialExit, u.cancelled, u.event.Some?);
    if s.pc.DialWait? {
      NextInDial(setup, s, u);
      ToExit(setup, s, u.event.value, u.now);
    } else if s.pc.DialConfirm? {
      ConfirmNext(setup, s, u);
      ToExit(setup, s, PlaybackEof, u.now);
    }
  }
}
