/** The answer delay: PLAYING does not come before it is over, and a punctual run does not
    wait longer. */
module CallDelay {
  import opened MachineInts
  import opened Events
  import opened CallMachine
  import opened CallInvariant
  import opened CallTheorems
  import opened CallDeadlines
  import opened CallPace
  import opened CallIntake
  import opened CallReturns
  import opened CallLoops

  // ---- Not before ---------------------------------------------------------------------------

  /** When playback may start: the delay counts from the last confirmation. */
  function PlayAt(setup: Setup, s: Call): int {
    Summary(s.log).callStart + setup.config.answerDelayS * 1000
  }

  predicate PastDelay(pc: Pc) {
    pc.PlayClock? || 4 <= Phase(pc) <= 8
  }

  /** The delay is over: from its uncancelled exit on. */
  ghost predicate DelayOver(setup: Setup, s: Call, t: Tick) {
    PastDelay(s.pc) || (s.pc.DelayExit? && !t.cancelled) ==> PlayAt(setup, s) <= t.now
  }

  lemma DelayEntry(from: Pc, to: Pc, cancelled: bool, got: bool)
    requires to.Returned? || Flows(from, to, cancelled, got)
    ensures PastDelay(to) ==> PastDelay(from) || (from.DelayExit? && !cancelled)
    ensures to.DelayExit? ==> from.DelayClock? || (from.DelayLoop? && cancelled)
    ensures PastDelay(to) || to.DelayExit? ==> !from.DialConfirm?
  {
  }

  /** Only a confirmation moves the start of the call. */
  lemma StartKept(setup: Setup, s: Call, u: Tick)
    requires s.pc != DialConfirm
    ensures Summary(Next(setup, s, u).log).callStart == Summary(s.log).callStart
  {
    hide Next, Summary, Asks;
    NextTakes(setup, s, u);
    StampStays(setup, Spot(s, u), s.log, Next(setup, s, u).log);
  }

  lemma DelayChecked(setup: Setup, s: Call, t: Tick, u: Tick)
    requires Inv(setup, s, t) && s.pc == DelayClock && Next(setup, s, u).pc == DelayExit
    ensures PlayAt(setup, s) <= u.now
  {
    hide Next, Summary, PlayInv;
    NextInDelay(setup, s, u);
  }

  lemma DelayStep(setup: Setup, s: Call, t: Tick, u: Tick)
    requires DelayOver(setup, s, t) && Inv(setup, s, t) && Follows(t, u)
    ensures DelayOver(setup, Next(setup, s, u), u)
  {
    hide Next, Summary, Flows, PastDelay, Inv;
    var r := Next(setup, s, u);
    NextLeads(setup, s, u);
    DelayEntry(s.pc, r.pc, u.cancelled, u.event.Some?);
    if s.pc != DialConfirm {
      StartKept(setup, s, u);
    }
    if s.pc.DelayClock? && r.pc.DelayExit? {
      DelayChecked(setup, s, t, u);
    }
  }

  lemma {:induction false} AlwaysDelayed(setup: Setup, ts: seq<Tick>)
    requires Legal(ts)
    ensures DelayOver(setup, Exec(setup, ts), LastTick(ts))
  {
    hide Next, DelayOver, Inv, Follows;
    if ts == [] {
      NotDelayedYet(setup);
    } else {
      var p := ts[..|ts| - 1];
      AlwaysDelayed(setup, p);
      InvHolds(setup, p);
      DelayStep(setup, Exec(setup, p), LastTick(p), ts[|ts| - 1]);
    }
  }

  lemma NotDelayedYet(setup: Setup)
    ensures DelayOver(setup, Exec(setup, []), LastTick([]))
  {
  }

  /** The read at `k` leaves the answer delay, uncancelled and not before it is over. */
  ghost predicate DelayLeft(setup: Setup, ts: seq<Tick>, k: nat) {
    && k < |ts| && Exec(setup, ts[..k]).pc == DelayExit && !ts[k].cancelled
    && Summary(Exec(setup, ts[..k]).log).callStart > 0
    && PlayAt(setup, Exec(setup, ts[..k])) <= ts[k].now
  }

  lemma DelayIsConfirmed(setup: Setup, s: Call, t: Tick)
    requires Inv(setup, s, t) && s.pc == DelayExit
    ensures Summary(s.log).callStart > 0
  {
    hide Summary, Setup.RecPath;
  }

  /** PLAYING is in a stream only if the answer delay was over: no less than the configured seconds
      after the last confirmation. */
  lemma PlayingIsDelayed(setup: Setup, ts: seq<Tick>, e: nat)
    requires Legal(ts) && e < |Stream(Exec(setup, ts))| && Stream(Exec(setup, ts))[e].status == PLAYING
    ensures exists k: nat :: DelayLeft(setup, ts, k)
  {
    hide Exec, Next, Summary, Legal, Follows, Inv, DelayOver, PlayAt;
    var j := EmittedInLog(Exec(setup, ts).log, e);
    var k := DoneAt(setup, ts, j);
    var s := Exec(setup, ts[..k]);
    LegalSplits(ts, k);
    InvHolds(setup, ts[..k]);
    AlwaysDelayed(setup, ts[..k]);
    DelayIsConfirmed(setup, s, LastTick(ts[..k]));
    OverAtExit(setup, s, LastTick(ts[..k]), ts[k]);
    assert DelayLeft(setup, ts, k);
  }

  lemma OverAtExit(setup: Setup, s: Call, t: Tick, u: Tick)
    requires DelayOver(setup, s, t) && Follows(t, u) && s.pc == DelayExit && !u.cancelled
    ensures PlayAt(setup, s) <= u.now
  {
    hide Summary;
  }

  // ---- Not much later -------------------------------------------------------------------------

  /** In the delay loop. */
  predicate Delaying(pc: Pc) {
    pc.DelayClock? || pc.DelayLoop? || pc.DelaySleep? || pc.DelayExit?
  }

  /** The loop was entered at `start`, and is not late. */
  ghost predicate DelayInTime(setup: Setup, s: Call, now: uint64, start: uint64) {
    var playAt := s.connectedMs + setup.config.answerDelayS * 1000;
    && now < Max(start + 1, playAt + 50)
    && (s.pc.DelayLoop? || s.pc.DelaySleep? ==> now < playAt)
  }

  lemma DelayMove(setup: Setup, s: Call, t: Tick, u: Tick, start: uint64)
    requires s.pc.DelayClock? || s.pc.DelayLoop? || s.pc.DelaySleep?
    requires s.connectedMs < CLOCK_LIMIT
    requires DelayInTime(setup, s, t.now, start) && PunctualStep(s.pc, t, u)
    ensures DelayInTime(setup, Next(setup, s, u), u.now, start)
  {
    hide Next, Asks, Summary;
    AsksForClock();
    AsksForFlag();
    AsksForEvent();
    NextInDelay(setup, s, u);
  }

  lemma DelayLoopEntry(from: Pc, to: Pc, cancelled: bool, got: bool)
    requires to.Returned? || Flows(from, to, cancelled, got)
    ensures Delaying(to) ==> (Delaying(from) && !from.DelayExit?) || (from.DialExit? && to.DelayClock?)
  {
  }

  /** A punctual run leaves the delay loop within 50 ms of the later of its start, which is a clock answer at the
      exit of Step 4, and the moment the delay is over. */
  lemma {:induction false} DelayLoopIsLeft(setup: Setup, ts: seq<Tick>) returns (m: nat)
    requires Legal(ts) && Punctual(setup, ts) && Delaying(Exec(setup, ts).pc)
    ensures m < |ts| && Exec(setup, ts[..m]).pc == DialExit
    ensures DelayInTime(setup, Exec(setup, ts), LastTick(ts).now, ts[m].now)
    ensures LastTick(ts).now < Max(ts[m].now, Exec(setup, ts).connectedMs + setup.config.answerDelayS * 1000) + 50
  {
    hide Next, Flows, PunctualStep, Inv, Follows;
    m := |ts| - 1;
    var p := ts[..m];
    var s := Exec(setup, p);
    NextLeads(setup, s, ts[m]);
    DelayLoopEntry(s.pc, Exec(setup, ts).pc, ts[m].cancelled, ts[m].event.Some?);
    if s.pc != DialExit {
      InvHolds(setup, p);
      NotYetConnected(setup, s, LastTick(p));
      var n := m;
      m := DelayLoopIsLeft(setup, p);
      assert p[..m] == ts[..m];
      InRange(setup, p);
      DelayMove(setup, s, LastTick(p), ts[n], ts[m].now);
    }
  }

  lemma InRange(setup: Setup, ts: seq<Tick>)
    requires Legal(ts)
    ensures LastTick(ts).now < CLOCK_LIMIT
  {
  }
}
