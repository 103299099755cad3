/** Hanging up on silence: what has to be before SILENCE_DETECTED can be in a stream. */
module CallListening {
  import opened MachineInts
  import opened Events
  import opened Silence
  import opened CallGrammar
  import opened CallMachine
  import opened CallInvariant
  import opened CallTheorems
  import opened CallEndings
  import opened CallDeadlines
  import opened CallPace
  import opened CallIntake
  import opened CallLoops
  import opened CallDelay
  import opened CallReasons
  import opened CallRuns

  // ---- The step that announces -------------------------------------------------------------------

  /** A level that counts as quiet: below the configured threshold; a negative one is converted to unsigned, so it
      is 2^32 higher. */
  predicate Quiet(config: Config, level: uint32) {
    level < if 0 <= config.silenceThreshold then config.silenceThreshold else 0x1_0000_0000 + config.silenceThreshold
  }

  /** The window that is waited for: the configured seconds in milliseconds, in 32 bits. */
  function WindowMs(config: Config): int {
    config.silenceS * 1000 % 0x1_0000_0000
  }

  lemma Configured(setup: Setup)
    ensures setup.SilenceMs() == WindowMs(setup.config)
    ensures setup.config.silenceS * 1000 < TWO32 ==> WindowMs(setup.config) == setup.config.silenceS * 1000
    ensures forall level: uint32 :: Quiet(setup.config, level) <==> level < setup.SilenceLevel()
    ensures setup.SilenceLevel() == 0 <==> setup.config.silenceThreshold == 0
  {
  }

  /** With a negative threshold every level PJSIP reports, which is at most 255, is quiet. */
  lemma NegativeThreshold(config: Config, level: uint32)
    requires config.silenceThreshold < 0 && level <= 255
    ensures Quiet(config, level)
  {
  }

  /** Every sample of `h[from..]` is quiet, and the stretch spans `ms`. */
  predicate QuietWindow(h: seq<Sample>, from: nat, config: Config, ms: int) {
    && from < |h| && h[|h| - 1].now - h[from].now >= ms
    && forall i :: from <= i < |h| ==> Quiet(config, h[i].level)
  }

  /** When the silence loop has been left and not by cancellation: no poll is older than the
      start of Step 7, and either every level polled over a window of the configured length
      was below the threshold or 600 s have passed since the last confirmation. */
  ghost predicate Justified(setup: Setup, s: Call, now: uint64) {
    var d := Summary(s.log);
    && (forall i :: 0 <= i < |d.polls| ==> s.markMs <= d.polls[i].now <= now)
    && (|| (exists from :: QuietWindow(d.polls, from, setup.config, WindowMs(setup.config)))
        || now - d.callStart >= 600000)
  }

  lemma SilenceExitIsJustified(setup: Setup, s: Call, t: Tick, u: Tick)
    requires Inv(setup, s, t) && Follows(t, u) && s.pc == SilExit && !u.cancelled
    ensures Justified(setup, s, u.now)
  {
    hide RegInv, PlayInv, DialInv, ClosingInv, ReturnedInv, Replay, RunStart, Setup.SilenceLevel;
    hide Setup.SilenceMs, WindowMs, Quiet, Summary;
    var polls := Summary(s.log).polls;
    Configured(setup);
    if EndsSilent(setup.SilenceLevel(), setup.SilenceMs(), polls) {
      assert QuietWindow(polls, RunStart(setup.SilenceLevel(), polls), setup.config, WindowMs(setup.config));
    }
  }

  lemma SilenceIsAnnounced(setup: Setup, s: Call)
    ensures var a := AgentEvent(SILENCE_DETECTED, setup.CallId(), "", setup.config.silenceS, 0, "", false);
            var b := AgentEvent(HANGING_UP, setup.CallId(), "", 0, 0, "", false);
            Stream(HangUpOnSilence(setup, s)) == Stream(s) + [a, b]
  {
    hide Summary, Act, Setup.CallId, Delta;
  }

  /** The uncancelled exit of the silence loop announces silence, and is justified. */
  lemma SilenceHangupIsJustified(setup: Setup, ts: seq<Tick>, u: Tick)
    requires Legal(ts + [u]) && Exec(setup, ts).pc == SilExit && !u.cancelled
    ensures Justified(setup, Exec(setup, ts), u.now)
    ensures exists a, b :: Stream(Exec(setup, ts + [u])) == Stream(Exec(setup, ts)) + [a, b]
                           && a.status == SILENCE_DETECTED && b.status == HANGING_UP
  {
    hide Inv, Summary, Exec, Next, Legal, HangUpOnSilence, Justified, Follows;
    ExecSnoc(setup, ts, u);
    var s := Exec(setup, ts);
    InvHolds(setup, ts);
    SilenceExitIsJustified(setup, s, LastTick(ts), u);
    NextInEnd(setup, s, u);
    SilenceIsAnnounced(setup, s);
  }

  // ---- ... in every stream ----------------------------------------------------------------------

  /** Reads `m` and `k` of the run frame its listening: Step 7 starts at `m`, silence is announced at `k`, every
      poll lies between, and either the levels polled over a window of `ms` were all below the threshold, or 600 s
      have passed since the last confirmation. */
  ghost predicate Earned(setup: Setup, ts: seq<Tick>, m: nat, k: nat, ms: int) {
    && m < k < |ts| && !ts[m].cancelled && !ts[k].cancelled
    && Exec(setup, ts[..m]).pc == PlayExit && Exec(setup, ts[..k]).pc == SilExit
    && var d := Summary(Exec(setup, ts[..k]).log);
       && (forall i :: 0 <= i < |d.polls| ==> ts[m].now <= d.polls[i].now <= ts[k].now)
       && (|| (exists from :: QuietWindow(d.polls, from, setup.config, ms))
           || ts[k].now - d.callStart >= 600000)
  }

  predicate Listening(pc: Pc) {
    pc.SilLoop? || pc.SilWait? || pc.SilLevel? || pc.SilFeed? || pc.SilCap? || pc.SilExit?
  }

  /** The silence loop is entered from Step 6 and otherwise stays within itself. */
  lemma ComesFrom(from: Pc, to: Pc, cancelled: bool, got: bool)
    requires Flows(from, to, cancelled, got) && Listening(to)
    ensures if from.PlayExit? then !cancelled else Listening(from)
  {
  }

  lemma ListenStep(setup: Setup, s: Call, u: Tick)
    requires Listening(s.pc) && Listening(Next(setup, s, u).pc)
    ensures Next(setup, s, u).markMs == s.markMs
  {
    hide Next, Summary, TakeOrDisconnect, FeedDetector, HangUpOnSilence, Sub64;
    NextInEnd(setup, s, u);
    TakeShape(setup, s, u.event, SilLevel);
    FeedShape(s, u.now);
    ListenExitShape(setup, s);
  }

  lemma ListenStart(setup: Setup, s: Call, u: Tick)
    requires s.pc.PlayExit? && Listening(Next(setup, s, u).pc)
    ensures Next(setup, s, u).markMs == u.now
  {
    hide Next, Summary, StartListening, HangUpCancelled;
    NextInPlay(setup, s, u);
    PlayExitShape(setup, s);
    StartListeningShape(setup, s, u.now);
  }

  /** The silence loop in which a run is was entered at some read, whose clock it has noted. */
  lemma {:induction false} ListeningSince(setup: Setup, ts: seq<Tick>) returns (m: nat)
    requires Listening(Exec(setup, ts).pc)
    ensures m < |ts| && Exec(setup, ts[..m]).pc == PlayExit && !ts[m].cancelled && ts[m].now == Exec(setup, ts).markMs
  {
    hide Next, Flows;
    m := |ts| - 1;
    var s := Exec(setup, ts[..m]);
    NextLeads(setup, s, ts[m]);
    ComesFrom(s.pc, Exec(setup, ts).pc, ts[m].cancelled, ts[m].event.Some?);
    if s.pc.PlayExit? {
      ListenStart(setup, s, ts[m]);
    } else {
      ListenStep(setup, s, ts[m]);
      var p := ts[..m];
      m := ListeningSince(setup, p);
      assert p[..m] == ts[..m];
    }
  }

  lemma AnnouncedAt(setup: Setup, ts: seq<Tick>, e: nat) returns (k: nat)
    requires e < |Stream(Exec(setup, ts))| && Stream(Exec(setup, ts))[e].status == SILENCE_DETECTED
    ensures k < |ts| && Exec(setup, ts[..k]).pc == SilExit && !ts[k].cancelled
  {
    hide Exec, Next, Summary, RegistrationFails, CallIdOf;
    var j := EmittedInLog(Exec(setup, ts).log, e);
    k := DoneAt(setup, ts, j);
  }

  /** SILENCE_DETECTED is in a stream only if it was earned: by the configured silence (in 32 bits) since the
      start of Step 7, or by the cap. No other step announces it. */
  lemma SilenceIsEarned(setup: Setup, ts: seq<Tick>, e: nat)
    requires Legal(ts) && e < |Stream(Exec(setup, ts))| && Stream(Exec(setup, ts))[e].status == SILENCE_DETECTED
    ensures exists m: nat, k: nat :: Earned(setup, ts, m, k, WindowMs(setup.config))
    ensures setup.config.silenceS * 1000 < TWO32 ==>
              exists m: nat, k: nat :: Earned(setup, ts, m, k, setup.config.silenceS * 1000)
  {
    hide Exec, Next, Summary, Legal, Follows, Justified, QuietWindow, WindowMs, Inv;
    Configured(setup);
    var k := AnnouncedAt(setup, ts, e);
    var s := Exec(setup, ts[..k]);
    LegalSplits(ts, k);
    InvHolds(setup, ts[..k]);
    NextInEnd(setup, s, ts[k]);
    var m := ListeningSince(setup, ts[..k]);
    assert ts[..k][..m] == ts[..m];
    SilenceExitIsJustified(setup, s, LastTick(ts[..k]), ts[k]);
    JustifiedIsEarned(setup, ts, m, k);
  }

  lemma JustifiedIsEarned(setup: Setup, ts: seq<Tick>, m: nat, k: nat)
    requires m < k < |ts| && !ts[m].cancelled && !ts[k].cancelled
    requires Exec(setup, ts[..m]).pc == PlayExit && Exec(setup, ts[..k]).pc == SilExit
    requires ts[m].now == Exec(setup, ts[..k]).markMs && Justified(setup, Exec(setup, ts[..k]), ts[k].now)
    ensures Earned(setup, ts, m, k, WindowMs(setup.config))
  {
    hide Exec, Summary, QuietWindow, WindowMs;
  }

  // ---- The polls are those of Step 7 -----------------------------------------------------------------

  lemma PlayedIsLast(evs: seq<AgentEvent>)
    requires Scan(evs) == Played
    ensures evs != [] && evs[|evs| - 1].status == PLAYED
  {
  }

  lemma ArmedAfterPlayed(setup: Setup, s: Call, t: Tick, u: Tick)
    requires Inv(setup, s, t) && Follows(t, u) && s.pc == PlayExit && !u.cancelled
    ensures Stream(s) != [] && Stream(s)[|Stream(s)| - 1].status == PLAYED
  {
    hide Summary, Scan, Setup.RecPath;
    StageIsScan(s.log);
    PlayedIsLast(Stream(s));
  }

  lemma PolledWhenArmed(setup: Setup, s: Call, t: Tick)
    requires Inv(setup, s, t) && s.pc == SilFeed
    ensures ArmDetector in s.log
  {
    hide Summary, Setup.RecPath, Setup.SilenceLevel, Setup.SilenceMs, Replay, EndsSilent;
    ActionsNoted(s.log);
  }

  /** Read off the log: every poll comes after the detector was armed, and that after PLAYED. */
  lemma PollsFollowPlayed(setup: Setup, ts: seq<Tick>, j: nat)
    requires Legal(ts) && j < |Exec(setup, ts).log| && Exec(setup, ts).log[j].Poll?
    ensures var log := Exec(setup, ts).log;
            exists h: nat, i: nat :: h < i < j && log[h].Emit? && log[h].event.status == PLAYED && log[i] == ArmDetector
  {
    hide Exec, Next, Summary, Legal, Follows, Inv;
    var log := Exec(setup, ts).log;
    var k := DoneAt(setup, ts, j);
    LegalSplits(ts, k);
    InvHolds(setup, ts[..k]);
    PolledWhenArmed(setup, Exec(setup, ts[..k]), LastTick(ts[..k]));
    var i: nat :| i < |Exec(setup, ts[..k]).log| && Exec(setup, ts[..k]).log[i] == ArmDetector;
    var m := DoneAt(setup, ts, i);
    var s := Exec(setup, ts[..m]);
    LegalSplits(ts, m);
    InvHolds(setup, ts[..m]);
    ArmedAfterPlayed(setup, s, LastTick(ts[..m]), ts[m]);
    var h := EmittedInLog(s.log, |Stream(s)| - 1);
    assert h < i < j && log[h] == Emit(Stream(s)[|Stream(s)| - 1]) && log[i] == ArmDetector;
  }

  // ---- The window that wraps ---------------------------------------------------------------------------

  lemma {:induction false} StartConstant(setup: Setup, ts: seq<Tick>, m: nat)
    requires m <= |ts| && PastDelay(Exec(setup, ts[..m]).pc)
    ensures Summary(Exec(setup, ts).log).callStart == Summary(Exec(setup, ts[..m]).log).callStart
  {
    hide Next, Summary, PastDelay;
    if m == |ts| {
      assert ts[..m] == ts;
    } else {
      var n := |ts| - 1;
      assert ts[..n][..m] == ts[..m];
      StartConstant(setup, ts[..n], m);
      PhasesRise(setup, ts[..n], m);
      NotConfirming(Exec(setup, ts[..m]).pc, Exec(setup, ts[..n]).pc);
      StartKept(setup, Exec(setup, ts[..n]), ts[n]);
    }
  }

  lemma NotConfirming(pc: Pc, later: Pc)
    requires PastDelay(pc) && Phase(pc) <= Phase(later)
    ensures later != DialConfirm
  {
  }

  /** Playback, and so the silence window, lies after the answer delay: a window that reaches the cap from there is
      none. */
  lemma LongWindowMeansCap(setup: Setup, ts: seq<Tick>, m: nat, k: nat, ms: int)
    requires Legal(ts) && Earned(setup, ts, m, k, WindowMs(setup.config))
    requires setup.config.silenceThreshold == 0 || setup.config.answerDelayS * 1000 + WindowMs(setup.config) >= 600000
    ensures Earned(setup, ts, m, k, ms)
  {
    hide Exec, Summary, Legal, Follows, WindowMs;
    var s, s0 := Exec(setup, ts[..k]), Exec(setup, ts[..m]);
    assert ts[..k][..m] == ts[..m];
    StartConstant(setup, ts[..k], m);
    LegalSplits(ts, m);
    AlwaysDelayed(setup, ts[..m]);
    AfterDelay(setup, s0, LastTick(ts[..m]), ts[m]);
    var polls := Summary(s.log).polls;
    if from: nat :| QuietWindow(polls, from, setup.config, WindowMs(setup.config)) {
      assert Quiet(setup.config, polls[from].level);
      assert ts[m].now <= polls[from].now && polls[|polls| - 1].now <= ts[k].now;
    }
  }

  lemma AfterDelay(setup: Setup, s: Call, t: Tick, u: Tick)
    requires DelayOver(setup, s, t) && Follows(t, u) && s.pc == PlayExit
    ensures PlayAt(setup, s) <= u.now
  {
    hide Summary;
  }

  /** Without an agent nothing is announced. */
  lemma {:induction false} NeverStarts(setup: Setup, ts: seq<Tick>)
    requires !setup.initOk
    ensures Exec(setup, ts).pc == RegInit || Exec(setup, ts).pc == Returned
  {
    hide Next;
    if ts == [] {
      BeginsAtInit(setup);
    } else {
      NeverStarts(setup, ts[..|ts| - 1]);
      InitFails(setup, Exec(setup, ts[..|ts| - 1]), ts[|ts| - 1]);
    }
  }

  lemma BeginsAtInit(setup: Setup)
    ensures Exec(setup, []).pc == RegInit
  {
  }

  lemma InitFails(setup: Setup, s: Call, u: Tick)
    requires !setup.initOk && (s.pc == RegInit || s.pc == Returned)
    ensures Next(setup, s, u).pc == Returned
  {
    hide Summary, Act, InitFailed;
  }

  /** A quiet line, once the detector counts; the last poll comes with an event, right when the window is over. */
  lemma {:induction false} RunQuietly(setup: Setup, ts: seq<Tick>) returns (us: seq<Tick>)
    requires Real(setup, ts) && LastTick(ts) == At(LastTick(ts).now) && setup.SilenceLevel() > 0
    requires var s, now := Exec(setup, ts), LastTick(ts).now;
             && s.pc == SilLoop && !s.silent && s.connectedMs == 1
             && s.detector == Detector(setup.SilenceLevel(), setup.SilenceMs(), s.detector.start, true, true)
             && 1 <= s.detector.start <= now < s.detector.start + setup.SilenceMs() <= MAX_CALL_MS
    ensures Real(setup, us) && LastTick(us) == At(LastTick(us).now) && LastTick(us).now <= MAX_CALL_MS
    ensures Exec(setup, us).pc == SilExit && Exec(setup, us).silent
    decreases MAX_CALL_MS - LastTick(ts).now
  {
    hide Next, Exec, Real, Setup.SilenceLevel, Setup.SilenceMs;
    var s, now := Exec(setup, ts), LastTick(ts).now;
    var left := s.detector.start + setup.SilenceMs() - now;
    us := RunPolls(setup, ts, 0, if left < 100 then left else 100);
    if Exec(setup, us).pc == SilLoop {
      us := RunQuietly(setup, us);
    }
  }

  /** A run whose window, as computed, passes before the cap announces silence there. */
  lemma RunAnnouncesEarly(setup: Setup) returns (ts: seq<Tick>, e: nat)
    requires setup.initOk && setup.SilenceLevel() > 0
    requires setup.config.answerDelayS * 1000 + setup.SilenceMs() < 600000
    ensures Real(setup, ts) && SilentAt(setup, ts, e) && LastTick(ts).now <= MAX_CALL_MS
  {
    hide Exec, Next, Real, Setup.SilenceLevel, Setup.SilenceMs, HangUpOnSilence, Stream;
    ts := RunToListen(setup);
    ts := RunPolls(setup, ts, 0, 0);
    if Exec(setup, ts).pc == SilLoop {
      ts := RunQuietly(setup, ts);
    }
    var s, now := Exec(setup, ts), LastTick(ts).now;
    NextInEnd(setup, s, At(now));
    SilenceIsAnnounced(setup, s);
    ts := Now(setup, ts, At(now));
    e := |Stream(s)|;
  }

  lemma ListeningIsConfirmed(setup: Setup, s: Call, t: Tick)
    requires Inv(setup, s, t) && s.pc == SilExit
    ensures Summary(s.log).callStart > 0
  {
    hide Summary, Setup.RecPath, Setup.SilenceLevel, Setup.SilenceMs, Replay, EndsSilent;
  }

  /** A run that ends before the cap has no time for a window of the cap's length. */
  lemma NotEarnedBeforeCap(setup: Setup, ts: seq<Tick>, m: nat, k: nat, ms: int)
    requires Legal(ts) && LastTick(ts).now <= MAX_CALL_MS < ms
    ensures !Earned(setup, ts, m, k, ms)
  {
    hide Exec, Summary, Inv;
    if Earned(setup, ts, m, k, ms) {
      ClockRises(ts, k);
      LegalSplits(ts, k);
      InvHolds(setup, ts[..k]);
      ListeningIsConfirmed(setup, Exec(setup, ts[..k]), LastTick(ts[..k]));
      assert false;
    }
  }

  /** Event `e` of the stream announces silence. */
  ghost predicate SilentAt(setup: Setup, ts: seq<Tick>, e: nat) {
    e < |Stream(Exec(setup, ts))| && Stream(Exec(setup, ts))[e].status == SILENCE_DETECTED
  }

  /** Event `e` was earned by `ms` of silence, or by the cap. */
  ghost predicate EarnedBy(setup: Setup, ts: seq<Tick>, ms: int) {
    exists m: nat, k: nat :: Earned(setup, ts, m, k, ms)
  }

  /** What a setup has to meet for its announcements to be true. */
  predicate KeepsTime(setup: Setup) {
    || !setup.initOk || setup.config.silenceThreshold == 0
    || setup.config.silenceS * 1000 < 0x1_0000_0000
    || setup.config.answerDelayS * 1000 + WindowMs(setup.config) >= 600000
  }

  lemma KeptTime(setup: Setup, ts: seq<Tick>, e: nat)
    requires KeepsTime(setup) && Legal(ts) && SilentAt(setup, ts, e)
    ensures EarnedBy(setup, ts, setup.config.silenceS * 1000)
  {
    hide Exec, Next, Summary, Legal, Earned, WindowMs, Stream;
    SilenceIsEarned(setup, ts, e);
    if !setup.initOk {
      NothingAnnounced(setup, ts, e);
    } else if setup.config.silenceS * 1000 >= TWO32 {
      var m: nat, k: nat :| Earned(setup, ts, m, k, WindowMs(setup.config));
      LongWindowMeansCap(setup, ts, m, k, setup.config.silenceS * 1000);
    }
  }

  lemma NothingAnnounced(setup: Setup, ts: seq<Tick>, e: nat)
    requires !setup.initOk
    ensures !SilentAt(setup, ts, e)
  {
    hide Exec, Next, Summary;
    if SilentAt(setup, ts, e) {
      var j := EmittedInLog(Exec(setup, ts).log, e);
      var k := DoneAt(setup, ts, j);
      NeverStarts(setup, ts[..k]);
      assert false;
    }
  }

  /** The announced silence is true, in the sense that every SILENCE_DETECTED of every run was earned by the
      configured number of seconds of quiet or by the cap, exactly for the setups that keep time: the window in
      milliseconds fits 32 bits, or what it wraps to cannot pass before the cap, or nothing is ever quiet, or
      started. With `silence_timeout_seconds = 4294968` it wraps to 704 ms. Punctual runs alone make the
      difference. */
  lemma SilenceIsTrueExactlyWhenKept(setup: Setup)
    ensures KeepsTime(setup) <==>
              forall ts, e: nat :: Legal(ts) && SilentAt(setup, ts, e) ==>
                EarnedBy(setup, ts, setup.config.silenceS * 1000)
    ensures KeepsTime(setup) <==>
              forall ts, e: nat :: Real(setup, ts) && SilentAt(setup, ts, e) ==>
                EarnedBy(setup, ts, setup.config.silenceS * 1000)
  {
    hide Exec, Next, Summary, Legal, Earned, Setup.SilenceLevel, Setup.SilenceMs, WindowMs, SilentAt, Punctual;
    Configured(setup);
    if KeepsTime(setup) {
      forall ts, e: nat | Legal(ts) && SilentAt(setup, ts, e)
        ensures EarnedBy(setup, ts, setup.config.silenceS * 1000)
      {
        KeptTime(setup, ts, e);
      }
    } else {
      var ts, e := RunAnnouncesEarly(setup);
      forall m: nat, k: nat
        ensures !Earned(setup, ts, m, k, setup.config.silenceS * 1000)
      {
        NotEarnedBeforeCap(setup, ts, m, k, setup.config.silenceS * 1000);
      }
      assert Legal(ts) && SilentAt(setup, ts, e) && !EarnedBy(setup, ts, setup.config.silenceS * 1000);
    }
  }

  // ---- What is polled, and until when -----------------------------------------------------------------

  lemma FeedComesFrom(from: Pc, to: Pc, cancelled: bool, got: bool)
    requires Flows(from, to, cancelled, got) && to.SilFeed?
    ensures from.SilLevel?
  {
  }

  lemma FeedNotFirst(setup: Setup, ts: seq<Tick>)
    requires Exec(setup, ts).pc == SilFeed
    ensures ts != []
  {
    hide Next;
    BeginsAtInit(setup);
  }

  /** Every poll is a level and a clock the run was answered, one right after the other. */
  lemma PollsAreAnswers(setup: Setup, ts: seq<Tick>, j: nat)
    requires j < |Exec(setup, ts).log| && Exec(setup, ts).log[j].Poll?
    ensures exists k: nat :: && 0 < k < |ts| && Exec(setup, ts[..k - 1]).pc == SilLevel
                             && Exec(setup, ts).log[j].sample == Sample(ts[k - 1].level, ts[k].now)
  {
    hide Exec, Next, Summary, Flows;
    var k := DoneAt(setup, ts, j);
    FeedNotFirst(setup, ts[..k]);
    var n := k - 1;
    var s := Exec(setup, ts[..n]);
    OneMore(setup, ts, n);
    NextLeads(setup, s, ts[n]);
    FeedComesFrom(s.pc, SilFeed, ts[n].cancelled, ts[n].event.Some?);
    NextInEnd(setup, s, ts[n]);
    assert Exec(setup, ts[..k - 1]).pc == SilLevel;
  }

  /** The detector is armed as long as it has not fired. */
  ghost predicate Alert(s: Call) {
    && (Listening(s.pc) && !s.pc.SilExit? && !s.silent ==> s.detector.armed)
    && (s.pc.SilLoop? || s.pc.SilWait? || s.pc.SilLevel? || s.pc.SilFeed? ==> !s.silent)
  }

  lemma FeedAlert(s: Call, now: uint64)
    requires s.detector.armed && !s.silent
    ensures Alert(FeedDetector(s, now))
  {
    hide Summary, Act;
  }

  lemma TakeAlert(setup: Setup, s: Call, event: Option<InternalEvent>)
    ensures var r := TakeOrDisconnect(setup, s, event, SilLevel);
            && (r.pc.SilLevel? ==> r.silent == s.silent && r.detector == s.detector)
            && (r.pc.SilLevel? || r.pc.Bill? || r.pc.Returned?)
  {
    hide Summary, Act, Disconnect;
    if event.Some? && IsDisconnect(event.value) {
      DisconnectShape(setup, Act(s, Took(event.value)), event.value.code, event.value.why);
    }
  }

  lemma StartAlert(setup: Setup, s: Call, now: uint64)
    ensures Alert(StartListening(setup, s, now))
  {
    hide Summary, Act, Setup.SilenceLevel, Setup.SilenceMs, GivenUp;
  }

  lemma LoopAlert(setup: Setup, s: Call, u: Tick)
    requires Alert(s) && Listening(s.pc)
    ensures Alert(Next(setup, s, u))
  {
    hide Next, Summary, TakeOrDisconnect, FeedDetector, HangUpOnSilence, Sub64;
    NextInEnd(setup, s, u);
    TakeAlert(setup, s, u.event);
    ListenExitShape(setup, s);
    if s.pc.SilFeed? {
      FeedAlert(s, u.now);
    }
  }

  lemma EntryAlert(setup: Setup, s: Call, u: Tick)
    requires s.pc.PlayExit?
    ensures Alert(Next(setup, s, u))
  {
    hide Next, Alert, Summary, StartListening;
    NextInPlay(setup, s, u);
    StartAlert(setup, s, u.now);
    CancelledAlert(s);
  }

  lemma CancelledAlert(s: Call)
    ensures Alert(HangUpCancelled(s))
  {
    hide Summary;
  }

  lemma {:induction false} AlwaysAlert(setup: Setup, ts: seq<Tick>)
    ensures Alert(Exec(setup, ts))
  {
    hide Next, Flows, Begin;
    if ts == [] {
      BeginsAtInit(setup);
    } else {
      var p, u := ts[..|ts| - 1], ts[|ts| - 1];
      var s := Exec(setup, p);
      AlwaysAlert(setup, p);
      NextLeads(setup, s, u);
      if Listening(s.pc) {
        LoopAlert(setup, s, u);
      } else if s.pc.PlayExit? {
        EntryAlert(setup, s, u);
      } else if Listening(Next(setup, s, u).pc) {
        ComesFrom(s.pc, Next(setup, s, u).pc, u.cancelled, u.event.Some?);
      }
    }
  }

  /** `run` listens only until it is first silent: as long as it is about to wait or to poll again, no prefix of the
      levels polled ends in a quiet stretch of the window. */
  lemma ListensUntilFirstSilence(setup: Setup, ts: seq<Tick>, i: nat)
    requires Legal(ts)
    requires var pc := Exec(setup, ts).pc; pc.SilLoop? || pc.SilWait? || pc.SilLevel? || pc.SilFeed?
    ensures var polls := Summary(Exec(setup, ts).log).polls;
            i <= |polls| ==> forall from :: !QuietWindow(polls[..i], from, setup.config, WindowMs(setup.config))
  {
    hide Exec, Summary, Inv, Replay, EndsSilent, WindowMs, Quiet, Setup.SilenceLevel, Setup.SilenceMs;
    InvHolds(setup, ts);
    AlwaysAlert(setup, ts);
    StillReplays(setup, Exec(setup, ts), LastTick(ts));
    var polls := Summary(Exec(setup, ts).log).polls;
    ReplayReflects(setup.SilenceLevel(), setup.SilenceMs(), polls);
    Configured(setup);
    if i <= |polls| {
      assert polls[..|polls|] == polls;
      assert !EndsSilent(setup.SilenceLevel(), setup.SilenceMs(), polls[..i]);
      NotSilent(setup, polls[..i]);
    }
  }

  lemma StillReplays(setup: Setup, s: Call, t: Tick)
    requires Inv(setup, s, t) && (s.pc.SilLoop? || s.pc.SilWait? || s.pc.SilLevel? || s.pc.SilFeed?)
    ensures Ordered(Summary(s.log).polls)
    ensures s.detector == Replay(setup.SilenceLevel(), setup.SilenceMs(), Summary(s.log).polls)
  {
    hide Summary, Replay, EndsSilent, Setup.RecPath, Setup.SilenceLevel, Setup.SilenceMs;
  }

  /** A quiet window lies in the trailing quiet run. */
  lemma NotSilent(setup: Setup, h: seq<Sample>)
    requires !EndsSilent(setup.SilenceLevel(), setup.SilenceMs(), h) && Ordered(h)
    ensures forall from :: !QuietWindow(h, from, setup.config, WindowMs(setup.config))
  {
    hide RunStart, WindowMs, Quiet, Setup.SilenceLevel, Setup.SilenceMs;
    Configured(setup);
    var start := RunStart(setup.SilenceLevel(), h);
    forall from: nat | from < |h| && (forall i :: from <= i < |h| ==> Quiet(setup.config, h[i].level))
      ensures h[|h| - 1].now - h[from].now < WindowMs(setup.config)
    {
      assert start > 0 && start <= |h| ==> !Quiet(setup.config, h[start - 1].level);
      assert start <= from;
    }
  }
}
