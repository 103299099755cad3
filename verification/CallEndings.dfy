/** How a run ends: on the first DISCONNECTED, on silence, or cancelled; read off
    the log of everything `run` did, in order. */
module CallEndings {
  import opened Events
  import opened CallGrammar
  import opened CallMachine
  import opened CallInvariant
  import opened CallTheorems
  import opened CallIntake

  // ---- The decisive disconnect -------------------------------------------------------

  /** The entry at `j` takes a DISCONNECTED off the queue after the call was placed. */
  predicate LateDisconnect(log: seq<Action>, j: nat) {
    j < |log| && log[j].Took? && IsDisconnect(log[j].taken) && PlaceCall in log[..j]
  }

  predicate FirstDisconnect(log: seq<Action>, j: nat) {
    LateDisconnect(log, j) && forall k: nat :: k < j ==> !LateDisconnect(log, k)
  }

  /** What `line` in the digest stands for. */
  lemma {:induction false} LineMeans(log: seq<Action>)
    ensures Summary(log).line.NotDialled? <==> PlaceCall !in log
    ensures Summary(log).line == Dialled <==> PlaceCall in log && forall j: nat :: !LateDisconnect(log, j)
  {
    if log != [] {
      var n := |log| - 1;
      var p := log[..n];
      assert log == p + [log[n]];
      LineMeans(p);
      assert forall j: nat :: j <= n ==> log[..j] == p[..j];
      assert forall j: nat :: j < n ==> (LateDisconnect(log, j) <==> LateDisconnect(p, j));
      assert p[..n] == p;
      if Summary(p).line == Dialled && log[n].Took? && IsDisconnect(log[n].taken) {
        assert LateDisconnect(log, n);
      }
      if j: nat :| LateDisconnect(p, j) {
        assert LateDisconnect(log, j);
      }
    }
  }

  lemma PrefixDisconnects(log: seq<Action>, k: nat)
    requires k <= |log|
    ensures forall j: nat :: j < k ==> (LateDisconnect(log, j) <==> LateDisconnect(log[..k], j))
  {
    assert forall j: nat :: j <= k ==> log[..k][..j] == log[..j];
  }

  /** Recording was set up, and to this path last. */
  ghost predicate RecordedTo(log: seq<Action>, path: string) {
    exists i: nat :: LastRecorderAction(log, i, path)
  }

  predicate LastRecorderAction(log: seq<Action>, i: nat, path: string) {
    && i < |log| && log[i] == StartRecorder(path)
    && forall k :: i < k < |log| ==> !log[k].StartRecorder? && !log[k].StopRecorder?
  }

  lemma RecorderStep(log: seq<Action>)
    requires log != []
    ensures var a := log[|log| - 1];
            Summary(log).recorder ==
              if a.StartRecorder? then Recording(a.path) else if a.StopRecorder? then Stopped
              else Summary(log[..|log| - 1]).recorder
  {
  }

  /** What `recorder` in the digest stands for. */
  lemma {:induction false} RecorderUnused(log: seq<Action>)
    ensures Summary(log).recorder.NeverStarted? <==>
              forall i :: 0 <= i < |log| ==> !log[i].StartRecorder? && !log[i].StopRecorder?
  {
    hide Summary;
    if log == [] {
      NothingSummed();
    } else {
      RecorderUnused(log[..|log| - 1]);
      RecorderStep(log);
      assert log == log[..|log| - 1] + [log[|log| - 1]];
    }
  }

  lemma {:induction false} RecorderRunning(log: seq<Action>)
    ensures Summary(log).recorder.Recording? ==> RecordedTo(log, Summary(log).recorder.path)
  {
    hide Summary;
    if log == [] {
      NothingSummed();
    } else {
      var n := |log| - 1;
      var p := log[..n];
      RecorderRunning(p);
      RecorderStep(log);
      if log[n].StartRecorder? {
        assert LastRecorderAction(log, n, log[n].path);
      } else if Summary(log).recorder.Recording? {
        var path := Summary(p).recorder.path;
        var i: nat :| LastRecorderAction(p, i, path);
        assert LastRecorderAction(log, i, path);
      }
    }
  }

  lemma NothingSummed()
    ensures Summary([]) == NOTHING_YET
  {
  }

  lemma DisconnectNoted(log: seq<Action>, j: nat)
    requires FirstDisconnect(log, j)
    ensures Summary(log).line.Disconnected? && j < |log|
  {
    LineMeans(log);
    assert forall a :: a in log[..j] ==> a in log;
  }

  /** No DISCONNECTED taken after dialling is skipped: the first one is either being
      billed at this very moment, or it ended the run, and the log closes with what
      `handleDisconnect` did: the recorder stopped, RECORDING_READY exactly
      when recording had been set up, the result. In particular no event is taken after it. */
  lemma FirstDisconnectEndsRun(setup: Setup, ts: seq<Tick>, j: nat)
    requires Legal(ts) && FirstDisconnect(Exec(setup, ts).log, j)
    ensures var s := Exec(setup, ts);
            if s.pc == Bill then j == |s.log| - 1
            else s.pc == Returned && s.result.status != CANCELLED
                 && s.log[j..] == Ending(setup, s.result, s.log[j].taken)
                 && (s.result.recordingPath == "" || s.result.recordingPath == setup.RecPath())
  {
    hide Exec, Summary, Inv, Setup.RecPath, Setup.CallId, FirstDisconnect;
    var s := Exec(setup, ts);
    InvHolds(setup, ts);
    DisconnectNoted(s.log, j);
    EndedByDisconnect(setup, s, LastTick(ts));
    var k := if s.pc == Bill then |s.log| - 1 else |s.log| - |Ending(setup, s.result, Summary(s.log).line.ev)|;
    FirstAfterDialling(s.log, j, k);
  }

  /** Before the first DISCONNECTED, the call is dialled and not disconnected. */
  lemma FirstAfterDialling(log: seq<Action>, j: nat, k: nat)
    requires FirstDisconnect(log, j) && k < |log|
    requires log[k].Took? && IsDisconnect(log[k].taken) && Summary(log[..k]).line == Dialled
    ensures k == j
  {
    hide Summary;
    LineMeans(log[..k]);
    PrefixDisconnects(log, k);
    assert LateDisconnect(log, k);
  }

  /** The result of such a run names a recording, and RECORDING_READY is among its last events, exactly when recording
      had been set up before the DISCONNECTED; the recorder was still running then. */
  lemma RecordingIsAnnounced(setup: Setup, ts: seq<Tick>, j: nat)
    requires Legal(ts) && FirstDisconnect(Exec(setup, ts).log, j) && Exec(setup, ts).pc == Returned
    ensures var s := Exec(setup, ts);
            if s.result.recordingPath == "" then forall i :: 0 <= i < j ==> !s.log[i].StartRecorder?
            else s.result.recordingPath == RecordingOf(setup) && RecordedTo(s.log[..j], RecordingOf(setup))
  {
    hide RecordingOf;
    Ids(setup);
    hide Exec, Summary, Inv, Setup.RecPath, Setup.CallId, FirstDisconnect, RecordedTo;
    var s := Exec(setup, ts);
    InvHolds(setup, ts);
    FirstDisconnectEndsRun(setup, ts, j);
    DisconnectNoted(s.log, j);
    EndedByDisconnect(setup, s, LastTick(ts));
    RecorderUnused(s.log[..j]);
    RecorderRunning(s.log[..j]);
    assert forall i :: 0 <= i < j ==> s.log[..j][i] == s.log[i];
  }

  lemma EndedByDisconnect(setup: Setup, s: Call, t: Tick)
    requires Inv(setup, s, t) && Summary(s.log).line.Disconnected?
    ensures s.pc == Bill || s.pc == Returned
    ensures s.pc == Bill ==> JustTook(s.log, Summary(s.log).line.ev)
    ensures IsDisconnect(Summary(s.log).line.ev)
    ensures s.pc == Returned ==>
              var e := Ending(setup, s.result, Summary(s.log).line.ev);
              && s.result.status != CANCELLED && EndsWith(s.log, e, s.result.recordingPath)
              && s.log[|s.log| - |e|] == Took(Summary(s.log).line.ev)
              && (s.result.recordingPath == "" || s.result.recordingPath == setup.RecPath())
  {
    hide Summary, Setup.RecPath, Setup.CallId;
  }

  // ---- Hanging up when cancelled ---------------------------------------------------------

  /** A run that is cancelled after dialling has hung up the call, with one exception: the
      cancellation was noticed while listening for silence. Then nothing was
      hung up, unless the answer timeout had already done so before the call was confirmed. */
  lemma CancelledCallIsHungUp(setup: Setup, ts: seq<Tick>)
    requires Legal(ts) && Exec(setup, ts).pc == Returned && Exec(setup, ts).result.status == CANCELLED
    requires PlaceCall in Exec(setup, ts).log
    ensures var s, evs := Exec(setup, ts), Stream(Exec(setup, ts));
            Hangup in s.log <==>
              s.timeoutHit || ArmDetector !in s.log || (evs != [] && evs[|evs| - 1].status == HANGING_UP)
  {
    hide Exec, Summary, RegInv, PlayInv, DialInv, ListenInv, ClosingInv, OutcomeInv, Scan;
    var s := Exec(setup, ts);
    ReturnedHolds(setup, ts);
    LineMeans(s.log);
    ActionsNoted(s.log);
    StageIsScan(s.log);
    HangingUpIsLast(Stream(s));
  }

  lemma {:induction false} ActionsNoted(log: seq<Action>)
    ensures Summary(log).hungUp <==> Hangup in log
    ensures Summary(log).armed <==> ArmDetector in log
  {
    if log != [] {
      var p := log[..|log| - 1];
      assert log == p + [log[|log| - 1]];
      ActionsNoted(p);
    }
  }

  lemma HangingUpIsLast(evs: seq<AgentEvent>)
    requires Accepts(evs) && !Complete(evs)
    ensures Scan(evs) == HangingUp <==> evs != [] && evs[|evs| - 1].status == HANGING_UP
  {
  }
}
