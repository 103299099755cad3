/** What a client of `ExecuteCall` gets, over every interleaving. */
module SessionTheorems {
  import opened MachineInts
  import opened Events
  import opened CallGrammar
  import opened CallMachine
  import opened CallTheorems
  import opened CallInvariant
  import opened CallCancellation
  import opened CallReturns
  import opened EventQueue
  import opened Wire
  import opened Relay
  import opened Session

  // ---- The stream, end to end -------------------------------------------------------------

  lemma {:induction false} PrefixAccepted(p: seq<AgentEvent>, evs: seq<AgentEvent>)
    requires p <= evs && Accepts(evs)
    ensures Accepts(p)
  {
    if Scan(p) == Rejected {
      assert evs[..|p|] == p;
      RejectedForGood(evs, |p|);
    }
  }

  /** At every moment the events written are, in order and once each, the first ones that `run` emitted;
      PJSIP events taken by `run` are the first ones pushed. */
  lemma NothingLostOrReordered(setup: Setup, ms: seq<Move>)
    requires IsRun(setup, ms)
    ensures var s := After(setup, ms);
            && EventsOf(s.writer.written) <= Stream(s.call)
            && Accepts(EventsOf(s.writer.written))
            && Summary(s.call.log).taken + s.inbox.queue == s.pushed
  {
    hide Exec, Summary, Scan, After, Stamped, IsRun;
    AlwaysSound(setup, ms);
    var s := After(setup, ms);
    StreamFollowsGrammar(setup, s.script);
    PrefixAccepted(EventsOf(s.writer.written), Stream(s.call));
  }

  /** What the client has received of the event at `i`. */
  function Received(s: Session, callId: string, i: nat): CallEvent
    requires i < |s.writer.written|
  {
    s.writer.written[i].OnWire(callId)
  }

  /** When the RPC thread has left its loop, `run` has returned, and everything it emitted has been
      written, nothing else, in order. */
  lemma StreamIsDelivered(setup: Setup, ms: seq<Move>)
    requires IsRun(setup, ms) && After(setup, ms).rpc.Gone?
    ensures var s := After(setup, ms);
            && EventsOf(s.writer.written) == Stream(s.call) && s.call.pc == Returned && s.channel.done
            && s.call == Exec(setup, s.script) && Legal(s.script)
  {
    hide Exec, Summary, After, Stamped, IsRun, Legal;
    AlwaysSound(setup, ms);
    var s := After(setup, ms);
    assert Stream(s.call)[..s.handed] == Stream(s.call);
  }

  /** Exactly the last event received is a result, and it tells the record that `run` returned. */
  ghost predicate EndsWithResult(s: Session, callId: string) {
    var n := |s.writer.written|;
    && n > 0
    && (forall i :: 0 <= i < n ==> (Received(s, callId, i).body.CallResult? <==> i == n - 1))
    && FromProtoEvent(Received(s, callId, n - 1)) == s.call.result.(callId := callId, isResult := true)
  }

  /** The promise of the protocol: the stream ends with the one result, which tells the record that `run`
      returned, unless the call was cancelled; then it carries no result at all, and the client
      itself has cancelled. */
  lemma StreamEndsWithResult(setup: Setup, ms: seq<Move>, callId: string)
    requires IsRun(setup, ms) && After(setup, ms).rpc.Gone?
    ensures var s, n := After(setup, ms), |After(setup, ms).writer.written|;
            if s.call.result.status == CANCELLED then
              s.flag && s.cancelSent && forall i :: 0 <= i < n ==> !Received(s, callId, i).body.CallResult?
            else EndsWithResult(s, callId)
  {
    hide Exec, Summary, After, Stamped, IsRun, Legal, Scan, ToProtoEvent, FromProtoEvent, FitsWire, OutcomeInv;
    var s := After(setup, ms);
    var ws := s.writer.written;
    var evs := EventsOf(ws);
    StreamIsDelivered(setup, ms);
    AlwaysSound(setup, ms);
    OneResultAndLast(setup, s.script);
    RecordAgreesWithStream(setup, s.script);
    ReturnedHolds(setup, s.script);
    forall i | 0 <= i < |ws|
      ensures Received(s, callId, i).body.CallResult? <==> IsResult(evs[i])
    {
      JsonAndProtoAgree(evs[i], callId, ws[i].startedAtMs, ws[i].sentMs);
    }
    if s.call.result.status != CANCELLED {
      var n := |ws| - 1;
      StreamFollowsGrammar(setup, s.script);
      AcceptedFitsWire(evs, n);
      WireRoundTrip(evs[n], callId, ws[n].startedAtMs, ws[n].sentMs);
    }
  }

  // ---- The times on the wire ------------------------------------------------------------------

  /** Move `k` writes the event at `i`. */
  predicate Writes(setup: Setup, ms: seq<Move>, k: nat, i: nat) {
    k < |ms| && ms[k].Write? && |After(setup, ms[..k]).writer.written| == i
  }

  /** One move writes one event or none; the clock is read when an ANSWERED state is met, and again for the event. */
  lemma WritesOne(setup: Setup, s: Session, m: Move)
    requires Can(s, m)
    ensures s.clock <= Do(setup, s, m).clock
    ensures Do(setup, s, m).writer.written ==
              if !m.Write? then s.writer.written
              else
                var pickup := if IsAnsweredState(s.batch[0]) then s.clock else s.writer.startedAtMs;
                s.writer.written + [Written(s.batch[0], pickup, Do(setup, s, m).clock)]
  {
    hide Next, Summary, Stream, Asks;
  }

  lemma {:induction false} WrittenAt(setup: Setup, ms: seq<Move>, i: nat) returns (k: nat)
    requires IsRun(setup, ms) && i < |After(setup, ms).writer.written|
    ensures Writes(setup, ms, k, i) && IsRun(setup, ms[..k])
    ensures After(setup, ms[..k]).clock <= After(setup, ms[..k + 1]).clock == After(setup, ms).writer.written[i].sentMs
    ensures After(setup, ms[..k]).writer.written == After(setup, ms).writer.written[..i]
    ensures IsAnsweredState(After(setup, ms).writer.written[i].event) ==>
              After(setup, ms).writer.written[i].startedAtMs == After(setup, ms[..k]).clock
  {
    hide Can, Do;
    k := |ms| - 1;
    var p := ms[..k];
    WritesOne(setup, After(setup, p), ms[k]);
    assert ms[..k + 1] == ms;
    if i < |After(setup, p).writer.written| {
      k := WrittenAt(setup, p, i);
      assert p[..k] == ms[..k] && p[..k + 1] == ms[..k + 1];
    }
  }

  lemma {:induction false} ClockOnlyRises(setup: Setup, ms: seq<Move>, k: nat)
    requires IsRun(setup, ms) && k <= |ms|
    ensures After(setup, ms[..k]).clock <= After(setup, ms).clock
  {
    hide Can, Do;
    if k == |ms| {
      assert ms[..k] == ms;
    } else {
      var n := |ms| - 1;
      assert ms[..n][..k] == ms[..k];
      ClockOnlyRises(setup, ms[..n], k);
      WritesOne(setup, After(setup, ms[..n]), ms[n]);
    }
  }

  /** The start that the event at `i` carries is the clock at which move `k` picked up the last ANSWERED up to it. */
  ghost predicate PickedUp(setup: Setup, ms: seq<Move>, i: nat, k: nat, startedMs: int) {
    exists j: nat :: LastAnswered(EventsOf(After(setup, ms).writer.written), i, j) && Writes(setup, ms, k, j)
                     && startedMs == After(setup, ms[..k]).clock
  }

  lemma StartIsPickup(setup: Setup, ms: seq<Move>, i: nat, k: nat) returns (m: nat)
    requires IsRun(setup, ms) && i < |After(setup, ms).writer.written| && Writes(setup, ms, k, i) && IsRun(setup, ms[..k])
    requires After(setup, ms[..k]).writer.written == After(setup, ms).writer.written[..i]
    requires After(setup, ms).writer.written[i].startedAtMs > 0
    requires IsAnsweredState(After(setup, ms).writer.written[i].event) ==>
               After(setup, ms).writer.written[i].startedAtMs == After(setup, ms[..k]).clock
    ensures m <= k && After(setup, ms).writer.written[i].startedAtMs <= After(setup, ms[..k]).clock
    ensures PickedUp(setup, ms, i, m, After(setup, ms).writer.written[i].startedAtMs)
  {
    hide IsRun, After, Sound, Stamped;
    var w := After(setup, ms).writer;
    var j := LastStamp(w, i) by { AlwaysSoundStamps(setup, ms); }
    m := k;
    if j < i {
      m := WrittenAt(setup, ms[..k], j);
      assert ms[..k][..m] == ms[..m];
      ClockOnlyRises(setup, ms[..k], m);
    }
    assert Writes(setup, ms, m, j);
  }

  lemma AlwaysSoundStamps(setup: Setup, ms: seq<Move>)
    requires IsRun(setup, ms)
    ensures Stamped(After(setup, ms).writer)
  {
    hide IsRun, After, Executing, Queueing, Relaying, Cancelling, Stamped;
    AlwaysSound(setup, ms);
  }

  /** The times that the event at `i` carries: move `k` wrote it, and its time is the clock of that conversion,
      which for a result is the end of the call; the start, if there is one, is the clock at which the last ANSWERED
      was picked up, and is not after the end. */
  ghost predicate TellsTimes(setup: Setup, ms: seq<Move>, i: nat, k: nat, e: CallEvent) {
    && Writes(setup, ms, k, i) && MillisOf(e.occurredAt) == After(setup, ms[..k + 1]).clock
    && (e.body.CallResult? ==>
          && MillisOf(e.body.endedAt) == After(setup, ms[..k + 1]).clock
          && (e.body.startedAt.Some? ==>
                && MillisOf(e.body.startedAt.value) <= MillisOf(e.body.endedAt)
                && exists m: nat :: m <= k && PickedUp(setup, ms, i, m, MillisOf(e.body.startedAt.value))))
  }

  lemma TimesOnWire(ev: AgentEvent, callId: string, startedAtMs: uint64, now: uint64)
    ensures var e := ToProtoEvent(ev, callId, startedAtMs, now);
            && MillisOf(e.occurredAt) == now
            && (e.body.CallResult? ==>
                  && MillisOf(e.body.endedAt) == now
                  && (e.body.startedAt.Some? ==> startedAtMs > 0 && MillisOf(e.body.startedAt.value) == startedAtMs))
  {
    hide MillisOf, SetTimestamp;
    TimestampRoundTrip(now, now);
    TimestampRoundTrip(startedAtMs, now);
  }

  lemma TimesAreTold(setup: Setup, ms: seq<Move>, callId: string, i: nat)
    requires IsRun(setup, ms) && i < |After(setup, ms).writer.written|
    ensures exists k: nat :: TellsTimes(setup, ms, i, k, Received(After(setup, ms), callId, i))
  {
    hide IsRun, After, ToProtoEvent, PickedUp, MillisOf;
    var w := After(setup, ms).writer.written[i];
    var k := WrittenAt(setup, ms, i);
    TimesOnWire(w.event, callId, w.startedAtMs, w.sentMs);
    if w.startedAtMs > 0 {
      var m := StartIsPickup(setup, ms, i, k);
    }
    var e := Received(After(setup, ms), callId, i);
    assert TellsTimes(setup, ms, i, k, e);
  }

  /** A backend that reads the events back has the emitted stream, but for the call id, which is the one it
      asked for, and the flag. The result tells when the call started exactly when ANSWERED was
      among the events before it, and every event tells the times it should. */
  lemma StreamCanBeReadBack(setup: Setup, ms: seq<Move>, callId: string, i: nat)
    requires IsRun(setup, ms) && i < |After(setup, ms).writer.written|
    ensures var s := After(setup, ms);
            var evs := EventsOf(s.writer.written);
            && FromProtoEvent(Received(s, callId, i)) == evs[i].(callId := callId, isResult := IsResult(evs[i]))
            && (Received(s, callId, i).body.CallResult? ==>
                  (Received(s, callId, i).body.startedAt.Some? <==> exists j :: 0 <= j <= i && IsAnsweredState(evs[j])))
            && exists k: nat :: TellsTimes(setup, ms, i, k, Received(s, callId, i))
  {
    hide Exec, Summary, After, IsRun, Legal, Scan, ToProtoEvent, FromProtoEvent, FitsWire, Executing, TellsTimes;
    hide Queueing, Relaying;
    hide Stamped;
    var s := After(setup, ms);
    var ws := s.writer.written;
    AlwaysSound(setup, ms);
    NothingLostOrReordered(setup, ms);
    AcceptedFitsWire(EventsOf(ws), i);
    WireRoundTrip(ws[i].event, callId, ws[i].startedAtMs, ws[i].sentMs);
    StartedOnceAnswered(s.writer, i, callId);
    TimesAreTold(setup, ms, callId, i);
    assert forall j :: 0 <= j < |ws| ==> EventsOf(ws)[j] == ws[j].event;
  }

  // ---- The relay loop ends --------------------------------------------------------------------

  predicate IsRpcMove(m: Move) {
    m.Swap? || m.Write? || m.EndBatch? || m.Poll? || m.SetFlag? || m.Wake?
  }

  predicate IsExecutorMove(m: Move) {
    m.Read? || m.Enter? || m.Leave? || m.Sink? || m.Finish?
  }

  /** Rounds still to come once the executor is done, and moves of the RPC thread. */
  function RoundsLeft(s: Session): nat {
    if s.rpc.Gone? || s.finished then 0 else if s.channel.queue == [] then 1 else 2
  }

  function MovesLeft(s: Session): nat {
    var q := |s.channel.queue|;
    var fromTheLock := if q == 0 then 2 else q + 7;
    match s.rpc
    case Waiting => fromTheLock
    case Writing => if s.finished then 1 else |s.batch| + 4 + fromTheLock
    case Looking => 3 + fromTheLock
    case Flagging => 2 + fromTheLock
    case Waking => 1 + fromTheLock
    case Gone => 0
  }

  lemma RpcMovesCount(setup: Setup, s: Session, m: Move)
    requires Relaying(s) && s.channel.done && Can(s, m)
    ensures var r := Do(setup, s, m);
            && r.channel.done
            && RoundsLeft(r) + (if m.Swap? then 1 else 0) <= RoundsLeft(s)
            && MovesLeft(r) + (if IsRpcMove(m) then 1 else 0) <= MovesLeft(s)
  {
    hide Summary, Asks, Next, EventsOf, WriteOne, Stream;
  }

  function Count(ms: seq<Move>, what: Move -> bool): nat {
    if ms == [] then 0 else Count(ms[..|ms| - 1], what) + if what(ms[|ms| - 1]) then 1 else 0
  }

  /** Once `done` is set the loop makes at most two more rounds, and as many moves as there are events to write
      and twelve more; and it is never stuck on the way out. */
  lemma LoopEndsOnceDone(setup: Setup, ms: seq<Move>, k: nat)
    requires IsRun(setup, ms) && k <= |ms| && After(setup, ms[..k]).channel.done
    ensures var s0 := After(setup, ms[..k]);
            && Count(ms[k..], (m: Move) => m.Swap?) <= 2
            && Count(ms[k..], IsRpcMove) <= |s0.batch| + |s0.channel.queue| + 12
            && (After(setup, ms).rpc.Gone? || exists m :: IsRpcMove(m) && Can(After(setup, ms), m))
  {
    hide RoundsLeft, MovesLeft, Can, Do, Summary, Sound, IsRun, After, Count;
    SmallCounts(After(setup, ms[..k]));
    AlwaysSound(setup, ms);
    RpcNeverStuck(setup, After(setup, ms));
    RoundsRunOut(setup, ms, k);
  }

  lemma {:induction false} RoundsRunOut(setup: Setup, ms: seq<Move>, k: nat)
    requires IsRun(setup, ms) && k <= |ms| && After(setup, ms[..k]).channel.done
    ensures var s, s0 := After(setup, ms), After(setup, ms[..k]);
            && s.channel.done
            && Count(ms[k..], (m: Move) => m.Swap?) + RoundsLeft(s) <= RoundsLeft(s0)
            && Count(ms[k..], IsRpcMove) + MovesLeft(s) <= MovesLeft(s0)
  {
    hide RoundsLeft, MovesLeft, Can, Do, Summary, Executing, Queueing, Relaying, Cancelling, Stamped;
    if k == |ms| {
      assert ms[..k] == ms;
    } else {
      var n := |ms| - 1;
      assert ms[..n][..k] == ms[..k] && ms[k..][..n - k] == ms[..n][k..];
      RoundsRunOut(setup, ms[..n], k);
      AlwaysSound(setup, ms[..n]);
      RpcMovesCount(setup, After(setup, ms[..n]), ms[n]);
    }
  }

  lemma SmallCounts(s: Session)
    ensures RoundsLeft(s) <= 2 && MovesLeft(s) <= |s.batch| + |s.channel.queue| + 12
  {
  }

  lemma RpcNeverStuck(setup: Setup, s: Session)
    requires Sound(setup, s)
    ensures s.rpc.Gone? || exists m :: IsRpcMove(m) && Can(s, m)
  {
    hide Exec, Legal, Summary, Asks, Stream;
    var m := match s.rpc
      case Waiting => Swap
      case Writing => if s.batch == [] then EndBatch else Write(0)
      case Looking => Move.Poll(false)
      case Flagging => SetFlag
      case Waking => Wake
      case Gone => Swap;
    assert !s.rpc.Gone? ==> IsRpcMove(m) && Can(s, m);
  }

  // ---- Cancellation, end to end ------------------------------------------------------------------

  /** `run` has been given one more answer, with the flag as it was. */
  predicate Answers(setup: Setup, s: Session, r: Session, t: Tick) {
    t.cancelled == s.flag && r.script == s.script + [t] && r.call == Next(setup, s.call, t)
  }

  lemma FlagStays(setup: Setup, s: Session, m: Move)
    requires Can(s, m)
    ensures var r := Do(setup, s, m);
            && (s.flag ==> r.flag)
            && if m.Read? || m.Leave? then s.call.pc != Returned && exists t :: Answers(setup, s, r, t)
               else r.script == s.script && r.call == s.call
  {
    hide Next, Summary, Stream, WriteOne;
    if m.Read? {
      var t := Tick(s.clock, s.flag, None, m.level);
      assert Answers(setup, s, Do(setup, s, m), t);
    } else if m.Leave? {
      var t := Tick(s.clock, s.flag, Popped(s.inbox).1, 0);
      assert Answers(setup, s, Do(setup, s, m), t);
    }
  }

  /** What the executor has been answered since move `k`. */
  lemma {:induction false} AnswersSince(setup: Setup, ms: seq<Move>, k: nat)
    requires IsRun(setup, ms) && k <= |ms| && After(setup, ms[..k]).flag
    ensures var s, s0 := After(setup, ms), After(setup, ms[..k]);
            && s.flag && s0.script <= s.script
            && var us := s.script[|s0.script|..];
            && AllCancelled(us) && s.call == From(setup, s0.call, us)
            && (us != [] ==> From(setup, s0.call, us[..|us| - 1]).pc != Returned)
  {
    hide Can, Do, Next, Summary;
    if k == |ms| {
      assert ms[..k] == ms;
    } else {
      var n := |ms| - 1;
      assert ms[..n][..k] == ms[..k];
      AnswersSince(setup, ms[..n], k);
      var q, s, s0 := After(setup, ms[..n]), After(setup, ms), After(setup, ms[..k]);
      FlagStays(setup, q, ms[n]);
      if ms[n].Read? || ms[n].Leave? {
        var t :| Answers(setup, q, s, t);
        var us, vs := q.script[|s0.script|..], s.script[|s0.script|..];
        assert vs == us + [t] && vs[..|us|] == us;
      }
    }
  }

  /** Once the flag is set, whether or not the wake was lost: whatever the other threads do, the executor makes at
      most six more reads, at most one of which blocks, takes at most one more
      event, and emits at most two. */
  lemma CancellationIsPromptForTheClient(setup: Setup, ms: seq<Move>, k: nat)
    requires IsRun(setup, ms) && k <= |ms| && After(setup, ms[..k]).flag
    ensures var s, s0 := After(setup, ms), After(setup, ms[..k]);
            && s0.script <= s.script && |s.script| - |s0.script| <= 6
            && BlockingReads(setup, s0.call, s.script[|s0.script|..]) <= 1
            && Taken(s.call) <= Taken(s0.call) + 1 && |Stream(s.call)| <= |Stream(s0.call)| + 2
  {
    hide After, IsRun, From, BlockingReads, Summary;
    AnswersSince(setup, ms, k);
    var s, s0 := After(setup, ms), After(setup, ms[..k]);
    var us := s.script[|s0.script|..];
    CancellationIsPrompt(setup, s0.call, us);
    if |us| > 6 {
      CancellationIsPrompt(setup, s0.call, us[..|us| - 1]);
      assert false;
    }
  }

  /** And it always can go on: at once, or when the wait it is in has timed out. */
  lemma ExecutorNeverStuck(setup: Setup, ms: seq<Move>, later: uint64)
    requires IsRun(setup, ms) && !After(setup, ms).channel.done
    requires After(setup, ms).clock <= later
    requires After(setup, ms).entered.Some? ==> later >= After(setup, ms).entered.value + 500
    ensures exists m :: IsExecutorMove(m) && Can(After(setup, ms).(clock := later), m)
  {
    hide After, IsRun, Exec, Legal, Summary, Stream;
    AlwaysSound(setup, ms);
    var s := After(setup, ms);
    var m := if s.entered.Some? then Leave
             else if !AllHanded(s) then Move.Sink
             else if s.call.pc == Returned then Move.Finish
             else if Asks(s.call.pc).AskEvent? then Enter else Read(0);
    assert IsExecutorMove(m) && Can(s.(clock := later), m);
  }

  // ---- The missing result --------------------------------------------------------------------------

  /** Move `k` is a read of the flag by the executor. */
  predicate FlagRead(setup: Setup, ms: seq<Move>, k: nat) {
    k < |ms| && ms[k].Read? && Asks(After(setup, ms[..k]).call.pc).AskCancelled?
  }

  /** The flag has been set at move `i`, before the executor reads it at `k`. */
  predicate SetAndSeen(setup: Setup, ms: seq<Move>, i: nat, k: nat) {
    i < k && k < |ms| && ms[i].SetFlag? && FlagRead(setup, ms, k)
  }

  lemma {:induction false} FlagMeansSet(setup: Setup, ms: seq<Move>)
    requires IsRun(setup, ms)
    ensures After(setup, ms).flag <==> exists i :: 0 <= i < |ms| && ms[i].SetFlag?
  {
    hide Can, Do;
    if ms != [] {
      var n := |ms| - 1;
      FlagMeansSet(setup, ms[..n]);
      assert forall i :: 0 <= i < n ==> ms[..n][i] == ms[i];
      FlagChanges(setup, After(setup, ms[..n]), ms[n]);
    }
  }

  lemma FlagChanges(setup: Setup, s: Session, m: Move)
    requires Can(s, m)
    ensures Do(setup, s, m).flag == (s.flag || m.SetFlag?)
  {
    hide Next, Summary, Stream, WriteOne;
  }

  /** `cancel` is called on the client's behalf only: once the RPC thread has found the call cancelled, and if it
      has. */
  lemma {:induction false} CancelledByClientOnly(setup: Setup, ms: seq<Move>)
    requires IsRun(setup, ms)
    ensures After(setup, ms).cancelSent <==> exists i :: 0 <= i < |ms| && ms[i] == Move.Poll(true)
    ensures After(setup, ms).flag ==> exists i :: 0 <= i < |ms| && ms[i] == Move.Poll(true)
  {
    hide Can, Do;
    if ms != [] {
      var n := |ms| - 1;
      CancelledByClientOnly(setup, ms[..n]);
      assert forall i :: 0 <= i < n ==> ms[..n][i] == ms[i];
      CancelChanges(setup, After(setup, ms[..n]), ms[n]);
    }
    AlwaysCancelling(setup, ms);
  }

  lemma CancelChanges(setup: Setup, s: Session, m: Move)
    requires Can(s, m)
    ensures Do(setup, s, m).cancelSent == (s.cancelSent || m == Move.Poll(true))
  {
    hide Next, Summary, Stream, WriteOne;
  }

  lemma AlwaysCancelling(setup: Setup, ms: seq<Move>)
    requires IsRun(setup, ms)
    ensures After(setup, ms).flag ==> After(setup, ms).cancelSent
  {
    hide IsRun, After, Executing, Queueing, Relaying, Stamped;
    AlwaysSound(setup, ms);
  }

  lemma {:induction false} RunSplits(setup: Setup, ms: seq<Move>, k: nat)
    requires IsRun(setup, ms) && k <= |ms|
    ensures IsRun(setup, ms[..k]) && After(setup, ms[..k]).script <= After(setup, ms).script
    ensures k < |ms| ==> Can(After(setup, ms[..k]), ms[k])
    ensures k < |ms| ==> Do(setup, After(setup, ms[..k]), ms[k]).script <= After(setup, ms).script
  {
    hide Can, Do, Next, Summary;
    if k == |ms| {
      assert ms[..k] == ms;
    } else {
      var n := |ms| - 1;
      FlagStays(setup, After(setup, ms[..n]), ms[n]);
      if k < n {
        RunSplits(setup, ms[..n], k);
        assert ms[..n][..k] == ms[..k];
      }
    }
  }

  /** The script of a session notes every read of the flag, with the flag as it is. */
  lemma SeenByMove(setup: Setup, ms: seq<Move>, k: nat) returns (i: nat)
    requires IsRun(setup, ms) && FlagRead(setup, ms, k) && After(setup, ms[..k]).flag
    ensures SawFlag(setup, After(setup, ms).script, i)
  {
    hide IsRun, After, Can, Do, Next, Exec, Asks, Summary;
    var s := After(setup, ms[..k]);
    RunSplits(setup, ms, k);
    AlwaysSound(setup, ms[..k]);
    FlagStays(setup, s, ms[k]);
    i := |s.script|;
    assert After(setup, ms).script[..i] == s.script;
  }

  lemma {:induction false} SeenInScript(setup: Setup, ms: seq<Move>, i: nat) returns (k: nat)
    requires IsRun(setup, ms) && SawFlag(setup, After(setup, ms).script, i)
    ensures FlagRead(setup, ms, k) && After(setup, ms[..k]).flag
  {
    hide Can, Do, Next, Exec, Asks, Summary;
    k := |ms| - 1;
    var s := After(setup, ms[..k]);
    AlwaysSound(setup, ms[..k]);
    FlagStays(setup, s, ms[k]);
    var script := After(setup, ms).script;
    assert script[..|s.script|] == s.script;
    if i < |s.script| {
      assert s.script[..i] == script[..i];
      var p := ms[..k];
      k := SeenInScript(setup, p, i);
      assert p[..k] == ms[..k];
    } else {
      LeavesNoFlagRead(s, ms[k]);
    }
  }

  lemma LeavesNoFlagRead(s: Session, m: Move)
    requires Can(s, m) && Asks(s.call.pc).AskCancelled?
    ensures !m.Leave?
  {
    hide Summary;
  }

  /** The exact condition under which the promise of protos/call_agent.proto:20 fails: a stream that is over holds no
      result if and only if the flag had been set, on the client's behalf, before one of the executor's reads of it. */
  lemma ResultIsMissingExactlyWhenSeen(setup: Setup, ms: seq<Move>, callId: string)
    requires IsRun(setup, ms) && After(setup, ms).rpc.Gone?
    ensures var s := After(setup, ms);
            (forall e :: 0 <= e < |s.writer.written| ==> !Received(s, callId, e).body.CallResult?)
            <==> exists i: nat, k: nat :: SetAndSeen(setup, ms, i, k)
  {
    hide IsRun, After, Exec, Legal, Summary, Received, Stream, FlagRead, SawFlag;
    var s := After(setup, ms);
    StreamIsDelivered(setup, ms);
    StreamEndsWithResult(setup, ms, callId);
    CancelledExactlyWhenSeen(setup, s.script);
    if s.call.result.status == CANCELLED {
      var j: nat :| SawFlag(setup, s.script, j);
      var k := SeenInScript(setup, ms, j);
      SetBefore(setup, ms, k);
    } else {
      assert Received(s, callId, |s.writer.written| - 1).body.CallResult?;
      if i: nat, k: nat :| SetAndSeen(setup, ms, i, k) {
        SeenAfterSet(setup, ms, i, k);
        var j := SeenByMove(setup, ms, k);
      }
    }
  }

  lemma SetBefore(setup: Setup, ms: seq<Move>, k: nat)
    requires IsRun(setup, ms) && FlagRead(setup, ms, k) && After(setup, ms[..k]).flag
    ensures exists i: nat :: SetAndSeen(setup, ms, i, k)
  {
    hide After, IsRun, Asks;
    RunSplits(setup, ms, k);
    FlagMeansSet(setup, ms[..k]);
    var i :| 0 <= i < k && ms[..k][i].SetFlag?;
    assert SetAndSeen(setup, ms, i, k);
  }

  lemma SeenAfterSet(setup: Setup, ms: seq<Move>, i: nat, k: nat)
    requires IsRun(setup, ms) && SetAndSeen(setup, ms, i, k)
    ensures After(setup, ms[..k]).flag
  {
    hide After, IsRun, Asks;
    RunSplits(setup, ms, k);
    FlagMeansSet(setup, ms[..k]);
    assert ms[..k][i].SetFlag?;
  }

  // ---- The lost wake ----------------------------------------------------------------------------------

  /** The wake is out and the executor, told to stop, blocks all the same. */
  predicate WakeLost(s: Session) {
    s.flag && !s.rpc.Flagging? && !s.rpc.Waking? && s.entered.Some? && !Ready(s.inbox)
  }

  lemma Move1(setup: Setup, ms: seq<Move>, m: Move) returns (ns: seq<Move>)
    requires IsRun(setup, ms) && Can(After(setup, ms), m)
    ensures ns == ms + [m] && IsRun(setup, ns) && After(setup, ns) == Do(setup, After(setup, ms), m)
  {
    hide Can, Do;
    ns := ms + [m];
    assert ns[..|ms|] == ms;
  }

  /** Registering: the executor has found the flag unset and is about to wait, the sink is empty. */
  lemma RunToWait(setup: Setup) returns (ms: seq<Move>)
    requires setup.initOk
    ensures IsRun(setup, ms)
    ensures var s := After(setup, ms);
            && s.call.pc == RegWait && AllHanded(s) && s.entered.None? && s.inbox == Inbox([], false)
            && !s.flag && !s.cancelSent && s.rpc == Waiting && s.clock == 1
            && |s.channel.queue| == 1 && !s.channel.done
  {
    hide After, IsRun, Next, Summary, Stream, Begin, WriteOne;
    ms := [];
    Starts(setup);
    FirstReads(setup, 1);
    ms := Move1(setup, ms, Read(0));
    ms := Move1(setup, ms, Move.Sink);
    NextInReg(setup, After(setup, ms).call, Tick(1, false, None, 0));
    SameStream(After(setup, ms).call, Next(setup, After(setup, ms).call, Tick(1, false, None, 0)));
    ms := Move1(setup, ms, Read(0));
    NextInReg(setup, After(setup, ms).call, Tick(1, false, None, 0));
    SameStream(After(setup, ms).call, Next(setup, After(setup, ms).call, Tick(1, false, None, 0)));
    ms := Move1(setup, ms, Read(0));
  }

  lemma SameStream(s: Call, r: Call)
    ensures r.log == s.log ==> Stream(r) == Stream(s)
  {
  }

  lemma Starts(setup: Setup)
    ensures IsRun(setup, []) && After(setup, []) == Initial(setup)
    ensures Begin(setup).pc == RegInit && Stream(Begin(setup)) == []
  {
    hide Setup.SilenceLevel, Setup.SilenceMs;
  }

  lemma FirstReads(setup: Setup, now: uint64)
    requires setup.initOk
    ensures var r := Next(setup, Begin(setup), Tick(now, false, None, 0));
            r.pc == RegStarted && |Stream(r)| == 1
  {
    hide Setup.CallId, Act, Delta, Setup.SilenceLevel, Setup.SilenceMs;
    Starts(setup);
  }

  /** A wake that comes between the executor's look at the flag and its wait is lost. All it costs is
      that wait: `CancellationIsPromptForTheClient` holds from here. */
  lemma WakeLostHappens(setup: Setup)
    requires setup.initOk
    ensures exists ms :: IsRun(setup, ms) && WakeLost(After(setup, ms))
  {
    hide After, IsRun, Next, Summary, Stream, WriteOne;
    var ms := RunToWait(setup);
    ms := Move1(setup, ms, Swap);
    ms := Move1(setup, ms, Write(0));
    ms := Move1(setup, ms, EndBatch);
    ms := Move1(setup, ms, Move.Poll(true));
    ms := Move1(setup, ms, SetFlag);
    ms := Move1(setup, ms, Wake);
    ms := Move1(setup, ms, Enter);
    assert WakeLost(After(setup, ms));
  }
}
