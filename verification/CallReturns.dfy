/** Every way in which `run` returns, and from it: when it returns CANCELLED, and which clock
    answer a call is billed to. */
module CallReturns {
  import opened MachineInts
  import opened Events
  import opened Silence
  import opened CallGrammar
  import opened CallMachine
  import opened CallInvariant
  import opened CallTheorems
  import opened CallCancellation
  import opened CallPace
  import opened CallIntake

  // ---- One read ---------------------------------------------------------------------------

  /** Nothing that `handleDisconnect` looks at has changed but the clock it read. */
  predicate SameCall(s: Call, r: Call) {
    r.connectedMs == s.connectedMs && r.media == s.media && r.deadline == s.deadline && r.timeoutHit == s.timeoutHit
  }

  /** One read leads from `s` to `r`: if `run` returns, the program point decides how;
      if not, the record does not say CANCELLED unless it did. */
  predicate Concludes(s: Call, u: Tick, r: Call) {
    if !r.pc.Returned? then r.result.status == CANCELLED ==> s.result.status == CANCELLED
    else if s.pc.Returned? then r == s
    else if s.pc.RegInit? || s.pc.RegWait? || s.pc.RegClock? then r.result.status == FAILED
    else if s.pc.DialSafety? then
      r.result.status == NO_ANSWER && SameCall(s, r) && u.now >= Add64(s.deadline, SAFETY_NET_MS)
    else if s.pc.Bill? then 
      && r.markMs == u.now && SameCall(s, r) && FourOutcomes(r.result.status)
      && (s.connectedMs > 0 ==> r.result.status == ANSWERED)
    else if Asks(s.pc).AskEvent? then
      u.event.Some? && IsDisconnect(u.event.value) && s.connectedMs == 0 && SameCall(s, r) && FourOutcomes(r.result.status)
    else
      && Asks(s.pc).AskCancelled?
      && if u.cancelled then r.result.status == CANCELLED else GivenUp(s) && r.result.status == s.result.status
  }

  lemma FailConcludes(s: Call, callId: string, code: int32, reason: string)
    ensures var r := Fail(s, callId, code, reason); r.pc.Returned? && r.result.status == FAILED
  {
    hide Summary, Act;
  }

  lemma SettleConcludes(setup: Setup, s: Call, code: int32, reason: string, bill: uint32)
    ensures var r := Settle(setup, s, code, reason, bill);
            && r.pc.Returned? && FourOutcomes(r.result.status) && SameCall(s, r) && r.markMs == s.markMs
            && (s.connectedMs > 0 ==> r.result.status == ANSWERED)
  {
    hide Summary, Act, Absorb, Setup.CallId, SipCodeToCallStatus;
  }

  lemma DisconnectConcludes(setup: Setup, s: Call, code: int32, reason: string)
    ensures var r := Disconnect(setup, s, code, reason);
            if s.connectedMs > 0 then r.pc.Bill? && r.result == s.result
            else r.pc.Returned? && FourOutcomes(r.result.status) && SameCall(s, r)
  {
    hide Settle;
    SettleConcludes(setup, s, code, reason, 0);
  }

  lemma TakeConcludes(setup: Setup, s: Call, u: Tick, other: Pc)
    requires s.pc.PlayWait? || s.pc.DrainWait? || s.pc.SilWait? || s.pc.EndWait?
    requires other != Returned
    ensures Concludes(s, u, TakeOrDisconnect(setup, s, u.event, other))
  {
    hide Summary, Act, Disconnect, Asks;
    AsksForEvent();
    if u.event.Some? && IsDisconnect(u.event.value) {
      DisconnectConcludes(setup, Act(s, Took(u.event.value)), u.event.value.code, u.event.value.why);
    }
  }

  lemma RegTakeConcludes(setup: Setup, s: Call, ev: InternalEvent)
    ensures var r := RegTake(setup, s, ev);
            if r.pc.Returned? then r.result.status == FAILED else r.result == s.result
  {
    hide Summary, Act, Fail, Setup.CallId;
    if ev.RegState? {
      FailConcludes(Act(s, Took(ev)), setup.CallId(), ev.code, ev.why);
    }
  }

  lemma RegStepsConclude(setup: Setup, s: Call, now: uint64)
    ensures var r := Init(setup, s); if r.pc.Returned? then r.result.status == FAILED else r.result == s.result
    ensures var r := CheckRegClock(setup, s, now);
            if r.pc.Returned? then r.result.status == FAILED else r.result == s.result
    ensures CancelEarly(s).pc.Returned? && CancelEarly(s).result.status == CANCELLED
    ensures !Dial(setup, s).pc.Returned? && Dial(setup, s).result == s.result
  {
    hide Summary, Act, Fail, Sub64, Setup.CallId, InitFailed, RegTimedOut, CancelledEarly;
    FailConcludes(s, "", 0, InitFailed());
    FailConcludes(s, setup.CallId(), 0, RegTimedOut());
  }

  lemma RegConcludes(setup: Setup, s: Call, u: Tick)
    requires InReg(s.pc)
    ensures Concludes(s, u, NextReg(setup, s, u))
  {
    hide Summary, Init, RegTake, CheckRegClock, CancelEarly, Dial, Asks;
    AsksForFlag();
    AsksForClock();
    RegStepsConclude(setup, s, u.now);
    if u.event.Some? {
      RegTakeConcludes(setup, s, u.event.value);
    }
  }

  lemma DialTakeConcludes(setup: Setup, s: Call, u: Tick)
    requires s.pc.DialWait? && u.event.Some?
    ensures Concludes(s, u, DialTake(setup, s, u.event.value))
  {
    hide Summary, Act, Disconnect, Setup.CallId, AnswerTimedOut, Asks;
    AsksForEvent();
    var ev := u.event.value;
    if IsDisconnect(ev) {
      DisconnectConcludes(setup, Act(s, Took(ev)), 487, AnswerTimedOut());
      DisconnectConcludes(setup, Act(s, Took(ev)), ev.code, ev.why);
    }
  }

  lemma DialStepsConclude(setup: Setup, s: Call, now: uint64)
    ensures !CheckTimeout(s, now).pc.Returned? && CheckTimeout(s, now).result == s.result
    ensures !Confirm(setup, s, now).pc.Returned? && Confirm(setup, s, now).result == s.result
  {
    hide Summary, Act, Setup.CallId;
  }

  lemma SafetyNetConcludes(setup: Setup, s: Call, now: uint64)
    ensures var r := CheckSafetyNet(setup, s, now);
            if r.pc.Returned?
            then r.result.status == NO_ANSWER && SameCall(s, r) && now >= Add64(s.deadline, SAFETY_NET_MS)
            else r.result == s.result
  {
    hide Summary, Act, Setup.CallId, AnswerTimedOut, Add64;
  }

  lemma DialExitConcludes(setup: Setup, s: Call)
    ensures CancelByUser(s).pc.Returned? && CancelByUser(s).result.status == CANCELLED
    ensures var r := SetUpRecording(setup, s);
            r.result.status == s.result.status && (r.pc.Returned? <==> GivenUp(s))
  {
    hide Summary, Act, Setup.RecPath, CancelledByUser;
  }

  lemma DialConcludes(setup: Setup, s: Call, u: Tick)
    requires InDial(s.pc)
    ensures Concludes(s, u, NextDial(setup, s, u))
  {
    hide Summary, CheckTimeout, CheckSafetyNet, Confirm, DialTake, CancelByUser, SetUpRecording, Add64, Asks;
    AsksForFlag();
    DialStepsConclude(setup, s, u.now);
    SafetyNetConcludes(setup, s, u.now);
    DialExitConcludes(setup, s);
    if s.pc.DialWait? && u.event.Some? {
      DialTakeConcludes(setup, s, u);
    }
  }

  lemma PlayStepsConclude(setup: Setup, s: Call, now: uint64)
    ensures HangUpCancelled(s).pc.Returned? && HangUpCancelled(s).result.status == CANCELLED
    ensures !StartPlayback(setup, s, now).pc.Returned? && StartPlayback(setup, s, now).result == s.result
  {
    hide Summary, Act, Setup.PlayPath;
  }

  lemma CapConcludes(setup: Setup, s: Call, now: uint64)
    ensures !FinishPlayback(setup, s).pc.Returned? && FinishPlayback(setup, s).result == s.result
    ensures !CheckCap(s, now).pc.Returned? && CheckCap(s, now).result == s.result
  {
    hide Summary, Act, Setup.CallId, Sub64;
  }

  lemma ListenConcludes(setup: Setup, s: Call, now: uint64)
    ensures var r := StartListening(setup, s, now);
            r.result == s.result && (r.pc.Returned? <==> GivenUp(s))
    ensures EmitState(setup, s, PLAYING).result == s.result
  {
    hide Summary, Act, Setup.CallId, Setup.SilenceLevel, Setup.SilenceMs, Arm;
  }

  lemma DelayConcludes(setup: Setup, s: Call, u: Tick)
    requires s.pc.DelayClock? || s.pc.DelayLoop? || s.pc.DelaySleep?
    ensures Concludes(s, u, Next(setup, s, u))
  {
    hide Next, Summary, Add64, Asks;
    NextInDelay(setup, s, u);
  }

  lemma DelayExitConcludes(setup: Setup, s: Call, u: Tick)
    requires s.pc.DelayExit?
    ensures Concludes(s, u, Next(setup, s, u))
  {
    hide Next, Summary, HangUpCancelled, EmitState, Asks;
    AsksForFlag();
    NextInDelay(setup, s, u);
    PlayStepsConclude(setup, s, u.now);
    ListenConcludes(setup, s, u.now);
  }

  lemma PlayWaitConcludes(setup: Setup, s: Call, u: Tick)
    requires s.pc.PlayWait? || s.pc.DrainWait?
    ensures Concludes(s, u, Next(setup, s, u))
  {
    hide Next, Summary, TakeOrDisconnect, FinishPlayback, Asks;
    NextInPlay(setup, s, u);
    CapConcludes(setup, s, u.now);
    TakeConcludes(setup, s, u, if s.pc.PlayWait? then PlayLoop else DrainLoop);
  }

  lemma PlayConcludes(setup: Setup, s: Call, u: Tick)
    requires s.pc.PlayClock? || s.pc.PlayLoop? || s.pc.PlayCap? || s.pc.DrainLoop?
    ensures Concludes(s, u, Next(setup, s, u))
  {
    hide Next, Summary, StartPlayback, CheckCap, Asks;
    NextInPlay(setup, s, u);
    PlayStepsConclude(setup, s, u.now);
    CapConcludes(setup, s, u.now);
  }

  lemma PlayExitConcludes(setup: Setup, s: Call, u: Tick)
    requires s.pc.PlayExit?
    ensures Concludes(s, u, Next(setup, s, u))
  {
    hide Next, Summary, HangUpCancelled, StartListening, Asks;
    AsksForFlag();
    NextInPlay(setup, s, u);
    PlayStepsConclude(setup, s, u.now);
    ListenConcludes(setup, s, u.now);
  }

  lemma LastConcludes(setup: Setup, s: Call, u: Tick)
    requires s.pc.Bill? || s.pc.Returned?
    ensures Concludes(s, u, NextEnd(setup, s, u))
  {
    hide Summary, Settle, Asks, BillSeconds;
    SettleConcludes(setup, s.(markMs := u.now), s.hangupCode, s.hangupReason, BillSeconds(s.connectedMs, u.now));
  }

  lemma SilenceConcludes(setup: Setup, s: Call, now: uint64)
    ensures !FeedDetector(s, now).pc.Returned? && FeedDetector(s, now).result == s.result
    ensures !HangUpOnSilence(setup, s).pc.Returned? && HangUpOnSilence(setup, s).result == s.result
  {
    hide Summary, Act, Feed, Setup.CallId;
  }

  lemma EndConcludes(setup: Setup, s: Call, u: Tick)
    requires InListen(s.pc) && !s.pc.SilWait? && !s.pc.EndWait?
    ensures Concludes(s, u, Next(setup, s, u))
  {
    hide Next, Summary, FeedDetector, HangUpOnSilence, Sub64, Asks;
    AsksForFlag();
    NextInEnd(setup, s, u);
    SilenceConcludes(setup, s, u.now);
  }

  lemma EndWaitConcludes(setup: Setup, s: Call, u: Tick)
    requires s.pc.SilWait? || s.pc.EndWait?
    ensures Concludes(s, u, Next(setup, s, u))
  {
    hide Next, Summary, TakeOrDisconnect, Asks;
    NextInEnd(setup, s, u);
    TakeConcludes(setup, s, u, if s.pc.SilWait? then SilLevel else EndLoop);
  }

  /** Every way in which `run` returns. */
  lemma NextConcludes(setup: Setup, s: Call, u: Tick)
    ensures Concludes(s, u, Next(setup, s, u))
  {
    hide Concludes, NextReg, NextDial, NextPlay, NextEnd;
    if InReg(s.pc) {
      RegConcludes(setup, s, u);
    } else if InDial(s.pc) {
      DialConcludes(setup, s, u);
    } else if s.pc.DelayExit? {
      DelayExitConcludes(setup, s, u);
    } else if s.pc.DelayClock? || s.pc.DelayLoop? || s.pc.DelaySleep? {
      DelayConcludes(setup, s, u);
    } else if s.pc.PlayWait? || s.pc.DrainWait? {
      PlayWaitConcludes(setup, s, u);
    } else if s.pc.PlayExit? {
      PlayExitConcludes(setup, s, u);
    } else if InPlay(s.pc) {
      PlayConcludes(setup, s, u);
    } else if s.pc.SilWait? || s.pc.EndWait? {
      EndWaitConcludes(setup, s, u);
    } else if InListen(s.pc) {
      EndConcludes(setup, s, u);
    } else {
      LastConcludes(setup, s, u);
    }
  }

  // ---- The read that ends the run ---------------------------------------------------------------

  /** A run that has returned did so at one read, and nothing has happened since. */
  lemma {:induction false} LastRead(setup: Setup, ts: seq<Tick>) returns (k: nat)
    requires Legal(ts) && Exec(setup, ts).pc == Returned
    ensures k < |ts| && Legal(ts[..k]) && Exec(setup, ts[..k]).pc != Returned
    ensures Follows(LastTick(ts[..k]), ts[k])
    ensures Exec(setup, ts) == Exec(setup, ts[..k + 1]) == Next(setup, Exec(setup, ts[..k]), ts[k])
  {
    hide Next, Follows;
    k := |ts| - 1;
    assert ts[..k + 1] == ts;
    if Exec(setup, ts[..k]).pc == Returned {
      ReturnedStays(setup, Exec(setup, ts[..k]), ts[k]);
      var p := ts[..k];
      k := LastRead(setup, p);
      assert p[..k] == ts[..k] && p[..k + 1] == ts[..k + 1];
    }
  }

  // ---- CANCELLED ------------------------------------------------------------------------------

  /** The read at `i` was one of the cancel flag, and found it set. */
  predicate SawFlag(setup: Setup, ts: seq<Tick>, i: nat) {
    i < |ts| && Asks(Exec(setup, ts[..i]).pc).AskCancelled? && ts[i].cancelled
  }

  /** The flag is about to be read at the exit of a loop. */
  predicate AtExit(pc: Pc) {
    pc.RegExit? || pc.DialExit? || pc.DelayExit? || pc.PlayExit? || pc.SilExit?
  }

  lemma FlagLeadsOut(setup: Setup, s: Call, u: Tick)
    requires Asks(s.pc).AskCancelled? && u.cancelled
    ensures var r := Next(setup, s, u);
            AtExit(r.pc) || (r.pc.Returned? && r.result.status == CANCELLED)
  {
    hide Next;
    NextLeads(setup, s, u);
    NextConcludes(setup, s, u);
  }

  /** Once the flag has been seen the run is cancelled: at the exit of its loop, or returned. */
  ghost predicate Doomed(s: Call, t: Tick) {
    (AtExit(s.pc) && t.cancelled) || (s.pc.Returned? && s.result.status == CANCELLED)
  }

  lemma {:induction false} SeenIsDoomed(setup: Setup, ts: seq<Tick>, i: nat)
    requires Legal(ts) && SawFlag(setup, ts, i)
    ensures Doomed(Exec(setup, ts), LastTick(ts))
  {
    hide Next, Asks;
    var n := |ts| - 1;
    var s := Exec(setup, ts[..n]);
    assert ts[..n + 1] == ts;
    if i == n {
      FlagLeadsOut(setup, s, ts[n]);
    } else {
      assert ts[..n][..i] == ts[..i];
      SeenIsDoomed(setup, ts[..n], i);
      AsksForFlag();
      if s.pc.Returned? {
        ReturnedStays(setup, s, ts[n]);
      } else {
        FlagLeadsOut(setup, s, ts[n]);
      }
    }
  }

  /** `run` returns CANCELLED if and only if one of its reads of the flag found it set. That the flag is set does
      not decide it: a DISCONNECTED, a failure or a deadline may come first. */
  lemma CancelledExactlyWhenSeen(setup: Setup, ts: seq<Tick>)
    requires Legal(ts) && Exec(setup, ts).pc == Returned
    ensures Exec(setup, ts).result.status == CANCELLED <==> exists i: nat :: SawFlag(setup, ts, i)
  {
    hide Next, Exec, Asks, Legal, Inv;
    var k := LastRead(setup, ts);
    var s := Exec(setup, ts[..k]);
    NextConcludes(setup, s, ts[k]);
    InvHolds(setup, ts[..k]);
    if Exec(setup, ts).result.status == CANCELLED {
      NotYetCancelled(setup, s, LastTick(ts[..k]));
      assert SawFlag(setup, ts, k);
    }
    if i: nat :| SawFlag(setup, ts, i) {
      SeenIsDoomed(setup, ts, i);
    }
  }

  lemma NotYetCancelled(setup: Setup, s: Call, t: Tick)
    requires Inv(setup, s, t) && s.pc != Returned
    ensures s.result.status != CANCELLED
  {
    hide Summary, Setup.RecPath, Setup.SilenceLevel, Setup.SilenceMs;
  }

  /** A stream ends without a result if and only if the run has returned after a read of the flag that found it
      set; protos/call_agent.proto promises a result to every stream. */
  lemma NoResultExactlyWhenSeen(setup: Setup, ts: seq<Tick>)
    requires Legal(ts) && Exec(setup, ts).pc == Returned
    ensures (forall e :: 0 <= e < |Stream(Exec(setup, ts))| ==> !IsResult(Stream(Exec(setup, ts))[e]))
       <==> exists i: nat :: SawFlag(setup, ts, i)
  {
    hide Exec, Stream, SawFlag, Legal;
    OneResultAndLast(setup, ts);
    CancelledExactlyWhenSeen(setup, ts);
    var evs := Stream(Exec(setup, ts));
    if Exec(setup, ts).result.status != CANCELLED {
      assert IsResult(evs[|evs| - 1]);
    }
  }

  // ---- Billing ----------------------------------------------------------------------------------

  /** Read `j` is the one that stamps the last confirmation. */
  ghost predicate LastConfirmation(setup: Setup, ts: seq<Tick>, j: nat) {
    && j < |ts| && Exec(setup, ts[..j]).pc == DialConfirm
    && forall i :: j < i < |ts| ==> Exec(setup, ts[..i]).pc != DialConfirm
  }

  lemma ConfirmStamps(setup: Setup, s: Call, u: Tick)
    requires s.pc == DialConfirm
    ensures Summary(Next(setup, s, u).log).callStart == u.now
  {
    hide Summary, Setup.CallId, Delta;
  }

  lemma {:induction false} StampStays(setup: Setup, at: Spot, p: seq<Action>, q: seq<Action>)
    requires p <= q && !at.call.pc.DialConfirm? && forall i :: |p| <= i < |q| ==> Belongs(setup, at, q[i])
    ensures Summary(q).callStart == Summary(p).callStart
  {
    hide Delta;
    if |p| < |q| {
      StampStays(setup, at, p, q[..|q| - 1]);
      assert Belongs(setup, at, q[|q| - 1]);
    } else {
      assert p == q;
    }
  }

  /** The billing clock is the answer to the read of the last confirmation. */
  lemma {:induction false} StampedAtConfirmation(setup: Setup, ts: seq<Tick>) returns (j: nat)
    requires Summary(Exec(setup, ts).log).callStart > 0
    ensures LastConfirmation(setup, ts, j) && Summary(Exec(setup, ts).log).callStart == ts[j].now
  {
    hide Next, Summary, Begin, Belongs;
    FirstStamp(setup);
    j := |ts| - 1;
    var p := ts[..j];
    var s := Exec(setup, p);
    if s.pc == DialConfirm {
      ConfirmStamps(setup, s, ts[j]);
    } else {
      NextTakes(setup, s, ts[j]);
      StampStays(setup, Spot(s, ts[j]), s.log, Next(setup, s, ts[j]).log);
      j := StampedAtConfirmation(setup, p);
      assert forall i :: 0 <= i <= |p| ==> p[..i] == ts[..i];
    }
  }

  lemma FirstStamp(setup: Setup)
    ensures Summary(Exec(setup, []).log).callStart == 0
  {
  }

  /** Read `k` is the one at which `handleDisconnect` bills the call. */
  predicate Billing(setup: Setup, ts: seq<Tick>, k: nat) {
    k < |ts| && Exec(setup, ts[..k]).pc == Bill
  }

  lemma {:induction false} ReturnedForGood(setup: Setup, ts: seq<Tick>, i: nat)
    requires i <= |ts| && Exec(setup, ts[..i]).pc == Returned
    ensures Exec(setup, ts) == Exec(setup, ts[..i])
  {
    hide Next, Begin;
    if i == |ts| {
      assert ts[..i] == ts;
    } else {
      var p := ts[..|ts| - 1];
      assert p[..i] == ts[..i];
      ReturnedForGood(setup, p, i);
      ReturnedStays(setup, Exec(setup, p), ts[|ts| - 1]);
    }
  }

  lemma AnsweredThenDisconnected(setup: Setup, s: Call, t: Tick)
    requires ReturnedInv(setup, s, Summary(s.log), t) && Summary(s.log).callStart == s.connectedMs
    requires s.result.status != CANCELLED && Summary(s.log).line.Disconnected? && s.connectedMs > 0
    ensures s.result.status == ANSWERED && s.connectedMs <= s.markMs
    ensures s.result.billingSeconds == BillSeconds(s.connectedMs, s.markMs)
  {
    hide Summary, Ending, BillSeconds, Setup.RecPath;
  }

  /** A confirmed call that was disconnected has been billed, and at no other read than the last. */
  lemma BilledLast(setup: Setup, ts: seq<Tick>) returns (k: nat)
    requires Legal(ts) && Exec(setup, ts).pc == Returned
    requires Exec(setup, ts).result.status == ANSWERED && Exec(setup, ts).connectedMs > 0
    ensures Billing(setup, ts, k) && Exec(setup, ts).markMs == ts[k].now
    ensures forall j: nat :: LastConfirmation(setup, ts, j) ==> j < k
  {
    hide Exec, Next, Summary, Legal, Follows, Asks;
    k := LastRead(setup, ts);
    NextConcludes(setup, Exec(setup, ts[..k]), ts[k]);
    forall j: nat | LastConfirmation(setup, ts, j)
      ensures j < k
    {
      if k < j {
        assert ts[..j][..k + 1] == ts[..k + 1];
        ReturnedForGood(setup, ts[..j], k + 1);
      }
    }
  }

  /** Only answered calls are billed. A call that was confirmed and then disconnected is billed from the clock read
      at its last confirmation to the one `handleDisconnect` read, rounded up; the RECORDING_READY before the result
      carries the same figure. */
  lemma BilledAsAnswered(setup: Setup, ts: seq<Tick>)
    requires Legal(ts) && Exec(setup, ts).pc == Returned
    ensures var s, d := Exec(setup, ts), Summary(Exec(setup, ts).log);
            && (s.result.billingSeconds > 0 ==> s.result.status == ANSWERED && d.callStart > 0 && d.line.Disconnected?)
            && (s.result.status != CANCELLED && d.line.Disconnected? && d.callStart > 0 ==>
                  exists j: nat, k: nat ::
                    && j < k && LastConfirmation(setup, ts, j) && Billing(setup, ts, k) && ts[j].now <= ts[k].now
                    && s.result.billingSeconds == BillSeconds(ts[j].now, ts[k].now))
            && (forall i :: 0 <= i < |Stream(s)|
                            && Stream(s)[i].status == RECORDING_READY && s.result.status != CANCELLED ==>
                  i == |Stream(s)| - 2 && Stream(s)[i].billingSeconds == s.result.billingSeconds)
  {
    hide Exec, Next, Summary, Legal, Follows, Ending, Inv, Asks, LastConfirmation, Billing, Scan;
    var s, d := Exec(setup, ts), Summary(Exec(setup, ts).log);
    ReturnedHolds(setup, ts);
    if s.result.status != CANCELLED && d.line.Disconnected? && d.callStart > 0 {
      AnsweredThenDisconnected(setup, s, LastTick(ts));
      var j := StampedAtConfirmation(setup, ts);
      var k := BilledLast(setup, ts);
      assert LastConfirmation(setup, ts, j) && Billing(setup, ts, k);
    }
    if s.result.status != CANCELLED {
      ReadyCarriesTheBill(setup, ts);
    }
  }

  lemma ReadyCarriesTheBill(setup: Setup, ts: seq<Tick>)
    requires Legal(ts) && Exec(setup, ts).pc == Returned && Exec(setup, ts).result.status != CANCELLED
    ensures var s, evs := Exec(setup, ts), Stream(Exec(setup, ts));
            forall i :: 0 <= i < |evs| && evs[i].status == RECORDING_READY ==>
              i == |evs| - 2 && evs[i].billingSeconds == s.result.billingSeconds
  {
    hide Exec, Summary, Scan, Ending, Inv;
    var s, evs := Exec(setup, ts), Stream(Exec(setup, ts));
    StageIsScan(s.log);
    StreamFollowsGrammar(setup, ts);
    RecordAgreesWithStream(setup, ts);
    forall i | 0 <= i < |evs| && evs[i].status == RECORDING_READY
      ensures i == |evs| - 2 && evs[i].billingSeconds == s.result.billingSeconds
    {
      ReadyThenResult(evs, i);
    }
  }
}
