/** `ExecuteCall` of src/grpc_server.cpp: events flow from the executor thread through a locked
    queue to the RPC thread, which writes them in batches. */
module Relay {
  import opened MachineInts
  import opened Events
  import opened Wire

  // ---- The locked part -----------------------------------------------------------------

  /** What the mutex protects. */
  datatype Channel = Channel(queue: seq<AgentEvent>, done: bool)

  function Sunk(ch: Channel, ev: AgentEvent): Channel {
    ch.(queue := ch.queue + [ev])
  }

  function Closed(ch: Channel): Channel {
    ch.(done := true)
  }

  /** Swapping the queue for an empty one: the batch, and whether this was the last round. */
  function Swapped(ch: Channel): (Channel, seq<AgentEvent>, bool) {
    (ch.(queue := []), ch.queue, ch.done && ch.queue == [])
  }

  // ---- The writing part -------------------------------------------------------------------

  /** The two clock values read for one event: `pickup` only when it is ANSWERED as a state. */
  datatype Clocks = Clocks(pickup: uint64, sent: uint64)

  /** One call of `Write`. */
  datatype Written = Written(event: AgentEvent, startedAtMs: uint64, sentMs: uint64) {
    function OnWire(callId: string): CallEvent {
      ToProtoEvent(event, callId, startedAtMs, sentMs)
    }
  }

  datatype Writer = Writer(startedAtMs: uint64, written: seq<Written>)

  function WriteOne(w: Writer, ev: AgentEvent, clocks: Clocks): Writer {
    var started := if ev.status == ANSWERED && !ev.isResult then clocks.pickup else w.startedAtMs;
    Writer(started, w.written + [Written(ev, started, clocks.sent)])
  }

  function WriteAll(w: Writer, batch: seq<AgentEvent>, clocks: seq<Clocks>): Writer
    requires |clocks| == |batch|
  {
    if batch == [] then w
    else
      var n := |batch| - 1;
      WriteOne(WriteAll(w, batch[..n], clocks[..n]), batch[n], clocks[n])
  }

  function EventsOf(ws: seq<Written>): (evs: seq<AgentEvent>)
    ensures |evs| == |ws|
  {
    seq(|ws|, i requires 0 <= i < |ws| => ws[i].event)
  }

  lemma EventsOfSnoc(ws: seq<Written>, w: Written)
    ensures EventsOf(ws + [w]) == EventsOf(ws) + [w.event]
  {
  }

  ghost predicate StampedAt(ws: seq<Written>, i: nat)
    requires i < |ws|
  {
    if IsAnsweredState(ws[i].event) then ws[i].startedAtMs > 0
    else ws[i].startedAtMs == if i == 0 then 0 else ws[i - 1].startedAtMs
  }

  /** The start of the call as the client learns it: passing on ANSWERED sets it,
      everything else leaves it. */
  ghost predicate Stamped(w: Writer) {
    && (forall i :: 0 <= i < |w.written| ==> StampedAt(w.written, i))
    && w.startedAtMs == (if w.written == [] then 0 else w.written[|w.written| - 1].startedAtMs)
  }

  lemma WriteOneStamps(w: Writer, ev: AgentEvent, clocks: Clocks)
    requires Stamped(w) && clocks.pickup > 0
    ensures Stamped(WriteOne(w, ev, clocks))
    ensures EventsOf(WriteOne(w, ev, clocks).written) == EventsOf(w.written) + [ev]
  {
    var v, n := WriteOne(w, ev, clocks), |w.written|;
    forall i | 0 <= i < n
      ensures StampedAt(v.written, i)
    {
      assert StampedAt(w.written, i);
    }
    EventsOfSnoc(w.written, v.written[n]);
  }

  /** So an event, and the result in particular, carries a start exactly when ANSWERED was passed on
      before it or is it. */
  lemma {:induction false} StartedOnceAnswered(w: Writer, i: nat, callId: string)
    requires Stamped(w) && i < |w.written|
    ensures w.written[i].startedAtMs > 0 <==> exists j :: 0 <= j <= i && IsAnsweredState(w.written[j].event)
    ensures w.written[i].OnWire(callId).body.CallResult? ==>
              (w.written[i].OnWire(callId).body.startedAt.Some? <==>
                 exists j :: 0 <= j <= i && IsAnsweredState(w.written[j].event))
  {
    assert StampedAt(w.written, i);
    if !IsAnsweredState(w.written[i].event) && i > 0 {
      StartedOnceAnswered(w, i - 1, callId);
    }
  }

  /** `j` is the last ANSWERED state up to `i`. */
  ghost predicate LastAnswered(evs: seq<AgentEvent>, i: nat, j: nat) {
    j <= i < |evs| && IsAnsweredState(evs[j]) && forall k :: j < k <= i ==> !IsAnsweredState(evs[k])
  }

  /** The start that an event carries is that of the last ANSWERED passed on by then. */
  lemma {:induction false} LastStamp(w: Writer, i: nat) returns (j: nat)
    requires Stamped(w) && i < |w.written| && w.written[i].startedAtMs > 0
    ensures LastAnswered(EventsOf(w.written), i, j) && w.written[i].startedAtMs == w.written[j].startedAtMs
  {
    assert StampedAt(w.written, i);
    j := i;
    if !IsAnsweredState(w.written[i].event) {
      j := LastStamp(w, i - 1);
    }
  }

  lemma {:induction false} WriteAllEvents(w: Writer, batch: seq<AgentEvent>, clocks: seq<Clocks>)
    requires |clocks| == |batch|
    ensures EventsOf(WriteAll(w, batch, clocks).written) == EventsOf(w.written) + batch
  {
    if batch != [] {
      var n := |batch| - 1;
      WriteAllEvents(w, batch[..n], clocks[..n]);
      var v := WriteAll(w, batch[..n], clocks[..n]);
      EventsOfSnoc(v.written, WriteOne(v, batch[n], clocks[n]).written[|v.written|]);
      assert batch == batch[..n] + [batch[n]];
    }
  }

  // ---- The loop ------------------------------------------------------------------------------

  /** What happens to the RPC thread in one round: what the executor thread has pushed by the time the
      batch is swapped, whether it has set `done`, the clock, and whether the client has cancelled. */
  datatype Round = Round(arrived: seq<AgentEvent>, finished: bool, clocks: seq<Clocks>, clientCancelled: bool)

  ghost predicate Usable(rounds: seq<Round>) {
    forall k :: 0 <= k < |rounds| ==> |rounds[k].clocks| == |rounds[k].arrived|
  }

  function Arrivals(rounds: seq<Round>): seq<AgentEvent> {
    if rounds == [] then [] else Arrivals(rounds[..|rounds| - 1]) + rounds[|rounds| - 1].arrived
  }

  /** The executor thread was done by round `k`, and nothing arrived in it. */
  ghost predicate LastRound(rounds: seq<Round>, k: nat) {
    k < |rounds| && rounds[k].arrived == [] && exists j :: 0 <= j <= k && rounds[j].finished
  }

  class CallRelay {
    var queue: seq<AgentEvent>
    var done: bool
    var startedAtMs: uint64
    var cancelSent: bool
    var written: seq<Written>  // the calls of `Write`, in order
    var cancels: nat           // the calls of `CallExecutor::cancel`

    ghost function Shared(): Channel
      reads `queue, `done
    {
      Channel(queue, done)
    }

    ghost function Output(): Writer
      reads `startedAtMs, `written
    {
      Writer(startedAtMs, written)
    }

    constructor ()
      ensures Shared() == Channel([], false) && Output() == Writer(0, []) && !cancelSent && cancels == 0
    {
      queue, done, startedAtMs, cancelSent, written, cancels := [], false, 0, false, [], 0;
    }

    /** The event sink of the executor */
    method Sink(ev: AgentEvent)
      modifies `queue
      ensures Shared() == Sunk(old(Shared()), ev)
    {
      queue := queue + [ev];
    }

    /** The executor thread, after `run` */
    method Finish()
      modifies `done
      ensures Shared() == Closed(old(Shared()))
    {
      done := true;
    }

    method SwapBatch() returns (batch: seq<AgentEvent>, finished: bool)
      modifies `queue
      ensures (Shared(), batch, finished) == Swapped(old(Shared()))
    {
      batch, queue := queue, [];
      finished := done && batch == [];
    }

    method WriteBatch(batch: seq<AgentEvent>, clocks: seq<Clocks>)
      requires |clocks| == |batch|
      modifies `startedAtMs, `written
      ensures Output() == WriteAll(old(Output()), batch, clocks)
    {
      for i := 0 to |batch|
        invariant Output() == WriteAll(old(Output()), batch[..i], clocks[..i])
      {
        assert batch[..i + 1][..i] == batch[..i] && clocks[..i + 1][..i] == clocks[..i];
        var ev := batch[i];
        if ev.status == ANSWERED && !ev.isResult {
          startedAtMs := clocks[i].pickup;
        }
        written := written + [Written(ev, startedAtMs, clocks[i].sent)];
      }
      assert batch[..|batch|] == batch && clocks[..|batch|] == clocks;
    }

    /** Other threads, until the RPC thread holds the lock again. */
    method Arrive(round: Round)
      modifies `queue, `done
      ensures Shared() == Channel(old(queue) + round.arrived, old(done) || round.finished)
    {
      for i := 0 to |round.arrived|
        invariant Shared() == Channel(old(queue) + round.arrived[..i], old(done))
      {
        Sink(round.arrived[i]);
      }
      assert round.arrived[..|round.arrived|] == round.arrived;
      if round.finished {
        Finish();
      }
    }

    /** One round of the loop; true when it was the last. */
    method ServeRound(round: Round) returns (finished: bool)
      requires queue == [] && cancelSent == (cancels == 1) && cancels <= 1
      requires |round.clocks| == |round.arrived|
      modifies this
      ensures queue == [] && done == (old(done) || round.finished)
      ensures EventsOf(written) == EventsOf(old(written)) + round.arrived
      ensures finished == (done && round.arrived == [])
      ensures cancelSent == (old(cancelSent) || (!finished && round.clientCancelled)) == (cancels == 1) && cancels <= 1
    {
      Arrive(round);
      var batch;
      batch, finished := SwapBatch();
      WriteAllEvents(Output(), batch, round.clocks);
      WriteBatch(batch, round.clocks);
      if !finished && !cancelSent && round.clientCancelled {
        cancelSent := true;
        cancels := cancels + 1;
      }
    }

    /** The loop of `ExecuteCall`, for as many rounds as there are: it has written exactly what arrived,
        in order and once each; it ends in the first round that finds the executor
        done and nothing to write, and in no other; and it cancels the executor once, if the
        client cancelled before. */
    method Serve(rounds: seq<Round>) returns (left: bool, used: nat)
      requires Shared() == Channel([], false) && Output() == Writer(0, []) && !cancelSent && cancels == 0
      requires Usable(rounds)
      modifies this
      ensures used <= |rounds| && EventsOf(written) == Arrivals(rounds[..used])
      ensures left <==> exists k :: LastRound(rounds, k)
      ensures left ==> used > 0 && LastRound(rounds, used - 1) && forall k: nat :: k < used - 1 ==> !LastRound(rounds, k)
      ensures !left ==> used == |rounds|
      ensures cancels <= 1 && cancelSent == (cancels == 1)
      ensures cancelSent <==> exists k :: 0 <= k < (if left then used - 1 else used) && rounds[k].clientCancelled
    {
      used := 0;
      while used < |rounds|
        invariant used <= |rounds| && queue == [] && (done <==> exists j :: 0 <= j < used && rounds[j].finished)
        invariant EventsOf(written) == Arrivals(rounds[..used])
        invariant forall k: nat :: k < used ==> !LastRound(rounds, k)
        invariant cancels <= 1 && cancelSent == (cancels == 1)
        invariant cancelSent <==> exists k :: 0 <= k < used && rounds[k].clientCancelled
      {
        assert rounds[..used + 1][..used] == rounds[..used];
        var finished := ServeRound(rounds[used]);
        used := used + 1;
        if finished {
          assert LastRound(rounds, used - 1);
          return true, used;
        }
      }
      left := false;
    }
  }
}
