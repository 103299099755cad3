/** src/sip_agent.cpp: the event queue between the PJSIP callbacks (any number of producers) and
    `run` (the only consumer), with the wake flag that `cancel` sets. */
module EventQueue {
  import opened Events

  /** What the mutex protects. */
  datatype Inbox = Inbox(queue: seq<InternalEvent>, wake: bool)

  // ---- The critical sections as functions ----------------------------------------------

  function Pushed(b: Inbox, ev: InternalEvent): Inbox {
    b.(queue := b.queue + [ev])
  }

  /** Entering `waitEvent`: a wake that came before is forgotten. */
  function Entered(b: Inbox): Inbox {
    b.(wake := false)
  }

  /** The predicate of the condition variable. */
  predicate Ready(b: Inbox) {
    b.queue != [] || b.wake
  }

  /** Leaving `waitEvent`, by the predicate or by timeout. */
  function Popped(b: Inbox): (Inbox, Option<InternalEvent>) {
    if b.queue == [] then (b, None) else (b.(queue := b.queue[1..]), Some(b.queue[0]))
  }

  function Woken(b: Inbox): Inbox {
    b.(wake := true)
  }

  // ---- Any interleaving of the critical sections -----------------------------------------

  datatype Op = DoPush(ev: InternalEvent) | DoEnter | DoLeave | DoWake

  datatype History = History(inbox: Inbox, pushed: seq<InternalEvent>, taken: seq<InternalEvent>)

  function Happens(h: History, op: Op): History {
    match op
    case DoPush(ev) => h.(inbox := Pushed(h.inbox, ev), pushed := h.pushed + [ev])
    case DoEnter => h.(inbox := Entered(h.inbox))
    case DoLeave =>
      var (b, ev) := Popped(h.inbox);
      h.(inbox := b, taken := h.taken + if ev.Some? then [ev.value] else [])
    case DoWake => h.(inbox := Woken(h.inbox))
  }

  function Interleaved(ops: seq<Op>): History {
    if ops == [] then History(Inbox([], false), [], []) else Happens(Interleaved(ops[..|ops| - 1]), ops[|ops| - 1])
  }

  // ---- The members of SipAgent --------------------------------------------------------

  /** `waitEvent` gives up the lock while it waits, so it is two critical sections. */
  class SipQueue {
    var queue: seq<InternalEvent>         // queue_
    var dispatcherWake: bool              // dispatcher_wake_
    ghost var pushed: seq<InternalEvent>  // all that was ever pushed,
    ghost var taken: seq<InternalEvent>   // and all that was ever taken

    /** First in, first out. */
    ghost predicate Valid()
      reads this
    {
      pushed == taken + queue
    }

    ghost function Past(): History
      reads this
    {
      History(Inbox(queue, dispatcherWake), pushed, taken)
    }

    constructor ()
      ensures Valid() && Past() == Interleaved([])
    {
      queue, dispatcherWake, pushed, taken := [], false, [], [];
    }

    method PushEvent(ev: InternalEvent)
      requires Valid()
      modifies this
      ensures Valid() && Past() == Happens(old(Past()), DoPush(ev))
    {
      queue := queue + [ev];
      pushed := pushed + [ev];
    }

    /** Up to the wait; false when it has to block. */
    method EnterWait() returns (ready: bool)
      requires Valid()
      modifies this
      ensures Valid() && Past() == Happens(old(Past()), DoEnter)
      ensures ready <==> |taken| < |pushed|
    {
      dispatcherWake := false;
      ready := queue != [] || dispatcherWake;
    }

    /** From the wait on; None when `waitEvent` returns false. It hands over the oldest event not yet taken. */
    method LeaveWait() returns (ev: Option<InternalEvent>)
      requires Valid()
      modifies this
      ensures Valid() && Past() == Happens(old(Past()), DoLeave)
      ensures ev == if |old(taken)| < |pushed| then Some(pushed[|old(taken)|]) else None
    {
      if queue == [] {
        return None;
      }
      ev := Some(queue[0]);
      queue := queue[1..];
      taken := taken + [ev.value];
    }

    method WakeDispatcher()
      requires Valid()
      modifies this
      ensures Valid() && Past() == Happens(old(Past()), DoWake)
    {
      dispatcherWake := true;
    }

    /** Any interleaving of the critical sections, by any threads. */
    method Run(ops: seq<Op>)
      requires Valid() && Past() == Interleaved([])
      modifies this
      ensures Valid() && Past() == Interleaved(ops)
    {
      for i := 0 to |ops|
        invariant Valid() && Past() == Interleaved(ops[..i])
      {
        assert ops[..i + 1][..i] == ops[..i];
        match ops[i] {
          case DoPush(ev) => PushEvent(ev);
          case DoEnter => var _ := EnterWait();
          case DoLeave => var _ := LeaveWait();
          case DoWake => WakeDispatcher();
        }
      }
      assert ops[..|ops|] == ops;
    }
  }

  // ---- What follows -------------------------------------------------------------------------

  /** First in, first out: what was taken and what is waiting make up what was pushed. */
  lemma {:induction false} NothingLostOrReordered(ops: seq<Op>)
    ensures Interleaved(ops).taken + Interleaved(ops).inbox.queue == Interleaved(ops).pushed
  {
    if ops != [] {
      NothingLostOrReordered(ops[..|ops| - 1]);
    }
  }

  /** A wake is still there as long as nobody has entered `waitEvent` since: entering is
      what loses it. */
  ghost predicate WokenSinceEntry(ops: seq<Op>) {
    exists i :: 0 <= i < |ops| && ops[i].DoWake? && forall j :: i < j < |ops| ==> !ops[j].DoEnter?
  }

  lemma {:induction false} WakeIsLostOnEntryOnly(ops: seq<Op>)
    ensures Interleaved(ops).inbox.wake <==> WokenSinceEntry(ops)
  {
    if ops != [] {
      var n := |ops| - 1;
      var p := ops[..n];
      WakeIsLostOnEntryOnly(p);
      if WokenSinceEntry(p) && !ops[n].DoEnter? {
        var i :| 0 <= i < n && p[i].DoWake? && forall j :: i < j < n ==> !p[j].DoEnter?;
        assert ops[i].DoWake? && forall j :: i < j < |ops| ==> !ops[j].DoEnter?;
      }
      if WokenSinceEntry(ops) && !ops[n].DoWake? {
        var i :| 0 <= i < |ops| && ops[i].DoWake? && forall j :: i < j < |ops| ==> !ops[j].DoEnter?;
        assert p[i].DoWake? && !ops[n].DoEnter?;
        assert forall j :: i < j < n ==> p[j] == ops[j];
      }
    }
  }

  /** So an executor that is already waiting when it is woken does not block. */
  lemma WakeWhileWaiting(before: seq<Op>, since: seq<Op>)
    requires forall j :: 0 <= j < |since| ==> !since[j].DoEnter?
    requires exists j :: 0 <= j < |since| && since[j].DoWake?
    ensures Ready(Interleaved(before + [DoEnter] + since).inbox)
  {
    hide Interleaved;
    var ops := before + [DoEnter] + since;
    var j :| 0 <= j < |since| && since[j].DoWake?;
    var i := |before| + 1 + j;
    assert ops[i].DoWake?;
    assert forall k :: i < k < |ops| ==> ops[k] == since[k - |before| - 1];
    WakeIsLostOnEntryOnly(ops);
  }
}
