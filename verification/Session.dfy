/** One `ExecuteCall` with everything that runs concurrently in it: the PJSIP callbacks pushing events, the
    executor thread in `run`, the RPC thread relaying, and the client, which may cancel. Each
    move is one critical section or one access to an atomic; any interleaving of moves is a run. */
module Session {
  import opened MachineInts
  import opened Events
  import opened CallMachine
  import opened CallTheorems
  import opened CallIntake
  import opened EventQueue
  import opened Relay

  /** Where the RPC thread is: at the lock, writing the batch, looking whether the client has
      cancelled, in the two halves of `CallExecutor::cancel`, out of the loop. */
  datatype Rpc = Waiting | Writing | Looking | Flagging | Waking | Gone

  datatype Session = Session(
    // the executor thread: the answers `run` was given, where they led, since when it has been waiting
    script: seq<Tick>, call: Call, entered: Option<uint64>,
    // shared with the PJSIP callbacks
    inbox: Inbox, pushed: seq<InternalEvent>,
    // the clock and the flag of `CallExecutor`
    clock: uint64, flag: bool,
    // what `run` emitted goes through the sink one event at a time
    handed: nat, channel: Channel,
    // the RPC thread
    rpc: Rpc, batch: seq<AgentEvent>, finished: bool, writer: Writer, cancelSent: bool)

  datatype Move =
    | Push(ev: InternalEvent)        // a PJSIP callback
    | Pass(ms: nat)                  // time
    | Read(level: uint32)            // the executor: any read but that of an event
    | Enter | Leave                  // the executor: into and out of waitEvent
    | Sink | Finish                  // the executor: the sink, and `done`
    | Swap | Write(lag: nat) | EndBatch  // the RPC thread: a round
    | Poll(clientCancelled: bool) | SetFlag | Wake

  function Initial(setup: Setup): Session {
    Session([], Begin(setup), None, Inbox([], false), [], 1, false, 0, Channel([], false),
            Waiting, [], false, Writer(0, []), false)
  }

  /** Everything emitted so far has gone through the sink, so `run` can go on. */
  predicate AllHanded(s: Session) {
    s.handed == |Stream(s.call)|
  }

  /** `wait_for` is over. */
  predicate WaitOver(s: Session) {
    && s.entered.Some? && Asks(s.call.pc).AskEvent?
    && (Ready(s.inbox) || s.clock - s.entered.value >= Asks(s.call.pc).timeoutMs)
  }

  predicate Can(s: Session, m: Move) {
    match m
    case Push(_) => true
    case Pass(ms) => s.clock + ms < CLOCK_LIMIT
    case Read(_) => AllHanded(s) && !Asks(s.call.pc).AskEvent? && s.call.pc != Returned
    case Enter => AllHanded(s) && Asks(s.call.pc).AskEvent? && s.entered.None?
    case Leave => WaitOver(s)
    case Sink => s.handed < |Stream(s.call)|
    case Finish => s.call.pc == Returned && AllHanded(s) && !s.channel.done
    case Swap => s.rpc == Waiting
    case Write(lag) => s.rpc == Writing && s.batch != [] && s.clock + lag < CLOCK_LIMIT
    case EndBatch => s.rpc == Writing && s.batch == []
    case Poll(_) => s.rpc == Looking
    case SetFlag => s.rpc == Flagging
    case Wake => s.rpc == Waking
  }

  /** `run` is given an answer. */
  function Answer(setup: Setup, s: Session, t: Tick): Session {
    s.(script := s.script + [t], call := Next(setup, s.call, t), entered := None)
  }

  function DoLeave(setup: Setup, s: Session): Session {
    var (b, ev) := Popped(s.inbox);
    Answer(setup, s.(inbox := b), Tick(s.clock, s.flag, ev, 0))
  }

  function DoSwap(s: Session): Session {
    var (ch, batch, finished) := Swapped(s.channel);
    s.(channel := ch, batch := batch, finished := finished, rpc := Writing)
  }

  function DoWrite(s: Session, lag: nat): Session
    requires s.batch != [] && s.clock + lag < CLOCK_LIMIT
  {
    s.(writer := WriteOne(s.writer, s.batch[0], Clocks(s.clock, s.clock + lag)), batch := s.batch[1..],
       clock := s.clock + lag)
  }

  function Do(setup: Setup, s: Session, m: Move): Session
    requires Can(s, m)
  {
    match m
    case Push(ev) => s.(inbox := Pushed(s.inbox, ev), pushed := s.pushed + [ev])
    case Pass(ms) => s.(clock := s.clock + ms)
    case Read(level) => Answer(setup, s, Tick(s.clock, s.flag, None, level))
    case Enter => s.(inbox := Entered(s.inbox), entered := Some(s.clock))
    case Leave => DoLeave(setup, s)
    case Sink => s.(channel := Sunk(s.channel, Stream(s.call)[s.handed]), handed := s.handed + 1)
    case Finish => s.(channel := Closed(s.channel))
    case Swap => DoSwap(s)
    case Write(lag) => DoWrite(s, lag)
    case EndBatch => s.(rpc := if s.finished then Gone else Looking)
    case Poll(clientCancelled) =>
      if !s.cancelSent && clientCancelled then s.(cancelSent := true, rpc := Flagging) else s.(rpc := Waiting)
    case SetFlag => s.(flag := true, rpc := Waking)
    case Wake => s.(inbox := Woken(s.inbox), rpc := Waiting)
  }

  /** A run: every move is possible where it is made. */
  ghost predicate IsRun(setup: Setup, ms: seq<Move>) {
    ms == [] || (IsRun(setup, ms[..|ms| - 1]) && Can(After(setup, ms[..|ms| - 1]), ms[|ms| - 1]))
  }

  /** Where the moves lead; an impossible move changes nothing. */
  function After(setup: Setup, ms: seq<Move>): Session {
    if ms == [] then Initial(setup)
    else
      var s := After(setup, ms[..|ms| - 1]);
      if Can(s, ms[|ms| - 1]) then Do(setup, s, ms[|ms| - 1]) else s
  }

  // ---- What every move keeps --------------------------------------------------------------

  /** The executor thread is somewhere in a legal run of `run`. */
  ghost predicate Executing(setup: Setup, s: Session) {
    && s.call == Exec(setup, s.script) && Legal(s.script)
    && LastTick(s.script).now <= s.clock < CLOCK_LIMIT && 1 <= s.clock
    && (LastTick(s.script).cancelled ==> s.flag)
    && (s.entered.Some? ==> Asks(s.call.pc).AskEvent? && AllHanded(s) && s.entered.value <= s.clock)
  }

  /** No event of PJSIP is lost or reordered. */
  ghost predicate Queueing(s: Session) {
    Summary(s.call.log).taken + s.inbox.queue == s.pushed
  }

  /** No emitted event is lost, repeated or reordered, and the relay ends only when nothing is pending. */
  ghost predicate Relaying(s: Session) {
    && s.handed <= |Stream(s.call)|
    && EventsOf(s.writer.written) + s.batch + s.channel.queue == Stream(s.call)[..s.handed]
    && (s.channel.done ==> s.call.pc == Returned && AllHanded(s))
    && (s.finished ==> s.channel.done && s.batch == [] && s.channel.queue == [])
    && (!s.rpc.Writing? ==> s.batch == [])
    && (s.rpc.Gone? ==> s.finished)
    && (s.finished ==> s.rpc.Writing? || s.rpc.Gone?)
  }

  /** The flag is set on the client's behalf only, and once. */
  ghost predicate Cancelling(s: Session) {
    && (s.flag ==> s.cancelSent)
    && (s.rpc.Flagging? ==> s.cancelSent && !s.flag)
    && (s.cancelSent && !s.rpc.Flagging? ==> s.flag)
    && (s.rpc.Waking? ==> s.flag)
  }

  ghost predicate Sound(setup: Setup, s: Session) {
    Executing(setup, s) && Queueing(s) && Relaying(s) && Cancelling(s) && Stamped(s.writer)
  }

  lemma AnswerKeeps(setup: Setup, s: Session, t: Tick)
    requires Executing(setup, s) && Relaying(s) && AllHanded(s) && s.call.pc != Returned
    requires t.now == s.clock && t.cancelled == s.flag
    ensures Executing(setup, Answer(setup, s, t)) && Relaying(Answer(setup, s, t))
  {
    hide Exec, Next, Summary, Legal, Asks;
    ExecSnoc(setup, s.script, t);
    NextTakes(setup, s.call, t);
    StreamGrows(s.call.log, Next(setup, s.call, t).log);
    assert (s.script + [t])[|s.script|] == t;
  }

  lemma ReadKeeps(setup: Setup, s: Session, level: uint32)
    requires Sound(setup, s) && Can(s, Read(level))
    ensures Sound(setup, Do(setup, s, Read(level)))
  {
    hide Executing, Relaying, Next, Summary, Stamped;
    var t := Tick(s.clock, s.flag, None, level);
    AnswerKeeps(setup, s, t);
    NextTakes(setup, s.call, t);
  }

  lemma LeaveKeeps(setup: Setup, s: Session)
    requires Sound(setup, s) && Can(s, Leave)
    ensures Sound(setup, Do(setup, s, Leave))
  {
    hide Executing, Relaying, Next, Summary, Stamped, Exec, Legal, Asks, Stream, Belongs;
    var (b, ev) := Popped(s.inbox);
    var s1 := s.(inbox := b);
    OnlyRelay(setup, s, s1);
    InTheWait(setup, s);
    AnswerKeeps(setup, s1, Tick(s.clock, s.flag, ev, 0));
    NextTakes(setup, s.call, Tick(s.clock, s.flag, ev, 0));
  }

  lemma InTheWait(setup: Setup, s: Session)
    requires Executing(setup, s) && s.entered.Some?
    ensures AllHanded(s) && s.call.pc != Returned
  {
    hide Exec, Legal, Summary;
  }

  /** Two parts of the invariant do not look at the inbox. */
  lemma OnlyRelay(setup: Setup, s: Session, r: Session)
    requires Executing(setup, s) && Relaying(s) && r == s.(inbox := r.inbox)
    ensures Executing(setup, r) && Relaying(r)
  {
    hide Summary, Exec, Legal, Asks;
  }

  lemma OutsideKeeps(setup: Setup, s: Session, m: Move)
    requires Sound(setup, s) && Can(s, m) && (m.Push? || m.Pass? || m.Enter?)
    ensures Sound(setup, Do(setup, s, m))
  {
    hide Exec, Summary, Stamped, Asks, Legal;
  }

  lemma HandingKeeps(setup: Setup, s: Session, m: Move)
    requires Sound(setup, s) && Can(s, m) && (m.Sink? || m.Finish?)
    ensures Sound(setup, Do(setup, s, m))
  {
    hide Exec, Summary, Stamped, Asks, Legal;
    if m.Sink? {
      var evs := Stream(s.call);
      assert evs[..s.handed + 1] == evs[..s.handed] + [evs[s.handed]];
    }
  }

  lemma WriteKeeps(setup: Setup, s: Session, lag: nat)
    requires Sound(setup, s) && Can(s, Write(lag))
    ensures Sound(setup, DoWrite(s, lag))
  {
    hide Exec, Summary, Stamped, Asks, Legal, WriteOne;
    WriteOneStamps(s.writer, s.batch[0], Clocks(s.clock, s.clock + lag));
    assert s.batch == [s.batch[0]] + s.batch[1..];
  }

  lemma SwapKeeps(setup: Setup, s: Session)
    requires Sound(setup, s) && Can(s, Swap)
    ensures Sound(setup, DoSwap(s))
  {
    hide Exec, Summary, Stamped, Asks, Legal, Stream;
  }

  lemma RelayKeeps(setup: Setup, s: Session, m: Move)
    requires Sound(setup, s) && Can(s, m) && (m.EndBatch? || m.Poll?)
    ensures Sound(setup, Do(setup, s, m))
  {
    hide Exec, Summary, Stamped, Asks, Legal, Stream;
  }

  lemma CancelKeeps(setup: Setup, s: Session, m: Move)
    requires Sound(setup, s) && Can(s, m) && (m.SetFlag? || m.Wake?)
    ensures Sound(setup, Do(setup, s, m))
  {
    hide Exec, Summary, Stamped, Asks, Legal, Stream;
  }

  lemma DoKeeps(setup: Setup, s: Session, m: Move)
    requires Sound(setup, s) && Can(s, m)
    ensures Sound(setup, Do(setup, s, m))
  {
    hide Sound, Can, Answer, DoLeave, DoSwap, WriteOne;
    match m
    case Read(level) => ReadKeeps(setup, s, level);
    case Leave => LeaveKeeps(setup, s);
    case Write(lag) => WriteKeeps(setup, s, lag);
    case Push(_) => OutsideKeeps(setup, s, m);
    case Pass(_) => OutsideKeeps(setup, s, m);
    case Enter => OutsideKeeps(setup, s, m);
    case Sink => HandingKeeps(setup, s, m);
    case Finish => HandingKeeps(setup, s, m);
    case Swap => SwapKeeps(setup, s);
    case EndBatch => RelayKeeps(setup, s, m);
    case Poll(_) => RelayKeeps(setup, s, m);
    case SetFlag => CancelKeeps(setup, s, m);
    case Wake => CancelKeeps(setup, s, m);
  }

  lemma InitialSound(setup: Setup)
    ensures Sound(setup, Initial(setup))
  {
    hide Begin;
    assert Begin(setup).log == [] && Begin(setup).pc == RegInit by { BeginsEmpty(setup); }
  }

  lemma BeginsEmpty(setup: Setup)
    ensures Begin(setup).log == [] && Begin(setup).pc == RegInit
  {
  }

  /** All of it holds at every moment of every run. */
  lemma {:induction false} AlwaysSound(setup: Setup, ms: seq<Move>)
    requires IsRun(setup, ms)
    ensures Sound(setup, After(setup, ms))
  {
    hide Sound, Can, Do;
    if ms == [] {
      InitialSound(setup);
    } else {
      var p := ms[..|ms| - 1];
      AlwaysSound(setup, p);
      DoKeeps(setup, After(setup, p), ms[|ms| - 1]);
    }
  }
}
