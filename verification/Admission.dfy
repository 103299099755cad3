/** `CallAgentServiceImpl` of src/grpc_server.cpp: any number of RPC threads in `ExecuteCall`, one flag, and
    the guard that clears it; each admitted thread runs a whole `Session`. */
module Admission {
  import opened MachineInts
  import opened Events
  import opened CallMachine
  import opened Session
  import opened SessionTheorems
  import opened Tts

  // ---- The request ---------------------------------------------------------------------

  datatype AudioSource = NotSet | WavUrl(url: string) | TtsText(text: string)

  datatype Request = Request(
    callId: string, hasSip: bool, username: string, password: string, serverHost: string,
    destination: string, answerDelaySeconds: uint32, silenceTimeoutSeconds: uint32, audio: AudioSource)

  /** The message of the INVALID_ARGUMENT status, empty for a valid request. */
  function Validate(req: Request): string {
    if req.callId == "" then "call_id is required"
    else if !req.hasSip then "sip credentials are required"
    else if req.username == "" then "sip.username is required"
    else if req.password == "" then "sip.password is required"
    else if req.serverHost == "" then "sip.server_host is required"
    else if req.destination == "" then "destination is required"
    else if req.audio.NotSet? then "exactly one audio_source (wav_url or tts_text) is required"
    else ""
  }

  /** The part of the configuration that `run` reads; zero means default. */
  function MakeCallConfig(req: Request, base: Config): Config {
    base.(sipHost := req.serverHost, destination := req.destination,
          answerDelayS := if req.answerDelaySeconds != 0 then req.answerDelaySeconds else 1,
          silenceS := if req.silenceTimeoutSeconds != 0 then req.silenceTimeoutSeconds else 10,
          audioType := if req.audio.WavUrl? then "wav" else "text",
          audioPathOrText := match req.audio case WavUrl(url) => url case TtsText(text) => text case NotSet => "")
  }

  // ---- The threads -----------------------------------------------------------------------

  /** The gRPC status; OK comes with the session that was served. */
  datatype Reply = Ok(call: Setup, run: seq<Move>) | AlreadyExists | InvalidArgument(message: string)

  /** Where an RPC thread is. The executor owns the SIP agent, which lives from the construction of the
      executor to its destruction; locals are destroyed in reverse order, the guard last. */
  datatype Thread =
    | Arriving
    | Guarded                                 // the flag is ours
    | Serving(setup: Setup, moves: seq<Move>) // executor, queue and executor thread exist
    | Joined(setup: Setup, moves: seq<Move>)  // the executor thread has been joined
    | Unwinding(reply: Reply)                 // the executor is gone, the guard is not
    | Replied(reply: Reply)

  datatype Server = Server(active: bool, base: Config, requests: seq<Request>, threads: seq<Thread>)

  datatype Step =
    | Exchange                // compare_exchange_strong
    | Check(initOk: bool)     // validate, and construct the executor
    | Within(move: Move)      // one move of the call's session
    | Join | Destroy | Release

  predicate Possible(sv: Server, i: nat, step: Step)
    requires |sv.requests| == |sv.threads|
  {
    i < |sv.threads| &&
    match step
    case Exchange => sv.threads[i].Arriving?
    case Check(_) => sv.threads[i].Guarded?
    case Within(m) => sv.threads[i].Serving? && Can(After(sv.threads[i].setup, sv.threads[i].moves), m)
    case Join => sv.threads[i].Serving? && After(sv.threads[i].setup, sv.threads[i].moves).rpc.Gone?
                 && After(sv.threads[i].setup, sv.threads[i].moves).channel.done
    case Destroy => sv.threads[i].Joined?
    case Release => sv.threads[i].Unwinding?
  }

  /** `validate`, and if it is content the configuration and the executor. */
  function Admit(req: Request, base: Config, initOk: bool): Thread {
    if Validate(req) != "" then Unwinding(InvalidArgument(Validate(req)))
    else Serving(Setup(MakeCallConfig(req, base), initOk), [])
  }

  function Perform(sv: Server, i: nat, step: Step): Server
    requires |sv.requests| == |sv.threads| && Possible(sv, i, step)
  {
    var t := sv.threads[i];
    match step
    case Exchange =>
      if sv.active then sv.(threads := sv.threads[i := Replied(AlreadyExists)])
      else sv.(active := true, threads := sv.threads[i := Guarded])
    case Check(initOk) => sv.(threads := sv.threads[i := Admit(sv.requests[i], sv.base, initOk)])
    case Within(m) => sv.(threads := sv.threads[i := Serving(t.setup, t.moves + [m])])
    case Join => sv.(threads := sv.threads[i := Joined(t.setup, t.moves)])
    case Destroy => sv.(threads := sv.threads[i := Unwinding(Ok(t.setup, t.moves))])
    case Release => sv.(active := false, threads := sv.threads[i := Replied(t.reply)])
  }

  /** From the successful exchange until the guard is destroyed. */
  predicate InGuard(t: Thread) {
    t.Guarded? || t.Serving? || t.Joined? || t.Unwinding?
  }

  predicate AgentAlive(t: Thread) {
    t.Serving? || t.Joined?
  }

  // ---- What every step keeps ---------------------------------------------------------------

  /** The flag is set exactly while one thread is in the guarded region, and never two are. */
  ghost predicate Exclusive(sv: Server) {
    && (sv.active <==> exists i :: 0 <= i < |sv.threads| && InGuard(sv.threads[i]))
    && (forall i, j :: 0 <= i < j < |sv.threads| ==> !(InGuard(sv.threads[i]) && InGuard(sv.threads[j])))
  }

  /** The session of a thread is a run on the configuration its request asks for, and over when the executor
      thread has been joined. */
  ghost predicate Faithful(t: Thread, req: Request, base: Config) {
    match t
    case Arriving => true
    case Guarded => true
    case Serving(setup, moves) => Asked(setup, req, base) && IsRun(setup, moves)
    case Joined(setup, moves) => Asked(setup, req, base) && Over(setup, moves)
    case Unwinding(reply) => !reply.AlreadyExists? && Deserved(reply, req, base)
    case Replied(reply) => Deserved(reply, req, base)
  }

  ghost predicate Asked(setup: Setup, req: Request, base: Config) {
    Validate(req) == "" && setup.config == MakeCallConfig(req, base)
  }

  ghost predicate Over(setup: Setup, moves: seq<Move>) {
    IsRun(setup, moves) && After(setup, moves).rpc.Gone? && After(setup, moves).channel.done
  }

  ghost predicate Deserved(reply: Reply, req: Request, base: Config) {
    match reply
    case Ok(setup, moves) => Asked(setup, req, base) && Over(setup, moves)
    case InvalidArgument(message) => message == Validate(req) != ""
    case AlreadyExists => true
  }

  ghost predicate Inv(sv: Server) {
    && |sv.requests| == |sv.threads| && Exclusive(sv)
    && forall i :: 0 <= i < |sv.threads| ==> Faithful(sv.threads[i], sv.requests[i], sv.base)
  }

  lemma ExclusiveKept(sv: Server, i: nat, step: Step)
    requires Inv(sv) && Possible(sv, i, step)
    ensures Exclusive(Perform(sv, i, step))
  {
    hide Faithful, Can, After, Validate, MakeCallConfig;
    var r := Perform(sv, i, step);
    assert InGuard(r.threads[i]) || (step.Release? && !r.active) || (step.Exchange? && sv.active);
    assert forall j :: 0 <= j < |sv.threads| && j != i ==> r.threads[j] == sv.threads[j];
    if step.Exchange? && sv.active {
      var k :| 0 <= k < |sv.threads| && InGuard(sv.threads[k]);
      assert InGuard(r.threads[k]);
    }
  }

  lemma FaithfulKept(sv: Server, i: nat, step: Step)
    requires Inv(sv) && Possible(sv, i, step)
    ensures Faithful(Perform(sv, i, step).threads[i], sv.requests[i], sv.base)
  {
    hide Can, After, MakeCallConfig, Exclusive, Validate;
    var t := sv.threads[i];
    assert Faithful(t, sv.requests[i], sv.base);
    if step.Within? {
      assert (t.moves + [step.move])[..|t.moves|] == t.moves;
    }
  }

  lemma PerformKeeps(sv: Server, i: nat, step: Step)
    requires Inv(sv) && Possible(sv, i, step)
    ensures Inv(Perform(sv, i, step))
  {
    hide Faithful, Can, After, Exclusive, Validate, MakeCallConfig;
    ExclusiveKept(sv, i, step);
    FaithfulKept(sv, i, step);
    assert forall j :: 0 <= j < |sv.threads| && j != i ==> Perform(sv, i, step).threads[j] == sv.threads[j];
  }

  // ---- Any schedule of any number of threads ---------------------------------------------------

  function Opened(base: Config, requests: seq<Request>): Server {
    Server(false, base, requests, seq(|requests|, _ => Arriving))
  }

  /** A step that is not possible does not happen. */
  function Scheduled(base: Config, requests: seq<Request>, sched: seq<(nat, Step)>): (sv: Server)
    ensures |sv.requests| == |sv.threads| && sv.requests == requests && sv.base == base
  {
    if sched == [] then Opened(base, requests)
    else
      var sv := Scheduled(base, requests, sched[..|sched| - 1]);
      var (i, step) := sched[|sched| - 1];
      if Possible(sv, i, step) then Perform(sv, i, step) else sv
  }

  lemma {:induction false} AlwaysInv(base: Config, requests: seq<Request>, sched: seq<(nat, Step)>)
    ensures Inv(Scheduled(base, requests, sched))
  {
    hide Possible, Perform, Exclusive, Faithful;
    if sched == [] {
      OpenedInv(base, requests);
    } else {
      AlwaysInv(base, requests, sched[..|sched| - 1]);
      var sv := Scheduled(base, requests, sched[..|sched| - 1]);
      var (i, step) := sched[|sched| - 1];
      if Possible(sv, i, step) {
        PerformKeeps(sv, i, step);
      }
    }
  }

  lemma OpenedInv(base: Config, requests: seq<Request>)
    ensures Inv(Opened(base, requests))
  {
  }

  /** The flag is set exactly while some thread is between its exchange and the end of its guard; there
      is never a second such thread, so never a second SIP agent. */
  lemma OneCallAtATime(base: Config, requests: seq<Request>, sched: seq<(nat, Step)>)
    ensures var sv := Scheduled(base, requests, sched);
            && (sv.active <==> exists i :: 0 <= i < |sv.threads| && InGuard(sv.threads[i]))
            && (forall i, j :: 0 <= i < j < |sv.threads| ==> !(InGuard(sv.threads[i]) && InGuard(sv.threads[j])))
            && (forall i, j :: 0 <= i < j < |sv.threads| ==> !(AgentAlive(sv.threads[i]) && AgentAlive(sv.threads[j])))
  {
    hide Faithful, Scheduled;
    AlwaysInv(base, requests, sched);
    var sv := Scheduled(base, requests, sched);
    assert forall i :: 0 <= i < |sv.threads| && AgentAlive(sv.threads[i]) ==> InGuard(sv.threads[i]);
  }

  /** A thread is turned away exactly when another one is in the guarded region; it then takes no
      further step, so it never clears the flag. */
  lemma TurnedAwayExactlyWhenBusy(base: Config, requests: seq<Request>, sched: seq<(nat, Step)>, i: nat)
    requires Possible(Scheduled(base, requests, sched), i, Exchange)
    ensures var sv := Scheduled(base, requests, sched);
            var r := Perform(sv, i, Exchange);
            && (r.threads[i] == Replied(AlreadyExists) <==>
                  exists j :: 0 <= j < |sv.threads| && j != i && InGuard(sv.threads[j]))
            && (r.threads[i] == Replied(AlreadyExists) ==> r.active && forall step :: !Possible(r, i, step))
  {
    hide Faithful, Scheduled, Can, After;
    AlwaysInv(base, requests, sched);
  }

  /** The flag is cleared by one step only: the end of the guard of the thread that had set it. By then the SIP
      agent has been destroyed, and if a call was made, its executor thread has been joined with
      everything written. */
  lemma ClearedLast(base: Config, requests: seq<Request>, sched: seq<(nat, Step)>, i: nat, step: Step)
    requires Possible(Scheduled(base, requests, sched), i, step)
    requires Scheduled(base, requests, sched).active && !Perform(Scheduled(base, requests, sched), i, step).active
    ensures var sv := Scheduled(base, requests, sched);
            && step == Release && sv.threads[i].Unwinding?
            && (forall j :: 0 <= j < |sv.threads| ==> !AgentAlive(sv.threads[j]) && (j != i ==> !InGuard(sv.threads[j])))
            && (sv.threads[i].reply.Ok? ==> Over(sv.threads[i].reply.call, sv.threads[i].reply.run))
  {
    hide Scheduled, Can, After, Over, MakeCallConfig;
    AlwaysInv(base, requests, sched);
    var sv := Scheduled(base, requests, sched);
    assert Faithful(sv.threads[i], sv.requests[i], sv.base);
    assert forall j :: 0 <= j < |sv.threads| && AgentAlive(sv.threads[j]) ==> InGuard(sv.threads[j]);
  }

  /** Leaving the loop and joining: the executor thread has already finished, so `join` does not block. */
  lemma JoinDoesNotBlock(base: Config, requests: seq<Request>, sched: seq<(nat, Step)>, i: nat)
    requires i < |requests| && Scheduled(base, requests, sched).threads[i].Serving?
    requires var t := Scheduled(base, requests, sched).threads[i];
             After(t.setup, t.moves).rpc.Gone?
    ensures Possible(Scheduled(base, requests, sched), i, Step.Join)
  {
    hide Scheduled, After, IsRun, Exclusive, Asked;
    AlwaysInv(base, requests, sched);
    var sv := Scheduled(base, requests, sched);
    assert Faithful(sv.threads[i], sv.requests[i], sv.base);
    StreamIsDelivered(sv.threads[i].setup, sv.threads[i].moves);
  }

  lemma HasAudio(req: Request)
    requires Validate(req) == ""
    ensures !req.audio.NotSet?
  {
  }

  /** Every reply is the one the request deserves. An invalid request is refused with its first fault; a call that
      was served ran on what the request asks for, with the defaults filled in, and its stream
      ended with the one result, unless the client cancelled it. */
  lemma EveryReplyIsDeserved(base: Config, requests: seq<Request>, sched: seq<(nat, Step)>, i: nat)
    requires i < |requests| && Scheduled(base, requests, sched).threads[i].Replied?
    ensures var req, reply := requests[i], Scheduled(base, requests, sched).threads[i].reply;
            match reply
            case AlreadyExists => true
            case InvalidArgument(message) => message == Validate(req) != ""
            case Ok(setup, moves) =>
              && Validate(req) == ""
              && setup.config.destination == req.destination && setup.config.sipHost == req.serverHost
              && setup.config.answerDelayS == (if req.answerDelaySeconds == 0 then 1 else req.answerDelaySeconds)
              && setup.config.silenceS == (if req.silenceTimeoutSeconds == 0 then 10 else req.silenceTimeoutSeconds)
              && setup.config.answerTimeoutS == base.answerTimeoutS && setup.config.recordDir == base.recordDir
              && setup.config.silenceThreshold == base.silenceThreshold
              && (match req.audio
                  case WavUrl(url) => setup.config.audioType == "wav" && setup.PlayPath() == url
                  case TtsText(text) =>
                    && setup.config.audioType == "text" && setup.config.audioPathOrText == text
                    && setup.PlayPath() == if WordCount(text) == 0 then "" else base.recordDir + "/tts_stub.wav"
                  case NotSet => false)
              && var s := After(setup, moves);
                 if s.call.result.status == CANCELLED then s.cancelSent
                 else EndsWithResult(s, req.callId)
  {
    hide Scheduled, After, IsRun, Exclusive, Validate, EndsWithResult, Can;
    AlwaysInv(base, requests, sched);
    var sv := Scheduled(base, requests, sched);
    assert Faithful(sv.threads[i], sv.requests[i], sv.base);
    var reply := sv.threads[i].reply;
    if reply.Ok? {
      HasAudio(requests[i]);
      StreamEndsWithResult(reply.call, reply.run, requests[i].callId);
    }
  }

  /** What a request has to have, in the order in which it is asked for, and the complaint if it has not. */
  function Demands(req: Request): seq<(bool, string)> {
    [(req.callId != "", "call_id is required"),
     (req.hasSip, "sip credentials are required"),
     (req.username != "", "sip.username is required"),
     (req.password != "", "sip.password is required"),
     (req.serverHost != "", "sip.server_host is required"),
     (req.destination != "", "destination is required"),
     (!req.audio.NotSet?, "exactly one audio_source (wav_url or tts_text) is required")]
  }

  /** A request is accepted if and only if every demand is met, and refused with the complaint of the first that is
      not. */
  lemma ValidRequests(req: Request, i: nat)
    requires i < |Demands(req)|
    ensures Validate(req) == "" <==> forall d :: d in Demands(req) ==> d.0
    ensures Validate(req) == Demands(req)[i].1 <==> !Demands(req)[i].0 && forall k :: 0 <= k < i ==> Demands(req)[k].0
  {
    var name, word := "sip.username is required", "sip.password is required";
    assert name[4] != word[4];
    var ds := Demands(req);
    assert ds[0].0 && ds[1].0 && ds[2].0 && ds[3].0 && ds[4].0 && ds[5].0 && ds[6].0 ==> Validate(req) == "";
    assert i == 0 || i == 1 || i == 2 || i == 3 || i == 4 || i == 5 || i == 6;
  }
}
