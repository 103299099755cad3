# The call agent, verified

A Dafny model of a SIP call agent: one outbound call from registration to the final result, the silence
detector and the speech stub it uses, the event queue that feeds it, the relay that streams its events to an RPC
client, and the admission of one call at a time among any number of RPC threads.

## How it is built

`CallMachine` holds `CallExecutor::run` as a small-step machine. Every read `run` makes of the outside world (the clock,
the cancel flag, the event queue, the audio level, a sleep) is one step, answered by one `Tick`; every effect
(an event to the sink, a hangup, the recorder, ...) is appended to a log. A run is any sequence of answers whose clock does
not go back and whose flag is never unset (`Legal`). All results about `run` are about every such sequence, so about every
prefix of every run, whatever PJSIP pushes.

`CallExecutor` is `run` in its own form, a class whose methods loop and update members. `Executor.Run` is proved to leave
exactly the log, the record and the members the machine has after the same answers.

| file | what |
|---|---|
| `MachineInts`, `Events` | integer widths and wrap-around; statuses and events |
| `Silence` | the online silence detector against the whole-history definition of silence |
| `CallMachine`, `CallExecutor` | `run` as a machine and as imperative code |
| `CallGrammar` | the language of event streams, as an automaton over events alone |
| `CallInvariant`, `CallTheorems`, `CallEndings` | what holds at every point; stream, record, outcome, endings |
| `CallOrder`, `CallIntake` | RINGING and ANSWERED echo PJSIP; what is taken is what was delivered, and where each action is done |
| `CallCancellation`, `CallDeadlines`, `CallPace` | bounded cancellation; deadlines, flow of control and pace under a punctual clock |
| `CallReturns` | every way in which `run` returns; when it returns CANCELLED; billing |
| `CallMedia`, `CallReasons` | what Step 4 waits for; why a run fails to register, times out, hangs up, and is recorded as it is |
| `CallDelay`, `CallPlayback`, `CallListening` | the answer delay; what is played; what has to be before silence is announced, and the window that wraps |
| `CallLoops`, `CallUnbounded` | what the cap bounds, exactly when the loops without a deadline are left, and runs that stay in them |
| `CallRuns`, `CallSurprises` | concrete punctual runs in which the program does less than expected, and exactly when |
| `EventQueue` | the queue of `SipAgent`, with the wake flag |
| `Wire`, `Relay` | protobuf events and the relay loop of `ExecuteCall` |
| `Session`, `SessionTheorems` | one `ExecuteCall` with all its threads, interleaved; what the client gets |
| `Admission` | any number of RPC threads, the flag and its guard |
| `WavFile`, `Tts` | the WAV writer and a RIFF reader; the speech stub |

## Results that correct an expectation

* A cancelled call's stream carries no result, although protos/call_agent.proto:20 says that the stream ends with one. It is
  missing exactly when one of `run`'s reads of the cancel flag found it set (`CallReturns.CancelledExactlyWhenSeen`,
  `CallReturns.NoResultExactlyWhenSeen`), that is, when the client's cancellation set the flag before such a
  read (`SessionTheorems.ResultIsMissingExactlyWhenSeen`). A flag that is set and not read in time changes nothing.
* Cancelling hangs the call up, except while `run` listens for silence: `CallEndings.CancelledCallIsHungUp` has the exact
  condition, `CallSurprises.CancelledButNotHungUpHappens` a run.
* A call that nobody confirmed is reported ANSWERED if it is disconnected with code 200 before the answer timeout, and only
  then (`CallSurprises.AnsweredWithoutConfirmation`).
* A call confirmed after the answer timeout is reported NO_ANSWER, after ANSWERED was announced, if neither media nor a
  DISCONNECTED arrives before the safety net, and only then (`CallSurprises.NoAnswerAfterConfirmation`).
* A wake can be lost. It costs at most the one wait (`SessionTheorems.WakeLostHappens`,
  `SessionTheorems.CancellationIsPromptForTheClient`).
* The window of silence is computed in 32 bits. A SILENCE_DETECTED can come before the configured seconds of quiet, and before the
  600 s cap, exactly if they do not fit 32 bits in milliseconds while the answer delay and what they wrap to together stay below
  the cap: with `silence_timeout_seconds = 4294968` and the default delay the program hangs up after 704 ms of
  quiet (`CallListening.SilenceIsTrueExactlyWhenKept`).
* The billed seconds are exact only below 2^32 s, and a WAV file can be read back only below 2^32 bytes.
* The 600 s cap does not bound the playback loop, which looks at it only when a wait brings nothing: events that keep coming put it off
  without end (`CallLoops.PlaybackLoopCap`, `CallLoops.PlaybackOutlivesCap`). The drain after the cap, Step 8 and the wait
  for media of an answered call have no deadline at all (`CallLoops.OnlyFlagOrDisconnect`,
  `CallLoops.OnlyFlagDisconnectOrMedia`). `CallUnbounded` has runs that are in each of these loops at any later moment.

## Model

| member | source | states |
|---|---|---|
| CallExecutor.Executor.Run | src/call_executor.cpp:39-296 | the imperative `run`: on every script of answers its log, record and members are those of the machine, it returns the machine's record, and it is unfinished exactly when the machine is |
| CallExecutor.Executor.HandleDisconnect | src/call_executor.cpp:302-344 | billing, final status, recorder stop, RECORDING_READY and result happen as in the machine, the clock being read only for a confirmed call |
| CallExecutor.Executor.AwaitRegistration | src/call_executor.cpp:53-81 | the registration loop refines the machine and ends registered, failed, timed out or cancelled |
| CallExecutor.Executor.AwaitAnswer | src/call_executor.cpp:93-158 | the loop of Step 4 with both deadlines refines the machine and leaves it at the exit check or returned |
| CallExecutor.Executor.AwaitPlayed | src/call_executor.cpp:194-223 | the playback loop with cap and drain refines the machine |
| CallExecutor.Executor.AwaitSilence | src/call_executor.cpp:245-269 | the silence loop with a live detector object refines the machine's detector value |
| CallExecutor.Executor.AwaitDisconnect | src/call_executor.cpp:284-295 | Step 8 ends on the DISCONNECTED or the flag only |
| CallInvariant.InvHolds | src/call_executor.cpp:39-344 | at every program point of every legal run, record, flags, log digest and detector are as that point requires |
| CallGrammar.ResultIsLast | protos/call_agent.proto:20-21 | in a stream the grammar accepts, a result can only be the last event, and is there exactly when the stream is complete |
| CallTheorems.StreamFollowsGrammar | src/call_executor.cpp:39-344 | every run emits a stream of the grammar, complete exactly when `run` has returned something other than CANCELLED |
| CallTheorems.OneResultAndLast | src/call_executor.cpp:39-344 | exactly one result, and last, if and only if the run has returned with a status other than CANCELLED; else none |
| CallTheorems.RecordAgreesWithStream | src/call_executor.cpp:302-344 | the returned status is one of five, the exit code one of 0, 3, 4, 5, 6, and the result event equals the record in status, code, reason, billing and path |
| Events.ExitCodes | README.md:154-162 | every outcome has the exit code of its own that the documentation promises; 1 stands for no outcome |
| CallTheorems.OutcomeTable | src/call_executor.cpp:102-158 | the outcome as a function of how far the line got, whether the call was ever confirmed, whether the timeout fired and the code of the DISCONNECTED |
| CallTheorems.TimeoutIsNoAnswer | src/call_executor.cpp:129-138 | once the answer timeout has fired, a call that is never confirmed ends as NO_ANSWER or CANCELLED, with code 487 if disconnected, never BUSY |
| CallTheorems.AnsweredPastStep4 | src/call_executor.cpp:154-158 | past Step 4 the record says ANSWERED and the billing clock runs, so both status guards are dead code |
| CallTheorems.BillIsCeilingUpTo32Bits | src/call_executor.cpp:303-307 | the billed figure is the elapsed time rounded up to seconds exactly as long as it fits 32 bits |
| CallReturns.NextConcludes | src/call_executor.cpp:39-295 | every way in which `run` returns: which program point gives which record, and that nothing else makes it CANCELLED |
| CallReturns.CancelledExactlyWhenSeen | src/call_executor.cpp:56-295 | `run` returns CANCELLED if and only if one of its reads of the flag found it set |
| CallReturns.NoResultExactlyWhenSeen | protos/call_agent.proto:20-21 | the stream of a run that has returned holds no result if and only if a read of the flag found it set |
| CallReturns.BilledAsAnswered | src/call_executor.cpp:302-343 | only answered calls are billed; a confirmed call that was disconnected is billed from the clock answer of its last confirmation to the one `handleDisconnect` got, rounded up; RECORDING_READY is next to last and carries the same figure |
| CallMedia.Step4WaitsForBoth | src/call_executor.cpp:94-145 | Step 4 goes round exactly as long as the events taken since the call was placed do not hold both a CONFIRMED and an active MediaState, in either order and whatever came between; without them it is left by the flag only, and Step 5 is reached only with them |
| CallReasons.RegistrationDecides | src/call_executor.cpp:56-81 | an empty wait in Step 2 fails the run once 15000 ms have passed since the start of registration and otherwise goes on; a registration event ends the loop one way or the other; other events are ignored |
| CallReasons.WhyRegistrationFails | src/call_executor.cpp:43-79 | a run that fails before dialling had no agent, or took a refusal whose code and reason it reports, or made an empty wait 15000 ms after the start of registration |
| CallReasons.TimedOutIffFired | src/call_executor.cpp:97-105 | the timeout counts as hit if and only if some read found the configured seconds passed since dialling with no CONFIRMED taken by then |
| CallReasons.HangupHasReason | src/call_executor.cpp:99-280 | every hangup is done at a read that found the answer timeout over, the flag at the exit of Steps 4, 5 or 6, the 600 s over in playback, or listening at its end |
| CallReasons.MustHangUpIsDone | src/call_executor.cpp:99-280 | and at every such read the call is hung up |
| CallReasons.GivingUpIsLate | src/call_executor.cpp:107-112 | a run that gives up on a call that was never disconnected does so no earlier than the answer timeout and 10000 ms after dialling |
| CallReasons.UnconfirmedRecord | src/call_executor.cpp:129-138 | the whole record of a disconnected call that was never confirmed: NO_ANSWER with 487 if the timeout had fired, else the outcome, code and reason of its DISCONNECTED |
| CallReasons.ConfirmedRecord | src/call_executor.cpp:129-138 | a disconnected call that was confirmed is ANSWERED with the code and reason of its DISCONNECTED, or 487 if the timeout had fired and there was no recording yet |
| CallReasons.CancelledRecord | src/call_executor.cpp:83-152 | the whole record of a cancelled call: the recording if Step 5 had been reached, and the reason of a cancellation before dialling or in Step 4 |
| CallTheorems.ReadyThenResult | src/call_executor.cpp:321-343 | after RECORDING_READY comes its result, with the same path and billing, and nothing else |
| CallEndings.FirstDisconnectEndsRun | src/call_executor.cpp:129-138 | the first DISCONNECTED after dialling ends the run: the log closes with the recorder stopped, RECORDING_READY if there is a recording, the result, and nothing taken after it |
| CallEndings.RecordingIsAnnounced | src/call_executor.cpp:160-167 | the result names a recording, the file named by the call id in the record directory, exactly when the recorder had been started before that DISCONNECTED and was still running |
| CallEndings.CancelledCallIsHungUp | src/call_executor.cpp:271-274 | a cancelled, dialled run has hung up if and only if the timeout had fired, listening had not begun, or HANGING_UP was announced |
| CallListening.SilenceHangupIsJustified | src/call_executor.cpp:271-281 | the uncancelled exit of the silence loop announces silence, and is justified by the silence so far or the cap |
| CallListening.SilenceIsEarned | src/call_executor.cpp:237-281 | if SILENCE_DETECTED is anywhere in a stream, Step 7 was entered at some read, every poll lies between it and the uncancelled exit, and all levels over a window of the configured length were below the configured threshold or 600 s had passed since the last confirmation; the window is the configured number of seconds below 2^32 ms, and a negative threshold counts as 2^32 higher |
| CallListening.NegativeThreshold | src/call_executor.cpp:239-240 | with a negative threshold every level PJSIP can report, at most 255, counts as quiet |
| CallListening.PollsFollowPlayed | src/call_executor.cpp:214-261 | in the log every poll comes after the arming of the detector, and that after PLAYED |
| CallListening.PollsAreAnswers | src/call_executor.cpp:257-259 | every poll fed to the detector is a level the run was answered, with the clock answer that follows it |
| CallListening.ListensUntilFirstSilence | src/call_executor.cpp:247-269 | as long as `run` goes on listening, no prefix of the levels polled ends in a window of quiet: it stops at the first |
| CallListening.SilenceIsTrueExactlyWhenKept | src/call_executor.cpp:238-241 | every SILENCE_DETECTED of every run is earned by the configured seconds of levels below the configured threshold, or by the cap, if and only if those seconds fit 32 bits in milliseconds, or answer delay and wrapped window together reach the cap, or the threshold is 0, or the agent does not start; over all runs, and over punctual runs alone |
| CallDelay.PlayingIsDelayed | src/call_executor.cpp:175-189 | PLAYING is in a stream only if the read that left the answer delay came no earlier than the configured seconds after the last confirmation |
| CallDelay.DelayLoopIsLeft | src/call_executor.cpp:175-186 | a punctual run leaves the delay loop within 50 ms of the later of its start and the end of the delay |
| CallPlayback.PlaysWhatWasAsked | src/call_executor.cpp:168-191 | every player a run starts is given the configured file; or for a text the path of the one file `synth` writes for it, holding the tone for that number of words, which reads back up to 383479 words; or no path and no file for a text without words |
| CallPlayback.PlaysOnce | src/call_executor.cpp:188-191 | one player has been started past the start of playback, none before, never two |
| CallOrder.CallStatesAreEchoed | src/call_executor.cpp:117-128 | every EARLY and CONFIRMED taken in Step 4 is announced as RINGING or ANSWERED, once each, in order, and nothing else is |
| CallOrder.StagesNeverGoBack | src/call_executor.cpp:114-145 | if call states arrive in order and CONFIRMED once at most, stages never go back, only RINGING repeats, ANSWERED occurs once at most as a state |
| CallIntake.NextTakes | src/call_executor.cpp:56-295 | one read adds to the log only, takes exactly what the wait delivered, and does an action only at the program points of that action, with what belongs to it: the call id made of destination and host, the code and reason of a failed registration, a recorder path of that id, a poll of the level just read, a hangup for one of five reasons |
| CallIntake.DoneAt | src/call_executor.cpp:39-344 | every action of a run was done at one of its reads, at a program point of that action and with what belongs to it there |
| CallIntake.Ids | src/sip_agent.cpp:20-20 | the call id is destination, `@` and host, and the recording is the file of that name in the record directory |
| CallCancellation.CancellationIsPrompt | src/call_executor.cpp:350-353 | from any state, with the flag set: at most six more reads, one blocking, one event taken, two emitted, and the run has returned |
| CallDeadlines.RegistrationDeadline | src/call_executor.cpp:53-66 | registration is over in under 15500 ms |
| CallDeadlines.NoAnswerDeadline | src/call_executor.cpp:97-114 | an unconfirmed call is off Step 4 in under the answer timeout and 10500 ms from dialling, and 15500 ms more from the start of registration |
| CallDeadlines.SilenceLoopCap | src/call_executor.cpp:247-269 | the silence loop is left no later than 100 ms after the later of its start and 600 s after the confirmation |
| CallLoops.PlaybackLoopCap | src/call_executor.cpp:195-212 | at a wait of the playback loop the clock is not past the latest of its start, 600 s after the confirmation and the last event taken; at the cap check it is at most 500 ms past that |
| CallLoops.PlaybackOutlivesCap | src/call_executor.cpp:195-223 | once the cap has passed, playback goes on if and only if every wait brings an event that ends neither playback nor the call, and the flag is not seen |
| CallLoops.OnlyFlagOrDisconnect | src/call_executor.cpp:201-208 | the drain after the cap, and Step 8, are left if and only if a read finds the flag set or a wait takes a DISCONNECTED |
| CallLoops.OnlyFlagDisconnectOrMedia | src/call_executor.cpp:99-145 | a call confirmed in time and without media stays in Step 4 until a read finds the flag set, or a wait takes a DISCONNECTED or active media, and no longer |
| CallLoops.PhasesRise | src/call_executor.cpp:39-295 | a loop that has been left is not entered again |
| CallLoops.PlayingSince | src/call_executor.cpp:188-195 | the start of the playback loop in the bounds is the clock answer before it |
| CallLoops.DialledAt | src/call_executor.cpp:97-97 | the start of Step 4 in the bounds is the clock answer right after dialling |
| CallUnbounded.PlaybackOutlivesAnyMoment | src/call_executor.cpp:195-212 | for any later moment, a punctual uncancelled run is still in the playback loop then |
| CallUnbounded.DrainOutlivesAnyMoment | src/call_executor.cpp:201-208 | for any later moment, one is still in the drain after the cap |
| CallUnbounded.AnswerOutlivesAnyMoment | src/call_executor.cpp:99-145 | for any later moment, one that was answered in time still waits for media |
| CallUnbounded.HangupOutlivesAnyMoment | src/call_executor.cpp:284-292 | for any later moment, one still waits for the disconnect after hanging up |
| CallPace.NextLeads | src/call_executor.cpp:39-295 | `run` follows its flow of control: where one read can lead, given the flag and whether an event came |
| CallPace.ReadsArePaced | src/call_executor.cpp:56-295 | between any two moments of an uncancelled run: one read per 10 ms, five per event taken, seven more |
| CallPace.UnansweredRunEnds | src/call_executor.cpp:53-145 | an unanswered run is over after a number of reads bounded by both timeouts and the events it has taken |
| CallPace.CancelledRunIsQuick | src/call_executor.cpp:350-353 | once cancelled, a punctual run returns within 500 ms and six reads |
| CallSurprises.CancelledWithoutResult | src/call_executor.cpp:83-87 | a cancelled run, on a punctual clock, whose stream has no result |
| CallSurprises.AnsweredWithoutConfirmation | src/events.cpp:51-58 | an unconfirmed call ends as ANSWERED if and only if it was disconnected with 200 before the answer timeout; it is not billed |
| CallSurprises.AnsweredWithoutConfirmationHappens | src/call_executor.cpp:309-311 | such a run exists |
| CallSurprises.NoAnswerAfterConfirmation | src/call_executor.cpp:107-112 | a confirmed call ends as NO_ANSWER if and only if it was never disconnected; then it was confirmed after the answer timeout, never had media, the safety net was reached, and nothing was recorded or billed |
| CallSurprises.NoAnswerAfterConfirmationHappens | src/call_executor.cpp:107-128 | such a run exists |
| CallSurprises.CancelledButNotHungUpHappens | src/call_executor.cpp:271-274 | a run that is dialled, answered and cancelled, and never hangs up |
| Silence.FeedReflects | src/silence.cpp:12-30 | after any history the detector's fields are the ones the history defines, and one more feed fires exactly when the history first ends in silence |
| Silence.TrailingRunUnique | src/silence.cpp:14-22 | the maximal trailing run of quiet samples is unique |
| Silence.FeedFiresExactlyOnFirstSilence | src/silence.cpp:6-30 | armed and fed any ordered samples, the next feed fires exactly at the first sample whose trailing quiet run spans the timeout |
| Silence.FeedFiresOnce | src/silence.cpp:23-28 | it never fires a second time until armed again |
| Silence.SilenceDetector.FeedLevel | src/silence.cpp:12-30 | the object's new state and answer are those of the value |
| Silence.SilenceDetector.GetCurrentSilenceMs | src/silence.cpp:32-35 | the length of the silence so far, as the history defines it, in 32 bits |
| Silence.SilenceDetector.Rearm | src/silence.cpp:6-10 | arming forgets the past |
| EventQueue.SipQueue.PushEvent | src/sip_agent.cpp:110-114 | appends to what was pushed; taken and waiting still make up pushed |
| EventQueue.SipQueue.EnterWait | src/sip_agent.cpp:117-121 | forgets a wake; the wait is over at once exactly if something pushed has not been taken |
| EventQueue.SipQueue.LeaveWait | src/sip_agent.cpp:122-125 | takes the oldest event not yet taken, or none if there is none |
| EventQueue.SipQueue.WakeDispatcher | src/sip_agent.cpp:128-132 | sets the wake flag, changes nothing else |
| EventQueue.SipQueue.Run | src/sip_agent.cpp:110-132 | driven by any interleaving of the critical sections, the object is in the state the interleaving defines |
| EventQueue.NothingLostOrReordered | src/sip_agent.cpp:110-132 | under any interleaving, what was taken and what waits make up what was pushed |
| EventQueue.WakeIsLostOnEntryOnly | src/sip_agent.cpp:118-131 | a wake is pending if and only if nobody has entered the wait since |
| EventQueue.WakeWhileWaiting | src/sip_agent.cpp:116-132 | a consumer that is already waiting when woken does not block |
| Wire.TimestampRoundTrip | src/grpc_server.cpp:34-37 | timestamps are well formed, lose no millisecond and keep the order |
| Wire.ProtoNumbers | protos/call_agent.proto:111-144 | states and result statuses go out under the numbers of the protocol, and no number stands for two of them |
| Wire.WireRoundTrip | src/grpc_server.cpp:65-96 | the wire event reads back as the event, with the request's call id and an explicit flag, if and only if the event keeps its content in the fields of its kind |
| Wire.JsonAndProtoAgree | src/events.cpp:82-103 | JSON and protobuf agree on which events are results and which announce a recording |
| Wire.AcceptedFitsWire | src/grpc_server.cpp:73-94 | every event of a stream of the grammar fits the wire |
| Relay.CallRelay.Sink | src/grpc_server.cpp:155-159 | the sink appends under the lock |
| Relay.CallRelay.SwapBatch | src/grpc_server.cpp:171-176 | the batch is the whole queue, and the round is the last exactly when the executor is done and the batch empty |
| Relay.CallRelay.WriteBatch | src/grpc_server.cpp:179-184 | writes every event of the batch in order, each with the start time valid at that point |
| Relay.CallRelay.Serve | src/grpc_server.cpp:168-192 | the loop writes exactly what arrived, in order, once each; leaves in the first round that finds the executor done and nothing to write, and in no other; cancels once at most, and exactly if the client had cancelled before |
| Relay.StartedOnceAnswered | src/grpc_server.cpp:166-184 | an event, and the result in particular, carries a start time exactly when ANSWERED was passed on before it |
| Session.AlwaysSound | src/grpc_server.cpp:150-194 | over every interleaving: the executor is in a legal run, taken and queued events make up the pushed ones, written, batched and queued events make up the emitted ones, `done` means nothing more is coming, and only the client's cancellation sets the flag |
| SessionTheorems.NothingLostOrReordered | src/grpc_server.cpp:150-192 | at every moment the events written are the first ones emitted, a prefix of a stream of the grammar |
| SessionTheorems.StreamIsDelivered | src/grpc_server.cpp:171-194 | when the loop is left, `run` has returned and everything it emitted has been written, nothing else |
| SessionTheorems.StreamEndsWithResult | protos/call_agent.proto:18-22 | then exactly the last event is a result, and reads back as the record `run` returned; only a call the client cancelled has none |
| SessionTheorems.ResultIsMissingExactlyWhenSeen | protos/call_agent.proto:20-22 | a stream that is over holds no result if and only if the flag was set, for the client, before one of the executor's reads of it |
| SessionTheorems.CancelledByClientOnly | src/grpc_server.cpp:188-191 | `cancel` is called if and only if the RPC thread found the call cancelled by the client, and the flag is set only then |
| SessionTheorems.StreamCanBeReadBack | src/grpc_server.cpp:63-184 | every event received reads back as the emitted one; its time is the clock of its own conversion, which for a result is the end of the call too; a result has a start exactly when ANSWERED came before, and it is the clock at which the last ANSWERED was picked up, no later than the end |
| SessionTheorems.LoopEndsOnceDone | src/grpc_server.cpp:168-192 | once `done` is set: at most two more rounds, a bounded number of moves, and never stuck |
| SessionTheorems.CancellationIsPromptForTheClient | src/sip_agent.cpp:116-132 | once the flag is set, wake lost or not, and whatever the other threads do: at most six more reads, one of them blocking, one event taken, two emitted |
| SessionTheorems.ExecutorNeverStuck | src/sip_agent.cpp:116-126 | until it is done the executor can go on, at the latest when the wait it is in has timed out |
| SessionTheorems.WakeLostHappens | src/sip_agent.cpp:118-118 | a run in which the wake falls between the look at the flag and the wait, and the executor blocks |
| Admission.OneCallAtATime | src/grpc_server.cpp:130-139 | for any schedule of any number of threads: the flag is set exactly while one thread is in the guarded region, never two, so never two SIP agents |
| Admission.TurnedAwayExactlyWhenBusy | src/grpc_server.cpp:130-135 | a thread is turned away exactly when another is in the guarded region, and never clears the flag |
| Admission.ClearedLast | src/grpc_server.cpp:136-198 | the flag is cleared only at the end of the guard, with the SIP agent destroyed and, if a call was made, its executor joined and everything written |
| Admission.JoinDoesNotBlock | src/grpc_server.cpp:194-194 | a thread that has left its loop can join at once |
| Admission.EveryReplyIsDeserved | src/grpc_server.cpp:141-198 | an invalid request is refused with its first fault; a served call ran on the requested host, destination, delay, silence and audio (the file named, or `tts_stub.wav` in the record directory for a text with words), with the documented defaults for zero and the rest from the base configuration, and its stream ended with the result unless the client cancelled |
| Admission.ValidRequests | src/grpc_server.cpp:213-225 | a request is accepted if and only if it meets all seven demands, and refused with the complaint of the first it does not meet |
| WavFile.OutFile.WriteWav | src/tts_stub.cpp:18-40 | the bytes written are those of the layout, with both sizes computed in 32 bits |
| WavFile.PcmRoundTrip | src/tts_stub.cpp:39-39 | little-endian two's complement samples read back |
| WavFile.ReadsBack | src/tts_stub.cpp:20-39 | what a RIFF reader makes of the file for any number of samples: none once the RIFF size has wrapped, else what the data size counts |
| WavFile.WavRoundTrip | src/tts_stub.cpp:18-40 | the file reads back as the same samples if and only if 36 + 2n < 2^32 |
| WavFile.SizesAreTrue | src/tts_stub.cpp:27-38 | up to there both size fields count the true bytes |
| WavFile.HeaderBytes | src/tts_stub.cpp:26-38 | the 44 bytes of the headers, one by one: the tags, PCM, one channel, 8000 Hz, 16 bits, and the true sizes, low bytes first |
| WavFile.SampleBytes | src/tts_stub.cpp:39-39 | sample i lies at byte 44 + 2i, low byte first, in two's complement |
| Tts.Words | src/tts_stub.cpp:50-54 | every word in order: word k is the text from the kth start of a word to the next space or the end |
| Tts.Extract | src/tts_stub.cpp:54-54 | one extraction skips space and takes one whole word, from its start to its end, or finds none |
| Tts.SpaceCodes | src/tts_stub.cpp:54-54 | words are separated by the six white space characters of the C locale |
| Tts.Speak | src/tts_stub.cpp:64-75 | the loops build the samples position by position |
| Tts.SpokenLayout | src/tts_stub.cpp:58-75 | 5600n - 1600 samples; position 5600i + j is the tone at j below 4000 and zero in the pauses |
| Tts.Synth | src/tts_stub.cpp:46-80 | no words, no path and no file; else one file holding the samples for that number of words |
| Tts.SpeechFits | src/tts_stub.cpp:58-78 | the file reads back if and only if there are at most 383479 words |
| Tts.FileTellsWordCount | src/tts_stub.cpp:66-66 | within that bound the file determines the number of words and depends on nothing else of the text |

## Left out

- PJSIP itself: account, transport, call and media objects, URIs, thread registration. What remains of it are the events its
  callbacks push, any events in any order, and the life time of the agent.
- Which events the callbacks push for which SIP message; `last_sip_code_` and `call_start_ms_` of the agent, which nobody reads.
- gRPC transport, failing writes, server start and stop, reflection, `StreamAudio`.
- `Health`, the idle watchdog and `shutting_down_`: separate reads of atomics that promise nothing together.
- Arguments, environment and exit of the command line program; the JSON text, its escaping and time stamps (only the kind of a
  JSON event is modelled).
- `config.record`: `run` never reads it, so the model has no such field; nor the port, transport and caller id, which only PJSIP sees.
- The sine: a tone is any 4000 samples. The host's byte order: little-endian.
- Files and directories: `mkdir` and failures to open; a file is the bytes written to it, and `synth` is asked for the path only
  where the call is modelled.
- Exceptions thrown out of `run`, a clock that runs backwards or overflows 62 bits.
- Termination of `run` as such: it has none to promise (`CallUnbounded`).
- CallUnbounded.PlaybackOutlivesAnyMoment: like its siblings up to 2^62 ms, where the clock of the model ends.
- CallExecutor.Executor.Run: `cancel` is not a method of the class; the flag is read from the script, and `Session` has the two
  atomic halves of `cancel` as moves.
- CallDeadlines.NoAnswerDeadline: assumes, as the other deadlines do, that a wait takes at most its timeout, that other
  statements take no time and that only registration events arrive before dialling.
- Relay.CallRelay.Serve: what the other threads do between two rounds is one step per round; the fine interleaving is in `Session`.
- Session.AlwaysSound: the 200 ms timeout of the relay's wait is not modelled, the RPC thread may start a round at any time.
