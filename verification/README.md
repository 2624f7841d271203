# BuzzTalk: the conversation loop and its audio path, verified

A Dafny model of the parts of BuzzTalk that decide who is speaking, what is heard and what reaches the
recogniser and the synthesiser, with proofs over all inputs and all runs. `dafny verify dfyconfig.toml` checks
the whole project.

## What is modelled

**Turn safety** (`SessionTypes`, `Session`, `SessionMachine`, `Transitions`, `Utterances`, `OutputProtocol`,
`SessionSafety`). The session machine appears twice: as an object whose methods update its fields as the program does,
and as a function from state and input to state and outputs, to which each method is proved equal. What that function
does is stated a second time, edge by edge of the state diagram instead of input by input, in `Transitions`: who takes
each edge, what it carries and what it asks for. `Utterances` follows what is said from its first sound to its
submission. `OutputProtocol` is independent of all of these: an automaton that sees outputs only. Every run is
accepted by it, and what acceptance implies about any two outputs is proved of the automaton alone.

**The conversation loop** (`Playback`, `PlaybackTheorems`, `BuzzAgent`, `AgentTheorems`, `TtsWorker`, `Conversation`,
`ConversationSafety`, `ConversationTheorems`, `LossTheorems`, `SynthesisTheorems`, `WorkerTheorems`, `SpeechTheorems`,
`SubmissionTheorems`, `CancelTheorems`, `LostVoice`, `PacingTheorems`, `PlayoutTheorems`, `LeadTheorems`,
`EndTheorems`, `LoopOrder`, `SpeakingRuns`, `DrainWitnesses`, `StuckResume`, `Orchestrator`). The playback queues and
the agent backend are first described over their own histories. `Conversation` then joins session, playback, agent and
pacing into one transition system whose steps are session inputs, agent events, synthesis results, feeds, device
rebuilds and the loss of the synthesiser, in any order. A history records what was asked of the outside world; no step
reads it. The invariant `Coherent` and the theorems about whole runs assume only that agent events name submitted
turns, which the shipped backend is proved to guarantee; where results matter, `WorkerTheorems` puts the worker in the
loop, so that they are what it answers to what it was sent. `LossTheorems` says which samples are discarded and that
an uninterrupted reply is heard in full; `SpeechTheorems` that it is heard as the synthesiser's rendering of exactly
what the agent said. `PlayoutTheorems` compares the feeder's estimate of the engine's ring with the ring itself,
`LeadTheorems` says how much a cancellation leaves to be heard, and `EndTheorems` when feeding ends a reply;
`DrainWitnesses` and `StuckResume` hold concrete runs, built in `SpeakingRuns`, which keep the order and the clock of
the program's loop as `LoopOrder` defines them. `Orchestrator` is the object that owns the parts and updates them in
place; each of its methods is proved to be the step of that system.

**Text** (`Text`, `Wording`, `Segmentation`, `ProtectedMask`, `Constructs`, `TableRule`, `Phrases`, `WitnessTexts`,
`Prompt`). A segmentation is defined without reference to a scan and shown to be unique; the scan computes it. Each of
the four protections is characterised exactly, and so are the fences and lines they rest on. Preparing a prompt is
described by its words. Splitting to the token budget is shown lossless, within budget, and greedy: no cut that was
not forced.

**Audio** (`Streams`, `Rings`, `Resampler`, `OutputStream`, `Decimator`). Streams are compared with closed forms:
linear interpolation at exact positions for both directions of the resampler, direct convolution for the decimator,
conservation for the rings, and bounded drift for the output callback that composes them. What the closed forms amount
to is stated without them: inputs kept, values between neighbours, straight lines kept; impulse response and
superposition.

**Detectors** (`VoiceRuns`, `Energy`, `ZeroCrossings`, `NoiseFloor`, `Variation`, `Endpoint`, `BargeIn`,
`DetectorFrames`). Both automata, each with its front end, report at every raw frame what an offline specification
over the whole history of frames reports: speech is on when something started it and no long enough silence has
followed. The energy of a frame and its zero-crossing rate are told apart from their computation, the noise floor has
a closed form over the level history, and the spectral-variation measure a sharp bound. `DetectorFrames` carries what
is said of histories over to raw frames.

`Wrappers`, `Arithmetic`, `Reals` and `Sequences` hold the shared option and result types, the lesser and greater of
two integers, and facts about products and sequences.

## Conventions

- Turn ids and durations are unbounded naturals, durations in nanoseconds; instants are counts of 48 kHz samples.
- `DetectorEvent.Silence` stands for the program's detector event `Idle`, whose name the state `Idle` has.
- Samples are exact reals. The resampler's fractional position is a whole numerator over the output rate. In the
  conversation loop a sample also carries its turn and its place in what was synthesised for that turn; no code
  reads either.
- The engine's ring, as `History.playedOut` describes it, plays one sample in every tick in which it has one, takes
  all it is handed, and is empty in a new engine. Nothing in the program reads it.
- The synthesiser, inference, the tokenizer, the decibel function and the comfort noise are arbitrary functions.
  Upper-casing is any function under the laws in `Prompt.Lawful`: it yields visible text, and repeating it changes
  nothing.
- A frame of the wrong length is an `Err` that changes nothing.
- Fields marked `ghost` (histories of inputs and outputs) exist for the proofs only.

## Where code and documentation differ

The model follows the code.

- The barge-in rule documented as 3 voiced frames in a window of 4 needs all 4: the rate window is emptied by every
  silent frame and must be full (`crates/buzztalk-vad/src/bargein.rs:41-43` against 219-234).
  `BargeIn.ConfirmationIsUnanimous` states the rule in force, `BargeIn.CountRuleHoldsIff` for which configurations
  the documented one comes to the same verdict, and `DetectorFrames.DefaultsDisagreeOnFrames` gives frames on which
  the default does not.
- An endpoint hangover of 0 or 1 frames acts as 2: the frame that leaves speech is never the one that ends it
  (`crates/buzztalk-vad/src/endpoint.rs:120-135`). See `Endpoint.HangoverHoldsIff` and, on raw frames,
  `DetectorFrames.HangoverHoldsOnFramesIff`.
- A line counts as a table line when it holds any pipe, although the comment asks for content on both sides
  (`crates/buzztalk-tts/src/segmentation.rs:295-310`). `TableRule.OneCellIsTakenForTable` is a line on which the
  two differ, `TableRule.TableRuleAgreesIff` says on which lines they agree, and `TableRule.TablesAsDocumentedIff`
  which texts get more protection than described.
- A drain is reported once the ring has genuinely gone dry, says the feeder's comment
  (`crates/buzztalk-pipeline/src/pipeline.rs:1470-1486`). It is reported when the feeder's estimate of the ring was
  zero before a top-up, and a completion (1288-1321) ends a reply on the same estimate. Replies can end before they
  are played in four ways, each with a run in `DrainWitnesses`: the feeder may hand over the last samples in that very
  call, or work with an estimate that was restarted on a ring not yet empty, and a completion may find the estimate
  reset by the last hand-over, or wrong in the same way. `PlayoutTheorems.EndIsGenuineIff` says exactly when the end
  of a reply is genuine, in terms of the ring. In terms of what the feeder knows: where its estimate is true, every
  completion is genuine and the feeder exactly with an empty queue (`PlayoutTheorems.EndIsGenuineIfTrue`). A call that
  hands samples over makes the estimate false if it resets the pacing or comes after the believed end of the ring
  (`PlayoutTheorems.FeedKeepsTruthIff`). After a reset, whoever remembers the time and the size of that hand-over can
  still tell (`PlayoutTheorems.SoundRunsEndGenuinelyIff`), unless a feed starts afresh before it is played out.
- The lead is said to bound what can still be in the ring, and audible, when playback is cancelled, at about 40 ms
  (`crates/buzztalk-pipeline/src/playback.rs:30-34`). The pacing bounds the estimate; an estimate that restarts while the
  ring still plays lets more in, as in `DrainWitnesses.LeadIsExceeded`. `LeadTheorems.RunKeepsLeadIff` says exactly which
  runs keep the bound, and `LeadTheorems.SoundRunsKeepLead` gives it from what the feeder can know.

## Model

| member | source | states |
|---|---|---|
| `SessionSafety.StepKeepsGood` | crates/buzztalk-session/src/machine.rs:152-175 | every input keeps the state-by-state invariant: which turns are current or parked, ids issued before use, and the running timer strictly below its limit |
| `SessionSafety.RunsFollowProtocol` | crates/buzztalk-session/src/machine.rs:152-586 | for every input history all outputs are accepted by an independent output automaton, which alone knows the state, whether the microphone is open and whether a barge-in is pending |
| `OutputProtocol.TurnsNeverRepeat` | crates/buzztalk-session/src/machine.rs:181-188 | in any accepted output sequence, of any two outputs the later never submits, cancels or replays a turn again, nor resumes a cancelled one |
| `SessionSafety.RunsNeverRepeatATurn` | crates/buzztalk-session/src/machine.rs:209-586 | the same for any two outputs of any run: at most one submission and one cancellation for a turn, no resumption after its cancellation, ids only grow |
| `OutputProtocol.BargeInIsResolved` | crates/buzztalk-session/src/machine.rs:277-299 | between a replayed pre-roll and the next replay, submission, shown words or closed microphone, the turn submitted last is resumed or cancelled |
| `SessionSafety.RunsResolveBargeIns` | crates/buzztalk-session/src/machine.rs:277-385 | every barge-in of every run is resolved that way, naming exactly the turn that was speaking |
| `OutputProtocol.BargeInIsResolvedOnce` | crates/buzztalk-session/src/machine.rs:277-299 | between two replays exactly one output settles the barge-in, the turn being on hold up to it and not after, and no other resumes a turn |
| `SessionSafety.RunsResolveBargeInsOnce` | crates/buzztalk-session/src/machine.rs:277-385 | the same in every run of the machine |
| `OutputProtocol.CaptureAlternates` | crates/buzztalk-session/src/machine.rs:209-256 | between two openings of the microphone lies a closing, and conversely |
| `SessionSafety.RunsAlternateCapture` | crates/buzztalk-session/src/machine.rs:209-256 | the same in every run of the machine |
| `SessionSafety.StaleInputsDoNotInterfere` | crates/buzztalk-session/src/machine.rs:98-100 | deleting every turn-tagged input that was not current on arrival changes neither the final state nor one output of any history |
| `SessionSafety.DeadTurnsStayDead` | crates/buzztalk-session/src/machine.rs:181-188 | a turn issued and neither current nor parked never becomes either again, and nothing is ever emitted on its behalf |
| `SessionSafety.CancelKills` | crates/buzztalk-session/src/machine.rs:225-256 | a turn is alive until the input that cancels its synthesis and dead from then on |
| `SessionSafety.FlagMeansSaid` | crates/buzztalk-session/src/machine.rs:417-458 | in every run the completion flag says exactly whether the speaking, or parked, turn itself was reported complete while it spoke |
| `SessionSafety.ReplyEndsOnlyWhenComplete` | crates/buzztalk-session/src/machine.rs:441-474 | AgentSpeaking goes to Listening exactly on `PlaybackDrained` for the current turn after an accepted `AgentTurnComplete` for that same turn |
| `SessionSafety.SilenceClosesSession` | crates/buzztalk-session/src/machine.rs:528-586 | under ticks alone the session is not Idle before the remaining stage limits have passed, and is Idle once they have, with one tick to spare per further stage |
| `SessionSafety.UnprovenBargeInResumes` | crates/buzztalk-session/src/machine.rs:565-579 | under ticks alone a barge-in returns to exactly the parked turn, with its completion flag, as soon as the retraction window has passed and not before |
| `SessionSafety.PrerollIsRecent` | crates/buzztalk-session/src/machine.rs:137-148 | the pre-roll is always the newest 150 frames offered since the running session started, and empty while Idle |
| `Sequences.NewestSnoc` | crates/buzztalk-session/src/preroll.rs:38-43 | evicting the oldest of a full buffer and appending keeps exactly the newest frames of the history |
| `Transitions.EdgeIff` | crates/buzztalk-session/src/machine.rs:209-586 | each edge of the state diagram is taken by exactly the inputs it names, timers in nanoseconds included; nothing else changes the state |
| `Transitions.EdgeCarriesTurns` | crates/buzztalk-session/src/machine.rs:209-586 | the current turn, the turn on hold and the turn counter after any input, from the edge alone |
| `Transitions.EdgeCarriesWords` | crates/buzztalk-session/src/machine.rs:321-415 | the utterance is held from its final transcript until the submission is settled, and a refused one is kept with its error until the next session |
| `Transitions.EdgeSetsTimers` | crates/buzztalk-session/src/machine.rs:528-586 | each timer counts the ticks in its state since the state was entered |
| `Transitions.EdgeAsks` | crates/buzztalk-session/src/machine.rs:209-586 | every input asks for exactly the outputs its edge calls for, and for none twice |
| `Utterances.UtteranceIsFinalized` | crates/buzztalk-session/src/machine.rs:258-275 | an utterance that the detector or the button begins and ends is finalised as a turn of its own, whatever arrives meanwhile that does not stop it |
| `Utterances.SpokenWordsAreSubmitted` | crates/buzztalk-session/src/machine.rs:321-356 | when its final transcript arrives, those words are submitted, for that turn |
| `Utterances.RefusedWordsAreKept` | crates/buzztalk-session/src/machine.rs:400-415 | in every run a refused submission keeps the words that were submitted last, and the error |
| `SessionMachine.SessionMachine.Handle` | crates/buzztalk-session/src/machine.rs:152-175 | one input moves the object to the state, and yields the outputs, that the specification of the machine gives, the reported state change included |
| `SessionMachine.SessionMachine.PushFrame` | crates/buzztalk-session/src/machine.rs:137-142 | frames are buffered only outside Idle, evicting the oldest at 150 |
| `SessionMachine.SessionMachine.OnSessionStart` | crates/buzztalk-session/src/machine.rs:209-223 | starting: new state and outputs as specified |
| `SessionMachine.SessionMachine.OnSessionEnd` | crates/buzztalk-session/src/machine.rs:225-256 | ending: the speaking or parked turn is stopped and cancelled, every field reset |
| `SessionMachine.SessionMachine.OnEndpointEvent` | crates/buzztalk-session/src/machine.rs:258-275 | a speech start opens a turn, a speech end finalises it |
| `SessionMachine.SessionMachine.OnBargeInConfirmed` | crates/buzztalk-session/src/machine.rs:277-299 | the speaking turn is parked and a new one becomes current, completion flag kept |
| `SessionMachine.SessionMachine.OnPartialTranscript` | crates/buzztalk-session/src/machine.rs:301-319 | any partial of the current turn, blank or not, proves a barge-in; stale turns are ignored |
| `SessionMachine.SessionMachine.OnFinalTranscript` | crates/buzztalk-session/src/machine.rs:321-356 | a current final transcript submits, cancelling a parked turn first |
| `SessionMachine.SessionMachine.OnFinalTranscriptRejected` | crates/buzztalk-session/src/machine.rs:358-374 | a rejected transcript returns to Listening only from Finalizing |
| `SessionMachine.SessionMachine.ConfirmGenuineBargeIn` | crates/buzztalk-session/src/machine.rs:376-385 | the parked turn is cancelled exactly once |
| `SessionMachine.SessionMachine.OnSubmitSucceeded` | crates/buzztalk-session/src/machine.rs:387-398 | submission accepted |
| `SessionMachine.SessionMachine.OnSubmitFailed` | crates/buzztalk-session/src/machine.rs:400-415 | submission refused: the utterance and the error are kept |
| `SessionMachine.SessionMachine.OnAgentTextArrived` | crates/buzztalk-session/src/machine.rs:417-439 | the first text of the current turn starts the reply |
| `SessionMachine.SessionMachine.OnAgentTurnComplete` | crates/buzztalk-session/src/machine.rs:441-458 | a complete turn is flagged while speaking, and ends at once if it never spoke |
| `SessionMachine.SessionMachine.OnPlaybackDrained` | crates/buzztalk-session/src/machine.rs:460-474 | a drain ends the reply only for the current, complete turn |
| `SessionMachine.SessionMachine.OnPttPressed` | crates/buzztalk-session/src/machine.rs:476-517 | push to talk takes the floor from every state but Idle and UserSpeaking |
| `SessionMachine.SessionMachine.OnPttReleased` | crates/buzztalk-session/src/machine.rs:519-526 | release finalises the utterance |
| `SessionMachine.SessionMachine.OnTick` | crates/buzztalk-session/src/machine.rs:528-586 | the timer of the active state only is advanced, and its expiry handled |
| `Playback.PlaybackState.StartTurn` | crates/buzztalk-pipeline/src/playback.rs:70-77 | starting a turn empties the live queue and lifts an earlier abandonment |
| `Playback.PlaybackState.CancelPlayback` | crates/buzztalk-pipeline/src/playback.rs:80-90 | a live turn goes on hold with an empty queue; otherwise nothing changes |
| `Playback.PlaybackState.FlushLive` | crates/buzztalk-pipeline/src/playback.rs:92-97 | only the live queue is emptied |
| `Playback.PlaybackState.CancelSynthesis` | crates/buzztalk-pipeline/src/playback.rs:100-110 | the turn is abandoned and loses its queues, live or held |
| `Playback.PlaybackState.ResumeTurn` | crates/buzztalk-pipeline/src/playback.rs:114-126 | only the held turn can be resumed, with everything queued meanwhile |
| `Playback.PlaybackState.RouteSynthesized` | crates/buzztalk-pipeline/src/playback.rs:132-150 | audio joins the live or the held queue of its own turn and is otherwise counted as stale |
| `Playback.PlaybackState.TakeLive` | crates/buzztalk-pipeline/src/playback.rs:152-155 | the front of the live queue is taken and nothing lost |
| `PlaybackTheorems.AbandonedIsGivenUp` | crates/buzztalk-pipeline/src/playback.rs:70-110 | over any history of calls a turn is abandoned exactly if its synthesis was cancelled and it was not started since |
| `PlaybackTheorems.FloorIsTold` | crates/buzztalk-pipeline/src/playback.rs:70-126 | which turn is live and which on hold, told by the calls alone |
| `PlaybackTheorems.StaleIsUnwanted` | crates/buzztalk-pipeline/src/playback.rs:132-150 | the stale count is the number of results for turns that were neither, or given up |
| `PlaybackTheorems.ResultsJoinTheirQueue` | crates/buzztalk-pipeline/src/playback.rs:132-150 | a wanted result joins the end of its own turn's queue, and no other queue changes |
| `PlaybackTheorems.CallsOnQueues` | crates/buzztalk-pipeline/src/playback.rs:70-126 | what starting, stopping, flushing, cancelling and resuming make of a turn's queue |
| `PlaybackTheorems.StartedTurnsAreHeard` | crates/buzztalk-pipeline/src/playback.rs:70-77 | a turn started anew is heard again |
| `ConversationSafety.DispatchHasEffect` | crates/buzztalk-pipeline/src/pipeline.rs:1026-1070 | acting on all outputs of any of the orchestrator's own inputs, nested submission included, amounts to one of a few effects told by the states before and after |
| `ConversationSafety.StepKeepsOk` | crates/buzztalk-pipeline/src/pipeline.rs:1026-1345 | every step keeps session and playback in lockstep, queues equal to the newest samples of live submitted turns, fed audio in order, and samples conserved |
| `ConversationTheorems.EveryRunKeepsInvariant` | crates/buzztalk-pipeline/src/pipeline.rs:801-822 | the same for every run, whatever the order of transcripts, agent events, synthesis results, feeds and device rebuilds |
| `ConversationTheorems.BackendNamesSubmittedTurns` | crates/buzztalk-buzz/src/agent.rs:131-178 | the assumption made on agents is met by the shipped backend: whatever it reports names the turn submitted last |
| `ConversationTheorems.AbandonedTurnsAreSilent` | crates/buzztalk-pipeline/src/playback.rs:100-150 | once `CancelSynthesis(t)` has been acted on, no sample of `t` reaches the engine in any continuation |
| `ConversationTheorems.FedInOrderOnce` | crates/buzztalk-pipeline/src/playback.rs:132-155 | in every run the samples fed for a turn are in order and without repetition, and each arrived sample was fed, is queued or was discarded exactly once |
| `LossTheorems.StepLoses` | crates/buzztalk-pipeline/src/playback.rs:80-150 | the only losses of any step: all that is queued when the machine cancels, what is live when it stops for a barge-in or is displaced by a new turn, and arrivals for a turn neither live nor on hold |
| `LossTheorems.EverySampleIsAccountedFor` | crates/buzztalk-pipeline/src/playback.rs:70-155 | over every run each sample that arrived was fed, is queued, or is one of those losses |
| `LossTheorems.UninterruptedReplyIsHeardInFull` | crates/buzztalk-pipeline/src/pipeline.rs:1243-1488 | in every run a reply from its first text to its normal end, if nothing interrupts it, is fed in full: every sample that arrived for it, once and in order |
| `ConversationTheorems.ResumeLosesNothing` | crates/buzztalk-pipeline/src/playback.rs:114-126 | after a retracted barge-in the live queue is exactly what arrived for the turn during it, in order |
| `SpeechTheorems.ReplyIsHeardAsSaid` | crates/buzztalk-pipeline/src/pipeline.rs:1243-1488 | with the worker in the loop, an uninterrupted reply is heard, sample for sample, as what the synthesiser makes of exactly the phrases the agent said in it, in their order |
| `SpeechTheorems.NothingSaidIsLost` | crates/buzztalk-pipeline/src/pipeline.rs:1281-1286 | over every run those phrases hold every visible character of the texts the agent sent for the turn, in order, and nothing else |
| `Phrases.PhrasesKeepInk` | crates/buzztalk-tts/src/segmentation.rs:45-53 | phrases hold every visible character of their text, in order |
| `SpeechTheorems.RunIsSourced` | crates/buzztalk-pipeline/src/tts_worker.rs:79-104 | in every run each sample that arrived is the one at its place in the results so far for its turn, and what was sent for a turn is what was said in it |
| `SubmissionTheorems.WordsReachAgent` | crates/buzztalk-pipeline/src/pipeline.rs:1037-1055 | in every run the agent is handed the words of exactly those final transcripts that found their turn waiting for them, each once and in order |
| `CancelTheorems.WorkerIsTold` | crates/buzztalk-pipeline/src/pipeline.rs:1056-1060 | in every run the worker, while there is one, has been told of every cancelled turn |
| `CancelTheorems.CancelledTurnsAreNotVoiced` | crates/buzztalk-pipeline/src/tts_worker.rs:79-104 | once a turn is cancelled, nothing the worker is sent for it later is ever answered |
| `LostVoice.LostVoiceIsNeverAwaited` | crates/buzztalk-pipeline/src/pipeline.rs:855-868 | once the synthesiser is lost no turn ever waits for it again, whatever follows |
| `ConversationTheorems.SpeakingLosesNothing` | crates/buzztalk-pipeline/src/playback.rs:132-155 | while a turn speaks uninterrupted none of its samples is discarded |
| `ConversationTheorems.ReplyEndsCleanly` | crates/buzztalk-pipeline/src/pipeline.rs:1288-1345 | a reply ends normally only through the agent's completion or the feeder, after its own completion, with no pending phrase and an empty queue, everything that arrived handed over or discarded before |
| `ConversationSafety.FeedShape` | crates/buzztalk-pipeline/src/pipeline.rs:1442-1488 | feeding tops up, restarts the pacing when dry, and moves the session only by a drain of the live turn without pending phrases |
| `SynthesisTheorems.EveryRunKeepsPending` | crates/buzztalk-pipeline/src/pipeline.rs:843-868 | in every run without unasked results the pending count of a live or held turn is requests minus results |
| `WorkerTheorems.ServedRunsAreHonest` | crates/buzztalk-pipeline/src/tts_worker.rs:79-104 | with the worker in the loop, answering what it was sent in order, no result is ever unasked for |
| `WorkerTheorems.NoReplyEndsWithPhrasesInSynthesis` | crates/buzztalk-pipeline/src/pipeline.rs:1310-1321 | a reply never ends normally while one of its phrases is still in synthesis, the worker being in the loop |
| `PacingTheorems.FeedKeepsPace` | crates/buzztalk-pipeline/src/pipeline.rs:1442-1488 | a feed never hands over more than 1920 samples nor overruns the clock by more than the lead |
| `PacingTheorems.FeedNeverOutrunsClock` | crates/buzztalk-pipeline/src/pipeline.rs:1453-1472 | over whole runs, since the ring was last dry, samples handed over never exceed the time played plus 1920 |
| `PlayoutTheorems.EndIsGenuineIff` | crates/buzztalk-pipeline/src/pipeline.rs:1288-1344 | however a reply ends, what was handed over has been played by then exactly if the ring was empty before the step and, where the feeder ends it, so was the live queue |
| `PlayoutTheorems.FeedKeepsTruthIff` | crates/buzztalk-pipeline/src/pipeline.rs:1453-1476 | from a state where from now on the ring holds exactly what the feeder believes, and nothing where it believes nothing, a feed keeps it so exactly if it hands nothing over, or neither resets the pacing nor comes after the believed end of the ring |
| `PlayoutTheorems.EstimateStaysTrueIff` | crates/buzztalk-pipeline/src/pipeline.rs:1453-1476 | in every clocked run the ring holds at least what the feeder believes, and exactly that after every step if and only if every feed is of that kind |
| `PlayoutTheorems.EndIsGenuineIfTrue` | crates/buzztalk-pipeline/src/pipeline.rs:1288-1344 | where the estimate is true, a reply ended by a completion has always been played out, and one ended by the feeder exactly if the live queue was empty before the call |
| `PlayoutTheorems.RunIsTrackedIff` | crates/buzztalk-pipeline/src/pipeline.rs:1470-1472 | over every clocked run the ring holds what the estimate or, after a reset, the time and size of the last hand-over lead to expect, if and only if every feed hands nothing over, starts afresh no earlier than that is played out, resets a true estimate, or comes no later than the believed end of the ring |
| `PlayoutTheorems.EndIsGenuineIffTracked` | crates/buzztalk-pipeline/src/pipeline.rs:1310-1334 | then a completion without an anchor ends a played-out reply exactly if the last hand-over that reset the pacing has had the time it takes to play |
| `PlayoutTheorems.SoundRunsEndGenuinelyIff` | crates/buzztalk-pipeline/src/pipeline.rs:1470-1486 | the exact condition for the end of any reply after any run of such feeds, in what the feeder can know |
| `LeadTheorems.SoundRunsKeepLead` | crates/buzztalk-pipeline/src/playback.rs:30-34 | after any run of such feeds at most 1920 samples are left in the ring, to be heard although playback is cancelled |
| `LeadTheorems.RunKeepsLeadIff` | crates/buzztalk-pipeline/src/playback.rs:30-34 | over every clocked run the ring is all along within that bound if and only if each feed finds its estimate right, or what is queued fits beside what the ring holds |
| `DrainWitnesses.LeadIsExceeded` | crates/buzztalk-pipeline/src/playback.rs:30-34 | a run that leaves 3360 samples in the ring |
| `EndTheorems.FeedsEndReplyIff` | crates/buzztalk-pipeline/src/pipeline.rs:1442-1488 | feeding alone, for long enough, ends a complete reply with nothing in synthesis exactly if anything is queued or was pushed since the pacing was reset |
| `EndTheorems.CompleteRepliesEndIff` | crates/buzztalk-pipeline/src/pipeline.rs:1442-1488 | the same after any run |
| `StuckResume.ResumeCanStick` | crates/buzztalk-pipeline/src/pipeline.rs:1445-1447 | a run after which a resumed reply, complete and with nothing queued, is never ended by any feeding |
| `LoopOrder.OrderedRunsAreClocked` | crates/buzztalk-pipeline/src/pipeline.rs:801-822 | time never goes back in a run that keeps the order of the loop: controls, tick, detectors, devices, transcripts, agent, results, feed |
| `DrainWitnesses.FeederEndsWithFullQueue` | crates/buzztalk-pipeline/src/pipeline.rs:1473-1476 | a run in which the feeder ends a reply in the call that hands over its only samples |
| `DrainWitnesses.FeederEndsWithEmptyQueue` | crates/buzztalk-pipeline/src/pipeline.rs:1470-1486 | a run in which it ends one with an empty queue and 1440 samples unplayed |
| `DrainWitnesses.CompletionEndsWithoutAnchor` | crates/buzztalk-pipeline/src/pipeline.rs:1310-1334 | a run in which a completion ends a reply one pass after its hand-over reset the pacing |
| `DrainWitnesses.CompletionEndsAnchored` | crates/buzztalk-pipeline/src/pipeline.rs:1310-1334 | a run in which it does so although the pacing is anchored |
| `Orchestrator.Orchestrator.DispatchInput` | crates/buzztalk-pipeline/src/pipeline.rs:1026-1029 | one input dispatched in place is the dispatch step of the transition system |
| `Orchestrator.Orchestrator.ActOnAll` | crates/buzztalk-pipeline/src/pipeline.rs:1031-1035 | outputs are acted on in order |
| `Orchestrator.Orchestrator.ActOn` | crates/buzztalk-pipeline/src/pipeline.rs:1037-1070 | each output has the specified effect on playback, agent and session, the nested dispatch after a submission included |
| `Orchestrator.Orchestrator.HandleText` | crates/buzztalk-pipeline/src/pipeline.rs:1245-1287 | text of an unrecognised turn is ignored; the first text of a turn starts its playback, and the phrases of the text are requested one by one |
| `Orchestrator.Orchestrator.RequestPhrases` | crates/buzztalk-pipeline/src/pipeline.rs:1281-1286 | each phrase is sent and counted as pending, and nothing without a synthesiser |
| `Orchestrator.Orchestrator.HandleAgentEvent` | crates/buzztalk-pipeline/src/pipeline.rs:1243-1304 | one agent event is handled, as text or as a completion |
| `Orchestrator.Orchestrator.HandleComplete` | crates/buzztalk-pipeline/src/pipeline.rs:1288-1304 | completion is dispatched, and a drain signalled at once if nothing is left to play |
| `Orchestrator.Orchestrator.ResidentSamples` | crates/buzztalk-pipeline/src/pipeline.rs:1327-1334 | the estimate of what is still in the ring |
| `Orchestrator.Orchestrator.IsNothingLeft` | crates/buzztalk-pipeline/src/pipeline.rs:1310-1321 | true exactly when the turn is unknown or has nothing pending, queued or resident |
| `Orchestrator.Orchestrator.SendDrained` | crates/buzztalk-pipeline/src/pipeline.rs:1341-1344 | the pending count is dropped before the drain is dispatched |
| `Orchestrator.Orchestrator.DrainTtsResult` | crates/buzztalk-pipeline/src/pipeline.rs:843-853 | a result lowers the pending count, never below zero, and is routed |
| `Orchestrator.Orchestrator.FeedPlayback` | crates/buzztalk-pipeline/src/pipeline.rs:1442-1488 | the feeder step of the transition system |
| `Orchestrator.Orchestrator.PollAgent` | crates/buzztalk-pipeline/src/pipeline.rs:813-815 | the agent is polled and its event, if any, handled |
| `Orchestrator.Orchestrator.RebuildEngine` | crates/buzztalk-pipeline/src/pipeline.rs:973-1022 | with a new engine, pacing restarts and the session ends and starts again; if none can be opened all stays as it was |
| `Orchestrator.Orchestrator.LoseSynthesizer` | crates/buzztalk-pipeline/src/pipeline.rs:855-868 | a lost synthesiser leaves nothing pending |
| `BuzzAgent.BuzzAgent.SubmitTurn` | crates/buzztalk-buzz/src/agent.rs:131-143 | a submission becomes the current turn, stops the quiet timer and is published |
| `BuzzAgent.BuzzAgent.PollEvent` | crates/buzztalk-buzz/src/agent.rs:145-178 | the draining loop equals its specification: early replies discarded, others attributed to the current turn, one completion per quiet period |
| `AgentTheorems.PublishesWhatIsAsked` | crates/buzztalk-buzz/src/agent.rs:131-143 | over any history exactly the texts handed over are published, in order |
| `AgentTheorems.PollReports` | crates/buzztalk-buzz/src/agent.rs:145-178 | after any history a poll reports the next reply, as the last turn's, or else the end of that turn exactly if a reply was reported the quiet period ago and nothing was asked or reported since; replies polled before the first turn are dropped |
| `TtsWorker.Work` | crates/buzztalk-pipeline/src/tts_worker.rs:79-104 | the worker loop answers requests in order, skipping cancelled turns and failures |
| `TtsWorker.ServeMore` | crates/buzztalk-pipeline/src/tts_worker.rs:79-104 | later requests never change what earlier ones were answered |
| `TtsWorker.AtMostOneAnswerEach` | crates/buzztalk-pipeline/src/tts_worker.rs:79-104 | a turn never gets more results than requests, and exactly as many when nothing of it fails or is cancelled |
| `TtsWorker.NothingAfterCancel` | crates/buzztalk-pipeline/src/tts_worker.rs:21-32 | requests that follow a cancellation of their turn yield nothing, whatever they are |
| `TtsWorker.AnswersAreVoiced` | crates/buzztalk-pipeline/src/tts_worker.rs:79-104 | the samples a turn gets, unless it is cancelled, are those the synthesiser makes of its texts, in their order |
| `TtsWorker.TextsOfRequests` | crates/buzztalk-pipeline/src/pipeline.rs:1281-1286 | the requests for phrases carry those phrases, in order, for that turn and no other |
| `Segmentation.Split` | crates/buzztalk-tts/src/segmentation.rs:55-126 | the scan computes a segmentation: ordered spans that cover all but whitespace, tight against all five rules and each ended for a reason; the chunks are those of every segmentation there is |
| `Segmentation.CutAt` | crates/buzztalk-tts/src/segmentation.rs:67-112 | where the five competing rules cut at one character |
| `Segmentation.SkipWs` | crates/buzztalk-tts/src/segmentation.rs:136-141 | the next position that is not whitespace |
| `Segmentation.PushChunk` | crates/buzztalk-tts/src/segmentation.rs:128-134 | a trimmed, non-empty chunk is appended |
| `Segmentation.SegmentationIsUnique` | crates/buzztalk-tts/src/segmentation.rs:55-126 | there is exactly one segmentation for each text and mask, so the rules determine the result |
| `Segmentation.CutsRespectProtection` | crates/buzztalk-tts/src/segmentation.rs:62-124 | no cut falls between two protected characters, and unprotected spans have at most 240 |
| `Segmentation.SegmentationKeepsInk` | crates/buzztalk-tts/src/segmentation.rs:55-141 | the chunks keep every visible character, in order |
| `Segmentation.RulesInNumbers` | crates/buzztalk-tts/src/segmentation.rs:20-43 | the five rules in characters and numbers: where an unprotected character must be the last of its chunk, and how far into one a space may lie |
| `Segmentation.ReasonsInNumbers` | crates/buzztalk-tts/src/segmentation.rs:62-124 | and the reasons for which a chunk may end before the text does |
| `Text.TrimCuts` | crates/buzztalk-tts/src/segmentation.rs:128-134 | trimming cuts off nothing but whitespace, at the ends |
| `ProtectedMask.ProtectCodeFences` | crates/buzztalk-tts/src/segmentation.rs:157-185 | a character is marked exactly when it lies between a fence and its partner or, without one, the end of the text, the fences being characterised without a scan |
| `ProtectedMask.FencesAreUnique` | crates/buzztalk-tts/src/segmentation.rs:157-185 | the fences of a text, three backticks each and as early as can be, are determined |
| `Constructs.BlockIsProtected` | crates/buzztalk-tts/src/segmentation.rs:157-185 | a fenced block is protected from its first backtick to its last, and nothing outside it |
| `Constructs.OpenBlockIsProtected` | crates/buzztalk-tts/src/segmentation.rs:157-185 | a block never closed is protected to the end of the text |
| `ProtectedMask.ProtectUrls` | crates/buzztalk-tts/src/segmentation.rs:189-213 | exactly the unbroken runs after an unprotected URL start are marked |
| `Constructs.UrlIsProtected` | crates/buzztalk-tts/src/segmentation.rs:189-213 | a URL is protected from its scheme up to the next whitespace |
| `ProtectedMask.ProtectNumbers` | crates/buzztalk-tts/src/segmentation.rs:225-260 | exactly the runs of digits and joined separators that hold a decimal point are marked |
| `Constructs.DecimalIsProtected` | crates/buzztalk-tts/src/segmentation.rs:225-260 | a decimal number is protected, all of it |
| `Constructs.GroupedDecimalIsProtected` | crates/buzztalk-tts/src/segmentation.rs:225-260 | so are groups of digits that lead up to one |
| `Constructs.WholeNumberIsNotProtected` | crates/buzztalk-tts/src/segmentation.rs:225-260 | a whole number at the end of a sentence is not |
| `ProtectedMask.NumberFrom` | crates/buzztalk-tts/src/segmentation.rs:231-249 | the run is maximal, and its decimal point is reported if and only if it has one |
| `ProtectedMask.ProtectTables` | crates/buzztalk-tts/src/segmentation.rs:265-293 | exactly the lines with a pipe are marked, with the newlines between two of them |
| `ProtectedMask.FindLines` | crates/buzztalk-tts/src/segmentation.rs:267-277 | the lines of the text |
| `TableRule.FilledCellsMeans` | crates/buzztalk-tts/src/segmentation.rs:305-309 | a pipe with content on both sides is the same as content in two cells between pipes |
| `TableRule.TableRuleAgreesIff` | crates/buzztalk-tts/src/segmentation.rs:295-310 | the rule in force and the one its comment describes agree on a line exactly if it has no pipe, is a separator, or has content in at least two cells |
| `TableRule.TablesAsDocumentedIff` | crates/buzztalk-tts/src/segmentation.rs:262-293 | a text gets more protection than documented exactly if some line has a pipe, is no separator and has content in fewer than two cells, and otherwise exactly what is documented |
| `TableRule.OneCellIsTakenForTable` | crates/buzztalk-tts/src/segmentation.rs:305-309 | a line on which the rules differ |
| `ProtectedMask.Protect` | crates/buzztalk-tts/src/segmentation.rs:145-155 | the whole mask is the union of the four, each exactly characterised |
| `ProtectedMask.MaskIsUnique` | crates/buzztalk-tts/src/segmentation.rs:145-155 | the characterisation leaves exactly one mask for each text |
| `Phrases.NothingProtectedIsCut` | crates/buzztalk-tts/src/segmentation.rs:157-260 | no cut separates two characters of a fence, URL, decimal number or table, nor touches a decimal point |
| `Phrases.ChunksAreTrimmed` | crates/buzztalk-tts/src/segmentation.rs:128-134 | chunks are non-empty and have no whitespace at either end |
| `Phrases.SegmentIntoPhrases` | crates/buzztalk-tts/src/segmentation.rs:45-53 | phrases keep every visible character of the input in order, and are those of the trimmed text |
| `Phrases.PhrasesAreUnique` | crates/buzztalk-tts/src/segmentation.rs:45-53 | a text has at most one sequence of phrases |
| `Prompt.PreparePrompt` | crates/buzztalk-tts/src/engine.rs:63-107 | the in-place clean-up equals its specification |
| `Prompt.PrepareYieldsPrepared` | crates/buzztalk-tts/src/engine.rs:63-107 | preparing gives nothing exactly for blank text, and otherwise single-spaced, capitalised and terminated text |
| `Prompt.PrepareIsIdempotent` | crates/buzztalk-tts/src/engine.rs:63-107 | prepared text is exactly what preparing leaves alone |
| `Prompt.PreparedWords` | crates/buzztalk-tts/src/engine.rs:63-107 | the prepared text is the words of the input, one for one, the first with a capital and the last with a full stop after a letter or digit, joined by single spaces; five frames follow up to four words and three follow more |
| `Prompt.PrepareKeepsInk` | crates/buzztalk-tts/src/engine.rs:63-107 | no visible character is lost, added or reordered but for that capital and that full stop |
| `Wording.WordsSplit` | crates/buzztalk-tts/src/engine.rs:99-99 | any whitespace separates the words before it from those after it, and text without any is one word |
| `Wording.WordsOfJoin` | crates/buzztalk-tts/src/engine.rs:99-99 | words joined by single spaces are read back as those words |
| `Prompt.AudioInOrder` | crates/buzztalk-tts/src/engine.rs:233-245 | the audio of chunks follows their order |
| `Prompt.CutText` | crates/buzztalk-tts/src/engine.rs:178-216 | the pieces keep every visible character in order, fit the budget unless a single character, and every cut was forced |
| `Prompt.AddWord` | crates/buzztalk-tts/src/engine.rs:186-213 | one word joins the open piece or closes it, and only when it does not fit |
| `Prompt.CutWord` | crates/buzztalk-tts/src/engine.rs:196-212 | a word over budget is cut between characters, again only where forced |
| `Prompt.AddChar` | crates/buzztalk-tts/src/engine.rs:198-209 | one character joins the open fragment or closes it |
| `Prompt.PrepareAll` | crates/buzztalk-tts/src/engine.rs:217-228 | every piece is prepared and within budget, or the offending piece is reported |
| `Prompt.SplitPrompt` | crates/buzztalk-tts/src/engine.rs:174-231 | splitting fails only if the tokenizer does or a single character is over budget; text within budget stays whole |
| `Prompt.SynthAll` | crates/buzztalk-tts/src/engine.rs:233-276 | on split prompts neither re-preparation nor the model's budget check can fail; only conditioning on the voice or inference can |
| `Prompt.SynthesizeText` | crates/buzztalk-tts/src/engine.rs:233-245 | the pieces spoken carry every visible character of the input, capitalised and terminated; over-budget errors are unreachable unless one visible character alone is over budget, for any tokenizer; otherwise only tokenizer and inference can fail |
| `Resampler.Resampler.Push` | crates/buzztalk-audio/src/resample.rs:62-80 | each input adds exactly the outputs it determines |
| `Resampler.Resampler.PushedAll` | crates/buzztalk-audio/src/resample.rs:62-80 | after k further inputs there are exactly ceil(k*to/from) outputs, output m interpolating at m*from/to |
| `Resampler.OutputsReachTheEnd` | crates/buzztalk-audio/src/resample.rs:62-80 | the outputs are those at the positions strictly before the last input |
| `Resampler.OutputOnInput` | crates/buzztalk-audio/src/resample.rs:73-77 | an output that falls on an input is that input |
| `Resampler.OutputIsBetween` | crates/buzztalk-audio/src/resample.rs:73-77 | every output lies between the two inputs around its position |
| `Resampler.LineStaysLine` | crates/buzztalk-audio/src/resample.rs:73-77 | a straight line is read off at the exact positions |
| `Resampler.EqualRatesCopy` | crates/buzztalk-audio/src/resample.rs:62-80 | between equal rates every output is its input, the last still to come |
| `Resampler.PulledIsBetween` | crates/buzztalk-audio/src/resample.rs:84-100 | every pulled output lies between the two inputs around its position, one input late |
| `Resampler.PulledOnInput` | crates/buzztalk-audio/src/resample.rs:84-100 | and where it falls on an input it is that input |
| `Resampler.Resampler.Pull` | crates/buzztalk-audio/src/resample.rs:84-100 | one output is produced, reading the source only as far as needed and in order |
| `Resampler.Resampler.PulledIsPushed` | crates/buzztalk-audio/src/resample.rs:84-100 | pulled outputs are those pushing gives on the same stream with its first sample doubled |
| `OutputStream.OutputStream.Callback` | crates/buzztalk-audio/src/lib.rs:602-640 | every channel of each device frame carries the one sample computed for it; a partial frame is untouched |
| `OutputStream.OutputStream.RenderFrame` | crates/buzztalk-audio/src/lib.rs:605-636 | one frame keeps playback, device and reference streams consistent at any rate |
| `OutputStream.DriftIsBounded` | crates/buzztalk-audio/src/resample.rs:62-100 | 48 kHz samples consumed minus reference samples emitted is 0 or 1 for any device rate and frame count, and 1 exactly on aligned frames |
| `OutputStream.OutputStream.NeverDrifts` | crates/buzztalk-audio/src/lib.rs:609-639 | the callback as it runs keeps that bound for ever |
| `OutputStream.ReferenceIsWhatWasPlayed` | crates/buzztalk-audio/src/lib.rs:605-638 | at the native rate with no drop the reference frames are exactly the samples written, comfort noise included |
| `Rings.Ring.PushDropping` | crates/buzztalk-audio/src/lib.rs:269-278 | a full ring drops the new sample and counts it |
| `Rings.Ring.PushSlice` | crates/buzztalk-audio/src/lib.rs:334-343 | what fits is queued and the tail dropped, with its exact count |
| `Rings.PlaybackSource.Next` | crates/buzztalk-audio/src/lib.rs:305-315 | an empty ring yields comfort noise and counts an underrun |
| `Rings.FrameReader.TryRecv` | crates/buzztalk-audio/src/framing.rs:36-49 | a frame of exactly 480 samples when that many are at hand; otherwise all is kept |
| `Rings.FrameReader.Conserves` | crates/buzztalk-audio/src/framing.rs:36-49 | accepted samples are the framed, the partial and the queued ones in order; offered is accepted plus dropped |
| `Decimator.Resampler48to16.Process` | crates/buzztalk-stt/src/resample.rs:59-81 | a chunk yields exactly what direct convolution of the whole stream adds |
| `Decimator.Resampler48to16.Convolve` | crates/buzztalk-stt/src/resample.rs:69-75 | the loop over the history is the 31-tap filter at the newest input |
| `Decimator.Resampler48to16.Reset` | crates/buzztalk-stt/src/resample.rs:83-86 | resetting restores the state of a new decimator |
| `Decimator.DecimatedExtends` | crates/buzztalk-stt/src/resample.rs:59-81 | outputs never depend on later inputs |
| `Decimator.ChunkingIsInvisible` | crates/buzztalk-stt/src/resample.rs:59-81 | two chunks yield what their concatenation yields |
| `Decimator.ImpulseYieldsTaps` | crates/buzztalk-stt/src/resample.rs:69-75 | a single 1 brings out the taps, every third of them |
| `Decimator.DecimatedMix` | crates/buzztalk-stt/src/resample.rs:69-75 | decimating a mix of two streams gives the same mix of what each decimates to |
| `Decimator.ConstantKeepsLevel` | crates/buzztalk-stt/src/resample.rs:69-75 | once all taps are reached, a constant comes out at its level times the sum of the taps |
| `Endpoint.EndpointDetector.PushFrame` | crates/buzztalk-vad/src/endpoint.rs:82-145 | the event of every raw frame is the one the offline specification gives for the whole history of frames, through level, floor and threshold |
| `Endpoint.ReportMeans` | crates/buzztalk-vad/src/endpoint.rs:86-142 | speech starts exactly when, outside speech, the voiced run reaches its length, and ends exactly when, inside, the silent run does |
| `Endpoint.HangoverHoldsIff` | crates/buzztalk-vad/src/endpoint.rs:30-31 | the documented hangover is what happens on every history exactly when it is at least 2 |
| `DetectorFrames.HangoverHoldsOnFramesIff` | crates/buzztalk-vad/src/endpoint.rs:120-135 | on all raw frames through all front ends the documented hangover holds exactly from 2 upward, or at 1 where no frame is silent |
| `DetectorFrames.ShortHangoverOutlastedOnFrames` | crates/buzztalk-vad/src/endpoint.rs:34-43 | raw frames that outlast a hangover of 1: nineteen at full scale and two whispers, all else by default |
| `Endpoint.ReportsAlternate` | crates/buzztalk-vad/src/endpoint.rs:82-145 | the events alternate quiet stretches and utterances, each started, continued and ended once |
| `BargeIn.BargeInDetector.PushFrame` | crates/buzztalk-vad/src/bargein.rs:210-259 | the event of every raw frame, and whether the detector is active, is what the offline specification gives for all frames and operations so far, through level, floor and zero crossings |
| `BargeIn.ConfirmationIsUnanimous` | crates/buzztalk-vad/src/bargein.rs:176-197 | count, window and spectral check together mean that the whole newest window was voiced and varied |
| `BargeIn.ActiveSnoc` | crates/buzztalk-vad/src/bargein.rs:236-256 | how one frame moves the offline activity: some start never followed by a silent run of the hangover |
| `BargeIn.ReportMeans` | crates/buzztalk-vad/src/bargein.rs:236-256 | speech starts exactly when it is off and the newest frame meets everything, and ends exactly when it is on and the silent run reaches the hangover |
| `BargeIn.FrameMeans` | crates/buzztalk-vad/src/bargein.rs:158-171 | with what is known when a frame arrives: on headphones a start needs no suppression at all, elsewhere it needs enough of it and the warm-up over |
| `BargeIn.KnownIsTold` | crates/buzztalk-vad/src/bargein.rs:133-157 | the route and the canceller's health are what was last told, across resets; a reset forgets what was heard and that something plays |
| `BargeIn.ReportsAlternate` | crates/buzztalk-vad/src/bargein.rs:210-259 | the events between resets alternate quiet stretches and interruptions, each started, continued and ended once |
| `BargeIn.WarmupHolds` | crates/buzztalk-vad/src/bargein.rs:145-171 | after any operations, playback starts and the guard stays armed: with an echo path a frame starts speech exactly if it is at least the warm-up-th, suppression suffices, and the window is voiced and varied |
| `BargeIn.CountRuleHoldsIff` | crates/buzztalk-vad/src/bargein.rs:41-43 | the documented count rule comes to the detector's verdict on all frames exactly for counts no smaller than the window, or a required variance above what any window of rates can have |
| `Variation.VarianceIsAtMostPeak` | crates/buzztalk-vad/src/bargein.rs:176-189 | the variance of n rates is at most the product of the two halves of n over n squared |
| `Variation.ExtremesVary` | crates/buzztalk-vad/src/bargein.rs:176-189 | and half of the rates at each end of their range attain it |
| `BargeIn.DefaultsDisagree` | crates/buzztalk-vad/src/bargein.rs:64-82 | with the default 3 in 4 it does not: four frames, three of them voiced |
| `DetectorFrames.DefaultsDisagreeOnFrames` | crates/buzztalk-vad/src/bargein.rs:64-82 | the raw frames of such a history: a whisper and three full-scale frames, through the default front end with the decibels of those two levels |
| `DetectorFrames.CountRuleHoldsOnFramesIff` | crates/buzztalk-vad/src/bargein.rs:41-43 | on all raw frames through all front ends the documented count rule holds under the condition above or, where no frame is silent, in any window that is one |
| `DetectorFrames.EvenSoundNeverInterrupts` | crates/buzztalk-vad/src/bargein.rs:176-189 | whatever the level, frames of equal zero-crossing rate throughout the window never start speech where any variance is required |
| `DetectorFrames.OneSidedSoundNeverInterrupts` | crates/buzztalk-vad/src/bargein.rs:176-189 | so neither do frames that each stay on one side of zero |
| `BargeIn.BargeInDetector.GateOpen` | crates/buzztalk-vad/src/bargein.rs:158-171 | the gate, told by route, suppression and frames since playback started |
| `BargeIn.RunRatesSnoc` | crates/buzztalk-vad/src/bargein.rs:219-234 | clearing the rate window on silence keeps exactly the rates of the current voiced run |
| `BargeIn.PushCappedKeepsNewest` | crates/buzztalk-vad/src/bargein.rs:199-207 | the capped window is always the newest part of its history |
| `NoiseFloor.FloorIsTheLowestAllowed` | crates/buzztalk-vad/src/frontend.rs:85-103 | the floor never lies below silence and, for a rise that is one, is the lowest of what the initial floor and each level so far allow |
| `NoiseFloor.NegativeRiseOnlyFalls` | crates/buzztalk-vad/src/frontend.rs:85-103 | with a negative one the floor only falls, down to that of silence |
| `NoiseFloor.LevelMeans` | crates/buzztalk-vad/src/frontend.rs:118-126 | the level is that of silence for a frame of zeros and otherwise the decibels of the mean square, clamped |
| `NoiseFloor.LevelIgnoresOrder` | crates/buzztalk-vad/src/frontend.rs:118-126 | the level does not depend on the order of the samples |
| `NoiseFloor.LevelUnderGain` | crates/buzztalk-vad/src/frontend.rs:118-126 | a gain raises the level by its decibels |
| `Energy.SumConcat` | crates/buzztalk-vad/src/frontend.rs:118-120 | the energy of two stretches together is the sum of theirs |
| `Energy.SumIsZeroIff` | crates/buzztalk-vad/src/frontend.rs:118-121 | the energy is 0 exactly for silence |
| `Energy.SumIgnoresOrder` | crates/buzztalk-vad/src/frontend.rs:118-120 | the energy does not depend on the order of the samples |
| `Energy.SumUnderGain` | crates/buzztalk-vad/src/frontend.rs:118-120 | a gain multiplies the energy by its square |
| `Variation.TotalConcat` | crates/buzztalk-vad/src/bargein.rs:181-182 | the total of two windows together is the sum of theirs |
| `NoiseFloor.VoicingFrontend.Process` | crates/buzztalk-vad/src/frontend.rs:85-110 | features of a frame against that floor, the ratio never negative; a wrong length changes nothing |
| `ZeroCrossings.RateIsShareOfChanges` | crates/buzztalk-vad/src/frontend.rs:128-138 | the rate times the number of neighbouring pairs is the cardinality of the set of places at which the samples rise from below zero or fall below it |
| `ZeroCrossings.RateIsZeroIff` | crates/buzztalk-vad/src/frontend.rs:128-138 | the rate is 0 exactly for frames that stay on one side of zero |
| `ZeroCrossings.RateIsOneIff` | crates/buzztalk-vad/src/frontend.rs:128-138 | the rate is 1 exactly for frames that change sides at every sample |
| `ZeroCrossings.RateIgnoresGain` | crates/buzztalk-vad/src/frontend.rs:128-138 | a positive gain leaves the rate unchanged |

## Left out

- SessionSafety.SilenceClosesSession: covers the four states that time out; that AgentSpeaking ends is not guaranteed by the code (a completion that arrives while Interrupting is dropped, a failed synthesis never lowers the pending count, and `StuckResume.ResumeCanStick` is a complete reply that never ends). `EndTheorems.CompleteRepliesEndIff` says when feeding ends it.
- WorkerTheorems.NoReplyEndsWithPhrasesInSynthesis: for a synthesiser still alive when the reply ends; when its thread is lost the program clears the pending counts on purpose.
- PacingTheorems.FeedNeverOutrunsClock: speaks of one stretch without running dry; across stretches the counters restart from an estimate, and `LeadTheorems.RunKeepsLeadIff` says when the ring keeps to the lead.
- BargeIn.WarmupHolds: for a guard left armed; the pipeline resets the detector right after telling it that playback started, and a reset disarms the guard.
- Orchestrator.Orchestrator.FeedPlayback: the engine takes all it is handed; overflow of its ring is modelled by `Rings.Ring.PushSlice` alone.
- Orchestrator.Orchestrator.ActOn: pre-roll replay into the recogniser, detector resets on state changes and resumption, and events for the host are left out.
- Orchestrator.Orchestrator.HandleText: the notice to the barge-in detector and the text event for the host are left out.
- Orchestrator.Orchestrator.RebuildEngine: only the pacing, the ring and the session; opening devices, counting failed attempts and resetting detectors are not modelled.
- Wrap-around of 64-bit counters, and rounding of floating-point samples, levels and statistics.
- Devices and engines: cpal streams, voice-processing units, routes, echo cancellers, recogniser, ONNX sessions.
- Relay transport: sockets, authentication, signing, reconnection.
- The recogniser worker, its active turn, pre-roll replay into it, and the fragment and empty-transcript filters.
- The silence, dead-capture and device watchdogs, metrics, and the order of outer state-change events.
- The capture callback: mixing channels down and resampling to 48 kHz use the same parts as the output callback.
- The design of the decimator's low-pass taps: any 31 taps are allowed.
- Upsampling of synthesised audio to 48 kHz before it is queued.
- Command line, foreign-function interface, desktop interface, installers and model downloads.
