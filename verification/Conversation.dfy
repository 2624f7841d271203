/** What the orchestrator does in one step, as a function of everything it owns:
    the session machine, the playback queues, the agent backend and the pacing
    of the playback ring. A ghost-like `History` records what was asked of the
    outside world; no step reads it. */
module Conversation {
  import opened Wrappers
  import opened SessionTypes
  import opened Arithmetic
  import opened Sequences
  import S = Session
  import P = Playback
  import A = BuzzAgent
  import Worker = TtsWorker

  type Instant = A.Instant

  /** One synthesised sample. `turn` and `index` name its place in what the
      synthesiser returned for that turn; no code reads them. */
  datatype Sample = Sample(turn: TurnId, index: nat, level: real)

  const LEAD_SAMPLES: nat := 4 * FRAME_SAMPLES

  datatype History = History(
    submitted: set<TurnId>,
    cancelled: set<TurnId>,
    /** Turns reported complete while they were speaking. */
    completed: set<TurnId>,
    /** Phrases sent to, and results received from, the synthesiser. */
    requested: map<TurnId, nat>,
    returned: map<TurnId, nat>,
    /** All that was sent to the synthesis worker, and how many results came back. */
    sent: seq<Worker.Request>,
    received: nat,
    /** How many samples arrived for each turn, and all samples that arrived. */
    arrived: map<TurnId, nat>,
    everything: multiset<Sample>,
    /** Samples handed to the audio engine, in order. */
    fed: seq<Sample>,
    /** When the last sample handed over will have been played, by a device that
        plays one sample every tick as long as it has one. */
    playedOut: Instant,
    /** Samples discarded before reaching the engine. */
    lost: multiset<Sample>)

  datatype World = World(
    session: S.Session,
    playback: P.Playback<Sample>,
    agent: A.Agent,
    tts: bool,
    pending: map<TurnId, nat>,
    pushed: nat,
    anchor: Option<Instant>,
    capturing: bool,
    history: History)

  const NO_HISTORY := History({}, {}, {}, map[], map[], [], 0, map[], multiset{}, [], 0, multiset{})

  function Begin(tts: bool): World {
    World(S.INITIAL, P.Empty(), A.NEW_AGENT, tts, map[], 0, None, false, NO_HISTORY)
  }

  function Count(m: map<TurnId, nat>, turn: TurnId): nat {
    if turn in m then m[turn] else 0
  }

  function PausedQueue(p: P.Playback<Sample>): seq<Sample> {
    if p.paused.Some? then p.paused.value.queued else []
  }

  // ---- Acting on the machine's outputs ----

  predicate HasSubmit(outs: seq<Output>) {
    exists k :: 0 <= k < |outs| && outs[k].SubmitUtterance?
  }

  function Dispatch(w: World, input: Input): World
    decreases if input.SubmitSucceeded? then 1 else 3, 0
  {
    var r := S.Handle(w.session, input);
    ActAll(w.(session := r.next), r.outputs)
  }

  /** What cancelling a turn sends to the worker, while there is one. */
  function CancelRequest(tts: bool, turn: TurnId): seq<Worker.Request> {
    if tts then [Worker.Cancel(turn)] else []
  }

  function ActAll(w: World, outs: seq<Output>): World
    decreases if HasSubmit(outs) then 2 else 0, |outs|
  {
    if outs == [] then w
    else
      assert HasSubmit(outs[1..]) ==> HasSubmit(outs) by {
        if HasSubmit(outs[1..]) {
          var k :| 0 <= k < |outs[1..]| && outs[1..][k].SubmitUtterance?;
          assert outs[k + 1].SubmitUtterance?;
        }
      }
      ActAll(Act(w, outs[0]), outs[1..])
  }

  function Act(w: World, o: Output): World
    decreases if o.SubmitUtterance? then 2 else 0, 0
  {
    var h := w.history;
    var p := w.playback;
    match o
    case StartCapture => w.(capturing := true)
    case StopCapture => w.(capturing := false)
    case SubmitUtterance(turn, text) =>
      Dispatch(w.(agent := A.Submit(w.agent, turn, text), history := h.(submitted := h.submitted + {turn})),
               SubmitSucceeded(turn))
    case CancelPlayback =>
      w.(playback := P.Park(p),
         history := if p.liveTurn.None? then h
                    else h.(lost := h.lost + multiset(p.live) + multiset(PausedQueue(p))))
    case FlushOutputBuffer =>
      w.(playback := P.Flush(p), history := h.(lost := h.lost + multiset(p.live)))
    case CancelSynthesis(turn) =>
      w.(playback := P.Abandon(p, turn),
         history := h.(cancelled := h.cancelled + {turn},
                       sent := h.sent + CancelRequest(w.tts, turn),
                       lost := h.lost + (if p.liveTurn == Some(turn) then multiset(p.live) else multiset{})
                                      + (if P.IsPaused(p, turn) then multiset(PausedQueue(p)) else multiset{})))
    case ResumeSpeaking(turn) =>
      w.(playback := P.Resume(p, turn),
         history := if P.IsPaused(p, turn) then h.(lost := h.lost + multiset(p.live)) else h)
    case ShowPartial(_) | ReplayPreRoll(_) | EmitState(_) => w
  }

  // ---- The agent ----

  /** The first text of a turn starts its playback, displacing what was live. */
  function StartIfNew(w: World, turn: TurnId): World {
    if P.Recognises(w.playback, turn) then w
    else w.(playback := P.Start(w.playback, turn),
            history := w.history.(lost := w.history.lost + multiset(w.playback.live)))
  }

  function AddPhrases(w: World, turn: TurnId, phrases: seq<string>): World {
    if !w.tts || phrases == [] then w
    else
      var h := w.history;
      w.(pending := w.pending[turn := Count(w.pending, turn) + |phrases|],
         history := h.(requested := h.requested[turn := Count(h.requested, turn) + |phrases|],
                       sent := h.sent + Worker.Requests(turn, phrases)))
  }

  lemma CountUpdated(m: map<TurnId, nat>, turn: TurnId, a: nat, b: nat)
    ensures Count(m[turn := a], turn) == a && m[turn := a][turn := b] == m[turn := b]
  {
  }

  lemma AddPhrasesOne(w: World, turn: TurnId, phrases: seq<string>, k: nat)
    requires k < |phrases|
    ensures AddPhrases(AddPhrases(w, turn, phrases[..k]), turn, [phrases[k]]) == AddPhrases(w, turn, phrases[..k + 1])
  {
    if w.tts {
      var h, before := w.history, phrases[..k];
      Worker.RequestsPrefix(turn, phrases, k);
      Worker.RequestsOne(turn, phrases[k]);
      if k == 0 {
        assert before == [] && phrases[..1] == [phrases[0]];
      } else {
        CountUpdated(w.pending, turn, Count(w.pending, turn) + k, Count(w.pending, turn) + k + 1);
        CountUpdated(h.requested, turn, Count(h.requested, turn) + k, Count(h.requested, turn) + k + 1);
        Associates(h.sent, Worker.Requests(turn, before), [Worker.Synthesize(turn, phrases[k])]);
      }
    }
  }

  function OnText(w: World, turn: TurnId, text: string, phrases: seq<string>): World {
    if !P.Recognises(w.playback, turn) && w.session.current != Some(turn) then w
    else AddPhrases(Dispatch(StartIfNew(w, turn), AgentTextArrived(turn, text)), turn, phrases)
  }

  /** Samples believed to be in the engine's ring at `now`. */
  function Resident(w: World, now: Instant): nat {
    if w.anchor.None? then 0
    else if w.pushed <= A.Elapsed(w.anchor.value, now) then 0
    else w.pushed - A.Elapsed(w.anchor.value, now)
  }

  predicate NothingLeftToPlay(w: World, turn: TurnId, now: Instant) {
    !P.Recognises(w.playback, turn) ||
    (Count(w.pending, turn) == 0 && w.playback.liveTurn == Some(turn) && w.playback.live == [] && Resident(w, now) == 0)
  }

  function SignalDrained(w: World, turn: TurnId): World {
    Dispatch(w.(pending := w.pending - {turn}), PlaybackDrained(turn))
  }

  function NoteComplete(w: World, turn: TurnId): World {
    if w.session.state == AgentSpeaking && w.session.current == Some(turn)
    then w.(history := w.history.(completed := w.history.completed + {turn}))
    else w
  }

  function OnComplete(w: World, turn: TurnId, now: Instant): World {
    var done := Dispatch(NoteComplete(w, turn), AgentTurnComplete(turn));
    if NothingLeftToPlay(done, turn, now) then SignalDrained(done, turn) else done
  }

  function OnAgentEvent(w: World, event: A.AgentEvent, now: Instant, phrases: seq<string>): World {
    match event
    case TextChunk(turn, text) => OnText(w, turn, text, phrases)
    case TurnComplete(turn) => OnComplete(w, turn, now)
  }

  // ---- The synthesiser and the feeder ----

  function OnSynthesized(w: World, turn: TurnId, samples: seq<Sample>): World {
    var h := w.history;
    var before := Count(w.pending, turn);
    w.(pending := if turn in w.pending then w.pending[turn := if before == 0 then 0 else before - 1] else w.pending,
       playback := P.Route(w.playback, turn, samples),
       history := h.(returned := h.returned[turn := Count(h.returned, turn) + 1],
                     received := h.received + 1,
                     arrived := h.arrived[turn := Count(h.arrived, turn) + |samples|],
                     everything := h.everything + multiset(samples),
                     lost := if turn in w.playback.abandoned || !P.Recognises(w.playback, turn)
                             then h.lost + multiset(samples) else h.lost))
  }

  function Anchored(w: World, now: Instant): World {
    if w.anchor.None? then w.(anchor := Some(now)) else w
  }

  /** Tops the ring up, and reports a drain when nothing was resident before the
      top-up and nothing is left to hand over after it. */
  function Feed(w: World, now: Instant): World {
    if w.playback.live == [] && w.pushed == 0 then w
    else
      var resident := Resident(Anchored(w, now), now);
      var topped := TopUp(Anchored(w, now), resident, now);
      if topped.playback.live == [] && resident == 0 then
        var dry := topped.(pushed := 0, anchor := None);
        if dry.playback.liveTurn.Some? && Count(dry.pending, dry.playback.liveTurn.value) == 0
        then SignalDrained(dry, dry.playback.liveTurn.value)
        else dry
      else topped
  }

  function Chunk(w: World, resident: nat): seq<Sample> {
    if resident < LEAD_SAMPLES then w.playback.live[..Min(|w.playback.live|, LEAD_SAMPLES - resident)] else []
  }

  /** When the engine's ring will be empty, once it has taken `count` more samples. */
  function PlaysOut(playedOut: Instant, count: nat, now: Instant): Instant {
    if count == 0 then playedOut else Max(playedOut, now) + count
  }

  function TopUp(w: World, resident: nat, now: Instant): World {
    var chunk := Chunk(w, resident);
    w.(playback := w.playback.(live := w.playback.live[|chunk|..]),
       pushed := w.pushed + |chunk|,
       history := w.history.(fed := w.history.fed + chunk, playedOut := PlaysOut(w.history.playedOut, |chunk|, now)))
  }

  /** A new engine has an empty ring, and pacing starts afresh. */
  function Replaced(w: World): World {
    w.(pushed := 0, anchor := None, history := w.history.(playedOut := 0))
  }

  /** The engine is rebuilt on new devices, and the session restarts, so that no
      turn straddles two engines. */
  function Rebuild(w: World): World {
    Dispatch(Dispatch(Replaced(w), SessionEnd), SessionStart)
  }

  function LoseTts(w: World): World {
    w.(tts := false, pending := map[])
  }

  // ---- Steps ----

  datatype Event =
    | External(input: Input)
    | Text(turn: TurnId, text: string, phrases: seq<string>)
    | Complete(turn: TurnId, now: Instant)
    | Synthesized(turn: TurnId, samples: seq<Sample>)
    | TtsLost
    | FeedTick(now: Instant)
    | Rebuilt
    | Replied(reply: string)
    | Polled(now: Instant, quiet: nat, phrases: seq<string>)

  /** The inputs the orchestrator dispatches itself, in answer to controls, the
      clock, the detectors and the recogniser. */
  predicate Direct(input: Input) {
    match input
    case SessionStart | SessionEnd | StopRequested | EndpointEvent(_) | BargeInConfirmed | PartialTranscript(_, _)
       | FinalTranscript(_, _) | FinalTranscriptRejected(_) | PushToTalkPressed | PushToTalkReleased | Tick(_) => true
    case SubmitSucceeded(_) | SubmitFailed(_, _) => false
    case AgentTextArrived(_, _) | AgentTurnComplete(_) | PlaybackDrained(_) => false
  }

  function Step(w: World, e: Event): World {
    match e
    case External(input) => Dispatch(w, input)
    case Text(turn, text, phrases) => OnText(w, turn, text, phrases)
    case Complete(turn, now) => OnComplete(w, turn, now)
    case Synthesized(turn, samples) => if w.tts then OnSynthesized(w, turn, samples) else w
    case TtsLost => LoseTts(w)
    case FeedTick(now) => Feed(w, now)
    case Rebuilt => Rebuild(w)
    case Replied(reply) => w.(agent := w.agent.(inbox := w.agent.inbox + [reply]))
    case Polled(now, quiet, phrases) =>
      var p := A.Poll(w.agent, now, quiet);
      var x := w.(agent := p.agent);
      if p.event.None? then x else OnAgentEvent(x, p.event.value, now, phrases)
  }

  lemma PolledIs(w: World, now: Instant, quiet: nat, phrases: seq<string>)
    ensures
      var p := A.Poll(w.agent, now, quiet);
      Step(w, Polled(now, quiet, phrases)) ==
        if p.event.None? then w.(agent := p.agent)
        else OnAgentEvent(w.(agent := p.agent), p.event.value, now, phrases)
  {
  }
}
