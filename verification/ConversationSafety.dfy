/** What the conversation loop keeps over every run whose agent backend names
    only turns that were submitted to it. Recogniser, synthesiser and agent
    results may arrive at any time and in any order. */
module ConversationSafety {
  import opened Wrappers
  import opened SessionTypes
  import opened Conversation
  import S = Session
  import P = Playback
  import A = BuzzAgent
  import opened OutputProtocol
  import Safety = SessionSafety

  // ---- The invariant ----

  /** Which of a state's turns were submitted, and what its completion flag says. */
  ghost predicate StateFits(s: S.Session, submitted: set<TurnId>, completed: set<TurnId>) {
    match s.state
    case Idle | Listening => true
    case Submitting => false
    case UserSpeaking | Finalizing => s.current.Some? && s.current.value !in submitted
    case AwaitingAgent => s.current.Some? && s.current.value in submitted
    case AgentSpeaking =>
      s.current.Some? && s.current.value in submitted && (s.complete ==> s.current.value in completed)
    case Interrupting =>
      s.current.Some? && s.current.value !in submitted &&
      s.parked.Some? && s.parked.value in submitted && (s.complete ==> s.parked.value in completed)
  }

  /** Session bookkeeping against what was submitted, cancelled and completed. */
  ghost predicate TurnsFit(s: S.Session, submitted: set<TurnId>, cancelled: set<TurnId>, completed: set<TurnId>) {
    && Safety.Good(s)
    && StateFits(s, submitted, completed)
    && (forall t :: t in submitted ==> 1 <= t <= s.counter)
    && (forall t :: t in cancelled ==> t in submitted && Safety.Dead(s, t))
  }

  ghost predicate TurnsOk(s: S.Session, h: History) {
    TurnsFit(s, h.submitted, h.cancelled, h.completed)
  }

  /** Session and playback agree on who is speaking and who is on hold. */
  ghost predicate Lockstep(s: S.Session, p: P.Playback<Sample>) {
    match s.state
    case AgentSpeaking => p.paused.None? && p.liveTurn == s.current
    case Interrupting => p.paused.Some? && s.parked == Some(p.paused.value.turn) && p.liveTurn.None?
    case AwaitingAgent => p.paused.None? && p.liveTurn != s.current
    case _ => p.paused.None?
  }

  /** A queue is exactly the newest samples that arrived for its turn, in order. */
  ghost predicate Tail(q: seq<Sample>, turn: TurnId, arrived: map<TurnId, nat>) {
    |q| <= Count(arrived, turn) &&
    forall k :: 0 <= k < |q| ==> q[k].turn == turn && q[k].index == Count(arrived, turn) - |q| + k
  }

  ghost predicate LiveFits(p: P.Playback<Sample>, allowed: set<TurnId>, arrived: map<TurnId, nat>) {
    match p.liveTurn
    case None => p.live == []
    case Some(turn) => turn in allowed && Tail(p.live, turn, arrived)
  }

  ghost predicate PausedFits(p: P.Playback<Sample>, allowed: set<TurnId>, arrived: map<TurnId, nat>) {
    match p.paused
    case None => true
    case Some(hold) => hold.turn in allowed && Tail(hold.queued, hold.turn, arrived)
  }

  /** Both queues belong to submitted turns that are not cancelled. */
  ghost predicate QueuesFit(
    p: P.Playback<Sample>, submitted: set<TurnId>, cancelled: set<TurnId>, arrived: map<TurnId, nat>)
  {
    p.abandoned == cancelled &&
    LiveFits(p, submitted - cancelled, arrived) && PausedFits(p, submitted - cancelled, arrived)
  }

  ghost predicate QueuesOk(p: P.Playback<Sample>, h: History) {
    QueuesFit(p, h.submitted, h.cancelled, h.arrived)
  }

  /** Where the samples still queued for `turn` begin. */
  function Frontier(p: P.Playback<Sample>, arrived: map<TurnId, nat>, turn: TurnId): int {
    Count(arrived, turn) -
    (if p.liveTurn == Some(turn) then |p.live| else 0) -
    (if P.IsPaused(p, turn) then |p.paused.value.queued| else 0)
  }

  /** What was fed for a turn came from it, in order, and before what is queued. */
  ghost predicate FedFit(p: P.Playback<Sample>, arrived: map<TurnId, nat>, fed: seq<Sample>) {
    && (forall i :: 0 <= i < |fed| ==> fed[i].index < Frontier(p, arrived, fed[i].turn))
    && (forall i, j :: 0 <= i < j < |fed| && fed[i].turn == fed[j].turn ==> fed[i].index < fed[j].index)
  }

  ghost predicate FedOk(p: P.Playback<Sample>, h: History) {
    FedFit(p, h.arrived, h.fed)
  }

  /** Every sample that arrived was fed, is queued or was discarded: exactly one. */
  ghost predicate Conserved(p: P.Playback<Sample>, h: History) {
    h.everything == multiset(h.fed) + multiset(p.live) + multiset(PausedQueue(p)) + h.lost
  }

  ghost predicate Coherent(w: World) {
    match w
    case World(session, playback, agent, _, _, _, _, capturing, history) =>
      && TurnsOk(session, history)
      && Lockstep(session, playback)
      && QueuesOk(playback, history)
      && FedOk(playback, history)
      && Conserved(playback, history)
      && (capturing <==> session.state != Idle)
      && (agent.current.Some? ==> agent.current.value in history.submitted)
  }

  ghost predicate Stamped(samples: seq<Sample>, turn: TurnId, from: nat) {
    forall k :: 0 <= k < |samples| ==> samples[k].turn == turn && samples[k].index == from + k
  }

  /** What is assumed of the outside: only the orchestrator's own inputs are
      dispatched directly, and the agent names only submitted turns. The last
      clause merely fixes the names of arriving samples. */
  ghost predicate Enabled(w: World, e: Event) {
    match e
    case External(input) => Direct(input)
    case Text(turn, _, _) => turn in w.history.submitted
    case Complete(turn, _) => turn in w.history.submitted
    case Synthesized(turn, samples) => Stamped(samples, turn, Count(w.history.arrived, turn))
    case _ => true
  }

  // ---- What a dispatch does ----

  function Silenced(w: World, turn: TurnId): World {
    w.(playback := w.playback.(live := [], liveTurn := None, paused := None,
                               abandoned := w.playback.abandoned + {turn}),
       history := w.history.(cancelled := w.history.cancelled + {turn},
                             sent := w.history.sent + CancelRequest(w.tts, turn),
                             lost := w.history.lost + multiset(w.playback.live) + multiset(PausedQueue(w.playback))))
  }

  function OnHold(w: World, turn: TurnId): World {
    w.(playback := w.playback.(live := [], liveTurn := None, paused := Some(P.Paused(turn, []))),
       history := w.history.(lost := w.history.lost + multiset(w.playback.live)))
  }

  function Resumed(w: World, turn: TurnId): World {
    w.(playback := w.playback.(live := PausedQueue(w.playback), liveTurn := Some(turn), paused := None))
  }

  function Submitted(w: World, turn: TurnId, text: string): World {
    w.(session := w.session.(utterance := None, awaiting := 0, state := AwaitingAgent),
       agent := A.Submit(w.agent, turn, text),
       history := w.history.(submitted := w.history.submitted + {turn}))
  }

  /** The speaking turn or, while interrupting, the turn on hold. */
  function Speaker(s: S.Session): Option<TurnId> {
    if s.state == AgentSpeaking then s.current else if s.state == Interrupting then s.parked else None
  }

  /** The effect of dispatching one of the orchestrator's own inputs, told by the
      states before and after. */
  function Effect(w: World, input: Input): World {
    EffectTo(w, input, S.Handle(w.session, input).next)
  }

  function EffectTo(w: World, input: Input, n: S.Session): World {
    var s := w.session;
    var x := w.(session := n, capturing := n.state != Idle);
    var speaker := Speaker(s);
    var cut :=
      if speaker.Some? && (n.state == Idle || n.state == UserSpeaking || n.state == Submitting)
      then Silenced(x, speaker.value) else x;
    if n.state == Submitting && s.state != Submitting && input.FinalTranscript?
    then Submitted(cut, input.turn, input.text)
    else if s.state == AgentSpeaking && n.state == Interrupting && s.current.Some? then OnHold(x, s.current.value)
    else if s.state == Interrupting && n.state == AgentSpeaking && s.parked.Some? then Resumed(x, s.parked.value)
    else cut
  }

  predicate Quiet(o: Output) {
    o.StartCapture? || o.StopCapture? || o.ShowPartial? || o.ReplayPreRoll? || o.EmitState?
  }

  function Capturing(before: bool, outs: seq<Output>): bool
    decreases |outs|
  {
    if outs == [] then before
    else Capturing(if outs[0].StartCapture? then true else if outs[0].StopCapture? then false else before, outs[1..])
  }

  lemma {:induction false} ActQuiet(w: World, outs: seq<Output>)
    requires forall k :: 0 <= k < |outs| ==> Quiet(outs[k])
    ensures ActAll(w, outs) == w.(capturing := Capturing(w.capturing, outs))
    decreases |outs|
  {
    if outs != [] {
      ActQuiet(Act(w, outs[0]), outs[1..]);
    }
  }

  lemma {:induction false} ActConcat(w: World, a: seq<Output>, b: seq<Output>)
    ensures ActAll(w, a + b) == ActAll(ActAll(w, a), b)
    decreases |a|
  {
    if a == [] {
      assert a + b == b;
    } else {
      assert (a + b)[1..] == a[1..] + b;
      ActConcat(Act(w, a[0]), a[1..], b);
    }
  }

  lemma ActOne(w: World, o: Output)
    ensures ActAll(w, [o]) == Act(w, o)
  {
    assert [o][1..] == [];
  }

  lemma ActPair(w: World, a: Output, b: Output)
    ensures ActAll(w, [a, b]) == Act(Act(w, a), b)
  {
    assert [a, b] == [a] + [b];
    ActConcat(w, [a], [b]);
    ActOne(w, a);
    ActOne(Act(w, a), b);
  }

  /** Stopping playback puts a live turn on hold and changes nothing otherwise. */
  lemma ActStop(w: World)
    requires w.playback.liveTurn.Some? ==> w.playback.paused.None?
    requires w.playback.liveTurn.None? ==> w.playback.live == []
    ensures ActAll(w, [CancelPlayback, FlushOutputBuffer]) ==
      if w.playback.liveTurn.Some? then OnHold(w, w.playback.liveTurn.value) else w
  {
    ActPair(w, CancelPlayback, FlushOutputBuffer);
  }

  lemma ActCancel(w: World, turn: TurnId)
    requires w.playback.liveTurn.None? && w.playback.live == [] && P.IsPaused(w.playback, turn)
    ensures ActAll(w, [CancelSynthesis(turn)]) == Silenced(w, turn)
  {
    ActOne(w, CancelSynthesis(turn));
  }

  /** Stopping playback and then cancelling the speaking or held turn. */
  lemma ActCut(w: World, turn: TurnId)
    requires
      || (w.playback.liveTurn == Some(turn) && w.playback.paused.None?)
      || (w.playback.liveTurn.None? && w.playback.live == [] && P.IsPaused(w.playback, turn))
    ensures ActAll(w, [CancelPlayback, FlushOutputBuffer, CancelSynthesis(turn)]) == Silenced(w, turn)
  {
    var stop := [CancelPlayback, FlushOutputBuffer];
    assert [CancelPlayback, FlushOutputBuffer, CancelSynthesis(turn)] == stop + [CancelSynthesis(turn)];
    ActConcat(w, stop, [CancelSynthesis(turn)]);
    ActStop(w);
    ActCancel(ActAll(w, stop), turn);
  }

  lemma ActSubmit(w: World, turn: TurnId, text: string)
    requires w.session.state == Submitting && w.session.current == Some(turn)
    ensures ActAll(w, [SubmitUtterance(turn, text)]) == Submitted(w, turn, text)
  {
    ActOne(w, SubmitUtterance(turn, text));
    var x := w.(agent := A.Submit(w.agent, turn, text),
                history := w.history.(submitted := w.history.submitted + {turn}));
    var r := S.Handle(x.session, SubmitSucceeded(turn));
    assert r.outputs == [EmitState(AwaitingAgent)];
    ActOne(x.(session := r.next), EmitState(AwaitingAgent));
  }

  /** A head of known effect followed by quiet outputs. */
  lemma ActHeadTail(w: World, head: seq<Output>, tail: seq<Output>)
    requires forall k :: 0 <= k < |tail| ==> Quiet(tail[k])
    ensures ActAll(w, head + tail) == ActAll(w, head).(capturing := Capturing(ActAll(w, head).capturing, tail))
  {
    ActConcat(w, head, tail);
    ActQuiet(ActAll(w, head), tail);
  }

  lemma {:induction false} CapturingFew(b: bool, outs: seq<Output>)
    ensures |outs| == 0 ==> Capturing(b, outs) == b
    ensures |outs| == 1 ==>
      Capturing(b, outs) == if outs[0].StartCapture? then true else if outs[0].StopCapture? then false else b
    ensures |outs| == 2 ==> Capturing(b, outs) == Capturing(Capturing(b, outs[..1]), outs[1..])
    decreases |outs|
  {
    if 1 <= |outs| <= 2 {
      assert outs[1..] == [] || outs[1..] == [outs[1]];
    }
  }

  // The shape of the outputs of each interesting input.

  lemma EndShape(s: S.Session)
    requires Safety.Good(s) && s.state != Idle
    ensures S.Handle(s, SessionEnd).outputs ==
      (if Speaker(s).Some? then [CancelPlayback, FlushOutputBuffer, CancelSynthesis(Speaker(s).value)] else []) +
      [StopCapture, EmitState(Idle)]
  {
  }

  lemma PttShape(s: S.Session)
    requires Safety.Good(s) && s.state != Idle && s.state != UserSpeaking
    ensures S.Handle(s, PushToTalkPressed).outputs ==
      (if s.state == AgentSpeaking then [CancelPlayback, FlushOutputBuffer, CancelSynthesis(Speaker(s).value)]
       else if s.state == Interrupting then [CancelSynthesis(Speaker(s).value)] else []) +
      [EmitState(UserSpeaking)]
  {
  }

  /** Inputs whose reaction touches neither playback nor the backend. */
  predicate Plain(s: S.Session, input: Input) {
    (input.Tick? || input.PartialTranscript? || input.SessionStart? || input.EndpointEvent? ||
     input.FinalTranscriptRejected? || input.PushToTalkReleased?) &&
    (Speaker(s).None? || S.Handle(s, input).next.state == s.state)
  }

  lemma PlainShape(s: S.Session, input: Input)
    requires Safety.Good(s) && Plain(s, input)
    ensures
      var r := S.Handle(s, input);
      (forall k :: 0 <= k < |r.outputs| ==> Quiet(r.outputs[k])) &&
      (Capturing(s.state != Idle, r.outputs) <==> r.next.state != Idle)
  {
    CapturingFew(s.state != Idle, S.Handle(s, input).outputs);
  }

  lemma EffectOfPlain(w: World, input: Input)
    requires Coherent(w) && Plain(w.session, input)
    ensures Dispatch(w, input) == Effect(w, input)
  {
    var r := S.Handle(w.session, input);
    PlainShape(w.session, input);
    ActQuiet(w.(session := r.next), r.outputs);
  }

  lemma EffectOfEnd(w: World)
    requires Coherent(w)
    ensures Dispatch(w, SessionEnd) == Effect(w, SessionEnd) && Dispatch(w, StopRequested) == Effect(w, StopRequested)
  {
    var s := w.session;
    if s.state != Idle {
      var x := w.(session := S.Handle(s, SessionEnd).next);
      var tail := [StopCapture, EmitState(Idle)];
      EndShape(s);
      CapturingFew(w.capturing, tail);
      if Speaker(s).Some? {
        ActHeadTail(x, [CancelPlayback, FlushOutputBuffer, CancelSynthesis(Speaker(s).value)], tail);
        ActCut(x, Speaker(s).value);
      } else {
        ActHeadTail(x, [], tail);
      }
    }
  }

  lemma EffectOfPtt(w: World)
    requires Coherent(w) && Speaker(w.session).None?
    ensures Dispatch(w, PushToTalkPressed) == Effect(w, PushToTalkPressed)
  {
    var r := S.Handle(w.session, PushToTalkPressed);
    CapturingFew(w.capturing, r.outputs);
    ActQuiet(w.(session := r.next), r.outputs);
  }

  lemma EffectOfPttSpeaking(w: World)
    requires Coherent(w) && w.session.state == AgentSpeaking
    ensures Dispatch(w, PushToTalkPressed) == Effect(w, PushToTalkPressed)
  {
    var s := w.session;
    var x := w.(session := S.Handle(s, PushToTalkPressed).next);
    PttShape(s);
    CapturingFew(w.capturing, [EmitState(UserSpeaking)]);
    ActHeadTail(x, [CancelPlayback, FlushOutputBuffer, CancelSynthesis(s.current.value)], [EmitState(UserSpeaking)]);
    ActCut(x, s.current.value);
  }

  lemma EffectOfPttInterrupting(w: World)
    requires Coherent(w) && w.session.state == Interrupting
    ensures Dispatch(w, PushToTalkPressed) == Effect(w, PushToTalkPressed)
  {
    var s := w.session;
    var x := w.(session := S.Handle(s, PushToTalkPressed).next);
    PttShape(s);
    CapturingFew(w.capturing, [EmitState(UserSpeaking)]);
    ActHeadTail(x, [CancelSynthesis(s.parked.value)], [EmitState(UserSpeaking)]);
    ActCancel(x, s.parked.value);
  }

  lemma BargeShape(s: S.Session)
    requires s.state == AgentSpeaking
    ensures
      var r := S.Handle(s, BargeInConfirmed);
      r.next.state == Interrupting &&
      r.outputs == [CancelPlayback, FlushOutputBuffer] + [ReplayPreRoll(s.counter + 1), EmitState(Interrupting)]
  {
  }

  lemma EffectOfBargeIn(w: World)
    requires Coherent(w) && w.session.state == AgentSpeaking
    ensures Dispatch(w, BargeInConfirmed) == Effect(w, BargeInConfirmed)
  {
    var s := w.session;
    var x := w.(session := S.Handle(s, BargeInConfirmed).next);
    var tail := [ReplayPreRoll(s.counter + 1), EmitState(Interrupting)];
    BargeShape(s);
    ActHeadTail(x, [CancelPlayback, FlushOutputBuffer], tail);
    ActStop(x);
    CapturingFew(w.capturing, tail);
  }

  lemma ResumeShape(s: S.Session, dt: Duration)
    requires Safety.Good(s) && !Plain(s, Tick(dt))
    ensures
      var r := S.Handle(s, Tick(dt));
      s.state == Interrupting && s.parked.Some? && r.next.state == AgentSpeaking &&
      r.outputs == [ResumeSpeaking(s.parked.value)] + [EmitState(AgentSpeaking)]
  {
  }

  lemma ProofShape(s: S.Session, turn: TurnId, text: string)
    requires Safety.Good(s) && !Plain(s, PartialTranscript(turn, text))
    ensures
      var r := S.Handle(s, PartialTranscript(turn, text));
      s.state == Interrupting && s.parked.Some? && r.next.state == UserSpeaking &&
      r.outputs == [CancelSynthesis(s.parked.value)] + [ShowPartial(text), EmitState(UserSpeaking)]
  {
  }

  lemma EffectOfResume(w: World, dt: Duration)
    requires Coherent(w) && !Plain(w.session, Tick(dt))
    ensures Dispatch(w, Tick(dt)) == Effect(w, Tick(dt))
  {
    var s := w.session;
    var r := S.Handle(s, Tick(dt));
    var x := w.(session := r.next);
    ResumeShape(s, dt);
    ActHeadTail(x, [ResumeSpeaking(s.parked.value)], [EmitState(AgentSpeaking)]);
    ActOne(x, ResumeSpeaking(s.parked.value));
    CapturingFew(w.capturing, [EmitState(AgentSpeaking)]);
  }

  lemma EffectOfProof(w: World, turn: TurnId, text: string)
    requires Coherent(w) && !Plain(w.session, PartialTranscript(turn, text))
    ensures Dispatch(w, PartialTranscript(turn, text)) == Effect(w, PartialTranscript(turn, text))
  {
    var s := w.session;
    var r := S.Handle(s, PartialTranscript(turn, text));
    var x := w.(session := r.next);
    var tail := [ShowPartial(text), EmitState(UserSpeaking)];
    ProofShape(s, turn, text);
    ActHeadTail(x, [CancelSynthesis(s.parked.value)], tail);
    ActCancel(x, s.parked.value);
    CapturingFew(w.capturing, tail);
  }

  lemma FinalShape(s: S.Session, turn: TurnId, text: string)
    requires Safety.Good(s) && s.state != Submitting
    ensures
      var r := S.Handle(s, FinalTranscript(turn, text));
      if s.current == Some(turn) && (s.state == Interrupting || s.state == Finalizing)
      then
        r.next.state == Submitting && r.next.current == Some(turn) &&
        r.outputs ==
          ((if s.state == Interrupting then [CancelSynthesis(s.parked.value)] else []) +
           [SubmitUtterance(turn, text)]) +
          [EmitState(Submitting)]
      else r.next == s && r.outputs == []
  {
  }

  lemma EffectOfFinal(w: World, turn: TurnId, text: string)
    requires Coherent(w) && w.session.current == Some(turn) && w.session.state == Finalizing
    ensures Dispatch(w, FinalTranscript(turn, text)) == Effect(w, FinalTranscript(turn, text))
  {
    var x := w.(session := S.Handle(w.session, FinalTranscript(turn, text)).next);
    var submit := [SubmitUtterance(turn, text)];
    FinalShape(w.session, turn, text);
    assert [] + submit == submit;
    ActHeadTail(x, submit, [EmitState(Submitting)]);
    ActSubmit(x, turn, text);
    CapturingFew(w.capturing, [EmitState(Submitting)]);
  }

  lemma EffectOfFinalProof(w: World, turn: TurnId, text: string)
    requires Coherent(w) && w.session.current == Some(turn) && w.session.state == Interrupting
    ensures Dispatch(w, FinalTranscript(turn, text)) == Effect(w, FinalTranscript(turn, text))
  {
    var s := w.session;
    var x := w.(session := S.Handle(s, FinalTranscript(turn, text)).next);
    var cut, submit := [CancelSynthesis(s.parked.value)], [SubmitUtterance(turn, text)];
    FinalShape(s, turn, text);
    ActHeadTail(x, cut + submit, [EmitState(Submitting)]);
    ActConcat(x, cut, submit);
    ActCancel(x, s.parked.value);
    ActSubmit(ActAll(x, cut), turn, text);
    CapturingFew(w.capturing, [EmitState(Submitting)]);
  }

  lemma EffectOfNothing(w: World, input: Input)
    requires Coherent(w) && S.Handle(w.session, input) == S.Ignore(w.session)
    ensures Dispatch(w, input) == Effect(w, input)
  {
  }

  lemma DispatchHasEffect(w: World, input: Input)
    requires Coherent(w) && Direct(input)
    ensures Dispatch(w, input) == Effect(w, input)
  {
    if Plain(w.session, input) {
      EffectOfPlain(w, input);
    } else {
      match input {
        case SessionEnd | StopRequested => EffectOfEnd(w);
        case PushToTalkPressed =>
          if w.session.state == AgentSpeaking {
            EffectOfPttSpeaking(w);
          } else if w.session.state == Interrupting {
            EffectOfPttInterrupting(w);
          } else {
            EffectOfPtt(w);
          }
        case BargeInConfirmed =>
          if w.session.state == AgentSpeaking {
            EffectOfBargeIn(w);
          } else {
            EffectOfNothing(w, input);
          }
        case Tick(dt) => EffectOfResume(w, dt);
        case PartialTranscript(turn, text) => EffectOfProof(w, turn, text);
        case FinalTranscript(turn, text) =>
          FinalShape(w.session, turn, text);
          if w.session.current == Some(turn) && w.session.state == Finalizing {
            EffectOfFinal(w, turn, text);
          } else if w.session.current == Some(turn) && w.session.state == Interrupting {
            EffectOfFinalProof(w, turn, text);
          } else {
            EffectOfNothing(w, input);
          }
        case _ => EffectOfNothing(w, input);
      }
    }
  }

  // ---- Every dispatch keeps the invariant ----

  ghost predicate PlaybackOk(w: World) {
    QueuesOk(w.playback, w.history) && FedOk(w.playback, w.history) && Conserved(w.playback, w.history)
  }

  lemma SilencedKeeps(w: World, turn: TurnId)
    requires PlaybackOk(w) && P.Recognises(w.playback, turn)
    requires w.playback.liveTurn.None? || w.playback.paused.None?
    ensures PlaybackOk(Silenced(w, turn))
  {
  }

  lemma OnHoldKeeps(w: World, turn: TurnId)
    requires PlaybackOk(w) && w.playback.liveTurn == Some(turn) && w.playback.paused.None?
    ensures PlaybackOk(OnHold(w, turn))
  {
  }

  lemma ResumedKeeps(w: World, turn: TurnId)
    requires PlaybackOk(w) && w.playback.liveTurn.None? && P.IsPaused(w.playback, turn)
    ensures PlaybackOk(Resumed(w, turn))
  {
  }

  /** How one direct input may move the session. */
  ghost predicate Moves(s: S.Session, input: Input, n: S.Session) {
    && Safety.Good(n)
    && s.counter <= n.counter
    && (n.state == UserSpeaking || n.state == Finalizing || n.state == Interrupting ==>
          || n.current.value > s.counter
          || (n.current == s.current && (s.state == UserSpeaking || s.state == Finalizing || s.state == Interrupting)))
    && (n.state == AwaitingAgent ==> s.state == AwaitingAgent && n.current == s.current)
    && (n.state == AgentSpeaking ==>
          n.complete == s.complete &&
          ((s.state == AgentSpeaking && n.current == s.current) || (s.state == Interrupting && n.current == s.parked)))
    && (n.state == Interrupting ==>
          n.complete == s.complete &&
          ((s.state == Interrupting && n.parked == s.parked && n.current == s.current) ||
           (s.state == AgentSpeaking && n.parked == s.current)))
    && (n.state == Submitting ==>
          input.FinalTranscript? && n.current == s.current == Some(input.turn) &&
          (s.state == Finalizing || s.state == Interrupting))
    && (n.state == s.state || Edge(s.state, n.state))
    && (s.state == AgentSpeaking ==> n.state != Listening)
  }

  lemma TranscriptMoves(s: S.Session, input: Input)
    requires Safety.Good(s) && s.state != Submitting
    requires input.PartialTranscript? || input.FinalTranscript? || input.FinalTranscriptRejected?
    ensures Moves(s, input, S.Handle(s, input).next)
  {
    Safety.StepKeepsGood(s, input);
  }

  lemma TickMoves(s: S.Session, dt: Duration)
    requires Safety.Good(s) && s.state != Submitting
    ensures Moves(s, Tick(dt), S.Handle(s, Tick(dt)).next)
  {
    Safety.StepKeepsGood(s, Tick(dt));
  }

  lemma ControlMoves(s: S.Session, input: Input)
    requires Safety.Good(s) && s.state != Submitting && Direct(input)
    requires !input.Tagged() && !input.Tick?
    ensures Moves(s, input, S.Handle(s, input).next)
  {
    Safety.StepKeepsGood(s, input);
  }

  lemma DirectMoves(s: S.Session, input: Input)
    requires Safety.Good(s) && s.state != Submitting && Direct(input)
    ensures Moves(s, input, S.Handle(s, input).next)
  {
    match input {
      case PartialTranscript(_, _) | FinalTranscript(_, _) | FinalTranscriptRejected(_) => TranscriptMoves(s, input);
      case Tick(dt) => TickMoves(s, dt);
      case _ => ControlMoves(s, input);
    }
  }

  lemma SubmittedKeeps(w: World, turn: TurnId, text: string)
    requires PlaybackOk(w)
    ensures PlaybackOk(Submitted(w, turn, text))
  {
  }

  lemma PlaybackOneOf(w: World, a: World, b: World)
    requires PlaybackOk(a) && PlaybackOk(b)
    requires w == a || w == b
    ensures PlaybackOk(w)
  {
  }

  lemma EffectKeepsPlayback(w: World, input: Input, n: S.Session)
    requires Coherent(w) && Moves(w.session, input, n)
    ensures PlaybackOk(EffectTo(w, input, n))
  {
    var s, f := w.session, EffectTo(w, input, n);
    var x := w.(session := n, capturing := n.state != Idle);
    if Speaker(s).Some? {
      var turn := Speaker(s).value;
      SilencedKeeps(x, turn);
      if n.state == Submitting {
        SubmittedKeeps(Silenced(x, turn), input.turn, input.text);
        PlaybackOneOf(f, Submitted(Silenced(x, turn), input.turn, input.text), x);
      } else if s.state == AgentSpeaking {
        OnHoldKeeps(x, turn);
        EffectOutcome(w, input, n);
        PlaybackOneOf(f, OnHold(x, turn), if f == x then x else Silenced(x, turn));
      } else {
        ResumedKeeps(x, turn);
        EffectOutcome(w, input, n);
        PlaybackOneOf(f, Resumed(x, turn), if f == x then x else Silenced(x, turn));
      }
    } else if n.state == Submitting {
      SubmittedKeeps(x, input.turn, input.text);
      PlaybackOneOf(f, Submitted(x, input.turn, input.text), x);
    } else {
      PlaybackOneOf(f, x, x);
    }
  }

  /** The few things one direct input can do. */
  lemma EffectOutcome(w: World, input: Input, n: S.Session)
    ensures
      var x, speaker := w.(session := n, capturing := n.state != Idle), Speaker(w.session);
      var f := EffectTo(w, input, n);
      || f == x
      || (n.state == Submitting && input.FinalTranscript? && f == Submitted(x, input.turn, input.text))
      || (speaker.Some? &&
           (|| f == Silenced(x, speaker.value)
            || (n.state == Submitting && input.FinalTranscript? &&
                 f == Submitted(Silenced(x, speaker.value), input.turn, input.text))
            || (w.session.state == AgentSpeaking && f == OnHold(x, speaker.value))
            || (w.session.state == Interrupting && f == Resumed(x, speaker.value))))
  {
  }

  /** Turns cancelled by the effect are dead afterwards. */
  lemma CutKeepsTurns(w: World, input: Input, n: S.Session)
    requires Coherent(w) && Moves(w.session, input, n)
    requires forall t: TurnId :: Safety.Dead(w.session, t) ==> Safety.Dead(n, t)
    ensures forall t :: t in EffectTo(w, input, n).history.cancelled ==> Safety.Dead(n, t) && t in w.history.submitted
  {
  }

  lemma MoveKeepsTurns(s: S.Session, h: History, input: Input, n: S.Session, after: History)
    requires TurnsOk(s, h) && Moves(s, input, n) && n.state != Submitting
    requires after.submitted == h.submitted && after.completed == h.completed
    requires forall t :: t in after.cancelled ==> Safety.Dead(n, t) && t in h.submitted
    ensures TurnsOk(n, after)
  {
  }

  lemma SubmitKeepsTurns(s: S.Session, h: History, input: Input, n: S.Session, done: S.Session, after: History)
    requires TurnsOk(s, h) && Moves(s, input, n) && n.state == Submitting
    requires done == n.(utterance := None, awaiting := 0, state := AwaitingAgent)
    requires after.submitted == h.submitted + {n.current.value} && after.completed == h.completed
    requires forall t :: t in after.cancelled ==> Safety.Dead(n, t) && t in h.submitted
    ensures TurnsOk(done, after)
  {
  }

  lemma EffectIsSubmission(w: World, input: Input, n: S.Session)
    requires w.session.state != Submitting && n.state == Submitting && input.FinalTranscript?
    ensures
      var x, speaker := w.(session := n, capturing := true), Speaker(w.session);
      EffectTo(w, input, n) ==
        Submitted(if speaker.Some? then Silenced(x, speaker.value) else x, input.turn, input.text)
  {
  }

  /** What the effect submits and completes. */
  lemma EffectSubmits(w: World, input: Input, n: S.Session)
    requires w.session.state != Submitting && (n.state == Submitting ==> input.FinalTranscript?)
    ensures
      var x := EffectTo(w, input, n);
      && x.history.completed == w.history.completed
      && (n.state != Submitting ==> x.session == n && x.history.submitted == w.history.submitted)
      && (n.state == Submitting ==>
            x.session == n.(utterance := None, awaiting := 0, state := AwaitingAgent) &&
            x.history.submitted == w.history.submitted + {input.turn})
  {
    if n.state == Submitting {
      EffectIsSubmission(w, input, n);
    } else {
      EffectOutcome(w, input, n);
    }
  }

  lemma EffectKeepsTurns(w: World, input: Input, n: S.Session)
    requires Coherent(w) && Moves(w.session, input, n)
    requires forall t: TurnId :: Safety.Dead(w.session, t) ==> Safety.Dead(n, t)
    ensures TurnsOk(EffectTo(w, input, n).session, EffectTo(w, input, n).history)
  {
    var x := EffectTo(w, input, n);
    EffectSubmits(w, input, n);
    CutKeepsTurns(w, input, n);
    if n.state == Submitting {
      SubmitKeepsTurns(w.session, w.history, input, n, x.session, x.history);
    } else {
      MoveKeepsTurns(w.session, w.history, input, n, x.history);
    }
  }

  lemma EffectKeepsLockstep(w: World, input: Input, n: S.Session)
    requires Safety.Good(w.session) && Lockstep(w.session, w.playback) && Moves(w.session, input, n)
    requires w.session.state != AgentSpeaking && w.session.current.Some? && w.session.state != AwaitingAgent ==>
      w.playback.liveTurn != w.session.current
    ensures Lockstep(EffectTo(w, input, n).session, EffectTo(w, input, n).playback)
  {
  }

  lemma EffectKeepsRest(w: World, input: Input, n: S.Session)
    requires w.agent.current.Some? ==> w.agent.current.value in w.history.submitted
    ensures
      var x := EffectTo(w, input, n);
      (x.capturing <==> x.session.state != Idle) &&
      (x.agent.current.Some? ==> x.agent.current.value in x.history.submitted)
  {
    EffectOutcome(w, input, n);
  }

  lemma DispatchKeepsOk(w: World, input: Input)
    requires Coherent(w) && Direct(input)
    ensures Coherent(Dispatch(w, input))
  {
    var n := S.Handle(w.session, input).next;
    DispatchHasEffect(w, input);
    DirectMoves(w.session, input);
    EffectKeepsPlayback(w, input, n);
    forall t: TurnId | Safety.Dead(w.session, t) ensures Safety.Dead(n, t) {
      Safety.DeadStep(w.session, t, input);
    }
    EffectKeepsTurns(w, input, n);
    EffectKeepsLockstep(w, input, n);
    EffectKeepsRest(w, input, n);
  }

  // ---- Every step keeps the invariant ----

  /** What the agent's and the feeder's reports are dispatched as. */
  predicate FromAgent(input: Input) {
    input.AgentTextArrived? || input.AgentTurnComplete? || input.PlaybackDrained?
  }

  /** Such inputs move only the session. */
  lemma AgentInput(w: World, input: Input)
    requires FromAgent(input)
    ensures Dispatch(w, input) == w.(session := S.Handle(w.session, input).next)
  {
    var r := S.Handle(w.session, input);
    ActQuiet(w.(session := r.next), r.outputs);
    CapturingFew(w.capturing, r.outputs);
  }

  lemma StartKeepsQueues(w: World, turn: TurnId)
    requires Coherent(w) && turn in w.history.submitted && w.session.current == Some(turn)
    ensures QueuesOk(StartIfNew(w, turn).playback, StartIfNew(w, turn).history)
  {
  }

  /** Nothing fed is disturbed by queues that only begin later. */
  lemma LaterQueuesKeepFed(
    p: P.Playback<Sample>, arrived: map<TurnId, nat>, fed: seq<Sample>, q: P.Playback<Sample>, more: map<TurnId, nat>)
    requires FedFit(p, arrived, fed)
    requires forall t: TurnId :: Frontier(q, more, t) >= Frontier(p, arrived, t)
    ensures FedFit(q, more, fed)
  {
  }

  lemma StartKeepsFed(w: World, turn: TurnId)
    requires FedOk(w.playback, w.history)
    ensures FedOk(StartIfNew(w, turn).playback, StartIfNew(w, turn).history)
  {
    var x := StartIfNew(w, turn);
    LaterQueuesKeepFed(w.playback, w.history.arrived, w.history.fed, x.playback, x.history.arrived);
  }

  lemma StartKeepsConserved(w: World, turn: TurnId)
    requires Conserved(w.playback, w.history)
    ensures Conserved(StartIfNew(w, turn).playback, StartIfNew(w, turn).history)
  {
  }

  lemma TextKeepsOk(w: World, turn: TurnId, text: string, phrases: seq<string>)
    requires Coherent(w) && turn in w.history.submitted
    ensures Coherent(OnText(w, turn, text, phrases))
  {
    if P.Recognises(w.playback, turn) || w.session.current == Some(turn) {
      var x := StartIfNew(w, turn);
      AgentInput(x, AgentTextArrived(turn, text));
      Safety.StepKeepsGood(w.session, AgentTextArrived(turn, text));
      if w.session.current == Some(turn) {
        StartKeepsQueues(w, turn);
        StartKeepsFed(w, turn);
        StartKeepsConserved(w, turn);
      }
      assert Coherent(Dispatch(x, AgentTextArrived(turn, text)));
    }
  }

  lemma DrainedKeepsOk(w: World, turn: TurnId)
    requires Coherent(w)
    ensures Coherent(SignalDrained(w, turn))
  {
    AgentInput(w.(pending := w.pending - {turn}), PlaybackDrained(turn));
    Safety.StepKeepsGood(w.session, PlaybackDrained(turn));
  }

  lemma ReportKeepsTurns(s: S.Session, h: History, turn: TurnId, after: History)
    requires TurnsOk(s, h) && after.submitted == h.submitted && after.cancelled == h.cancelled
    requires after.completed ==
      if s.state == AgentSpeaking && s.current == Some(turn) then h.completed + {turn} else h.completed
    ensures TurnsOk(S.Handle(s, AgentTurnComplete(turn)).next, after)
  {
  }

  lemma ReportOutcome(s: S.Session, turn: TurnId)
    ensures
      var n := S.Handle(s, AgentTurnComplete(turn)).next;
      || (n.state == s.state && n.current == s.current && n.parked == s.parked)
      || (s.state == AwaitingAgent && n.state == Listening)
  {
  }

  /** The session may flag its reply complete, or drop a turn that never spoke. */
  lemma SessionAlone(w: World, n: S.Session, h: History)
    requires Coherent(w) && TurnsOk(n, h) && h == w.history.(completed := h.completed)
    requires
      || (n.state == w.session.state && n.current == w.session.current && n.parked == w.session.parked)
      || (w.session.state == AwaitingAgent && n.state == Listening)
    ensures Coherent(w.(session := n, history := h))
  {
  }

  lemma ReportKeepsOk(w: World, turn: TurnId)
    requires Coherent(w)
    ensures Coherent(Dispatch(NoteComplete(w, turn), AgentTurnComplete(turn)))
  {
    var x := NoteComplete(w, turn);
    AgentInput(x, AgentTurnComplete(turn));
    ReportOutcome(w.session, turn);
    ReportKeepsTurns(w.session, w.history, turn, x.history);
    SessionAlone(w, S.Handle(w.session, AgentTurnComplete(turn)).next, x.history);
  }

  lemma CompleteKeepsOk(w: World, turn: TurnId, now: Instant)
    requires Coherent(w)
    ensures Coherent(OnComplete(w, turn, now))
  {
    ReportKeepsOk(w, turn);
    DrainedKeepsOk(Dispatch(NoteComplete(w, turn), AgentTurnComplete(turn)), turn);
  }

  lemma TailGrows(q: seq<Sample>, turn: TurnId, arrived: map<TurnId, nat>, samples: seq<Sample>)
    requires Tail(q, turn, arrived) && Stamped(samples, turn, Count(arrived, turn))
    ensures Tail(q + samples, turn, arrived[turn := Count(arrived, turn) + |samples|])
  {
  }

  lemma RouteKeepsLive(w: World, turn: TurnId, samples: seq<Sample>, allowed: set<TurnId>)
    requires turn in allowed ==> turn !in w.playback.abandoned
    requires LiveFits(w.playback, allowed, w.history.arrived)
    requires Stamped(samples, turn, Count(w.history.arrived, turn))
    ensures
      var x := OnSynthesized(w, turn, samples);
      LiveFits(x.playback, allowed, x.history.arrived)
  {
    if w.playback.liveTurn == Some(turn) {
      TailGrows(w.playback.live, turn, w.history.arrived, samples);
    }
  }

  lemma RouteKeepsPaused(w: World, turn: TurnId, samples: seq<Sample>, allowed: set<TurnId>)
    requires turn in allowed ==> turn !in w.playback.abandoned
    requires w.playback.liveTurn.Some? ==> w.playback.paused.None?
    requires PausedFits(w.playback, allowed, w.history.arrived)
    requires Stamped(samples, turn, Count(w.history.arrived, turn))
    ensures
      var x := OnSynthesized(w, turn, samples);
      PausedFits(x.playback, allowed, x.history.arrived)
  {
    if P.IsPaused(w.playback, turn) {
      TailGrows(w.playback.paused.value.queued, turn, w.history.arrived, samples);
    }
  }

  lemma RouteKeepsQueues(w: World, turn: TurnId, samples: seq<Sample>)
    requires Coherent(w) && Stamped(samples, turn, Count(w.history.arrived, turn))
    ensures QueuesOk(OnSynthesized(w, turn, samples).playback, OnSynthesized(w, turn, samples).history)
  {
    var allowed := w.history.submitted - w.history.cancelled;
    RouteKeepsLive(w, turn, samples, allowed);
    RouteKeepsPaused(w, turn, samples, allowed);
  }

  lemma RouteKeepsFed(w: World, turn: TurnId, samples: seq<Sample>)
    requires FedOk(w.playback, w.history)
    ensures FedOk(OnSynthesized(w, turn, samples).playback, OnSynthesized(w, turn, samples).history)
  {
    var x := OnSynthesized(w, turn, samples);
    LaterQueuesKeepFed(w.playback, w.history.arrived, w.history.fed, x.playback, x.history.arrived);
  }

  lemma RouteKeepsConserved(w: World, turn: TurnId, samples: seq<Sample>)
    requires Conserved(w.playback, w.history)
    ensures Conserved(OnSynthesized(w, turn, samples).playback, OnSynthesized(w, turn, samples).history)
  {
  }

  lemma RouteKeepsTurns(w: World, turn: TurnId, samples: seq<Sample>)
    ensures
      var x := OnSynthesized(w, turn, samples);
      && x.session == w.session && x.agent == w.agent && x.capturing == w.capturing
      && x.playback.liveTurn == w.playback.liveTurn
      && (x.playback.paused.None? <==> w.playback.paused.None?)
      && (x.playback.paused.Some? ==> x.playback.paused.value.turn == w.playback.paused.value.turn)
      && x.history.submitted == w.history.submitted && x.history.cancelled == w.history.cancelled
      && x.history.completed == w.history.completed
  {
  }

  /** A step that leaves every turn where it was need only keep the queues. */
  lemma QueuesAlone(w: World, x: World)
    requires Coherent(w) && PlaybackOk(x)
    requires x.session == w.session && x.agent == w.agent && x.capturing == w.capturing
    requires x.playback.liveTurn == w.playback.liveTurn && (x.playback.paused.None? <==> w.playback.paused.None?)
    requires x.playback.paused.Some? ==> x.playback.paused.value.turn == w.playback.paused.value.turn
    requires x.history.submitted == w.history.submitted && x.history.cancelled == w.history.cancelled
    requires x.history.completed == w.history.completed
    ensures Coherent(x)
  {
  }

  lemma SynthesizedKeepsOk(w: World, turn: TurnId, samples: seq<Sample>)
    requires Coherent(w) && Stamped(samples, turn, Count(w.history.arrived, turn))
    ensures Coherent(OnSynthesized(w, turn, samples))
  {
    RouteKeepsQueues(w, turn, samples);
    RouteKeepsFed(w, turn, samples);
    RouteKeepsConserved(w, turn, samples);
    RouteKeepsTurns(w, turn, samples);
    QueuesAlone(w, OnSynthesized(w, turn, samples));
  }

  lemma TopUpKeepsFed(w: World, resident: nat, now: Instant)
    requires Coherent(w)
    ensures FedOk(TopUp(w, resident, now).playback, TopUp(w, resident, now).history)
  {
    var chunk, h := Chunk(w, resident), w.history;
    var x := TopUp(w, resident, now);
    if chunk != [] {
      var turn := w.playback.liveTurn.value;
      var from := Frontier(w.playback, h.arrived, turn);
      forall k | 0 <= k < |chunk| ensures chunk[k].turn == turn && chunk[k].index == from + k {
        assert chunk[k] == w.playback.live[k];
      }
      forall i | 0 <= i < |x.history.fed|
        ensures x.history.fed[i].index < Frontier(x.playback, x.history.arrived, x.history.fed[i].turn)
      {
        if i < |h.fed| {
          assert x.history.fed[i] == h.fed[i];
        }
      }
    }
  }

  lemma TopUpKeepsOk(w: World, resident: nat, now: Instant)
    requires Coherent(w)
    ensures Coherent(TopUp(w, resident, now))
  {
    TopUpKeepsFed(w, resident, now);
    var chunk := Chunk(w, resident);
    assert w.playback.live == chunk + w.playback.live[|chunk|..];
    assert multiset(w.history.fed + chunk) == multiset(w.history.fed) + multiset(chunk);
  }

  function Topped(w: World, now: Instant): World {
    TopUp(Anchored(w, now), Resident(Anchored(w, now), now), now)
  }

  predicate RunsDry(w: World, now: Instant) {
    Topped(w, now).playback.live == [] && Resident(Anchored(w, now), now) == 0
  }

  /** What feeding does, apart from the session's reaction to a drain. */
  lemma FeedShape(w: World, now: Instant)
    requires w.playback.live != [] || w.pushed != 0
    ensures
      var x, f := Topped(w, now), Feed(w, now);
      && f.playback == x.playback && f.history == x.history && f.tts == x.tts
      && f.agent == x.agent && f.capturing == x.capturing
      && (if RunsDry(w, now) then f.pushed == 0 && f.anchor == None else f == x)
      && f.session ==
           if RunsDry(w, now) && x.playback.liveTurn.Some? && Count(x.pending, x.playback.liveTurn.value) == 0
           then S.Handle(x.session, PlaybackDrained(x.playback.liveTurn.value)).next else x.session
  {
    var dry := Topped(w, now).(pushed := 0, anchor := None);
    if dry.playback.liveTurn.Some? {
      var turn := dry.playback.liveTurn.value;
      AgentInput(dry.(pending := dry.pending - {turn}), PlaybackDrained(turn));
    }
  }

  /** Feeding does nothing, or tops up the ring, or finds it dry and may say so. */
  lemma FeedOutcome(w: World, now: Instant)
    ensures
      var dry, turn := Topped(w, now).(pushed := 0, anchor := None), Topped(w, now).playback.liveTurn;
      || Feed(w, now) == w
      || Feed(w, now) == Topped(w, now)
      || Feed(w, now) == dry
      || (turn.Some? && Feed(w, now) == SignalDrained(dry, turn.value))
  {
  }

  lemma PacingIsFree(w: World, pushed: nat, anchor: Option<Instant>, playedOut: Instant)
    requires Coherent(w)
    ensures Coherent(w.(pushed := pushed, anchor := anchor, history := w.history.(playedOut := playedOut)))
  {
  }

  lemma CoherentOneOf(w: World, a: World, b: World, c: World, d: World)
    requires Coherent(a) && Coherent(b) && Coherent(c) && Coherent(d)
    requires w == a || w == b || w == c || w == d
    ensures Coherent(w)
  {
  }

  lemma FeedKeepsOk(w: World, now: Instant)
    requires Coherent(w)
    ensures Coherent(Feed(w, now))
  {
    var topped := Topped(w, now);
    var dry := topped.(pushed := 0, anchor := None);
    PacingIsFree(w, w.pushed, Anchored(w, now).anchor, w.history.playedOut);
    TopUpKeepsOk(Anchored(w, now), Resident(Anchored(w, now), now), now);
    PacingIsFree(topped, 0, None, topped.history.playedOut);
    FeedOutcome(w, now);
    if topped.playback.liveTurn.Some? {
      DrainedKeepsOk(dry, topped.playback.liveTurn.value);
      CoherentOneOf(Feed(w, now), w, topped, dry, SignalDrained(dry, topped.playback.liveTurn.value));
    } else {
      CoherentOneOf(Feed(w, now), w, topped, dry, dry);
    }
  }

  lemma StepKeepsOk(w: World, e: Event)
    requires Coherent(w) && Enabled(w, e)
    ensures Coherent(Step(w, e))
  {
    match e {
      case External(input) => DispatchKeepsOk(w, input);
      case Text(turn, text, phrases) => TextKeepsOk(w, turn, text, phrases);
      case Complete(turn, now) => CompleteKeepsOk(w, turn, now);
      case Synthesized(turn, samples) => SynthesizedKeepsOk(w, turn, samples);
      case FeedTick(now) => FeedKeepsOk(w, now);
      case Rebuilt =>
        var x := Replaced(w);
        PacingIsFree(w, 0, None, 0);
        DispatchKeepsOk(x, SessionEnd);
        DispatchKeepsOk(Dispatch(x, SessionEnd), SessionStart);
      case Polled(now, quiet, phrases) =>
        var p := A.Poll(w.agent, now, quiet);
        var x := w.(agent := p.agent);
        match p.event {
          case None =>
          case Some(TextChunk(turn, text)) => TextKeepsOk(x, turn, text, phrases);
          case Some(TurnComplete(turn)) => CompleteKeepsOk(x, turn, now);
        }
      case TtsLost =>
      case Replied(_) =>
    }
  }
}
