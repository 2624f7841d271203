/** What the conversation state machine keeps over whole runs. */
module SessionSafety {
  import opened Wrappers
  import opened SessionTypes
  import opened Session
  import opened OutputProtocol
  import opened Sequences

  /** The turn current in a state: issued, and the newest unless the agent has it. */
  ghost predicate Issued(s: Session) {
    s.current.Some? && 1 <= s.current.value <= s.counter
  }

  /** The invariant of every reachable state, state by state: whether a turn is
      current or parked, and that the running timer has not reached its limit. */
  ghost predicate Good(s: Session) {
    match s.state
    case Idle => s.current.None? && s.parked.None? && s.preroll == []
    case Listening => s.current.None? && s.parked.None? && s.listening < IDLE_TIMEOUT
    case UserSpeaking => Issued(s) && s.parked.None? && s.speaking < MAX_UTTERANCE
    case Finalizing => Issued(s) && s.parked.None? && s.finalizing < FINALIZE_TIMEOUT
    case Submitting => Issued(s) && s.parked.None?
    case AwaitingAgent => Issued(s) && s.parked.None? && s.awaiting < AGENT_RESPONSE_TIMEOUT
    case AgentSpeaking => Issued(s) && s.parked.None?
    case Interrupting =>
      Issued(s) && s.parked.Some? && 1 <= s.parked.value < s.current.value &&
      s.interrupting < BARGE_IN_RETRACTION_WINDOW
  }

  lemma TaggedKeepsGood(s: Session, input: Input)
    requires Good(s) && input.Tagged()
    ensures Good(Handle(s, input).next)
  {
  }

  lemma TickKeepsGood(s: Session, dt: Duration)
    requires Good(s)
    ensures Good(Handle(s, Tick(dt)).next)
  {
  }

  lemma ControlKeepsGood(s: Session, input: Input)
    requires Good(s) && !input.Tagged() && !input.Tick?
    ensures Good(Handle(s, input).next)
  {
  }

  lemma StepKeepsGood(s: Session, input: Input)
    requires Good(s)
    ensures Good(Handle(s, input).next)
  {
    if input.Tagged() {
      TaggedKeepsGood(s, input);
    } else if input.Tick? {
      TickKeepsGood(s, input.dt);
    } else {
      ControlKeepsGood(s, input);
    }
  }

  /** The state after a history of inputs, and everything emitted on the way. */
  function After(s: Session, inputs: seq<Input>): Session
    decreases |inputs|
  {
    if inputs == [] then s
    else Handle(After(s, inputs[..|inputs| - 1]), inputs[|inputs| - 1]).next
  }

  function Emitted(s: Session, inputs: seq<Input>): seq<Output>
    decreases |inputs|
  {
    if inputs == [] then []
    else
      var before := inputs[..|inputs| - 1];
      Emitted(s, before) + Handle(After(s, before), inputs[|inputs| - 1]).outputs
  }

  lemma AfterSnoc(s: Session, inputs: seq<Input>, last: Input)
    ensures After(s, inputs + [last]) == Handle(After(s, inputs), last).next
    ensures Emitted(s, inputs + [last]) == Emitted(s, inputs) + Handle(After(s, inputs), last).outputs
  {
    assert (inputs + [last])[..|inputs|] == inputs;
  }

  // ---- The outputs of every run obey the output protocol ----

  /** What an observer of the outputs knows about the machine. */
  ghost predicate Follows(s: Session, m: Monitor) {
    && m.shown == s.state
    && (m.capturing <==> s.state != Idle)
    && (m.held <==> s.state == Interrupting)
    && Sane(m)
    && m.top <= s.counter
    && (s.state == Submitting || s.state == AwaitingAgent || s.state == AgentSpeaking ==>
          s.current == Some(m.last) && !m.cancelled)
    && (s.state == Interrupting ==> s.parked == Some(m.last) && !m.cancelled)
    && (s.state == UserSpeaking || s.state == Finalizing || s.state == Interrupting ==>
          s.current.Some? && m.last < s.current.value && m.top <= s.current.value)
  }

  lemma {:induction false} LegalSingles(m: Monitor, outs: seq<Output>)
    ensures |outs| == 1 ==> (Legal(m, outs) <==> Allows(m, outs[0])) && Watch(m, outs) == Next(m, outs[0])
    ensures |outs| == 2 ==>
      var n := Next(m, outs[0]);
      (Legal(m, outs) <==> Allows(m, outs[0]) && Allows(n, outs[1])) && Watch(m, outs) == Next(n, outs[1])
    ensures |outs| == 3 ==>
      var n := Next(Next(m, outs[0]), outs[1]);
      (Legal(m, outs) <==> Allows(m, outs[0]) && Allows(Next(m, outs[0]), outs[1]) && Allows(n, outs[2])) &&
      Watch(m, outs) == Next(n, outs[2])
    decreases |outs|
  {
    if 1 <= |outs| <= 3 {
      assert outs == [outs[0]] + outs[1..];
      LegalSingles(Next(m, outs[0]), outs[1..]);
    }
  }

  ghost predicate StepOk(s: Session, m: Monitor, input: Input) {
    var r := Handle(s, input);
    Legal(m, r.outputs) && Follows(r.next, Watch(m, r.outputs))
  }

  lemma FollowsEnd(s: Session, m: Monitor)
    requires Good(s) && Follows(s, m)
    ensures StepOk(s, m, SessionEnd) && StepOk(s, m, StopRequested)
  {
    var outs := Handle(s, SessionEnd).outputs;
    if |outs| == 5 {
      assert outs == outs[..2] + outs[2..];
      LegalConcat(m, outs[..2], outs[2..]);
      LegalSingles(m, outs[..2]);
      LegalSingles(Watch(m, outs[..2]), outs[2..]);
    } else {
      LegalSingles(m, outs);
    }
  }

  lemma FollowsInterruption(s: Session, m: Monitor, input: Input)
    requires Good(s) && Follows(s, m)
    requires input.BargeInConfirmed? || input.PushToTalkPressed?
    ensures StepOk(s, m, input)
  {
    var outs := Handle(s, input).outputs;
    if |outs| == 4 {
      assert outs == outs[..2] + outs[2..];
      LegalConcat(m, outs[..2], outs[2..]);
      LegalSingles(m, outs[..2]);
      LegalSingles(Watch(m, outs[..2]), outs[2..]);
    } else {
      LegalSingles(m, outs);
    }
  }

  lemma FollowsTimeout(s: Session, m: Monitor, dt: Duration)
    requires Good(s) && Follows(s, m) && s.state != Interrupting
    ensures StepOk(s, m, Tick(dt))
  {
    LegalSingles(m, Handle(s, Tick(dt)).outputs);
  }

  lemma FollowsRetraction(s: Session, m: Monitor, dt: Duration)
    requires Good(s) && Follows(s, m) && s.state == Interrupting
    ensures StepOk(s, m, Tick(dt))
  {
    LegalSingles(m, Handle(s, Tick(dt)).outputs);
  }

  lemma FollowsFinal(s: Session, m: Monitor, turn: TurnId, text: string)
    requires Good(s) && Follows(s, m)
    ensures StepOk(s, m, FinalTranscript(turn, text))
  {
    var outs := Handle(s, FinalTranscript(turn, text)).outputs;
    if s.state == Interrupting && s.current == Some(turn) {
      assert outs == [CancelSynthesis(m.last), SubmitUtterance(turn, text), EmitState(Submitting)];
    }
    LegalSingles(m, outs);
  }

  lemma FollowsPartial(s: Session, m: Monitor, turn: TurnId, text: string)
    requires Good(s) && Follows(s, m)
    ensures StepOk(s, m, PartialTranscript(turn, text))
  {
    LegalSingles(m, Handle(s, PartialTranscript(turn, text)).outputs);
  }

  lemma FollowsTagged(s: Session, m: Monitor, input: Input)
    requires Good(s) && Follows(s, m)
    requires input.Tagged() && !input.FinalTranscript? && !input.PartialTranscript?
    ensures StepOk(s, m, input)
  {
    LegalSingles(m, Handle(s, input).outputs);
  }

  lemma FollowsOther(s: Session, m: Monitor, input: Input)
    requires Good(s) && Follows(s, m)
    requires input.SessionStart? || input.EndpointEvent? || input.PushToTalkReleased?
    ensures StepOk(s, m, input)
  {
    LegalSingles(m, Handle(s, input).outputs);
  }

  /** One input keeps the observer's knowledge right, and all it emits is legal. */
  lemma StepFollows(s: Session, m: Monitor, input: Input)
    requires Good(s) && Follows(s, m)
    ensures Legal(m, Handle(s, input).outputs)
    ensures Follows(Handle(s, input).next, Watch(m, Handle(s, input).outputs))
  {
    match input {
      case SessionEnd | StopRequested => FollowsEnd(s, m);
      case BargeInConfirmed | PushToTalkPressed => FollowsInterruption(s, m, input);
      case Tick(dt) =>
        if s.state == Interrupting {
          FollowsRetraction(s, m, dt);
        } else {
          FollowsTimeout(s, m, dt);
        }
      case PartialTranscript(turn, text) => FollowsPartial(s, m, turn, text);
      case FinalTranscript(turn, text) => FollowsFinal(s, m, turn, text);
      case SessionStart | EndpointEvent(_) | PushToTalkReleased => FollowsOther(s, m, input);
      case _ => FollowsTagged(s, m, input);
    }
  }

  /** Every run's outputs are legal, and from them alone an observer knows the
      state, whether the microphone is open and whether a barge-in is pending. */
  lemma {:induction false} RunsFollowProtocol(inputs: seq<Input>)
    ensures Good(After(INITIAL, inputs))
    ensures Legal(START, Emitted(INITIAL, inputs))
    ensures Follows(After(INITIAL, inputs), Watch(START, Emitted(INITIAL, inputs)))
    decreases |inputs|
  {
    if inputs != [] {
      var before, last := inputs[..|inputs| - 1], inputs[|inputs| - 1];
      RunsFollowProtocol(before);
      var s := After(INITIAL, before);
      StepKeepsGood(s, last);
      StepFollows(s, Watch(START, Emitted(INITIAL, before)), last);
      LegalConcat(START, Emitted(INITIAL, before), Handle(s, last).outputs);
    }
  }

  /** No turn is submitted or cancelled twice, cancelled turns are never resumed,
      and ids only grow, in every run. */
  lemma RunsNeverRepeatATurn(inputs: seq<Input>, i: nat, j: nat)
    requires i < j < |Emitted(INITIAL, inputs)|
    ensures Ordered(Emitted(INITIAL, inputs)[i], Emitted(INITIAL, inputs)[j])
  {
    RunsFollowProtocol(inputs);
    TurnsNeverRepeat(START, Emitted(INITIAL, inputs));
  }

  /** In every run each barge-in is settled, by resuming or cancelling the turn
      submitted last before it, before the machine replays, submits, shows words
      or closes the microphone again. */
  lemma RunsResolveBargeIns(inputs: seq<Input>, i: nat, j: nat)
    requires i < j < |Emitted(INITIAL, inputs)| && Emitted(INITIAL, inputs)[i].ReplayPreRoll?
    requires
      var o := Emitted(INITIAL, inputs)[j];
      o.ReplayPreRoll? || o.SubmitUtterance? || o.StopCapture? || o.ShowPartial?
    ensures
      var outs := Emitted(INITIAL, inputs);
      exists k :: i < k < j && Resolves(outs[k], Watch(START, outs[..i]).last)
  {
    RunsFollowProtocol(inputs);
    BargeInIsResolved(Emitted(INITIAL, inputs), i, j);
  }

  /** In every run exactly one output between two replays settles the barge-in. */
  lemma RunsResolveBargeInsOnce(inputs: seq<Input>, i: nat, j: nat)
    requires i < j < |Emitted(INITIAL, inputs)|
    requires
      var outs := Emitted(INITIAL, inputs);
      outs[i].ReplayPreRoll? && outs[j].ReplayPreRoll? && forall l :: i < l < j ==> !outs[l].ReplayPreRoll?
    ensures exists k :: i < k < j && SettlesAlone(Emitted(INITIAL, inputs), i, k, j)
  {
    RunsFollowProtocol(inputs);
    BargeInIsResolvedOnce(Emitted(INITIAL, inputs), i, j);
  }

  /** In every run the microphone is opened and closed alternately. */
  lemma RunsAlternateCapture(inputs: seq<Input>, i: nat, j: nat)
    requires i < j < |Emitted(INITIAL, inputs)|
    requires
      var outs := Emitted(INITIAL, inputs);
      outs[i] == outs[j] && (outs[i] == StartCapture || outs[i] == StopCapture)
    ensures
      var outs := Emitted(INITIAL, inputs);
      exists k :: i < k < j && outs[k] != outs[i] && (outs[k] == StartCapture || outs[k] == StopCapture)
  {
    RunsFollowProtocol(inputs);
    CaptureAlternates(Emitted(INITIAL, inputs), i, j);
  }

  // ---- Stale inputs ----

  predicate Stale(s: Session, input: Input) {
    input.Tagged() && s.current != Some(input.turn)
  }

  /** The history without the tagged inputs that were not current on arrival. */
  function Fresh(s: Session, inputs: seq<Input>): seq<Input>
    decreases |inputs|
  {
    if inputs == [] then []
    else
      var before, last := inputs[..|inputs| - 1], inputs[|inputs| - 1];
      Fresh(s, before) + if Stale(After(s, before), last) then [] else [last]
  }

  lemma StaleIsIgnored(s: Session, input: Input)
    requires Stale(s, input)
    ensures Handle(s, input) == Ignore(s)
  {
  }

  /** Late results do not interfere: deleting all of them changes neither the
      final state nor a single output. */
  lemma {:induction false} StaleInputsDoNotInterfere(s: Session, inputs: seq<Input>)
    ensures After(s, Fresh(s, inputs)) == After(s, inputs)
    ensures Emitted(s, Fresh(s, inputs)) == Emitted(s, inputs)
    decreases |inputs|
  {
    if inputs != [] {
      var before, last := inputs[..|inputs| - 1], inputs[|inputs| - 1];
      StaleInputsDoNotInterfere(s, before);
      var kept, state := Fresh(s, before), After(s, before);
      assert inputs == before + [last];
      AfterSnoc(s, before, last);
      if Stale(state, last) {
        StaleIsIgnored(state, last);
        assert Fresh(s, inputs) == kept;
        assert Emitted(s, inputs) == Emitted(s, before);
      } else {
        assert Fresh(s, inputs) == kept + [last];
        AfterSnoc(s, kept, last);
      }
    }
  }

  // ---- Dead turns ----

  /** A turn that was issued and is neither current nor parked. */
  ghost predicate Dead(s: Session, turn: TurnId) {
    turn <= s.counter && s.current != Some(turn) && s.parked != Some(turn)
  }

  /** What an output asks for on behalf of a turn that must be alive. */
  ghost predicate ActsFor(o: Output, turn: TurnId) {
    o == CancelSynthesis(turn) || o == ResumeSpeaking(turn) || o == ReplayPreRoll(turn) ||
    (o.SubmitUtterance? && o.turn == turn)
  }

  ghost predicate NothingFor(outs: seq<Output>, turn: TurnId) {
    forall k :: 0 <= k < |outs| ==> !ActsFor(outs[k], turn)
  }

  lemma DeadStepTagged(s: Session, turn: TurnId, input: Input)
    requires Good(s) && Dead(s, turn) && input.Tagged()
    ensures Dead(Handle(s, input).next, turn) && NothingFor(Handle(s, input).outputs, turn)
  {
  }

  lemma DeadStepTick(s: Session, turn: TurnId, dt: Duration)
    requires Good(s) && Dead(s, turn)
    ensures Dead(Handle(s, Tick(dt)).next, turn) && NothingFor(Handle(s, Tick(dt)).outputs, turn)
  {
  }

  lemma DeadStepOther(s: Session, turn: TurnId, input: Input)
    requires Good(s) && Dead(s, turn) && !input.Tagged() && !input.Tick?
    ensures Dead(Handle(s, input).next, turn) && NothingFor(Handle(s, input).outputs, turn)
  {
  }

  lemma DeadStep(s: Session, turn: TurnId, input: Input)
    requires Good(s) && Dead(s, turn)
    ensures Dead(Handle(s, input).next, turn) && NothingFor(Handle(s, input).outputs, turn)
  {
    if input.Tagged() {
      DeadStepTagged(s, turn, input);
    } else if input.Tick? {
      DeadStepTick(s, turn, input.dt);
    } else {
      DeadStepOther(s, turn, input);
    }
  }

  /** A dead turn stays dead, whatever arrives, and nothing is ever done for it. */
  lemma {:induction false} DeadTurnsStayDead(s: Session, turn: TurnId, inputs: seq<Input>)
    requires Good(s) && Dead(s, turn)
    ensures Good(After(s, inputs)) && Dead(After(s, inputs), turn)
    ensures NothingFor(Emitted(s, inputs), turn)
    decreases |inputs|
  {
    if inputs != [] {
      var before, last := inputs[..|inputs| - 1], inputs[|inputs| - 1];
      DeadTurnsStayDead(s, turn, before);
      DeadStep(After(s, before), turn, last);
      StepKeepsGood(After(s, before), last);
    }
  }

  /** A cancelled turn is dead from that moment on, and was alive until then. */
  lemma CancelKills(s: Session, input: Input, turn: TurnId)
    requires Good(s) && CancelSynthesis(turn) in Handle(s, input).outputs
    ensures !Dead(s, turn) && Dead(Handle(s, input).next, turn)
  {
  }

  // ---- How a reply ends ----

  /** `AgentTurnComplete(turn)` arrived while that very turn was speaking. */
  ghost predicate Said(inputs: seq<Input>, turn: TurnId) {
    exists k :: 0 <= k < |inputs| && SaidAt(inputs, k, turn)
  }

  ghost predicate SaidAt(inputs: seq<Input>, k: nat, turn: TurnId)
    requires k < |inputs|
  {
    var s := After(INITIAL, inputs[..k]);
    inputs[k] == AgentTurnComplete(turn) && s.state == AgentSpeaking && s.current == Some(turn)
  }

  lemma SaidSnoc(inputs: seq<Input>, last: Input, turn: TurnId)
    ensures
      var s := After(INITIAL, inputs);
      Said(inputs + [last], turn) <==>
        Said(inputs, turn) || (last == AgentTurnComplete(turn) && s.state == AgentSpeaking && s.current == Some(turn))
  {
    var all := inputs + [last];
    forall k | 0 <= k < |inputs| ensures SaidAt(all, k, turn) <==> SaidAt(inputs, k, turn) {
      assert all[..k] == inputs[..k];
    }
    assert all[..|inputs|] == inputs;
    if Said(inputs, turn) {
      var k :| 0 <= k < |inputs| && SaidAt(inputs, k, turn);
      assert SaidAt(all, k, turn);
    }
    assert SaidAt(all, |inputs|, turn) <==>
      (last == AgentTurnComplete(turn) && After(INITIAL, inputs).state == AgentSpeaking &&
       After(INITIAL, inputs).current == Some(turn));
  }

  /** How the completion flag and the turns it can speak of move in one step. */
  ghost predicate FlagMoves(s: Session, input: Input, next: Session) {
    && s.counter <= next.counter
    && (next.state == AgentSpeaking ==>
          if s.state == AgentSpeaking then
            s.current.Some? && next.current == s.current &&
            (next.complete <==> s.complete || input == AgentTurnComplete(s.current.value))
          else if s.state == Interrupting then next.current == s.parked && next.complete == s.complete
          else s.state == AwaitingAgent && next.current == s.current && !next.complete)
    && (next.state == Interrupting ==>
          next.complete == s.complete &&
          if s.state == Interrupting then next.parked == s.parked
          else s.state == AgentSpeaking && input == BargeInConfirmed && next.parked == s.current)
    && (next.current.Some? && next.state != AgentSpeaking ==>
          next.current == Some(s.counter + 1) || (next.current == s.current && s.state != AgentSpeaking))
  }

  lemma TaggedMovesFlag(s: Session, input: Input)
    requires Good(s) && input.Tagged()
    ensures FlagMoves(s, input, Handle(s, input).next)
  {
  }

  lemma TickMovesFlag(s: Session, dt: Duration)
    requires Good(s)
    ensures FlagMoves(s, Tick(dt), Handle(s, Tick(dt)).next)
  {
  }

  lemma ControlMovesFlag(s: Session, input: Input)
    requires Good(s) && !input.Tagged() && !input.Tick?
    ensures FlagMoves(s, input, Handle(s, input).next)
  {
  }

  lemma StepMovesFlag(s: Session, input: Input)
    requires Good(s)
    ensures FlagMoves(s, input, Handle(s, input).next)
  {
    if input.Tagged() {
      TaggedMovesFlag(s, input);
    } else if input.Tick? {
      TickMovesFlag(s, input.dt);
    } else {
      ControlMovesFlag(s, input);
    }
  }

  /** The completion flag means exactly that the speaking, or parked, turn has
      been reported complete. */
  ghost predicate FlagHonest(s: Session, inputs: seq<Input>) {
    && Good(s)
    && (s.state == AgentSpeaking ==> (s.complete <==> Said(inputs, s.current.value)))
    && (s.state == Interrupting ==> (s.complete <==> Said(inputs, s.parked.value)))
    && (forall t: TurnId :: Said(inputs, t) ==> t <= s.counter)
    && (s.current.Some? && s.state != AgentSpeaking ==> !Said(inputs, s.current.value))
  }

  lemma StepKeepsFlagHonest(s: Session, inputs: seq<Input>, last: Input, next: Session)
    requires s == After(INITIAL, inputs) && FlagHonest(s, inputs)
    requires Good(next) && FlagMoves(s, last, next)
    ensures FlagHonest(next, inputs + [last])
  {
    forall t: TurnId ensures Said(inputs + [last], t) <==>
      Said(inputs, t) || (last == AgentTurnComplete(t) && s.state == AgentSpeaking && s.current == Some(t))
    {
      SaidSnoc(inputs, last, t);
    }
  }

  /** In every run the completion flag is honest: one left behind by another
      turn is never read. */
  lemma {:induction false} FlagMeansSaid(inputs: seq<Input>)
    ensures FlagHonest(After(INITIAL, inputs), inputs)
    decreases |inputs|
  {
    if inputs != [] {
      var before, last := inputs[..|inputs| - 1], inputs[|inputs| - 1];
      FlagMeansSaid(before);
      assert inputs == before + [last];
      AfterSnoc(INITIAL, before, last);
      StepKeepsGood(After(INITIAL, before), last);
      StepMovesFlag(After(INITIAL, before), last);
      StepKeepsFlagHonest(After(INITIAL, before), before, last, After(INITIAL, inputs));
    }
  }

  /** A reply ends normally on an input exactly when that input is
      `PlaybackDrained` for the speaking turn and `AgentTurnComplete` for that
      same turn has been accepted. */
  lemma ReplyEndsOnlyWhenComplete(inputs: seq<Input>, last: Input)
    requires After(INITIAL, inputs).state == AgentSpeaking
    ensures
      var s := After(INITIAL, inputs);
      s.current.Some? &&
      (Handle(s, last).next.state == Listening <==>
        last == PlaybackDrained(s.current.value) && Said(inputs, s.current.value))
  {
    FlagMeansSaid(inputs);
  }

  // ---- Timers ----

  function Sum(dts: seq<Duration>): Duration {
    if dts == [] then 0 else dts[0] + Sum(dts[1..])
  }

  function Advance(s: Session, dts: seq<Duration>): Session
    decreases |dts|
  {
    if dts == [] then s else Advance(Handle(s, Tick(dts[0])).next, dts[1..])
  }

  predicate Expiring(s: Session) {
    s.state == Listening || s.state == UserSpeaking || s.state == Finalizing || s.state == AwaitingAgent
  }

  /** The time left until the session must close if nothing at all happens. */
  function Remaining(s: Session): int
    requires Expiring(s)
  {
    match s.state
    case Listening => IDLE_TIMEOUT - s.listening
    case Finalizing => FINALIZE_TIMEOUT - s.finalizing + IDLE_TIMEOUT
    case UserSpeaking => MAX_UTTERANCE - s.speaking + FINALIZE_TIMEOUT + IDLE_TIMEOUT
    case AwaitingAgent => AGENT_RESPONSE_TIMEOUT - s.awaiting + IDLE_TIMEOUT
  }

  /** The overshoot of one tick for every stage after the first. */
  function Slack(s: Session, tick: Duration): Duration {
    match s.state
    case UserSpeaking => 2 * tick
    case Finalizing | AwaitingAgent => tick
    case _ => 0
  }

  lemma {:induction false} IdleIgnoresTicks(s: Session, dts: seq<Duration>)
    requires s.state == Idle
    ensures Advance(s, dts) == s
    decreases |dts|
  {
    if dts != [] {
      IdleIgnoresTicks(s, dts[1..]);
    }
  }

  /** One tick spends its length of the time that remains, or closes the session. */
  lemma TickSpends(s: Session, dt: Duration, tick: Duration)
    requires Good(s) && Expiring(s) && dt <= tick
    ensures
      var next := Handle(s, Tick(dt)).next;
      if next.state == Idle then dt >= Remaining(s)
      else
        Good(next) && Expiring(next) && Remaining(s) <= dt + Remaining(next) &&
        dt + Remaining(next) + Slack(next, tick) <= Remaining(s) + Slack(s, tick)
  {
    TickKeepsGood(s, dt);
  }

  /** With no input but ticks of at most `tick`, the session closes: never before
      the remaining stage limits have passed, and always once they have passed
      with one tick to spare per further stage. */
  lemma {:induction false} SilenceClosesSession(s: Session, dts: seq<Duration>, tick: Duration)
    requires Good(s) && Expiring(s)
    requires forall k :: 0 <= k < |dts| ==> dts[k] <= tick
    ensures Sum(dts) < Remaining(s) ==> Advance(s, dts).state != Idle
    ensures Sum(dts) >= Remaining(s) + Slack(s, tick) ==> Advance(s, dts).state == Idle
    decreases |dts|
  {
    if dts != [] {
      var next := Handle(s, Tick(dts[0])).next;
      TickSpends(s, dts[0], tick);
      if next.state == Idle {
        IdleIgnoresTicks(next, dts[1..]);
      } else {
        SilenceClosesSession(next, dts[1..], tick);
      }
    } else {
      StillRemaining(s);
    }
  }

  lemma StillRemaining(s: Session)
    requires Good(s) && Expiring(s)
    ensures Remaining(s) > 0
  {
  }

  /** An unproven barge-in gives the floor back to exactly the parked turn, at
      the first moment the retraction window has passed and not before. */
  lemma {:induction false} UnprovenBargeInResumes(s: Session, dts: seq<Duration>)
    requires Good(s) && s.state == Interrupting
    ensures
      var end := Advance(s, dts);
      if s.interrupting + Sum(dts) >= BARGE_IN_RETRACTION_WINDOW
      then end.state == AgentSpeaking && end.current == s.parked && end.parked == None && end.complete == s.complete
      else end == s.(interrupting := s.interrupting + Sum(dts))
    decreases |dts|
  {
    if dts != [] {
      var next := Handle(s, Tick(dts[0])).next;
      if next.state == Interrupting {
        UnprovenBargeInResumes(next, dts[1..]);
      } else {
        SpeakingIgnoresTicks(next, dts[1..]);
      }
    }
  }

  lemma {:induction false} SpeakingIgnoresTicks(s: Session, dts: seq<Duration>)
    requires s.state == AgentSpeaking
    ensures Advance(s, dts) == s
    decreases |dts|
  {
    if dts != [] {
      SpeakingIgnoresTicks(s, dts[1..]);
    }
  }

  // ---- The pre-roll buffer ----

  datatype Op = Got(input: Input) | Fed(frame: Frame)

  function AfterOps(ops: seq<Op>): Session
    decreases |ops|
  {
    if ops == [] then INITIAL
    else
      var s := AfterOps(ops[..|ops| - 1]);
      match ops[|ops| - 1]
      case Got(input) => Handle(s, input).next
      case Fed(frame) => PushFrame(s, frame)
  }

  /** The frames offered since the running session started. */
  function Heard(ops: seq<Op>): seq<Frame>
    decreases |ops|
  {
    if ops == [] || AfterOps(ops).state == Idle then []
    else
      var before := ops[..|ops| - 1];
      match ops[|ops| - 1]
      case Got(_) => Heard(before)
      case Fed(frame) => Heard(before) + [frame]
  }

  lemma StepPreroll(s: Session, input: Input)
    requires Good(s)
    ensures Handle(s, input).next.preroll ==
      if s.state == Idle || Handle(s, input).next.state == Idle then [] else s.preroll
  {
  }

  /** The pre-roll buffer always holds the newest 150 frames of the running
      session, and nothing from an earlier one. */
  lemma {:induction false} PrerollIsRecent(ops: seq<Op>)
    ensures Good(AfterOps(ops))
    ensures AfterOps(ops).preroll == Newest(Heard(ops), PREROLL_FRAMES)
    decreases |ops|
  {
    if ops != [] {
      var before := ops[..|ops| - 1];
      PrerollIsRecent(before);
      match ops[|ops| - 1] {
        case Got(input) =>
          StepKeepsGood(AfterOps(before), input);
          StepPreroll(AfterOps(before), input);
        case Fed(frame) =>
          NewestSnoc(Heard(before), frame, PREROLL_FRAMES);
      }
    }
  }
}
