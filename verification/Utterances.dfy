/** From the first sound of an utterance to its submission, whatever else arrives
    meanwhile. */
module Utterances {
  import opened Wrappers
  import opened SessionTypes
  import opened Session
  import opened SessionSafety
  import opened Transitions
  import opened Sequences

  function Ticked(inputs: seq<Input>): Duration {
    if inputs == [] then 0
    else Ticked(inputs[..|inputs| - 1]) + if inputs[|inputs| - 1].Tick? then inputs[|inputs| - 1].dt else 0
  }

  predicate Begins(input: Input) {
    input == EndpointEvent(SpeechStart) || input == PushToTalkPressed
  }

  predicate Closes(input: Input) {
    input == EndpointEvent(SpeechEnd) || input == PushToTalkReleased
  }

  /** The input neither ends the session nor the utterance. */
  predicate LeavesSpeaking(input: Input) {
    !Ends(input) && !Closes(input)
  }

  /** The input neither ends the session nor takes the floor, nor settles what was
      said in turn `turn`. */
  predicate LeavesFinalizing(input: Input, turn: TurnId) {
    !Ends(input) && !input.PushToTalkPressed? &&
    !(input.FinalTranscript? && input.turn == turn) && !(input.FinalTranscriptRejected? && input.turn == turn)
  }

  lemma {:induction false} AfterConcat(s: Session, a: seq<Input>, b: seq<Input>)
    ensures After(s, a + b) == After(After(s, a), b)
    decreases |b|
  {
    if b == [] {
      assert a + b == a;
    } else {
      assert (a + b)[..|a + b| - 1] == a + b[..|b| - 1];
      AfterConcat(s, a, b[..|b| - 1]);
    }
  }

  lemma AfterOne(s: Session, input: Input)
    ensures After(s, [input]) == Handle(s, input).next
  {
    assert [input][..0] == [];
  }

  /** The state says what it holds of the turn, of its timer and of nothing else. */
  ghost predicate In(s: Session, state: SessionState, turn: TurnId, timer: Duration) {
    Good(s) && s.state == state && s.current == Some(turn) &&
    timer == if state == UserSpeaking then s.speaking else s.finalizing
  }

  lemma Stays(s: Session, input: Input, state: SessionState, turn: TurnId)
    requires state == UserSpeaking || state == Finalizing
    requires Good(s) && s.state == state && s.current == Some(turn)
    requires forall to :: to != state ==> !Takes(s, input, to)
    ensures
      var dt := if input.Tick? then input.dt else 0;
      In(Handle(s, input).next, state, turn, (if state == UserSpeaking then s.speaking else s.finalizing) + dt)
  {
    var next := Handle(s, input).next;
    StepKeepsGood(s, input);
    if next.state != state {
      EdgeIff(s, input, next.state);
    }
    EdgeCarriesTurns(s, input);
    EdgeSetsTimers(s, input);
  }

  lemma {:induction false} SpeakingLasts(s: Session, turn: TurnId, during: seq<Input>)
    requires In(s, UserSpeaking, turn, s.speaking)
    requires forall k :: 0 <= k < |during| ==> LeavesSpeaking(during[k])
    requires s.speaking + Ticked(during) < MAX_UTTERANCE
    ensures In(After(s, during), UserSpeaking, turn, s.speaking + Ticked(during))
    decreases |during|
  {
    if during != [] {
      var before, last := during[..|during| - 1], during[|during| - 1];
      SpeakingLasts(s, turn, before);
      Stays(After(s, before), last, UserSpeaking, turn);
    }
  }

  lemma {:induction false} FinalizingLasts(s: Session, turn: TurnId, waiting: seq<Input>)
    requires In(s, Finalizing, turn, s.finalizing)
    requires forall k :: 0 <= k < |waiting| ==> LeavesFinalizing(waiting[k], turn)
    requires s.finalizing + Ticked(waiting) < FINALIZE_TIMEOUT
    ensures In(After(s, waiting), Finalizing, turn, s.finalizing + Ticked(waiting))
    decreases |waiting|
  {
    if waiting != [] {
      var before, last := waiting[..|waiting| - 1], waiting[|waiting| - 1];
      FinalizingLasts(s, turn, before);
      Stays(After(s, before), last, Finalizing, turn);
    }
  }

  lemma BeginsTurn(s: Session, begin: Input)
    requires Good(s) && s.state == Listening && Begins(begin)
    ensures In(Handle(s, begin).next, UserSpeaking, s.counter + 1, 0)
  {
    StepKeepsGood(s, begin);
    EdgeIff(s, begin, UserSpeaking);
    EdgeCarriesTurns(s, begin);
    EdgeSetsTimers(s, begin);
  }

  lemma ClosesTurn(s: Session, turn: TurnId, close: Input)
    requires In(s, UserSpeaking, turn, s.speaking) && Closes(close)
    ensures In(Handle(s, close).next, Finalizing, turn, 0)
  {
    StepKeepsGood(s, close);
    EdgeIff(s, close, Finalizing);
    EdgeCarriesTurns(s, close);
    EdgeSetsTimers(s, close);
  }

  /** An utterance that the detector or the button begins and ends is finalised as
      a turn of its own, whatever arrives meanwhile that does not stop it. */
  lemma UtteranceIsFinalized(s: Session, begin: Input, during: seq<Input>, close: Input, waiting: seq<Input>)
    requires Good(s) && s.state == Listening && Begins(begin) && Closes(close)
    requires forall k :: 0 <= k < |during| ==> LeavesSpeaking(during[k])
    requires forall k :: 0 <= k < |waiting| ==> LeavesFinalizing(waiting[k], s.counter + 1)
    requires Ticked(during) < MAX_UTTERANCE && Ticked(waiting) < FINALIZE_TIMEOUT
    ensures
      In(After(s, [begin] + during + [close] + waiting), Finalizing, s.counter + 1, Ticked(waiting))
  {
    var turn := s.counter + 1;
    var begun := Handle(s, begin).next;
    AfterOne(s, begin);
    BeginsTurn(s, begin);
    SpeakingLasts(begun, turn, during);
    AfterConcat(s, [begin], during);
    var spoken := After(begun, during);
    ClosesTurn(spoken, turn, close);
    AfterOne(spoken, close);
    AfterConcat(s, [begin] + during, [close]);
    FinalizingLasts(Handle(spoken, close).next, turn, waiting);
    AfterConcat(s, [begin] + during + [close], waiting);
  }

  /** Its words are submitted when they arrive: those words, for that turn, once. */
  lemma SpokenWordsAreSubmitted(
    s: Session, begin: Input, during: seq<Input>, close: Input, waiting: seq<Input>, words: string)
    requires Good(s) && s.state == Listening && Begins(begin) && Closes(close)
    requires forall k :: 0 <= k < |during| ==> LeavesSpeaking(during[k])
    requires forall k :: 0 <= k < |waiting| ==> LeavesFinalizing(waiting[k], s.counter + 1)
    requires Ticked(during) < MAX_UTTERANCE && Ticked(waiting) < FINALIZE_TIMEOUT
    ensures
      var heard := After(s, [begin] + during + [close] + waiting);
      var r := Handle(heard, FinalTranscript(s.counter + 1, words));
      && r.outputs == [SubmitUtterance(s.counter + 1, words), EmitState(Submitting)]
      && r.next.state == Submitting && r.next.current == Some(s.counter + 1) && r.next.utterance == Some(words)
  {
    UtteranceIsFinalized(s, begin, during, close, waiting);
  }

  // ---- Words that were refused ----

  /** The words of the newest submission. */
  function LastWords(outs: seq<Output>): Option<string> {
    if outs == [] then None
    else if outs[|outs| - 1].SubmitUtterance? then Some(outs[|outs| - 1].text)
    else LastWords(outs[..|outs| - 1])
  }

  lemma {:induction false} LastWordsConcat(a: seq<Output>, b: seq<Output>)
    ensures LastWords(a + b) == if LastWords(b).Some? then LastWords(b) else LastWords(a)
    decreases |b|
  {
    if b == [] {
      assert a + b == a;
    } else {
      assert (a + b)[..|a + b| - 1] == a + b[..|b| - 1];
      LastWordsConcat(a, b[..|b| - 1]);
    }
  }

  lemma {:induction false} LastWordsAre(outs: seq<Output>)
    ensures LastWords(outs).Some? ==> exists turn :: SubmitUtterance(turn, LastWords(outs).value) in outs
    ensures LastWords(outs).None? ==> forall o :: o in outs ==> !o.SubmitUtterance?
    decreases |outs|
  {
    if outs != [] {
      LastWordsAre(outs[..|outs| - 1]);
      WithoutLast(outs);
      if outs[|outs| - 1].SubmitUtterance? {
        assert outs[|outs| - 1] == SubmitUtterance(outs[|outs| - 1].turn, LastWords(outs).value);
      }
    }
  }

  lemma StepSubmitsWords(s: Session, input: Input)
    requires Good(s)
    ensures
      var r := Handle(s, input);
      LastWords(r.outputs) ==
        if s.state != Submitting && r.next.state == Submitting then r.next.utterance else None
  {
    var r := Handle(s, input);
    EdgeAsks(s, input);
    EdgeCarriesWords(s, input);
    LastWordsAre(r.outputs);
    if s.state != Submitting && r.next.state == Submitting {
      EdgeIff(s, input, Submitting);
      assert Asks(s, input, Submitting, SubmitUtterance(input.turn, input.text));
      assert SubmitUtterance(input.turn, input.text) in r.outputs;
    }
    if LastWords(r.outputs).Some? {
      var turn :| SubmitUtterance(turn, LastWords(r.outputs).value) in r.outputs;
      assert Asks(s, input, r.next.state, SubmitUtterance(turn, LastWords(r.outputs).value));
    }
  }

  /** While a submission is unsettled, the machine holds the words it submitted. */
  lemma {:induction false} SubmittingHoldsWords(inputs: seq<Input>)
    ensures Good(After(INITIAL, inputs))
    ensures After(INITIAL, inputs).state == Submitting ==>
      After(INITIAL, inputs).utterance.Some? && After(INITIAL, inputs).utterance == LastWords(Emitted(INITIAL, inputs))
    decreases |inputs|
  {
    if inputs != [] {
      var before, last := inputs[..|inputs| - 1], inputs[|inputs| - 1];
      SubmittingHoldsWords(before);
      var s := After(INITIAL, before);
      StepKeepsGood(s, last);
      StepSubmitsWords(s, last);
      EdgeCarriesWords(s, last);
      LastWordsConcat(Emitted(INITIAL, before), Handle(s, last).outputs);
    }
  }

  /** In every run a refused submission is kept: its own words, and the error. */
  lemma RefusedWordsAreKept(inputs: seq<Input>, turn: TurnId, error: string)
    requires After(INITIAL, inputs).state == Submitting && After(INITIAL, inputs).current == Some(turn)
    ensures
      var next := Handle(After(INITIAL, inputs), SubmitFailed(turn, error)).next;
      && next.state == Listening && next.lastError == Some(error)
      && next.lastFailed.Some? && next.lastFailed == LastWords(Emitted(INITIAL, inputs))
  {
    var s := After(INITIAL, inputs);
    SubmittingHoldsWords(inputs);
    EdgeIff(s, SubmitFailed(turn, error), Listening);
    EdgeCarriesWords(s, SubmitFailed(turn, error));
  }
}
