/** The synthesis worker: requests are served in order, a cancelled turn's later
    requests are skipped, and a failed synthesis yields no result. */
module TtsWorker {
  import opened Wrappers
  import opened SessionTypes
  import opened Sequences

  datatype Request = Synthesize(turn: TurnId, text: string) | Cancel(turn: TurnId)

  datatype TtsResult = TtsResult(turn: TurnId, samples: seq<real>)

  type Synthesizer = string -> Option<seq<real>>

  function Answer(synth: Synthesizer, cancelled: set<TurnId>, request: Request): seq<TtsResult> {
    match request
    case Cancel(_) => []
    case Synthesize(turn, text) =>
      if turn in cancelled || synth(text).None? then [] else [TtsResult(turn, synth(text).value)]
  }

  function CancelledBy(cancelled: set<TurnId>, request: Request): set<TurnId> {
    if request.Cancel? then cancelled + {request.turn} else cancelled
  }

  function Serve(synth: Synthesizer, cancelled: set<TurnId>, requests: seq<Request>): seq<TtsResult>
    decreases |requests|
  {
    if requests == [] then []
    else Answer(synth, cancelled, requests[0]) + Serve(synth, CancelledBy(cancelled, requests[0]), requests[1..])
  }

  lemma ServeNext(synth: Synthesizer, cancelled: set<TurnId>, requests: seq<Request>, i: nat)
    requires i < |requests|
    ensures Serve(synth, cancelled, requests[i..]) ==
      Answer(synth, cancelled, requests[i]) + Serve(synth, CancelledBy(cancelled, requests[i]), requests[i + 1..])
  {
    assert requests[i..][1..] == requests[i + 1..];
  }

  method Work(synth: Synthesizer, requests: seq<Request>) returns (results: seq<TtsResult>)
    ensures results == Serve(synth, {}, requests)
  {
    results := [];
    var cancelled: set<TurnId> := {};
    ghost var all := Serve(synth, {}, requests);
    for i := 0 to |requests|
      invariant results + Serve(synth, cancelled, requests[i..]) == all
    {
      ghost var before, skipping := results, cancelled;
      ghost var answer := Answer(synth, cancelled, requests[i]);
      ghost var rest := Serve(synth, CancelledBy(cancelled, requests[i]), requests[i + 1..]);
      ServeNext(synth, cancelled, requests, i);
      assert before + (answer + rest) == (before + answer) + rest;
      match requests[i] {
        case Cancel(turn) =>
          cancelled := cancelled + {turn};
        case Synthesize(turn, text) =>
          if turn !in cancelled {
            var chunk := synth(text);
            if chunk.Some? {
              results := results + [TtsResult(turn, chunk.value)];
            }
          }
      }
      assert cancelled == CancelledBy(skipping, requests[i]);
      assert results == before + answer;
    }
  }

  /** One request for each phrase, in order. */
  function Requests(turn: TurnId, phrases: seq<string>): seq<Request> {
    if phrases == [] then []
    else Requests(turn, phrases[..|phrases| - 1]) + [Synthesize(turn, phrases[|phrases| - 1])]
  }

  lemma RequestsOne(turn: TurnId, phrase: string)
    ensures Requests(turn, [phrase]) == [Synthesize(turn, phrase)]
  {
    assert Requests(turn, [phrase][..0]) == [];
  }

  lemma RequestsPrefix(turn: TurnId, phrases: seq<string>, k: nat)
    requires k < |phrases|
    ensures Requests(turn, phrases[..k + 1]) == Requests(turn, phrases[..k]) + [Synthesize(turn, phrases[k])]
  {
    PrefixSnoc(phrases, k);
  }

  function CancelledAfter(cancelled: set<TurnId>, requests: seq<Request>): set<TurnId>
    decreases |requests|
  {
    if requests == [] then cancelled else CancelledAfter(CancelledBy(cancelled, requests[0]), requests[1..])
  }

  lemma {:induction false} ServeSnoc(synth: Synthesizer, cancelled: set<TurnId>, requests: seq<Request>, last: Request)
    ensures Serve(synth, cancelled, requests + [last]) ==
            Serve(synth, cancelled, requests) + Answer(synth, CancelledAfter(cancelled, requests), last)
    ensures CancelledAfter(cancelled, requests + [last]) == CancelledBy(CancelledAfter(cancelled, requests), last)
    decreases |requests|
  {
    if requests == [] {
      assert [last][1..] == [];
    } else {
      assert (requests + [last])[1..] == requests[1..] + [last];
      ServeSnoc(synth, CancelledBy(cancelled, requests[0]), requests[1..], last);
    }
  }

  function Asked(requests: seq<Request>, turn: TurnId): nat {
    if requests == [] then 0
    else (if requests[0].Synthesize? && requests[0].turn == turn then 1 else 0) + Asked(requests[1..], turn)
  }

  function Answered(results: seq<TtsResult>, turn: TurnId): nat {
    if results == [] then 0
    else (if results[0].turn == turn then 1 else 0) + Answered(results[1..], turn)
  }

  lemma {:induction false} AnsweredConcat(a: seq<TtsResult>, b: seq<TtsResult>, turn: TurnId)
    ensures Answered(a + b, turn) == Answered(a, turn) + Answered(b, turn)
  {
    if a == [] {
      assert a + b == b;
    } else {
      assert (a + b)[1..] == a[1..] + b;
      AnsweredConcat(a[1..], b, turn);
    }
  }

  lemma {:induction false} AskedConcat(a: seq<Request>, b: seq<Request>, turn: TurnId)
    ensures Asked(a + b, turn) == Asked(a, turn) + Asked(b, turn)
  {
    if a == [] {
      assert a + b == b;
    } else {
      assert (a + b)[1..] == a[1..] + b;
      AskedConcat(a[1..], b, turn);
    }
  }

  lemma {:induction false} AskedRequests(asker: TurnId, phrases: seq<string>, turn: TurnId)
    ensures Asked(Requests(asker, phrases), turn) == if turn == asker then |phrases| else 0
  {
    if phrases != [] {
      var last := Synthesize(asker, phrases[|phrases| - 1]);
      AskedRequests(asker, phrases[..|phrases| - 1], turn);
      AskedConcat(Requests(asker, phrases[..|phrases| - 1]), [last], turn);
    }
  }

  /** Later requests never change what the earlier ones were answered. */
  lemma {:induction false} ServeMore(synth: Synthesizer, cancelled: set<TurnId>, a: seq<Request>, b: seq<Request>)
    ensures Serve(synth, cancelled, a) <= Serve(synth, cancelled, a + b)
    decreases |a|
  {
    if a != [] {
      assert (a + b)[1..] == a[1..] + b;
      ServeMore(synth, CancelledBy(cancelled, a[0]), a[1..], b);
    }
  }

  /** Every result answers its own request: a turn never gets more results than
      requests, and exactly as many when nothing fails and nothing is cancelled. */
  lemma {:induction false} AtMostOneAnswerEach(
    synth: Synthesizer, cancelled: set<TurnId>, requests: seq<Request>, turn: TurnId)
    ensures Answered(Serve(synth, cancelled, requests), turn) <= Asked(requests, turn)
    ensures
      turn !in cancelled && (forall k :: 0 <= k < |requests| && requests[k].turn == turn ==>
                               requests[k].Synthesize? && synth(requests[k].text).Some?)
      ==> Answered(Serve(synth, cancelled, requests), turn) == Asked(requests, turn)
    decreases |requests|
  {
    if requests != [] {
      var next := CancelledBy(cancelled, requests[0]);
      AtMostOneAnswerEach(synth, next, requests[1..], turn);
      AnsweredConcat(Answer(synth, cancelled, requests[0]), Serve(synth, next, requests[1..]), turn);
    }
  }

  /** Once a turn is cancelled, none of its later requests is synthesised. */
  lemma {:induction false} NothingAfterCancel(
    synth: Synthesizer, cancelled: set<TurnId>, before: seq<Request>, turn: TurnId, after: seq<Request>)
    ensures Answered(Serve(synth, cancelled, before + [Cancel(turn)] + after), turn) ==
            Answered(Serve(synth, cancelled, before), turn)
    decreases |before|
  {
    var all := before + [Cancel(turn)] + after;
    if before == [] {
      assert all[0] == Cancel(turn) && all[1..] == after;
      assert Serve(synth, cancelled, all) == Serve(synth, cancelled + {turn}, after);
      SkipsCancelled(synth, cancelled + {turn}, after, turn);
    } else {
      var next := CancelledBy(cancelled, before[0]);
      assert all[1..] == before[1..] + [Cancel(turn)] + after;
      NothingAfterCancel(synth, next, before[1..], turn, after);
      AnsweredConcat(Answer(synth, cancelled, before[0]), Serve(synth, next, all[1..]), turn);
      AnsweredConcat(Answer(synth, cancelled, before[0]), Serve(synth, next, before[1..]), turn);
    }
  }

  lemma {:induction false} SkipsCancelled(
    synth: Synthesizer, cancelled: set<TurnId>, requests: seq<Request>, turn: TurnId)
    requires turn in cancelled
    ensures Answered(Serve(synth, cancelled, requests), turn) == 0
    decreases |requests|
  {
    if requests != [] {
      var next := CancelledBy(cancelled, requests[0]);
      SkipsCancelled(synth, next, requests[1..], turn);
      AnsweredConcat(Answer(synth, cancelled, requests[0]), Serve(synth, next, requests[1..]), turn);
    }
  }

  // ---- What the results hold ----

  /** The samples of all results for a turn, in order. */
  function SamplesOf(results: seq<TtsResult>, turn: TurnId): seq<real> {
    if results == [] then []
    else (if results[0].turn == turn then results[0].samples else []) + SamplesOf(results[1..], turn)
  }

  /** The texts of all requests for a turn, in order. */
  function TextsOf(requests: seq<Request>, turn: TurnId): seq<string> {
    if requests == [] then []
    else
      var first := requests[0];
      (if first.Synthesize? && first.turn == turn then [first.text] else []) + TextsOf(requests[1..], turn)
  }

  /** What a synthesiser makes of texts, one after the other. */
  function Voiced(synth: Synthesizer, texts: seq<string>): seq<real> {
    if texts == [] then []
    else (if synth(texts[0]).Some? then synth(texts[0]).value else []) + Voiced(synth, texts[1..])
  }

  lemma {:induction false} SamplesOfConcat(a: seq<TtsResult>, b: seq<TtsResult>, turn: TurnId)
    ensures SamplesOf(a + b, turn) == SamplesOf(a, turn) + SamplesOf(b, turn)
  {
    if a == [] {
      assert a + b == b;
    } else {
      assert (a + b)[1..] == a[1..] + b;
      SamplesOfConcat(a[1..], b, turn);
    }
  }

  lemma {:induction false} TextsOfConcat(a: seq<Request>, b: seq<Request>, turn: TurnId)
    ensures TextsOf(a + b, turn) == TextsOf(a, turn) + TextsOf(b, turn)
  {
    if a == [] {
      assert a + b == b;
    } else {
      assert (a + b)[1..] == a[1..] + b;
      TextsOfConcat(a[1..], b, turn);
    }
  }

  /** The requests for phrases are for those phrases. */
  lemma {:induction false} TextsOfRequests(asker: TurnId, phrases: seq<string>, turn: TurnId)
    ensures TextsOf(Requests(asker, phrases), turn) == if turn == asker then phrases else []
  {
    if phrases != [] {
      var before, last := phrases[..|phrases| - 1], phrases[|phrases| - 1];
      TextsOfRequests(asker, before, turn);
      TextsOfConcat(Requests(asker, before), [Synthesize(asker, last)], turn);
      assert TextsOf([Synthesize(asker, last)], turn) == if turn == asker then [last] else [] by {
        assert [Synthesize(asker, last)][1..] == [];
      }
      WithoutLast(phrases);
    }
  }

  /** No samples, where no result is. */
  lemma {:induction false} NoAnswersNoSamples(results: seq<TtsResult>, turn: TurnId)
    requires Answered(results, turn) == 0
    ensures SamplesOf(results, turn) == []
  {
    if results != [] {
      NoAnswersNoSamples(results[1..], turn);
    }
  }

  predicate NeverCancelled(requests: seq<Request>, turn: TurnId) {
    Cancel(turn) !in requests
  }

  /** What a turn that is not cancelled gets is what the synthesiser makes of its
      texts, in their order. */
  lemma {:induction false} AnswersAreVoiced(
    synth: Synthesizer, cancelled: set<TurnId>, requests: seq<Request>, turn: TurnId)
    requires turn !in cancelled && NeverCancelled(requests, turn)
    ensures SamplesOf(Serve(synth, cancelled, requests), turn) == Voiced(synth, TextsOf(requests, turn))
    decreases |requests|
  {
    if requests != [] {
      var first, next := requests[0], CancelledBy(cancelled, requests[0]);
      assert first in requests;
      AnswersAreVoiced(synth, next, requests[1..], turn);
      SamplesOfConcat(Answer(synth, cancelled, first), Serve(synth, next, requests[1..]), turn);
      AnswerIsVoiced(synth, cancelled, first, turn);
      VoicedConcat(synth, TextsOf([first], turn), TextsOf(requests[1..], turn));
      assert [first][1..] == [] && TextsOf([first], turn) + TextsOf(requests[1..], turn) == TextsOf(requests, turn);
    }
  }

  lemma AnswerIsVoiced(synth: Synthesizer, cancelled: set<TurnId>, request: Request, turn: TurnId)
    requires turn !in cancelled
    ensures SamplesOf(Answer(synth, cancelled, request), turn) == Voiced(synth, TextsOf([request], turn))
  {
    assert [request][1..] == [];
    if request.Synthesize? && request.turn == turn {
      assert [request.text][1..] == [];
      assert TextsOf([request], turn) == [request.text];
      if synth(request.text).Some? {
        assert [TtsResult(turn, synth(request.text).value)][1..] == [];
      }
    }
  }

  lemma {:induction false} VoicedConcat(synth: Synthesizer, a: seq<string>, b: seq<string>)
    ensures Voiced(synth, a + b) == Voiced(synth, a) + Voiced(synth, b)
  {
    if a == [] {
      assert a + b == b;
    } else {
      assert (a + b)[1..] == a[1..] + b;
      VoicedConcat(synth, a[1..], b);
    }
  }

  lemma {:induction false} ServeConcat(synth: Synthesizer, cancelled: set<TurnId>, a: seq<Request>, b: seq<Request>)
    ensures Serve(synth, cancelled, a + b) ==
            Serve(synth, cancelled, a) + Serve(synth, CancelledAfter(cancelled, a), b)
    decreases |a|
  {
    if a == [] {
      assert a + b == b;
    } else {
      assert (a + b)[1..] == a[1..] + b;
      ServeConcat(synth, CancelledBy(cancelled, a[0]), a[1..], b);
    }
  }

  lemma {:induction false} CancelsAreKept(cancelled: set<TurnId>, requests: seq<Request>, turn: TurnId)
    ensures turn in cancelled || Cancel(turn) in requests ==> turn in CancelledAfter(cancelled, requests)
    decreases |requests|
  {
    if requests != [] {
      CancelsAreKept(CancelledBy(cancelled, requests[0]), requests[1..], turn);
    }
  }

  /** A turn whose cancel was sent gets nothing for what is sent afterwards. */
  lemma CancelledGetNothing(synth: Synthesizer, a: seq<Request>, b: seq<Request>, turn: TurnId)
    requires Cancel(turn) in a
    ensures SamplesOf(Serve(synth, {}, a + b), turn) == SamplesOf(Serve(synth, {}, a), turn)
  {
    var rest := Serve(synth, CancelledAfter({}, a), b);
    ServeConcat(synth, {}, a, b);
    CancelsAreKept({}, a, turn);
    SkipsCancelled(synth, CancelledAfter({}, a), b, turn);
    NoAnswersNoSamples(rest, turn);
    SamplesOfConcat(Serve(synth, {}, a), rest, turn);
  }
}
