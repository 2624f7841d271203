/** The agent backend over its whole history: what it publishes, which replies it
    reports to which turn, and when it takes a turn for complete. */
module AgentTheorems {
  import opened Wrappers
  import opened SessionTypes
  import opened BuzzAgent
  import opened Sequences

  datatype Op = Asks(turn: TurnId, text: string) | Arrives(reply: string) | Polls(now: Instant, quiet: nat)

  function Apply(a: Agent, op: Op): Agent {
    match op
    case Asks(turn, text) => Submit(a, turn, text)
    case Arrives(reply) => a.(inbox := a.inbox + [reply])
    case Polls(now, quiet) => Poll(a, now, quiet).agent
  }

  function After(ops: seq<Op>): Agent {
    if ops == [] then NEW_AGENT else Apply(After(ops[..|ops| - 1]), ops[|ops| - 1])
  }

  /** What operation `k` of a history reports. */
  function Report(ops: seq<Op>, k: nat): Option<AgentEvent>
    requires k < |ops|
  {
    match ops[k]
    case Polls(now, quiet) => Poll(After(ops[..k]), now, quiet).event
    case _ => None
  }

  lemma AfterSnoc(ops: seq<Op>, op: Op)
    ensures After(ops + [op]) == Apply(After(ops), op)
    ensures forall k :: 0 <= k < |ops| ==> Report(ops + [op], k) == Report(ops, k)
    ensures Report(ops + [op], |ops|) == if op.Polls? then Poll(After(ops), op.now, op.quiet).event else None
  {
    PrefixOfSnoc(ops, op, |ops|);
    WholePrefix(ops);
    forall k | 0 <= k < |ops| ensures Report(ops + [op], k) == Report(ops, k) {
      PrefixOfSnoc(ops, op, k);
    }
  }

  // ---- The history, told without the agent ----

  /** The texts handed over, in order. */
  function Asked(ops: seq<Op>): seq<string> {
    if ops == [] then []
    else
      var last := ops[|ops| - 1];
      Asked(ops[..|ops| - 1]) + if last.Asks? then [last.text] else []
  }

  function LastTurn(ops: seq<Op>): Option<TurnId> {
    if ops == [] then None
    else if ops[|ops| - 1].Asks? then Some(ops[|ops| - 1].turn)
    else LastTurn(ops[..|ops| - 1])
  }

  function Arrived(ops: seq<Op>): seq<string> {
    if ops == [] then []
    else
      var last := ops[|ops| - 1];
      Arrived(ops[..|ops| - 1]) + if last.Arrives? then [last.reply] else []
  }

  /** How many replies came before the last poll that no turn precedes. */
  function Early(ops: seq<Op>): nat {
    if ops == [] then 0
    else
      var before := ops[..|ops| - 1];
      if ops[|ops| - 1].Polls? && LastTurn(before).None? then |Arrived(before)| else Early(before)
  }

  /** How many polls have reported a reply. */
  function Reported(ops: seq<Op>): nat {
    if ops == [] then 0
    else
      var report := Report(ops, |ops| - 1);
      Reported(ops[..|ops| - 1]) + if report.Some? && report.value.TextChunk? then 1 else 0
  }

  lemma HistorySnoc(ops: seq<Op>, op: Op)
    ensures Asked(ops + [op]) == Asked(ops) + if op.Asks? then [op.text] else []
    ensures LastTurn(ops + [op]) == if op.Asks? then Some(op.turn) else LastTurn(ops)
    ensures Arrived(ops + [op]) == Arrived(ops) + if op.Arrives? then [op.reply] else []
    ensures Early(ops + [op]) == if op.Polls? && LastTurn(ops).None? then |Arrived(ops)| else Early(ops)
    ensures
      var report := Report(ops + [op], |ops|);
      Reported(ops + [op]) == Reported(ops) + if report.Some? && report.value.TextChunk? then 1 else 0
  {
    PrefixOfSnoc(ops, op, |ops|);
    WholePrefix(ops);
  }

  // ---- Attribution ----

  /** What the agent has published, which turn it works for and which replies it has
      still to report. */
  ghost predicate Knows(a: Agent, ops: seq<Op>) {
    && a.published == Asked(ops) && a.current == LastTurn(ops)
    && Early(ops) + Reported(ops) <= |Arrived(ops)| && a.inbox == Arrived(ops)[Early(ops) + Reported(ops)..]
    && (LastTurn(ops).None? ==> Reported(ops) == 0)
  }

  lemma KnowsMore(ops: seq<Op>, op: Op)
    requires Knows(After(ops), ops)
    ensures Knows(After(ops + [op]), ops + [op])
  {
    AfterSnoc(ops, op);
    HistorySnoc(ops, op);
    var n := Early(ops) + Reported(ops);
    if op.Arrives? {
      DropSnoc(Arrived(ops), op.reply, n);
    }
    assert Arrived(ops) + [] == Arrived(ops) && Asked(ops) + [] == Asked(ops);
  }

  lemma {:induction false} EveryHistoryIsKnown(ops: seq<Op>)
    ensures Knows(After(ops), ops)
  {
    if ops != [] {
      EveryHistoryIsKnown(ops[..|ops| - 1]);
      KnowsMore(ops[..|ops| - 1], ops[|ops| - 1]);
      WithoutLast(ops);
    }
  }

  // ---- The quiet period ----

  /** A reply was reported at `since`, and since then nothing was asked and nothing
      reported. */
  ghost predicate QuietSince(ops: seq<Op>, since: Instant) {
    exists k :: 0 <= k < |ops| && QuietAfter(ops, k, since)
  }

  ghost predicate QuietAfter(ops: seq<Op>, k: nat, since: Instant)
    requires k < |ops|
  {
    && ops[k].Polls? && ops[k].now == since && Report(ops, k).Some? && Report(ops, k).value.TextChunk?
    && forall j :: k < j < |ops| ==> !ops[j].Asks? && Report(ops, j).None?
  }

  lemma QuietSnoc(ops: seq<Op>, op: Op, since: Instant)
    ensures
      var report := Report(ops + [op], |ops|);
      QuietSince(ops + [op], since) <==>
        if report.Some? && report.value.TextChunk? then op.now == since
        else !op.Asks? && report.None? && QuietSince(ops, since)
  {
    AfterSnoc(ops, op);
    var all := ops + [op];
    ElementsOfSnoc(ops, op);
    if QuietSince(ops, since) && !op.Asks? && Report(all, |ops|).None? {
      var k :| 0 <= k < |ops| && QuietAfter(ops, k, since);
      assert QuietAfter(all, k, since);
    }
    if Report(all, |ops|).Some? && Report(all, |ops|).value.TextChunk? {
      assert QuietAfter(all, |ops|, op.now);
    }
    if QuietSince(all, since) {
      var k :| 0 <= k < |all| && QuietAfter(all, k, since);
      assert k < |ops| ==> QuietAfter(ops, k, since);
    }
  }

  ghost predicate Times(a: Agent, ops: seq<Op>) {
    forall since: Instant :: a.lastReply == Some(since) <==> QuietSince(ops, since)
  }

  lemma {:induction false} EveryHistoryIsTimed(ops: seq<Op>)
    ensures Times(After(ops), ops)
  {
    if ops != [] {
      var before, op := ops[..|ops| - 1], ops[|ops| - 1];
      EveryHistoryIsTimed(before);
      AfterSnoc(before, op);
      WithoutLast(ops);
      forall since: Instant ensures After(ops).lastReply == Some(since) <==> QuietSince(ops, since) {
        QuietSnoc(before, op, since);
        assert After(before).lastReply == Some(since) <==> QuietSince(before, since);
      }
    } else {
      assert forall since: Instant :: !QuietSince([], since);
    }
  }

  // ---- What a poll reports ----

  /** Some reply was reported that long ago, and since then nothing was asked and
      nothing reported. */
  ghost predicate QuietFor(ops: seq<Op>, now: Instant, quiet: nat) {
    exists since: Instant :: QuietSince(ops, since) && (if since <= now then now - since else 0) >= quiet
  }

  /** After any history, a poll reports the next reply, if there is one, as the last
      turn's; otherwise the end of that turn exactly if the quiet period has passed. */
  lemma PollReports(ops: seq<Op>, now: Instant, quiet: nat)
    ensures
      var event, n := Poll(After(ops), now, quiet).event, Early(ops) + Reported(ops);
      match LastTurn(ops)
      case None => event == None
      case Some(turn) =>
        n <= |Arrived(ops)| &&
        event == if n < |Arrived(ops)| then Some(TextChunk(turn, Arrived(ops)[n]))
                 else if QuietFor(ops, now, quiet) then Some(TurnComplete(turn))
                 else None
  {
    EveryHistoryIsKnown(ops);
    EveryHistoryIsTimed(ops);
    var a := After(ops);
    if a.lastReply.Some? {
      assert QuietSince(ops, a.lastReply.value);
    }
    if QuietFor(ops, now, quiet) {
      var since: Instant :| QuietSince(ops, since) && (if since <= now then now - since else 0) >= quiet;
      assert a.lastReply == Some(since);
    }
  }

  /** Whatever happens, the backend has published exactly the texts handed to it. */
  lemma PublishesWhatIsAsked(ops: seq<Op>)
    ensures After(ops).published == Asked(ops)
  {
    EveryHistoryIsKnown(ops);
  }
}
