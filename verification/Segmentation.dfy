/** Splitting a text into phrases for synthesis: one scan with five competing
    rules that never cuts between two protected characters. */
module Segmentation {
  import opened Text

  const MIN_CLAUSE_SPLIT_LEN: nat := 60
  const HARD_CAP_LEN: nat := 200
  const ABSOLUTE_CAP_LEN: nat := HARD_CAP_LEN + 40
  const FIRST_CHUNK_MAX_LEN: nat := 40

  /** A half-open range of the text, before trimming. */
  datatype Span = Span(start: nat, end: nat)

  predicate Terminal(c: char) {
    c == '.' || c == '!' || c == '?'
  }

  predicate Clause(c: char) {
    c == ',' || c == ';' || c == ':'
  }

  // ---- What a segmentation is, without reference to any scan ----

  /** How far into a span an unprotected space may sit. */
  function SpaceLimit(first: bool): nat {
    if first then FIRST_CHUNK_MAX_LEN else HARD_CAP_LEN
  }

  /** An unprotected character at this offset may only be a span's last. */
  predicate Stops(c: char, offset: nat, first: bool) {
    Terminal(c) || (!first && Clause(c) && offset + 1 >= MIN_CLAUSE_SPLIT_LEN) || offset + 1 >= ABSOLUTE_CAP_LEN
  }

  /** No place inside the span where it should already have ended. */
  ghost predicate Tight(chars: string, mask: seq<bool>, span: Span, first: bool)
    requires |mask| == |chars|
  {
    forall i :: span.start <= i < span.end <= |chars| && !mask[i] ==>
      (IsWhitespace(chars[i]) ==> i - span.start < SpaceLimit(first)) &&
      (Stops(chars[i], i - span.start, first) ==> i + 1 == span.end)
  }

  /** A reason to end the span where it ends. */
  ghost predicate Justified(chars: string, mask: seq<bool>, span: Span, first: bool)
    requires |mask| == |chars| && span.start < span.end <= |chars|
  {
    || (!mask[span.end - 1] && Stops(chars[span.end - 1], span.end - 1 - span.start, first))
    || (span.end < |chars| && !mask[span.end] && IsWhitespace(chars[span.end]) &&
        span.end - span.start >= SpaceLimit(first))
  }

  ghost predicate Blank(chars: string, from: nat, to: nat) {
    forall i :: from <= i < to && i < |chars| ==> IsWhitespace(chars[i])
  }

  /** `b` starts at the first character after `a` that is not whitespace. */
  ghost predicate Follows(chars: string, a: Span, b: Span) {
    a.end <= b.start < |chars| && Blank(chars, a.end, b.start) && !IsWhitespace(chars[b.start])
  }

  /** Spans in order from the start of the text, each as short as the rules allow. */
  ghost predicate Chain(chars: string, mask: seq<bool>, spans: seq<Span>)
    requires |mask| == |chars|
  {
    && (spans != [] ==> spans[0].start == 0)
    && (forall k :: 0 <= k < |spans| ==> spans[k].start < spans[k].end <= |chars|)
    && (forall j, k :: 0 <= j < |spans| && k == j + 1 < |spans| ==> Follows(chars, spans[j], spans[k]))
    && (forall k :: 0 <= k < |spans| ==> Tight(chars, mask, spans[k], k == 0))
  }

  /** Spans covering everything but whitespace, each ended for a reason. */
  ghost predicate IsSegmentation(chars: string, mask: seq<bool>, spans: seq<Span>)
    requires |mask| == |chars|
  {
    && Chain(chars, mask, spans)
    && (spans == [] <==> chars == [])
    && (spans != [] ==> Blank(chars, spans[|spans| - 1].end, |chars|))
    && (forall k :: 0 <= k < |spans| ==>
          Justified(chars, mask, spans[k], k == 0) || (k == |spans| - 1 && spans[k].end == |chars|))
  }

  /** The non-empty trimmed texts of the spans. */
  function Chunks(chars: string, spans: seq<Span>): seq<string> {
    if spans == [] then []
    else Chunks(chars, spans[..|spans| - 1]) + ChunkOf(chars, spans[|spans| - 1])
  }

  function ChunkOf(chars: string, span: Span): seq<string> {
    if span.start <= span.end <= |chars| && Trim(chars[span.start..span.end]) != []
    then [Trim(chars[span.start..span.end])] else []
  }

  method SkipWs(chars: string, from: nat) returns (i: nat)
    requires from <= |chars|
    ensures from <= i <= |chars| && Blank(chars, from, i)
    ensures i == |chars| || !IsWhitespace(chars[i])
    ensures from < |chars| && IsWhitespace(chars[from]) ==> from < i
  {
    i := from;
    while i < |chars| && IsWhitespace(chars[i])
      invariant from <= i <= |chars| && Blank(chars, from, i)
    {
      i := i + 1;
    }
  }

  method PushChunk(chunks: seq<string>, chars: string, start: nat, end: nat) returns (r: seq<string>)
    requires start <= end <= |chars|
    ensures r == chunks + ChunkOf(chars, Span(start, end))
  {
    var trimmed := Trim(chars[start..end]);
    r := if trimmed != [] then chunks + [trimmed] else chunks;
  }

  /** What holds of the spans cut off before `start`. */
  ghost predicate Cut(chars: string, mask: seq<bool>, spans: seq<Span>, start: nat)
    requires |mask| == |chars|
  {
    && Chain(chars, mask, spans)
    && start <= |chars|
    && (spans == [] ==> start == 0)
    && (spans != [] ==>
          spans[|spans| - 1].end <= start && Blank(chars, spans[|spans| - 1].end, start) &&
          (start == |chars| || !IsWhitespace(chars[start])))
    && (forall k :: 0 <= k < |spans| ==> Justified(chars, mask, spans[k], k == 0))
  }

  /** Nothing between `start` and `i` called for a cut. */
  ghost predicate Uncut(chars: string, mask: seq<bool>, start: nat, i: nat, first: bool)
    requires |mask| == |chars|
  {
    forall j :: start <= j < i <= |chars| && !mask[j] ==>
      (IsWhitespace(chars[j]) ==> j - start < SpaceLimit(first)) && !Stops(chars[j], j - start, first)
  }

  lemma CutMore(chars: string, mask: seq<bool>, spans: seq<Span>, span: Span, next: nat)
    requires |mask| == |chars| && Cut(chars, mask, spans, span.start) && span.start < span.end <= next <= |chars|
    requires Tight(chars, mask, span, spans == []) && Justified(chars, mask, span, spans == [])
    requires Blank(chars, span.end, next) && (next == |chars| || !IsWhitespace(chars[next]))
    ensures Cut(chars, mask, spans + [span], next)
  {
    var more := spans + [span];
    ChainMore(chars, mask, spans, span);
    forall k | 0 <= k < |more| ensures Justified(chars, mask, more[k], k == 0) {
      if k < |spans| {
        assert more[k] == spans[k];
      }
    }
  }

  lemma ChainMore(chars: string, mask: seq<bool>, spans: seq<Span>, span: Span)
    requires |mask| == |chars| && Cut(chars, mask, spans, span.start) && span.start < span.end <= |chars|
    requires Tight(chars, mask, span, spans == [])
    ensures Chain(chars, mask, spans + [span])
  {
    var more := spans + [span];
    forall j, k | 0 <= j < |more| && k == j + 1 < |more| ensures Follows(chars, more[j], more[k]) {
      if k < |spans| {
        assert more[j] == spans[j] && more[k] == spans[k];
      }
    }
    forall k | 0 <= k < |more| ensures Tight(chars, mask, more[k], k == 0) {
      if k < |spans| {
        assert more[k] == spans[k];
      }
    }
  }

  lemma ChunksSnoc(chars: string, spans: seq<Span>, span: Span)
    ensures Chunks(chars, spans + [span]) == Chunks(chars, spans) + ChunkOf(chars, span)
  {
    assert (spans + [span])[..|spans|] == spans;
  }

  /** Where the character at `i` ends the span that starts at `start`; 0 if it does
      not. Two rules cut before a space and three after a character. */
  method CutAt(chars: string, mask: seq<bool>, start: nat, i: nat, firstChunk: bool) returns (end: nat)
    requires |mask| == |chars| && start <= i < |chars|
    requires Uncut(chars, mask, start, i, firstChunk)
    ensures end == 0 ==> Uncut(chars, mask, start, i + 1, firstChunk)
    ensures end != 0 ==>
      start < end <= |chars| && (end == i + 1 || (end == i && IsWhitespace(chars[i]))) &&
      Tight(chars, mask, Span(start, end), firstChunk) && Justified(chars, mask, Span(start, end), firstChunk)
  {
    var c := chars[i];
    var lenSoFar := i - start + 1;
    if !mask[i] && Terminal(c) {
      return i + 1;
    }
    if firstChunk && !mask[i] && IsWhitespace(c) && lenSoFar > FIRST_CHUNK_MAX_LEN {
      if i > start {
        return i;
      }
    }
    if !firstChunk && !mask[i] && Clause(c) && lenSoFar >= MIN_CLAUSE_SPLIT_LEN {
      return i + 1;
    }
    if !mask[i] && IsWhitespace(c) && lenSoFar > HARD_CAP_LEN {
      if i > start {
        return i;
      }
    }
    if !mask[i] && lenSoFar >= ABSOLUTE_CAP_LEN {
      return i + 1;
    }
    end := 0;
  }

  /** What is left after the scan is the last span, if there is anything left. */
  lemma FinishesSegmentation(chars: string, mask: seq<bool>, spans: seq<Span>, start: nat)
    requires |mask| == |chars| && Cut(chars, mask, spans, start)
    requires Uncut(chars, mask, start, |chars|, spans == [])
    ensures IsSegmentation(chars, mask, if start < |chars| then spans + [Span(start, |chars|)] else spans)
  {
    if start < |chars| {
      var last := Span(start, |chars|);
      assert Tight(chars, mask, last, spans == []);
      ChainMore(chars, mask, spans, last);
      forall k | 0 <= k < |spans| ensures Justified(chars, mask, (spans + [last])[k], k == 0) {
        assert (spans + [last])[k] == spans[k];
      }
    }
  }

  method Split(chars: string, mask: seq<bool>) returns (chunks: seq<string>, ghost spans: seq<Span>)
    requires |mask| == |chars|
    ensures IsSegmentation(chars, mask, spans)
    ensures forall s :: IsSegmentation(chars, mask, s) ==> chunks == Chunks(chars, s)
  {
    chunks, spans := [], [];
    var start, i := 0, 0;
    var firstChunk := true;
    while i < |chars|
      invariant start <= i <= |chars|
      invariant firstChunk <==> spans == []
      invariant Cut(chars, mask, spans, start)
      invariant Uncut(chars, mask, start, i, firstChunk)
      invariant chunks == Chunks(chars, spans)
      decreases |chars| - i
    {
      var end := CutAt(chars, mask, start, i, firstChunk);
      if end > 0 {
        ghost var span := Span(start, end);
        chunks := PushChunk(chunks, chars, start, end);
        i := SkipWs(chars, end);
        CutMore(chars, mask, spans, span, i);
        ChunksSnoc(chars, spans, span);
        spans := spans + [span];
        start := i;
        firstChunk := false;
      } else {
        i := i + 1;
      }
    }
    FinishesSegmentation(chars, mask, spans, start);
    if start < |chars| {
      chunks := PushChunk(chunks, chars, start, |chars|);
      ChunksSnoc(chars, spans, Span(start, |chars|));
      spans := spans + [Span(start, |chars|)];
    }
    forall s | IsSegmentation(chars, mask, s) ensures s == spans {
      SegmentationIsUnique(chars, mask, s, spans);
    }
  }

  // ---- What the contract of Split amounts to ----

  lemma SameEnd(chars: string, mask: seq<bool>, a: Span, b: Span, first: bool)
    requires |mask| == |chars| && a.start == b.start < a.end <= |chars| && b.start < b.end <= |chars|
    requires Tight(chars, mask, b, first)
    requires Justified(chars, mask, a, first) || a.end == |chars|
    ensures b.end <= a.end
  {
  }

  lemma {:induction false} SamePrefix(chars: string, mask: seq<bool>, a: seq<Span>, b: seq<Span>, k: nat)
    requires |mask| == |chars| && IsSegmentation(chars, mask, a) && IsSegmentation(chars, mask, b)
    requires k < |a|
    ensures k < |b| && a[k] == b[k]
  {
    if k > 0 {
      SamePrefix(chars, mask, a, b, k - 1);
      assert Follows(chars, a[k - 1], a[k]);
      assert Blank(chars, b[|b| - 1].end, |chars|);
      assert Follows(chars, b[k - 1], b[k]);
    }
    SameEnd(chars, mask, a[k], b[k], k == 0);
    SameEnd(chars, mask, b[k], a[k], k == 0);
  }

  /** The rules determine the segmentation: there is exactly one for each text and
      mask, so `Split` computes it. */
  lemma SegmentationIsUnique(chars: string, mask: seq<bool>, a: seq<Span>, b: seq<Span>)
    requires |mask| == |chars| && IsSegmentation(chars, mask, a) && IsSegmentation(chars, mask, b)
    ensures a == b
  {
    if a != [] {
      SamePrefix(chars, mask, a, b, |a| - 1);
    }
    if b != [] {
      SamePrefix(chars, mask, b, a, |b| - 1);
    }
    forall k | 0 <= k < |a| ensures a[k] == b[k] {
      SamePrefix(chars, mask, a, b, k);
    }
  }

  /** The rules in numbers. An unprotected full stop, exclamation or question mark
      ends its span; so does, from the second span on, a comma, semicolon or colon
      at the sixtieth character or later, and any unprotected character at the 240th.
      An unprotected space lies among the first 40 characters of the first span and
      the first 200 of any other. */
  lemma RulesInNumbers(chars: string, mask: seq<bool>, spans: seq<Span>, k: nat, i: nat)
    requires |mask| == |chars| && IsSegmentation(chars, mask, spans) && k < |spans|
    requires spans[k].start <= i < spans[k].end && !mask[i]
    ensures
      var nth := i - spans[k].start + 1;
      && (chars[i] == '.' || chars[i] == '!' || chars[i] == '?' ==> i + 1 == spans[k].end)
      && (k > 0 && nth >= 60 && (chars[i] == ',' || chars[i] == ';' || chars[i] == ':') ==> i + 1 == spans[k].end)
      && (nth >= 240 ==> i + 1 == spans[k].end)
      && (IsWhitespace(chars[i]) ==> nth <= if k == 0 then 40 else 200)
  {
    assert Tight(chars, mask, spans[k], k == 0);
  }

  /** And a span that ends before the text does ends for one of these reasons. */
  lemma ReasonsInNumbers(chars: string, mask: seq<bool>, spans: seq<Span>, k: nat)
    requires |mask| == |chars| && IsSegmentation(chars, mask, spans) && k < |spans| && spans[k].end < |chars|
    ensures
      var last, next, n := spans[k].end - 1, spans[k].end, spans[k].end - spans[k].start;
      || (!mask[last] &&
          (|| chars[last] == '.' || chars[last] == '!' || chars[last] == '?' || n >= 240
           || (k > 0 && n >= 60 && (chars[last] == ',' || chars[last] == ';' || chars[last] == ':'))))
      || (!mask[next] && IsWhitespace(chars[next]) && n >= if k == 0 then 40 else 200)
  {
    assert Justified(chars, mask, spans[k], k == 0);
  }

  /** A cut never falls between two protected characters, and text without
      protection never yields a span longer than 240 characters. */
  lemma CutsRespectProtection(chars: string, mask: seq<bool>, spans: seq<Span>, k: nat)
    requires |mask| == |chars| && IsSegmentation(chars, mask, spans) && k < |spans|
    ensures spans[k].end < |chars| ==> !mask[spans[k].end - 1] || !mask[spans[k].end]
    ensures (forall i :: spans[k].start <= i < spans[k].end ==> !mask[i]) ==>
      spans[k].end - spans[k].start <= ABSOLUTE_CAP_LEN
  {
    var s := spans[k];
    if s.end - s.start > ABSOLUTE_CAP_LEN {
      assert mask[s.start + ABSOLUTE_CAP_LEN - 1];
    }
  }

  /** Segmenting loses nothing but whitespace and reorders nothing. */
  lemma SegmentationKeepsInk(chars: string, mask: seq<bool>, spans: seq<Span>)
    requires |mask| == |chars| && IsSegmentation(chars, mask, spans)
    ensures Ink(Concat(Chunks(chars, spans))) == Ink(chars)
  {
    if spans != [] {
      var end := spans[|spans| - 1].end;
      assert spans[..|spans|] == spans;
      InkUpTo(chars, mask, spans, |spans|);
      InkBlank(chars[end..]);
      InkConcat(chars[..end], chars[end..]);
      assert chars[..end] + chars[end..] == chars;
      assert Ink(chars[..end]) + [] == Ink(chars[..end]);
    }
  }

  /** The ink up to the end of a span, when only whitespace precedes the span. */
  lemma InkOfSpan(chars: string, from: nat, s: Span)
    requires from <= s.start <= s.end <= |chars| && Blank(chars, from, s.start)
    ensures Ink(chars[..s.end]) == Ink(chars[..from]) + Ink(Trim(chars[s.start..s.end]))
  {
    var text := chars[s.start..s.end];
    assert chars[..s.end] == chars[..from] + (chars[from..s.start] + text);
    InkConcat(chars[..from], chars[from..s.start] + text);
    InkConcat(chars[from..s.start], text);
    InkBlank(chars[from..s.start]);
    InkTrim(text);
  }

  lemma InkOfChunk(chars: string, chunks: seq<string>, s: Span)
    requires s.start <= s.end <= |chars|
    ensures Ink(Concat(chunks + ChunkOf(chars, s))) == Ink(Concat(chunks)) + Ink(Trim(chars[s.start..s.end]))
  {
    var text := Trim(chars[s.start..s.end]);
    if text != [] {
      ConcatSnoc(chunks, text);
      InkConcat(Concat(chunks), text);
    } else {
      assert chunks + [] == chunks;
    }
  }

  lemma {:induction false} InkUpTo(chars: string, mask: seq<bool>, spans: seq<Span>, k: nat)
    requires |mask| == |chars| && Chain(chars, mask, spans) && 0 < k <= |spans|
    ensures Ink(Concat(Chunks(chars, spans[..k]))) == Ink(chars[..spans[k - 1].end])
  {
    var before, s := spans[..k - 1], spans[k - 1];
    assert spans[..k] == before + [s];
    ChunksSnoc(chars, before, s);
    InkOfChunk(chars, Chunks(chars, before), s);
    if k == 1 {
      InkOfSpan(chars, 0, s);
    } else {
      InkUpTo(chars, mask, spans, k - 1);
      assert Follows(chars, spans[k - 2], s);
      InkOfSpan(chars, spans[k - 2].end, s);
    }
  }
}
