/** Cutting a reply into phrases: the mask and the scan put together. */
module Phrases {
  import opened Text
  import opened Arithmetic
  import opened ProtectedMask
  import opened Segmentation

  lemma {:induction false} TrimEndDone(s: string)
    ensures TrimEnd(s) == [] || !IsWhitespace(TrimEnd(s)[|TrimEnd(s)| - 1])
    ensures TrimEnd(s) <= s
  {
    if s != [] && IsWhitespace(s[|s| - 1]) {
      TrimEndDone(s[..|s| - 1]);
    }
  }

  lemma {:induction false} TrimStartDone(s: string)
    ensures TrimStart(s) == [] || !IsWhitespace(TrimStart(s)[0])
  {
    if s != [] && IsWhitespace(s[0]) {
      TrimStartDone(s[1..]);
    }
  }

  /** Trimmed text has no whitespace at either end. */
  predicate IsTrimmed(s: string) {
    s == [] || (!IsWhitespace(s[0]) && !IsWhitespace(s[|s| - 1]))
  }

  lemma TrimTrims(s: string)
    ensures IsTrimmed(Trim(s))
  {
    TrimStartDone(s);
    TrimEndDone(TrimStart(s));
  }

  lemma {:induction false} ChunksAreTrimmed(chars: string, spans: seq<Span>)
    ensures forall k :: 0 <= k < |Chunks(chars, spans)| ==>
      Chunks(chars, spans)[k] != [] && IsTrimmed(Chunks(chars, spans)[k])
    decreases |spans|
  {
    if spans != [] {
      var last := spans[|spans| - 1];
      ChunksAreTrimmed(chars, spans[..|spans| - 1]);
      if last.start <= last.end <= |chars| {
        TrimTrims(chars[last.start..last.end]);
      }
    }
  }

  /** Both sides of position `p` lie in one protected construct. */
  ghost predicate Inseparable(chars: string, fences: seq<nat>, lines: seq<Line>, p: nat)
    requires AreLines(chars, lines) && 0 < p < |chars|
  {
    || (InFence(fences, p - 1) && InFence(fences, p))
    || (InDecimal(chars, p - 1) && InDecimal(chars, p))
    || (InTable(chars, lines, p - 1) && InTable(chars, lines, p))
    || (InUrl(chars, FenceMask(chars, fences), p - 1) && InUrl(chars, FenceMask(chars, fences), p))
  }

  lemma InseparableIsMasked(chars: string, fences: seq<nat>, lines: seq<Line>, mask: seq<bool>, p: nat)
    requires IsProtectedMask(chars, fences, lines, mask) && 0 < p < |chars| && Inseparable(chars, fences, lines, p)
    ensures mask[p - 1] && mask[p]
  {
    var q := p - 1;
    assert mask[q] <==>
      InFence(fences, q) || InUrl(chars, FenceMask(chars, fences), q) || InDecimal(chars, q) ||
      InTable(chars, lines, q);
  }

  /** No cut separates two characters of one fence, URL, number or table; in
      particular no cut touches the point of a decimal number. */
  lemma NothingProtectedIsCut(
    chars: string, fences: seq<nat>, lines: seq<Line>, mask: seq<bool>, spans: seq<Span>, k: nat)
    requires IsProtectedMask(chars, fences, lines, mask) && IsSegmentation(chars, mask, spans) && k < |spans|
    requires spans[k].end < |chars|
    ensures !Inseparable(chars, fences, lines, spans[k].end)
    ensures !DecimalPoint(chars, spans[k].end - 1) && !DecimalPoint(chars, spans[k].end)
  {
    var p := spans[k].end;
    CutsRespectProtection(chars, mask, spans, k);
    if Inseparable(chars, fences, lines, p) {
      InseparableIsMasked(chars, fences, lines, mask, p);
    } else if DecimalPoint(chars, p) {
      PointBindsNeighbours(chars, p);
    } else if DecimalPoint(chars, p - 1) {
      PointBindsNeighbours(chars, p - 1);
    }
  }

  lemma PointBindsNeighbours(chars: string, p: int)
    requires DecimalPoint(chars, p)
    ensures InDecimal(chars, p - 1) && InDecimal(chars, p) && InDecimal(chars, p + 1)
  {
    assert NumeralRun(chars, Min(p - 1, p), Max(p - 1, p) + 1);
    assert NumeralRun(chars, Min(p, p), Max(p, p) + 1);
    assert NumeralRun(chars, Min(p + 1, p), Max(p + 1, p) + 1);
  }

  /** The chunks of the trimmed text, cut under its mask. */
  ghost predicate ArePhrases(text: string, chunks: seq<string>) {
    exists fences, lines, mask, spans ::
      IsProtectedMask(Trim(text), fences, lines, mask) && IsSegmentation(Trim(text), mask, spans) &&
      chunks == Chunks(Trim(text), spans)
  }

  /** A text has at most one sequence of phrases. */
  lemma PhrasesAreUnique(text: string, a: seq<string>, b: seq<string>)
    requires ArePhrases(text, a) && ArePhrases(text, b)
    ensures a == b
  {
    var f, l, m, s :|
      IsProtectedMask(Trim(text), f, l, m) && IsSegmentation(Trim(text), m, s) && a == Chunks(Trim(text), s);
    var g, k, n, t :|
      IsProtectedMask(Trim(text), g, k, n) && IsSegmentation(Trim(text), n, t) && b == Chunks(Trim(text), t);
    MaskIsUnique(Trim(text), f, g, l, k, m, n);
    SegmentationIsUnique(Trim(text), m, s, t);
  }

  /** Phrases hold every visible character of their text, in order. */
  lemma PhrasesKeepInk(text: string, chunks: seq<string>)
    requires ArePhrases(text, chunks)
    ensures Ink(Concat(chunks)) == Ink(text)
  {
    var f, l, m, s :|
      IsProtectedMask(Trim(text), f, l, m) && IsSegmentation(Trim(text), m, s) && chunks == Chunks(Trim(text), s);
    SegmentationKeepsInk(Trim(text), m, s);
    InkTrim(text);
  }

  /** The phrases of any text: trimmed, never empty, and together exactly the text
      but for whitespace; none only when there is nothing but whitespace. */
  method SegmentIntoPhrases(text: string) returns (chunks: seq<string>)
    ensures ArePhrases(text, chunks)
    ensures Ink(Concat(chunks)) == Ink(text)
    ensures forall k :: 0 <= k < |chunks| ==> chunks[k] != [] && IsTrimmed(chunks[k])
  {
    var trimmed := Trim(text);
    InkTrim(text);
    var mask, fences, lines := Protect(trimmed);
    if trimmed == [] {
      assert IsSegmentation(trimmed, mask, []) && Chunks(trimmed, []) == [];
      return [];
    }
    ghost var spans;
    chunks, spans := Split(trimmed, mask);
    SegmentationKeepsInk(trimmed, mask, spans);
    ChunksAreTrimmed(trimmed, spans);
  }
}
