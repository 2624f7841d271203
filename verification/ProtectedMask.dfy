/** Which characters of a text must not be split: fenced code, URLs, decimal
    numbers and tables. Each pass writes into one mask in place and is proved to
    mark exactly the characters its definition names. */
module ProtectedMask {
  import opened Text
  import opened Arithmetic

  /** Marks `from` up to `to`. */
  method MarkRange(mask: array<bool>, from: nat, to: nat)
    requires from <= to <= mask.Length
    modifies mask
    ensures forall p :: 0 <= p < mask.Length ==> mask[p] == (old(mask[p]) || from <= p < to)
  {
    for p := from to to
      invariant forall q :: 0 <= q < mask.Length ==> mask[q] == (old(mask[q]) || from <= q < p)
    {
      mask[p] := true;
    }
  }

  // ---- Code fences ----

  /** Three backticks in a row. */
  predicate FenceAt(chars: string, i: nat) {
    i + 3 <= |chars| && chars[i] == '`' && chars[i + 1] == '`' && chars[i + 2] == '`'
  }

  /** The fences of a text: three backticks each, apart from each other, and as many
      and as early as can be, so that wherever three backticks start, there or up to
      two characters earlier a fence does. */
  ghost predicate AreFences(chars: string, fences: seq<nat>) {
    && (forall k {:trigger FenceAt(chars, fences[k])} :: 0 <= k < |fences| ==> FenceAt(chars, fences[k]))
    && (forall j, k :: 0 <= j < |fences| && k == j + 1 < |fences| ==> fences[j] + 3 <= fences[k])
    && (forall i :: 0 <= i < |chars| && FenceAt(chars, i) ==> Covered(fences, i))
  }

  ghost predicate Covered(fences: seq<nat>, i: nat) {
    exists k :: 0 <= k < |fences| && fences[k] <= i < fences[k] + 3
  }

  /** Between an opening fence and the end of its partner, or the end of the text. */
  ghost predicate InFence(fences: seq<nat>, p: nat) {
    exists k :: 0 <= k < |fences| && Encloses(fences, k, p)
  }

  ghost predicate Encloses(fences: seq<nat>, k: nat, p: nat)
    requires k < |fences|
  {
    k % 2 == 0 && fences[k] <= p && (k + 1 < |fences| ==> p < fences[k + 1] + 3)
  }

  lemma {:induction false} FencesOrdered(chars: string, fences: seq<nat>, j: nat, k: nat)
    requires AreFences(chars, fences) && j < k < |fences|
    ensures fences[j] + 3 <= fences[k]
    decreases k - j
  {
    if j + 1 < k {
      FencesOrdered(chars, fences, j, k - 1);
    }
    assert fences[k - 1] + 3 <= fences[k];
  }

  /** Fences that agree up to the `k`-th agree there, or neither has one. */
  lemma SameNextFence(chars: string, a: seq<nat>, b: seq<nat>, k: nat)
    requires AreFences(chars, a) && AreFences(chars, b) && k <= |a| && k <= |b| && a[..k] == b[..k]
    ensures k < |a| ==> k < |b| && b[k] <= a[k]
  {
    if k < |a| {
      assert FenceAt(chars, a[k]);
      var m :| 0 <= m < |b| && b[m] <= a[k] < b[m] + 3;
      if m < k {
        assert b[m] == a[m];
        FencesOrdered(chars, a, m, k);
      } else if k < m {
        FencesOrdered(chars, b, k, m);
      }
    }
  }

  lemma {:induction false} SameFences(chars: string, a: seq<nat>, b: seq<nat>, k: nat)
    requires AreFences(chars, a) && AreFences(chars, b) && k <= |a|
    ensures k <= |b| && a[..k] == b[..k]
  {
    if k > 0 {
      SameFences(chars, a, b, k - 1);
      SameNextFence(chars, a, b, k - 1);
      SameNextFence(chars, b, a, k - 1);
    }
  }

  /** A text has at most one sequence of fences. */
  lemma FencesAreUnique(chars: string, a: seq<nat>, b: seq<nat>)
    requires AreFences(chars, a) && AreFences(chars, b)
    ensures a == b
  {
    SameFences(chars, a, b, |a|);
    SameFences(chars, b, a, |b|);
  }

  /** The fences that start before `i`, all of which end there. */
  ghost predicate FencesTo(chars: string, fences: seq<nat>, i: nat) {
    && (forall k {:trigger FenceAt(chars, fences[k])} :: 0 <= k < |fences| ==>
          FenceAt(chars, fences[k]) && fences[k] + 3 <= i)
    && (forall j, k :: 0 <= j < |fences| && k == j + 1 < |fences| ==> fences[j] + 3 <= fences[k])
    && (forall p :: 0 <= p < i && FenceAt(chars, p) ==> Covered(fences, p))
  }

  lemma CoveredMore(fences: seq<nat>, i: nat, p: nat)
    requires Covered(fences, p) || i <= p < i + 3
    ensures Covered(fences + [i], p)
  {
    if Covered(fences, p) {
      var k :| 0 <= k < |fences| && fences[k] <= p < fences[k] + 3;
      assert (fences + [i])[k] == fences[k];
    } else {
      assert (fences + [i])[|fences|] == i;
    }
  }

  lemma FencesMore(chars: string, fences: seq<nat>, i: nat)
    requires FencesTo(chars, fences, i) && FenceAt(chars, i)
    ensures FencesTo(chars, fences + [i], i + 3)
  {
    var more := fences + [i];
    forall k | 0 <= k < |more| ensures FenceAt(chars, more[k]) && more[k] + 3 <= i + 3 {
      assert k < |fences| ==> FenceAt(chars, fences[k]);
    }
    forall j, k | 0 <= j < |more| && k == j + 1 < |more| ensures more[j] + 3 <= more[k] {
      assert FenceAt(chars, fences[j]);
    }
    forall p: nat | p < i + 3 && FenceAt(chars, p) ensures Covered(more, p) {
      CoveredMore(fences, i, p);
    }
  }

  lemma FencesStay(chars: string, fences: seq<nat>, i: nat)
    requires FencesTo(chars, fences, i) && !FenceAt(chars, i)
    ensures FencesTo(chars, fences, i + 1)
  {
  }

  method FindFences(chars: string) returns (starts: seq<nat>)
    ensures AreFences(chars, starts)
  {
    starts := [];
    var i := 0;
    while i + 2 < |chars|
      invariant FencesTo(chars, starts, i)
      decreases |chars| - i
    {
      if chars[i] == '`' && chars[i + 1] == '`' && chars[i + 2] == '`' {
        FencesMore(chars, starts, i);
        starts := starts + [i];
        i := i + 3;
      } else {
        FencesStay(chars, starts, i);
        i := i + 1;
      }
    }
  }

  ghost predicate EnclosedBefore(fences: seq<nat>, idx: nat, p: nat) {
    exists k :: 0 <= k < |fences| && k < idx && Encloses(fences, k, p)
  }

  method ProtectCodeFences(chars: string, mask: array<bool>) returns (ghost fences: seq<nat>)
    requires mask.Length == |chars|
    modifies mask
    ensures AreFences(chars, fences)
    ensures forall p :: 0 <= p < |chars| ==> mask[p] == (old(mask[p]) || InFence(fences, p))
  {
    var starts := FindFences(chars);
    fences := starts;
    var idx := 0;
    while idx + 1 < |starts|
      invariant idx <= |starts| && idx % 2 == 0
      invariant forall p :: 0 <= p < |chars| ==> mask[p] == (old(mask[p]) || EnclosedBefore(starts, idx, p))
      decreases |starts| - idx
    {
      assert FenceAt(chars, starts[idx + 1]) && starts[idx] + 3 <= starts[idx + 1];
      MarkRange(mask, starts[idx], starts[idx + 1] + 3);
      forall p | 0 <= p < |chars|
        ensures EnclosedBefore(starts, idx + 2, p) <==>
          EnclosedBefore(starts, idx, p) || starts[idx] <= p < starts[idx + 1] + 3
      {
        EnclosedNext(starts, idx, p);
      }
      idx := idx + 2;
    }
    if idx < |starts| {
      assert FenceAt(chars, starts[idx]);
      MarkRange(mask, starts[idx], |chars|);
    }
    forall p | 0 <= p < |chars|
      ensures InFence(starts, p) <==> EnclosedBefore(starts, idx, p) || (idx < |starts| && starts[idx] <= p)
    {
      if idx < |starts| && starts[idx] <= p {
        assert Encloses(starts, idx, p);
      }
    }
  }

  lemma EnclosedNext(fences: seq<nat>, idx: nat, p: nat)
    requires idx % 2 == 0 && idx + 1 < |fences|
    ensures EnclosedBefore(fences, idx + 2, p) <==>
      EnclosedBefore(fences, idx, p) || fences[idx] <= p < fences[idx + 1] + 3
  {
    assert Encloses(fences, idx, p) <==> fences[idx] <= p < fences[idx + 1] + 3;
    assert !Encloses(fences, idx + 1, p);
  }

  // ---- URLs ----

  predicate MatchesAt(chars: string, pos: nat, needle: string) {
    pos + |needle| <= |chars| && chars[pos..pos + |needle|] == needle
  }

  predicate UrlAt(chars: string, i: nat) {
    MatchesAt(chars, i, "http://") || MatchesAt(chars, i, "https://") || MatchesAt(chars, i, "www.")
  }

  /** No whitespace from `a` up to `b`. */
  ghost predicate Unbroken(chars: string, a: nat, b: nat) {
    forall k :: a <= k < b && k < |chars| ==> !IsWhitespace(chars[k])
  }

  /** In the run, up to the next whitespace, of a URL that starts unprotected. */
  ghost predicate InUrl(chars: string, mask: seq<bool>, p: nat)
    requires |mask| == |chars|
  {
    exists i :: 0 <= i <= p && i < |chars| && UrlRun(chars, mask, i, p)
  }

  ghost predicate UrlRun(chars: string, mask: seq<bool>, i: nat, p: nat)
    requires |mask| == |chars| && i < |chars|
  {
    !mask[i] && UrlAt(chars, i) && Unbroken(chars, i, p + 1)
  }

  /** No URL run that starts before `i` reaches `i`. */
  ghost predicate RunsEndBefore(chars: string, mask: seq<bool>, i: nat)
    requires |mask| == |chars|
  {
    forall s :: 0 <= s < i && s < |chars| ==> !UrlRun(chars, mask, s, i)
  }

  method ProtectUrls(chars: string, mask: array<bool>)
    requires mask.Length == |chars|
    modifies mask
    ensures forall p :: 0 <= p < |chars| ==> mask[p] == (old(mask[p]) || InUrl(chars, old(mask[..]), p))
  {
    ghost var before := mask[..];
    var i := 0;
    while i < |chars|
      invariant i <= |chars|
      invariant i < |chars| ==> RunsEndBefore(chars, before, i)
      invariant forall p :: 0 <= p < i ==> mask[p] == (before[p] || InUrl(chars, before, p))
      invariant forall p :: i <= p < |chars| ==> mask[p] == before[p]
      decreases |chars| - i
    {
      if !mask[i] && UrlAt(chars, i) {
        var end := i;
        while end < |chars| && !IsWhitespace(chars[end])
          invariant i <= end <= |chars| && Unbroken(chars, i, end)
        {
          end := end + 1;
        }
        UrlHasInk(chars, i);
        MarkRange(mask, i, end);
        forall p | i <= p < end ensures InUrl(chars, before, p) {
          assert UrlRun(chars, before, i, p);
        }
        i := end;
      } else {
        assert !InUrl(chars, before, i);
        RunsStayEnded(chars, before, i, i + 1);
        i := i + 1;
      }
    }
  }

  lemma RunsStayEnded(chars: string, mask: seq<bool>, i: nat, next: nat)
    requires |mask| == |chars| && i < |chars| && next == i + 1
    requires RunsEndBefore(chars, mask, i) && !UrlRun(chars, mask, i, i)
    ensures RunsEndBefore(chars, mask, next)
  {
    forall s | 0 <= s < next && s < |chars| ensures !UrlRun(chars, mask, s, next) {
      assert UrlRun(chars, mask, s, next) ==> UrlRun(chars, mask, s, i);
    }
  }

  lemma UrlHasInk(chars: string, i: nat)
    requires i < |chars| && UrlAt(chars, i)
    ensures !IsWhitespace(chars[i])
  {
    if MatchesAt(chars, i, "http://") {
      assert chars[i] == chars[i..i + 7][0];
    } else if MatchesAt(chars, i, "https://") {
      assert chars[i] == chars[i..i + 8][0];
    } else {
      assert chars[i] == chars[i..i + 4][0];
    }
  }

  // ---- Decimal numbers ----

  predicate DigitAt(chars: string, p: int) {
    0 <= p < |chars| && IsDigit(chars[p])
  }

  /** A digit, or a point or comma between two digits. */
  predicate NumeralAt(chars: string, p: int) {
    DigitAt(chars, p) ||
    (0 <= p < |chars| && (chars[p] == '.' || chars[p] == ',') && DigitAt(chars, p - 1) && DigitAt(chars, p + 1))
  }

  predicate DecimalPoint(chars: string, p: int) {
    0 <= p < |chars| && chars[p] == '.' && DigitAt(chars, p - 1) && DigitAt(chars, p + 1)
  }

  ghost predicate NumeralRun(chars: string, a: int, b: int) {
    forall k :: a <= k < b ==> NumeralAt(chars, k)
  }

  /** In a run of numeral characters that contains a decimal point. */
  ghost predicate InDecimal(chars: string, p: int) {
    exists q :: DecimalPoint(chars, q) && NumeralRun(chars, Min(p, q), Max(p, q) + 1)
  }

  method ProtectNumbers(chars: string, mask: array<bool>)
    requires mask.Length == |chars|
    modifies mask
    ensures forall p :: 0 <= p < |chars| ==> mask[p] == (old(mask[p]) || InDecimal(chars, p))
  {
    ghost var before := mask[..];
    var i := 0;
    while i < |chars|
      invariant i <= |chars|
      invariant !NumeralAt(chars, i - 1) || !NumeralAt(chars, i)
      invariant forall p :: 0 <= p < i ==> mask[p] == (before[p] || InDecimal(chars, p))
      invariant forall p :: i <= p < |chars| ==> mask[p] == before[p]
      decreases |chars| - i
    {
      if IsDigit(chars[i]) {
        var j, sawDecimalPoint := NumberFrom(chars, i);
        if sawDecimalPoint {
          MarkRange(mask, i, j);
        }
        forall p | i <= p < j ensures InDecimal(chars, p) <==> sawDecimalPoint {
          DecimalInRun(chars, i, j, p);
        }
        i := j;
      } else {
        DecimalsAreNumerals(chars, i);
        i := i + 1;
      }
    }
  }

  lemma DecimalsAreNumerals(chars: string, p: int)
    ensures InDecimal(chars, p) ==> NumeralAt(chars, p)
  {
  }

  /** The maximal numeral run that starts with the digit at `start`. */
  method NumberFrom(chars: string, start: nat) returns (j: nat, sawDecimalPoint: bool)
    requires DigitAt(chars, start)
    ensures start < j <= |chars| && NumeralRun(chars, start, j) && !NumeralAt(chars, j)
    ensures sawDecimalPoint <==> exists q :: start <= q < j && DecimalPoint(chars, q)
  {
    j, sawDecimalPoint := start, false;
    while j < |chars|
      invariant start <= j <= |chars| && NumeralRun(chars, start, j)
      invariant j > start ==> DigitAt(chars, j - 1) || DigitAt(chars, j)
      invariant sawDecimalPoint <==> exists q :: start <= q < j && DecimalPoint(chars, q)
    {
      var c := chars[j];
      if IsDigit(c) {
        j := j + 1;
      } else if (c == '.' || c == ',') && j + 1 < |chars| && IsDigit(chars[j + 1]) && j > start {
        if c == '.' {
          assert DecimalPoint(chars, j);
          sawDecimalPoint := true;
        }
        j := j + 1;
      } else {
        break;
      }
    }
  }

  /** A maximal run is decimal as a whole or not at all. */
  lemma DecimalInRun(chars: string, a: int, b: int, p: int)
    requires a <= p < b && NumeralRun(chars, a, b) && !NumeralAt(chars, b) && !NumeralAt(chars, a - 1)
    ensures InDecimal(chars, p) <==> exists q :: a <= q < b && DecimalPoint(chars, q)
  {
    if InDecimal(chars, p) {
      var q :| DecimalPoint(chars, q) && NumeralRun(chars, Min(p, q), Max(p, q) + 1);
      assert q < a ==> NumeralAt(chars, a - 1);
      assert q >= b ==> NumeralAt(chars, b);
      assert a <= q < b;
    }
  }

  // ---- Tables ----

  datatype Line = Line(start: nat, end: nat)

  /** A line that looks like a table row or separator: it holds a pipe. */
  predicate IsTableLine(chars: string, line: Line)
    requires line.start <= line.end <= |chars|
  {
    var trimmed := Trim(chars[line.start..line.end]);
    trimmed != [] && '|' in trimmed
  }

  /** The lines of a text, newlines excluded. */
  ghost predicate AreLines(chars: string, lines: seq<Line>) {
    && lines != [] && lines[0].start == 0 && lines[|lines| - 1].end == |chars|
    && (forall k :: 0 <= k < |lines| ==> lines[k].start <= lines[k].end <= |chars|)
    && (forall j, k :: 0 <= j < |lines| && k == j + 1 < |lines| ==> NextLine(chars, lines[j], lines[k]))
  }

  ghost predicate NoNewline(chars: string, line: Line) {
    forall p :: line.start <= p < line.end && p < |chars| ==> chars[p] != '\n'
  }

  ghost predicate NextLine(chars: string, a: Line, b: Line) {
    a.end < |chars| && chars[a.end] == '\n' && b.start == a.end + 1
  }

  /** In a table line, or the newline between two of them. */
  ghost predicate InTable(chars: string, lines: seq<Line>, p: nat)
    requires AreLines(chars, lines)
  {
    exists k :: 0 <= k < |lines| && OnLine(chars, lines, k, p)
  }

  ghost predicate OnLine(chars: string, lines: seq<Line>, k: nat, p: nat)
    requires AreLines(chars, lines) && k < |lines|
  {
    IsTableLine(chars, lines[k]) && lines[k].start <= p <= lines[k].end &&
    (p == lines[k].end ==> k + 1 < |lines| && IsTableLine(chars, lines[k + 1]))
  }

  method FindLines(chars: string) returns (lines: seq<Line>)
    ensures AreLines(chars, lines)
    ensures forall k :: 0 <= k < |lines| ==> NoNewline(chars, lines[k])
  {
    lines := [];
    var lineStart := 0;
    for idx := 0 to |chars|
      invariant lineStart <= idx
      invariant lines == [] <==> lineStart == 0
      invariant lines != [] ==> lines[0].start == 0
      invariant forall k :: 0 <= k < |lines| ==> lines[k].start <= lines[k].end < |chars|
      invariant forall j, k :: 0 <= j < |lines| && k == j + 1 < |lines| ==> NextLine(chars, lines[j], lines[k])
      invariant lines != [] ==> NextLine(chars, lines[|lines| - 1], Line(lineStart, lineStart))
      invariant forall p :: lineStart <= p < idx ==> chars[p] != '\n'
      invariant forall k :: 0 <= k < |lines| ==> NoNewline(chars, lines[k])
    {
      if chars[idx] == '\n' {
        lines := lines + [Line(lineStart, idx)];
        lineStart := idx + 1;
      }
    }
    lines := lines + [Line(lineStart, |chars|)];
  }

  /** The first position not yet decided when line `k` is next. */
  function Bound(chars: string, lines: seq<Line>, k: nat): nat {
    if k < |lines| then lines[k].start else |chars|
  }

  lemma {:induction false} LinesOrdered(chars: string, lines: seq<Line>, j: nat, k: nat)
    requires AreLines(chars, lines) && j < k < |lines|
    ensures lines[j].end < lines[k].start
    decreases k - j
  {
    if j + 1 < k {
      LinesOrdered(chars, lines, j, k - 1);
    }
    assert NextLine(chars, lines[k - 1], lines[k]);
  }

  /** Past the table lines that start at `idx`. */
  method TableEnd(chars: string, rows: seq<Line>, idx: nat) returns (next: nat)
    requires AreLines(chars, rows) && idx <= |rows|
    ensures idx <= next <= |rows| && forall k :: idx <= k < next ==> IsTableLine(chars, rows[k])
    ensures next < |rows| ==> !IsTableLine(chars, rows[next])
  {
    next := idx;
    while next < |rows| && IsTableLine(chars, rows[next])
      invariant idx <= next <= |rows|
      invariant forall k :: idx <= k < next ==> IsTableLine(chars, rows[k])
    {
      next := next + 1;
    }
  }

  method ProtectTables(chars: string, mask: array<bool>) returns (ghost lines: seq<Line>)
    requires mask.Length == |chars|
    modifies mask
    ensures AreLines(chars, lines)
    ensures forall k :: 0 <= k < |lines| ==> NoNewline(chars, lines[k])
    ensures forall p :: 0 <= p < |chars| ==> mask[p] == (old(mask[p]) || InTable(chars, lines, p))
  {
    ghost var before := mask[..];
    var rows := FindLines(chars);
    lines := rows;
    var idx := 0;
    while idx < |rows|
      invariant idx <= |rows|
      invariant 0 < idx < |rows| ==> !IsTableLine(chars, rows[idx - 1]) || !IsTableLine(chars, rows[idx])
      invariant forall p :: 0 <= p < Bound(chars, rows, idx) ==> mask[p] == (before[p] || InTable(chars, rows, p))
      invariant forall p :: Bound(chars, rows, idx) <= p < |chars| ==> mask[p] == before[p]
    {
      var next := TableEnd(chars, rows, idx);
      if next > idx {
        TableBlock(chars, rows, idx, next);
        MarkRange(mask, rows[idx].start, rows[next - 1].end);
      } else {
        next := idx + 1;
        LoneRow(chars, rows, idx);
      }
      idx := next;
    }
  }

  /** Which line a position belongs to. */
  lemma OnlyLine(chars: string, lines: seq<Line>, j: nat, k: nat, p: nat)
    requires AreLines(chars, lines) && j < |lines| && k < |lines|
    requires lines[j].start <= p <= lines[j].end && lines[k].start <= p <= lines[k].end
    ensures j == k
  {
    if j < k {
      LinesOrdered(chars, lines, j, k);
    } else if k < j {
      LinesOrdered(chars, lines, k, j);
    }
  }

  lemma {:induction false} LineOf(chars: string, lines: seq<Line>, idx: nat, next: nat, p: nat) returns (k: nat)
    requires AreLines(chars, lines) && idx < next <= |lines|
    requires lines[idx].start <= p < Bound(chars, lines, next)
    ensures idx <= k < next && lines[k].start <= p <= lines[k].end
    decreases next - idx
  {
    if p <= lines[idx].end {
      k := idx;
    } else {
      assert idx + 1 < |lines| ==> NextLine(chars, lines[idx], lines[idx + 1]);
      k := LineOf(chars, lines, idx + 1, next, p);
    }
  }

  /** A run of table lines is protected from its start to the end of its last. */
  lemma TableBlock(chars: string, lines: seq<Line>, idx: nat, next: nat)
    requires AreLines(chars, lines) && idx < next <= |lines|
    requires forall k :: idx <= k < next ==> IsTableLine(chars, lines[k])
    requires next < |lines| ==> !IsTableLine(chars, lines[next])
    ensures lines[idx].start <= lines[next - 1].end <= Bound(chars, lines, next)
    ensures forall p :: lines[idx].start <= p < Bound(chars, lines, next) && p < |chars| ==>
      (InTable(chars, lines, p) <==> p < lines[next - 1].end)
  {
    if idx < next - 1 {
      LinesOrdered(chars, lines, idx, next - 1);
    }
    if next < |lines| {
      LinesOrdered(chars, lines, next - 1, next);
    }
    forall p | lines[idx].start <= p < Bound(chars, lines, next) && p < |chars|
      ensures InTable(chars, lines, p) <==> p < lines[next - 1].end
    {
      var k := LineOf(chars, lines, idx, next, p);
      OnlyOnLine(chars, lines, k, p);
      InBlock(chars, lines, k, next, p);
    }
  }

  /** A position on line `k` of a block that ends with line `next - 1`. */
  lemma InBlock(chars: string, lines: seq<Line>, k: nat, next: nat, p: nat)
    requires AreLines(chars, lines) && k < next <= |lines| && p < |chars| && lines[k].start <= p <= lines[k].end
    requires IsTableLine(chars, lines[k]) && IsTableLine(chars, lines[next - 1])
    requires k < next - 1 ==> IsTableLine(chars, lines[k + 1])
    requires next < |lines| ==> !IsTableLine(chars, lines[next])
    ensures OnLine(chars, lines, k, p) <==> p < lines[next - 1].end
  {
    if k < next - 1 {
      LinesOrdered(chars, lines, k, next - 1);
    }
  }

  lemma LoneRow(chars: string, lines: seq<Line>, idx: nat)
    requires AreLines(chars, lines) && idx < |lines| && !IsTableLine(chars, lines[idx])
    ensures forall p :: lines[idx].start <= p < Bound(chars, lines, idx + 1) && p < |chars| ==>
      !InTable(chars, lines, p)
  {
    forall p | lines[idx].start <= p < Bound(chars, lines, idx + 1) && p < |chars| ensures !InTable(chars, lines, p) {
      var k := LineOf(chars, lines, idx, idx + 1, p);
      OnlyOnLine(chars, lines, k, p);
    }
  }

  lemma OnlyOnLine(chars: string, lines: seq<Line>, k: nat, p: nat)
    requires AreLines(chars, lines) && k < |lines| && p < |chars| && lines[k].start <= p <= lines[k].end
    ensures InTable(chars, lines, p) <==> OnLine(chars, lines, k, p)
  {
    if InTable(chars, lines, p) {
      var q :| 0 <= q < |lines| && OnLine(chars, lines, q, p);
      OnlyLine(chars, lines, q, k, p);
    }
  }

  // ---- All four ----

  ghost function FenceMask(chars: string, fences: seq<nat>): (mask: seq<bool>)
    ensures |mask| == |chars|
  {
    seq(|chars|, p requires 0 <= p < |chars| => InFence(fences, p))
  }

  /** A character is protected exactly when it is in a fence, in the run of a URL
      that starts outside every fence, in a decimal number or in a table. */
  ghost predicate IsProtectedMask(chars: string, fences: seq<nat>, lines: seq<Line>, mask: seq<bool>) {
    && |mask| == |chars| && AreFences(chars, fences) && WholeLines(chars, lines)
    && forall p :: 0 <= p < |chars| ==>
         (mask[p] <==>
            InFence(fences, p) || InUrl(chars, FenceMask(chars, fences), p) || InDecimal(chars, p) ||
            InTable(chars, lines, p))
  }

  ghost predicate WholeLines(chars: string, lines: seq<Line>) {
    AreLines(chars, lines) && forall k :: 0 <= k < |lines| ==> NoNewline(chars, lines[k])
  }

  lemma SameLineEnd(chars: string, a: Line, b: Line)
    requires a.start == b.start <= a.end <= |chars| && b.start <= b.end <= |chars|
    requires a.end == |chars| || chars[a.end] == '\n'
    requires NoNewline(chars, b)
    ensures b.end <= a.end
  {
  }

  lemma {:induction false} SameLines(chars: string, a: seq<Line>, b: seq<Line>, k: nat)
    requires WholeLines(chars, a) && WholeLines(chars, b) && k < |a|
    ensures k < |b| && a[k] == b[k]
  {
    if k > 0 {
      SameLines(chars, a, b, k - 1);
      assert NextLine(chars, a[k - 1], a[k]);
      assert k < |b|;
      assert NextLine(chars, b[k - 1], b[k]);
    }
    assert k + 1 < |a| ==> NextLine(chars, a[k], a[k + 1]);
    assert k + 1 < |b| ==> NextLine(chars, b[k], b[k + 1]);
    SameLineEnd(chars, a[k], b[k]);
    SameLineEnd(chars, b[k], a[k]);
  }

  lemma LinesAreUnique(chars: string, a: seq<Line>, b: seq<Line>)
    requires WholeLines(chars, a) && WholeLines(chars, b)
    ensures a == b
  {
    SameLines(chars, a, b, |a| - 1);
    SameLines(chars, b, a, |b| - 1);
    forall k | 0 <= k < |a| ensures a[k] == b[k] {
      SameLines(chars, a, b, k);
    }
  }

  /** A text has exactly one mask. */
  lemma MaskIsUnique(
    chars: string, f: seq<nat>, g: seq<nat>, a: seq<Line>, b: seq<Line>, m: seq<bool>, n: seq<bool>)
    requires IsProtectedMask(chars, f, a, m) && IsProtectedMask(chars, g, b, n)
    ensures m == n
  {
    FencesAreUnique(chars, f, g);
    LinesAreUnique(chars, a, b);
  }

  method Protect(chars: string) returns (result: seq<bool>, ghost fences: seq<nat>, ghost lines: seq<Line>)
    ensures IsProtectedMask(chars, fences, lines, result)
    ensures forall fs, ls, m :: IsProtectedMask(chars, fs, ls, m) ==> result == m
  {
    var mask := new bool[|chars|](_ => false);
    fences := ProtectCodeFences(chars, mask);
    assert mask[..] == FenceMask(chars, fences);
    ProtectUrls(chars, mask);
    ProtectNumbers(chars, mask);
    lines := ProtectTables(chars, mask);
    result := mask[..];
    forall fs, ls, m | IsProtectedMask(chars, fs, ls, m) ensures result == m {
      MaskIsUnique(chars, fences, fs, lines, ls, result, m);
    }
  }
}
