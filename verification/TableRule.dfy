/** Which lines count as table lines: the rule in force against the one that the
    program's comment describes. */
module TableRule {
  import opened Text
  import opened ProtectedMask

  predicate Separator(t: string) {
    forall k :: 0 <= k < |t| ==> t[k] == '-' || t[k] == ':' || t[k] == '|' || t[k] == ' '
  }

  predicate Content(c: char) {
    c != ' ' && c != '|'
  }

  /** A pipe with content on both sides. */
  ghost predicate Divides(t: string, i: nat, p: nat, j: nat) {
    i < p < j < |t| && Content(t[i]) && t[p] == '|' && Content(t[j])
  }

  /** A table line as the program's comment describes it: a separator, or a row
      with content on both sides of some pipe. */
  ghost predicate DocumentedTableLine(t: string) {
    '|' in t && (Separator(t) || Divided(t))
  }

  /** How many of the cells between pipes hold content; `filled` tells whether the
      cell that `t` starts in already does. */
  function FilledCells(t: string, filled: bool): nat {
    if t == [] then (if filled then 1 else 0)
    else if t[0] == '|' then (if filled then 1 else 0) + FilledCells(t[1..], false)
    else FilledCells(t[1..], filled || Content(t[0]))
  }

  ghost predicate Trails(t: string, p: nat, j: nat) {
    p < j < |t| && t[p] == '|' && Content(t[j])
  }

  ghost predicate Divided(t: string) {
    exists i: nat, p: nat, j: nat :: Divides(t, i, p, j)
  }

  ghost predicate HasContent(t: string) {
    exists j: nat :: j < |t| && Content(t[j])
  }

  ghost predicate Trailed(t: string) {
    exists p: nat, j: nat :: Trails(t, p, j)
  }

  /** The first character of a text, and what it adds to each of these. */
  lemma HeadAdds(t: string)
    requires t != []
    ensures HasContent(t) <==> Content(t[0]) || HasContent(t[1..])
    ensures Trailed(t) <==> (t[0] == '|' && HasContent(t[1..])) || Trailed(t[1..])
    ensures Divided(t) <==> (Content(t[0]) && Trailed(t[1..])) || Divided(t[1..])
  {
    ContentShifts(t);
    TrailedShifts(t);
    DividedShifts(t);
  }

  lemma ContentShifts(t: string)
    requires t != []
    ensures HasContent(t) <==> Content(t[0]) || HasContent(t[1..])
  {
    if HasContent(t[1..]) {
      var j: nat :| j < |t[1..]| && Content(t[1..][j]);
      assert Content(t[j + 1]);
    }
    if HasContent(t) {
      var j: nat :| j < |t| && Content(t[j]);
      assert j > 0 ==> Content(t[1..][j - 1]);
    }
  }

  lemma TrailedShifts(t: string)
    requires t != []
    ensures Trailed(t) <==> (t[0] == '|' && HasContent(t[1..])) || Trailed(t[1..])
  {
    if t[0] == '|' && HasContent(t[1..]) {
      var j: nat :| j < |t[1..]| && Content(t[1..][j]);
      assert Trails(t, 0, j + 1);
    }
    if Trailed(t[1..]) {
      var p: nat, j: nat :| Trails(t[1..], p, j);
      assert Trails(t, p + 1, j + 1);
    }
    if Trailed(t) {
      var p: nat, j: nat :| Trails(t, p, j);
      assert Content(t[1..][j - 1]);
      if p > 0 {
        assert Trails(t[1..], p - 1, j - 1);
      }
    }
  }

  lemma DividedShifts(t: string)
    requires t != []
    ensures Divided(t) <==> (Content(t[0]) && Trailed(t[1..])) || Divided(t[1..])
  {
    if Content(t[0]) && Trailed(t[1..]) {
      var p: nat, j: nat :| Trails(t[1..], p, j);
      assert Divides(t, 0, p + 1, j + 1);
    }
    if Divided(t[1..]) {
      var i: nat, p: nat, j: nat :| Divides(t[1..], i, p, j);
      assert Divides(t, i + 1, p + 1, j + 1);
    }
    if Divided(t) {
      var i: nat, p: nat, j: nat :| Divides(t, i, p, j);
      if i > 0 {
        assert Divides(t[1..], i - 1, p - 1, j - 1);
      } else {
        assert Trails(t[1..], p - 1, j - 1);
      }
    }
  }

  lemma {:induction false} FilledCellsMeans(t: string, filled: bool)
    ensures FilledCells(t, filled) >= 1 <==> filled || HasContent(t)
    ensures FilledCells(t, filled) >= 2 <==> Divided(t) || (filled && Trailed(t))
    decreases |t|
  {
    if t != [] {
      HeadAdds(t);
      FilledCellsMeans(t[1..], if t[0] == '|' then false else filled || Content(t[0]));
    }
  }

  /** On a trimmed line the rule in force and the documented one agree exactly if
      the line has no pipe, is a separator, or has content in at least two cells. */
  lemma TableRuleAgreesIff(t: string)
    requires Trim(t) == t
    ensures (IsTableLine(t, Line(0, |t|)) <==> DocumentedTableLine(t)) <==>
            '|' !in t || Separator(t) || FilledCells(t, false) >= 2
  {
    assert t[0..|t|] == t;
    FilledCellsMeans(t, false);
  }

  /** A row of one cell is taken for a table line although it is not described as
      one. */
  lemma OneCellIsTakenForTable()
    ensures IsTableLine("a |", Line(0, 3)) && !DocumentedTableLine("a |")
  {
    var t := "a |";
    assert Trim(t) == t;
    assert !Separator(t) by {
      assert t[0] == 'a';
    }
    TableRuleAgreesIff(t);
  }

  function Trimmed(chars: string, line: Line): string
    requires line.start <= line.end <= |chars|
  {
    Trim(chars[line.start..line.end])
  }

  /** What the documented rule would protect. */
  ghost predicate InDocumentedTable(chars: string, lines: seq<Line>, p: nat)
    requires AreLines(chars, lines)
  {
    exists k :: 0 <= k < |lines| && OnDocumentedLine(chars, lines, k, p)
  }

  ghost predicate OnDocumentedLine(chars: string, lines: seq<Line>, k: nat, p: nat)
    requires AreLines(chars, lines) && k < |lines|
  {
    DocumentedTableLine(Trimmed(chars, lines[k])) && lines[k].start <= p <= lines[k].end &&
    (p == lines[k].end ==> k + 1 < |lines| && DocumentedTableLine(Trimmed(chars, lines[k + 1])))
  }

  /** A line that the rule in force takes for a table line and the documented one
      does not. */
  predicate Overtaken(chars: string, line: Line)
    requires line.start <= line.end <= |chars|
  {
    var t := Trimmed(chars, line);
    '|' in t && !Separator(t) && FilledCells(t, false) < 2
  }

  lemma OvertakenMeans(chars: string, line: Line)
    requires line.start <= line.end <= |chars|
    ensures DocumentedTableLine(Trimmed(chars, line)) <==> IsTableLine(chars, line) && !Overtaken(chars, line)
    ensures Overtaken(chars, line) ==> IsTableLine(chars, line) && line.start < line.end
  {
    FilledCellsMeans(Trimmed(chars, line), false);
  }

  /** A text gets more protection than documented exactly if some line has a pipe,
      is no separator, and has content in fewer than two cells; otherwise it gets
      exactly what is documented. */
  lemma TablesAsDocumentedIff(chars: string, lines: seq<Line>)
    requires AreLines(chars, lines)
    ensures forall p :: 0 <= p < |chars| && InDocumentedTable(chars, lines, p) ==> InTable(chars, lines, p)
    ensures
      (forall p :: 0 <= p < |chars| ==> (InTable(chars, lines, p) <==> InDocumentedTable(chars, lines, p))) <==>
      forall k :: 0 <= k < |lines| ==> !Overtaken(chars, lines[k])
  {
    forall k | 0 <= k < |lines|
      ensures DocumentedTableLine(Trimmed(chars, lines[k])) <==>
              IsTableLine(chars, lines[k]) && !Overtaken(chars, lines[k])
    {
      OvertakenMeans(chars, lines[k]);
    }
    forall p | 0 <= p < |chars| && InDocumentedTable(chars, lines, p) ensures InTable(chars, lines, p) {
      var k :| 0 <= k < |lines| && OnDocumentedLine(chars, lines, k, p);
      assert OnLine(chars, lines, k, p);
    }
    if forall k :: 0 <= k < |lines| ==> !Overtaken(chars, lines[k]) {
      forall p | 0 <= p < |chars| && InTable(chars, lines, p) ensures InDocumentedTable(chars, lines, p) {
        var k :| 0 <= k < |lines| && OnLine(chars, lines, k, p);
        assert OnDocumentedLine(chars, lines, k, p);
      }
    } else {
      var k :| 0 <= k < |lines| && Overtaken(chars, lines[k]);
      OvertakenIsMarked(chars, lines, k);
    }
  }

  lemma OvertakenIsMarked(chars: string, lines: seq<Line>, k: nat)
    requires AreLines(chars, lines) && k < |lines| && Overtaken(chars, lines[k])
    ensures
      var p := lines[k].start;
      p < |chars| && InTable(chars, lines, p) && !InDocumentedTable(chars, lines, p)
  {
    var p := lines[k].start;
    OvertakenMeans(chars, lines[k]);
    assert OnLine(chars, lines, k, p);
    if InDocumentedTable(chars, lines, p) {
      var q :| 0 <= q < |lines| && OnDocumentedLine(chars, lines, q, p);
      OnlyLine(chars, lines, q, k, p);
    }
  }
}
