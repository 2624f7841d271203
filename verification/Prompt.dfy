/** Preparing text for the speech model and splitting it to the model's token
    budget. Letter case and the tokenizer are parameters: the model relies on
    nothing about the tokenizer and only on the casing laws stated here. */
module Prompt {
  import opened Wrappers
  import opened Text
  import opened Wording
  import opened Phrases
  import opened Sequences

  const MAX_TOKENS_PER_INFERENCE: nat := 50

  datatype Casing = Casing(isLower: char -> bool, upper: char -> string, isAlphanumeric: char -> bool)

  /** Upper-casing yields visible text, and upper-casing its first letter again
      changes nothing; whitespace and the full stop are not letters. */
  ghost predicate Lawful(casing: Casing) {
    && (forall c :: casing.isLower(c) ==> LawfulUpper(casing, c))
    && (forall c :: IsWhitespace(c) ==> !casing.isAlphanumeric(c) && !casing.isLower(c))
    && !casing.isAlphanumeric('.')
  }

  ghost predicate LawfulUpper(casing: Casing, c: char) {
    var u := casing.upper(c);
    && u != [] && (forall k :: 0 <= k < |u| ==> !IsWhitespace(u[k]))
    && (casing.isLower(u[0]) ==> casing.upper(u[0]) == [u[0]])
  }

  datatype PreparedPrompt = PreparedPrompt(text: string, framesAfterEos: nat)

  datatype Error = TokenizerFailed | EmptyChunk | OverBudget(tokens: nat) | InferenceFailed

  type Tokenizer = string -> Result<nat, Error>

  /** Everything behind the token check; it may fail. */
  type Inference = string -> Option<seq<real>>

  // ---- Preparing ----

  /** Every run of whitespace becomes one space. */
  function Collapse(s: string, lastWasSpace: bool): string
    decreases |s|
  {
    if s == [] then []
    else if IsWhitespace(s[0]) then (if lastWasSpace then [] else [' ']) + Collapse(s[1..], true)
    else [s[0]] + Collapse(s[1..], false)
  }

  function Capitalise(casing: Casing, s: string): string {
    if s != [] && casing.isLower(s[0]) then casing.upper(s[0]) + s[1..] else s
  }

  function Terminate(casing: Casing, s: string): string {
    if s != [] && casing.isAlphanumeric(s[|s| - 1]) then s + ['.'] else s
  }

  function FramesAfterEos(s: string): nat {
    if |Words(s)| <= 4 then 5 else 3
  }

  function Prepare(casing: Casing, input: string): Option<PreparedPrompt> {
    var trimmed := Trim(input);
    if trimmed == [] then None
    else
      var text := Terminate(casing, Capitalise(casing, Collapse(trimmed, false)));
      Some(PreparedPrompt(text, FramesAfterEos(text)))
  }

  method CollapseRuns(trimmed: string) returns (cleaned: string)
    ensures cleaned == Collapse(trimmed, false)
  {
    cleaned := [];
    var lastWasSpace := false;
    ghost var all := Collapse(trimmed, false);
    assert trimmed[0..] == trimmed;
    for i := 0 to |trimmed|
      invariant cleaned + Collapse(trimmed[i..], lastWasSpace) == all
    {
      var ch := trimmed[i];
      ghost var before, rest := cleaned, trimmed[i..];
      assert rest[0] == ch && rest[1..] == trimmed[i + 1..];
      if IsWhitespace(ch) {
        assert Collapse(rest, lastWasSpace) == (if lastWasSpace then [] else [' ']) + Collapse(rest[1..], true);
        if !lastWasSpace {
          cleaned := cleaned + [' '];
        }
        lastWasSpace := true;
        assert cleaned + Collapse(rest[1..], true) == all;
      } else {
        assert Collapse(rest, lastWasSpace) == [ch] + Collapse(rest[1..], false);
        cleaned := cleaned + [ch];
        lastWasSpace := false;
        assert cleaned + Collapse(rest[1..], false) == all;
      }
    }
    assert trimmed[|trimmed|..] == [];
  }

  method PreparePrompt(casing: Casing, input: string) returns (r: Option<PreparedPrompt>)
    ensures r == Prepare(casing, input)
  {
    var trimmed := Trim(input);
    if trimmed == [] {
      return None;
    }
    var cleaned := CollapseRuns(trimmed);
    if cleaned != [] && casing.isLower(cleaned[0]) {
      cleaned := casing.upper(cleaned[0]) + cleaned[1..];
    }
    assert cleaned == Capitalise(casing, Collapse(trimmed, false));
    if cleaned != [] && casing.isAlphanumeric(cleaned[|cleaned| - 1]) {
      cleaned := cleaned + ['.'];
    }
    assert cleaned == Terminate(casing, Capitalise(casing, Collapse(trimmed, false)));
    r := Some(PreparedPrompt(cleaned, FramesAfterEos(cleaned)));
  }

  /** Whitespace only as single spaces between other characters. */
  predicate SingleSpaced(s: string) {
    IsTrimmed(s) && forall k :: 0 <= k < |s| && IsWhitespace(s[k]) ==>
      s[k] == ' ' && (k + 1 < |s| ==> !IsWhitespace(s[k + 1]))
  }

  /** What preparing produces, and the only text it leaves alone. */
  predicate IsPrepared(casing: Casing, s: string) {
    && s != [] && SingleSpaced(s)
    && (casing.isLower(s[0]) ==> casing.upper(s[0]) == [s[0]])
    && !casing.isAlphanumeric(s[|s| - 1])
  }

  lemma {:induction false} CollapseSpaces(s: string, lastWasSpace: bool)
    requires s != [] && !IsWhitespace(s[|s| - 1])
    ensures
      var c := Collapse(s, lastWasSpace);
      && c != [] && c[|c| - 1] == s[|s| - 1]
      && (lastWasSpace ==> !IsWhitespace(c[0]))
      && (!IsWhitespace(s[0]) ==> c[0] == s[0])
      && forall k :: 0 <= k < |c| && IsWhitespace(c[k]) ==> c[k] == ' ' && k + 1 < |c| && !IsWhitespace(c[k + 1])
    decreases |s|
  {
    if |s| > 1 {
      CollapseSpaces(s[1..], IsWhitespace(s[0]));
    }
  }

  lemma {:induction false} CollapseFixed(s: string, lastWasSpace: bool)
    requires forall k :: 0 <= k < |s| && IsWhitespace(s[k]) ==> s[k] == ' ' && (k + 1 < |s| ==> !IsWhitespace(s[k + 1]))
    requires lastWasSpace && s != [] ==> !IsWhitespace(s[0])
    ensures Collapse(s, lastWasSpace) == s
    decreases |s|
  {
    if s != [] {
      CollapseFixed(s[1..], IsWhitespace(s[0]));
    }
  }

  lemma TrimFixed(s: string)
    requires IsTrimmed(s)
    ensures Trim(s) == s
  {
  }

  lemma CapitaliseKeeps(casing: Casing, s: string)
    requires Lawful(casing) && s != [] && SingleSpaced(s)
    ensures
      var c := Capitalise(casing, s);
      c != [] && SingleSpaced(c) && (casing.isLower(c[0]) ==> casing.upper(c[0]) == [c[0]])
  {
    if casing.isLower(s[0]) {
      var u := casing.upper(s[0]);
      assert LawfulUpper(casing, s[0]);
      var c := u + s[1..];
      forall k | 0 <= k < |c| && IsWhitespace(c[k]) ensures c[k] == ' ' && (k + 1 < |c| ==> !IsWhitespace(c[k + 1])) {
        assert k >= |u| && c[k] == s[k - |u| + 1];
        assert k + 1 < |c| ==> c[k + 1] == s[k + 1 - |u| + 1];
      }
      assert |s| > 1 ==> c[|c| - 1] == s[|s| - 1];
      assert |s| == 1 ==> c == u;
    }
  }

  lemma TerminateKeeps(casing: Casing, s: string)
    requires Lawful(casing) && s != [] && SingleSpaced(s) && (casing.isLower(s[0]) ==> casing.upper(s[0]) == [s[0]])
    ensures IsPrepared(casing, Terminate(casing, s))
  {
    var t := Terminate(casing, s);
    forall k | 0 <= k < |t| && IsWhitespace(t[k]) ensures t[k] == ' ' && (k + 1 < |t| ==> !IsWhitespace(t[k + 1])) {
      assert t[k] == s[k];
    }
  }

  /** Preparing text that has any visible character yields prepared text. */
  lemma PrepareYieldsPrepared(casing: Casing, input: string)
    requires Lawful(casing)
    ensures Prepare(casing, input).Some? <==> Ink(input) != []
    ensures Prepare(casing, input).Some? ==> IsPrepared(casing, Prepare(casing, input).value.text)
  {
    var trimmed := Trim(input);
    InkTrim(input);
    TrimTrims(input);
    if trimmed != [] {
      assert Ink(trimmed) != [] by {
        assert Ink(trimmed) == [trimmed[0]] + Ink(trimmed[1..]);
      }
      CollapseSpaces(trimmed, false);
      CapitaliseKeeps(casing, Collapse(trimmed, false));
      TerminateKeeps(casing, Capitalise(casing, Collapse(trimmed, false)));
    }
  }

  /** Prepared text is a fixed point, so preparing is idempotent. */
  lemma PrepareIsIdempotent(casing: Casing, input: string)
    requires Lawful(casing)
    ensures IsPrepared(casing, input) ==> Prepare(casing, input) == Some(PreparedPrompt(input, FramesAfterEos(input)))
    ensures Prepare(casing, input).Some? ==>
      Prepare(casing, Prepare(casing, input).value.text) == Prepare(casing, input)
  {
    FixedPoint(casing, input);
    PrepareYieldsPrepared(casing, input);
    if Prepare(casing, input).Some? {
      FixedPoint(casing, Prepare(casing, input).value.text);
    }
  }

  lemma FixedPoint(casing: Casing, s: string)
    ensures IsPrepared(casing, s) ==> Prepare(casing, s) == Some(PreparedPrompt(s, FramesAfterEos(s)))
  {
    if IsPrepared(casing, s) {
      TrimFixed(s);
      CollapseFixed(s, false);
      assert casing.isLower(s[0]) ==> [s[0]] + s[1..] == s;
    }
  }

  // ---- What preparing keeps ----

  /** Collapsing whitespace leaves the words joined by single spaces: those of `s`
      when nothing precedes it, and with `word` in front, grown by its start, when
      that is open. */
  lemma {:induction false} CollapseJoins(s: string, word: string)
    requires s == [] || !IsWhitespace(s[|s| - 1])
    ensures word != [] ==> word + Collapse(s, false) == Join(WordsFrom(s, word))
    ensures Collapse(s, true) == Join(Words(s))
    decreases |s|
  {
    if s == [] {
      assert word + [] == word;
    } else if IsWhitespace(s[0]) {
      CollapseJoins(s[1..], []);
      HasWords(s[1..]);
      if word != [] {
        assert ([word] + Words(s[1..]))[1..] == Words(s[1..]);
        assert word + ([' '] + Collapse(s[1..], true)) == word + [' '] + Collapse(s[1..], true);
      }
      assert [] + Words(s[1..]) == Words(s[1..]);
    } else {
      CollapseJoins(s[1..], word + [s[0]]);
      CollapseJoins(s[1..], [s[0]]);
      assert word + ([s[0]] + Collapse(s[1..], false)) == word + [s[0]] + Collapse(s[1..], false);
      assert [] + [s[0]] == [s[0]];
    }
  }

  lemma HasWords(s: string)
    requires s != [] && !IsWhitespace(s[|s| - 1])
    ensures Words(s) != []
  {
    assert s[..|s| - 1] + [s[|s| - 1]] == s;
    InkConcat(s[..|s| - 1], [s[|s| - 1]]);
    InkOfVisible([s[|s| - 1]]);
    WordsKeepInk(s, []);
  }

  lemma CleanedIsJoined(input: string)
    requires Trim(input) != []
    ensures Collapse(Trim(input), false) == Join(Words(input)) && Words(input) != [] && AreWords(Words(input))
  {
    var trimmed := Trim(input);
    TrimTrims(input);
    CollapseJoins(trimmed, []);
    WordsTrim(input);
    HasWords(trimmed);
    WordsAreVisible(input, []);
  }

  /** A word with a capital. */
  function Capital(casing: Casing, word: string): string {
    if word != [] && casing.isLower(word[0]) then casing.upper(word[0]) + word[1..] else word
  }

  /** A full stop after a letter or digit. */
  function Stop(casing: Casing, s: string): string {
    if s != [] && casing.isAlphanumeric(s[|s| - 1]) then ['.'] else []
  }

  function WithCapital(casing: Casing, words: seq<string>): (r: seq<string>)
    requires words != []
    ensures |r| == |words|
  {
    words[0 := Capital(casing, words[0])]
  }

  function WithStop(casing: Casing, words: seq<string>): (r: seq<string>)
    requires words != []
    ensures |r| == |words|
  {
    var last := words[|words| - 1];
    words[|words| - 1 := last + Stop(casing, last)]
  }

  /** The first word with a capital, the last with a full stop where it ends in a
      letter or digit. */
  function Dressed(casing: Casing, words: seq<string>): (dressed: seq<string>)
    requires words != []
    ensures |dressed| == |words|
  {
    WithStop(casing, WithCapital(casing, words))
  }

  lemma CapitalIsVisible(casing: Casing, word: string)
    requires Lawful(casing) && Visible(word)
    ensures Visible(Capital(casing, word))
  {
    assert casing.isLower(word[0]) ==> LawfulUpper(casing, word[0]);
  }

  lemma WithCapitalAreWords(casing: Casing, words: seq<string>)
    requires Lawful(casing) && AreWords(words) && words != []
    ensures AreWords(WithCapital(casing, words))
  {
    CapitalIsVisible(casing, words[0]);
  }

  lemma WithStopAreWords(casing: Casing, words: seq<string>)
    requires AreWords(words) && words != []
    ensures AreWords(WithStop(casing, words))
  {
  }

  lemma JoinFirst(words: seq<string>, first: string)
    requires words != []
    ensures Join(words[0 := first]) == first + Join(words)[|words[0]|..]
  {
    assert words[0 := first][1..] == words[1..];
    if |words| == 1 {
      assert first + [] == first;
    } else {
      assert Join(words)[|words[0]|..] == [' '] + Join(words[1..]);
    }
  }

  lemma JoinLast(words: seq<string>, more: string)
    requires words != []
    ensures Join(words[|words| - 1 := words[|words| - 1] + more]) == Join(words) + more
    ensures |Join(words)| >= |words[|words| - 1]|
    ensures Join(words)[|Join(words)| - |words[|words| - 1]|..] == words[|words| - 1]
  {
    var before, last := words[..|words| - 1], words[|words| - 1];
    JoinSnoc(before, last);
    JoinSnoc(before, last + more);
    WithoutLast(words);
    assert words[|words| - 1 := last + more] == before + [last + more];
    Associates(Join(before) + [' '], last, more);
  }

  lemma CapitaliseJoined(casing: Casing, words: seq<string>)
    requires AreWords(words) && words != []
    ensures Capitalise(casing, Join(words)) == Join(WithCapital(casing, words))
  {
    var w := words[0];
    assert Join(words)[0] == w[0];
    assert words[0 := w] == words;
    if casing.isLower(w[0]) {
      JoinFirst(words, Capital(casing, w));
      JoinFirst(words, w);
      assert Join(words)[1..] == w[1..] + Join(words)[|w|..];
      Associates(casing.upper(w[0]), w[1..], Join(words)[|w|..]);
    }
  }

  lemma TerminateJoined(casing: Casing, words: seq<string>)
    requires AreWords(words) && words != []
    ensures Terminate(casing, Join(words)) == Join(WithStop(casing, words))
  {
    var last := words[|words| - 1];
    JoinLast(words, Stop(casing, last));
    assert Join(words)[|Join(words)| - 1] == last[|last| - 1];
    assert Join(words) + [] == Join(words);
  }

  /** Preparing is a matter of words: those of the input, dressed and joined by
      single spaces. The model runs on a little longer after up to four of them. */
  lemma PreparedWords(casing: Casing, input: string)
    requires Lawful(casing) && Prepare(casing, input).Some?
    ensures AreWords(Words(input)) && Words(input) != []
    ensures Prepare(casing, input).value.text == Join(Dressed(casing, Words(input)))
    ensures Words(Prepare(casing, input).value.text) == Dressed(casing, Words(input))
    ensures Prepare(casing, input).value.framesAfterEos == if |Words(input)| <= 4 then 5 else 3
  {
    var words := Words(input);
    CleanedIsJoined(input);
    CapitaliseJoined(casing, words);
    WithCapitalAreWords(casing, words);
    TerminateJoined(casing, WithCapital(casing, words));
    WithStopAreWords(casing, WithCapital(casing, words));
    WordsOfJoin(Dressed(casing, words));
  }

  /** The visible characters with a capital and a full stop. */
  function Spoken(casing: Casing, ink: string): string
    requires ink != []
  {
    var capital := (if casing.isLower(ink[0]) then casing.upper(ink[0]) else [ink[0]]) + ink[1..];
    if capital != [] && casing.isAlphanumeric(capital[|capital| - 1]) then capital + ['.'] else capital
  }

  lemma ConcatFirst(words: seq<string>, first: string)
    requires words != []
    ensures Concat(words[0 := first]) == first + Concat(words[1..]) && Concat(words) == words[0] + Concat(words[1..])
  {
    assert words[0 := first][1..] == words[1..];
  }

  lemma ConcatLast(words: seq<string>, more: string)
    requires words != []
    ensures Concat(words[|words| - 1 := words[|words| - 1] + more]) == Concat(words) + more
    ensures |Concat(words)| >= |words[|words| - 1]|
    ensures Concat(words)[|Concat(words)| - |words[|words| - 1]|..] == words[|words| - 1]
  {
    var before, last := words[..|words| - 1], words[|words| - 1];
    ConcatSnoc(before, last);
    ConcatSnoc(before, last + more);
    WithoutLast(words);
    assert words[|words| - 1 := last + more] == before + [last + more];
    Associates(Concat(before), last, more);
  }

  lemma WithCapitalKeepInk(casing: Casing, words: seq<string>)
    requires AreWords(words) && words != []
    ensures Concat(words) != []
    ensures Concat(WithCapital(casing, words)) ==
      var ink := Concat(words);
      (if casing.isLower(ink[0]) then casing.upper(ink[0]) else [ink[0]]) + ink[1..]
  {
    var w := words[0];
    ConcatFirst(words, Capital(casing, w));
    assert Concat(words)[1..] == w[1..] + Concat(words[1..]);
    assert [w[0]] + w[1..] == w;
    Associates(casing.upper(w[0]), w[1..], Concat(words[1..]));
    Associates([w[0]], w[1..], Concat(words[1..]));
  }

  lemma WithStopKeepInk(casing: Casing, words: seq<string>)
    requires AreWords(words) && words != []
    ensures Concat(WithStop(casing, words)) == Concat(words) + Stop(casing, Concat(words))
  {
    var last := words[|words| - 1];
    ConcatLast(words, Stop(casing, last));
    assert Concat(words)[|Concat(words)| - 1] == last[|last| - 1];
  }

  lemma DressedKeepInk(casing: Casing, words: seq<string>)
    requires Lawful(casing) && AreWords(words) && words != []
    ensures Concat(words) != [] && Concat(Dressed(casing, words)) == Spoken(casing, Concat(words))
  {
    WithCapitalAreWords(casing, words);
    WithCapitalKeepInk(casing, words);
    WithStopKeepInk(casing, WithCapital(casing, words));
    assert Concat(WithCapital(casing, words)) + [] == Concat(WithCapital(casing, words));
  }

  /** Nothing that is visible is lost, added or reordered, but for the case of the
      first letter and a full stop at the end. */
  lemma PrepareKeepsInk(casing: Casing, input: string)
    requires Lawful(casing) && Ink(input) != []
    ensures Prepare(casing, input).Some? && Ink(Prepare(casing, input).value.text) == Spoken(casing, Ink(input))
  {
    PrepareYieldsPrepared(casing, input);
    PreparedWords(casing, input);
    DressedKeepInk(casing, Words(input));
    WordsAreInk(input);
    WordsAreInk(Prepare(casing, input).value.text);
  }

  // ---- Splitting to the budget ----

  function PreparedCount(casing: Casing, tok: Tokenizer, s: string): Result<nat, Error> {
    var prepared := Prepare(casing, s);
    if prepared.None? then Err(EmptyChunk) else tok(prepared.value.text)
  }

  predicate Fits(casing: Casing, tok: Tokenizer, s: string) {
    var count := PreparedCount(casing, tok, s);
    count.Ok? && count.value <= MAX_TOKENS_PER_INFERENCE
  }

  /** A piece the splitter may cut off: visible, and within budget unless it is a
      single character, which cannot be split further. */
  ghost predicate GoodPiece(casing: Casing, tok: Tokenizer, s: string) {
    Ink(s) != [] && (Fits(casing, tok, s) || |s| == 1)
  }

  ghost predicate GoodPieces(casing: Casing, tok: Tokenizer, pieces: seq<string>) {
    forall k :: 0 <= k < |pieces| ==> GoodPiece(casing, tok, pieces[k])
  }

  /** `q` could not have been started later: its first character, or the word it
      starts with or is the start of, would not have fitted after `p`. */
  ghost predicate Forced(casing: Casing, tok: Tokenizer, words: seq<string>, p: string, q: string) {
    q != [] && (!Fits(casing, tok, p + [q[0]]) || exists w :: w in words && WordForces(casing, tok, p, q, w))
  }

  ghost predicate WordForces(casing: Casing, tok: Tokenizer, p: string, q: string, w: string) {
    !Fits(casing, tok, p + [' '] + w) && (w <= q || q <= w)
  }

  /** The same for a piece that may still grow. */
  ghost predicate ForcedOpen(casing: Casing, tok: Tokenizer, words: seq<string>, p: string, q: string) {
    q != [] &&
    (!Fits(casing, tok, p + [q[0]]) || exists w :: w in words && WordForces(casing, tok, p, q, w) && w <= q)
  }

  /** Greedy splitting: every cut was forced. */
  ghost predicate Greedy(casing: Casing, tok: Tokenizer, words: seq<string>, pieces: seq<string>) {
    forall j, k :: 0 <= j < |pieces| && k == j + 1 < |pieces| ==> Forced(casing, tok, words, pieces[j], pieces[k])
  }

  /** Greedy so far, with one piece still open. */
  ghost predicate GreedyOpen(casing: Casing, tok: Tokenizer, words: seq<string>, pieces: seq<string>, open: string) {
    && Greedy(casing, tok, words, pieces)
    && (open == [] ==> pieces == [])
    && (open != [] && pieces != [] ==> ForcedOpen(casing, tok, words, pieces[|pieces| - 1], open))
  }

  lemma GreedySnoc(casing: Casing, tok: Tokenizer, words: seq<string>, pieces: seq<string>, last: string)
    requires Greedy(casing, tok, words, pieces)
    requires pieces != [] ==> Forced(casing, tok, words, pieces[|pieces| - 1], last)
    ensures Greedy(casing, tok, words, pieces + [last])
  {
    ElementsOfSnoc(pieces, last);
  }

  lemma OpenGrows(casing: Casing, tok: Tokenizer, words: seq<string>, p: string, q: string, more: string)
    requires ForcedOpen(casing, tok, words, p, q)
    ensures ForcedOpen(casing, tok, words, p, q + more)
  {
    if Fits(casing, tok, p + [q[0]]) {
      var w :| w in words && WordForces(casing, tok, p, q, w) && w <= q;
      assert WordForces(casing, tok, p, q + more, w);
    }
  }

  ghost predicate TokenizerCanFail(tok: Tokenizer) {
    exists s :: tok(s).Err?
  }

  lemma FailureIsTokenizers(casing: Casing, tok: Tokenizer, s: string)
    requires Lawful(casing) && Ink(s) != [] && PreparedCount(casing, tok, s).Err?
    ensures TokenizerCanFail(tok)
  {
    PrepareYieldsPrepared(casing, s);
    assert tok(Prepare(casing, s).value.text).Err?;
  }

  lemma InkSnoc(pieces: seq<string>, last: string)
    ensures Ink(Concat(pieces + [last])) == Ink(Concat(pieces)) + Ink(last)
  {
    ConcatSnoc(pieces, last);
    InkConcat(Concat(pieces), last);
  }

  lemma InkOfCandidate(current: string, word: string)
    requires Visible(word)
    ensures
      var candidate := if current == [] then word else current + [' '] + word;
      Ink(candidate) == Ink(current) + word && Ink(candidate) != []
  {
    InkOfVisible(word);
    if current != [] {
      InkBlank([' ']);
      InkConcat(current, [' ']);
      InkConcat(current + [' '], word);
      assert Ink(current + [' ']) == Ink(current);
    }
  }

  /** One more character of a long word: it joins the open fragment, or closes it
      and starts the next. */
  method AddChar(casing: Casing, tok: Tokenizer, chunks: seq<string>, fragment: string, ch: char)
    returns (r: Result<seq<string>, Error>, open: string)
    requires Lawful(casing) && GoodPieces(casing, tok, chunks) && !IsWhitespace(ch)
    requires fragment == [] || Visible(fragment)
    requires fragment == [] || GoodPiece(casing, tok, fragment)
    ensures r.Err? ==> TokenizerCanFail(tok)
    ensures r.Ok? ==> GoodPieces(casing, tok, r.value) && Visible(open) && GoodPiece(casing, tok, open)
    ensures r.Ok? ==> Ink(Concat(r.value)) + open == Ink(Concat(chunks)) + fragment + [ch]
    ensures r.Ok? ==>
      || (r.value == chunks && open == fragment + [ch])
      || (fragment != [] && r.value == chunks + [fragment] && open == [ch] && !Fits(casing, tok, fragment + [ch]))
  {
    InkOfVisible([ch]);
    if fragment == [] {
      return Ok(chunks), [ch];
    }
    var candidate := fragment + [ch];
    InkOfVisible(candidate);
    var count := PreparedCount(casing, tok, candidate);
    if count.Err? {
      FailureIsTokenizers(casing, tok, candidate);
      return Err(TokenizerFailed), fragment;
    }
    if count.value > MAX_TOKENS_PER_INFERENCE {
      InkOfVisible(fragment);
      InkSnoc(chunks, fragment);
      return Ok(chunks + [fragment]), [ch];
    }
    Associates(Ink(Concat(chunks)), fragment, [ch]);
    return Ok(chunks), candidate;
  }

  /** Cutting a word keeps greediness: while nothing of it is closed the fragment
      is a prefix of the word, and afterwards each fragment forced the next. */
  ghost predicate CuttingWord(
    casing: Casing, tok: Tokenizer, words: seq<string>, before: seq<string>, word: string,
    chunks: seq<string>, fragment: string)
  {
    && Greedy(casing, tok, words, chunks)
    && ((chunks == before && fragment <= word) ||
        (chunks != [] && ForcedOpen(casing, tok, words, chunks[|chunks| - 1], fragment)))
  }

  lemma CuttingOn(
    casing: Casing, tok: Tokenizer, words: seq<string>, before: seq<string>, word: string,
    chunks: seq<string>, fragment: string, i: nat)
    requires word in words && i < |word| && fragment != []
    requires before != [] ==> !Fits(casing, tok, before[|before| - 1] + [' '] + word)
    requires CuttingWord(casing, tok, words, before, word, chunks, fragment)
    ensures chunks == before && fragment == word[..i] ==>
      CuttingWord(casing, tok, words, before, word, chunks, fragment + [word[i]])
    ensures !(chunks == before && fragment <= word) ==>
      CuttingWord(casing, tok, words, before, word, chunks, fragment + [word[i]])
    ensures !Fits(casing, tok, fragment + [word[i]]) ==>
      CuttingWord(casing, tok, words, before, word, chunks + [fragment], [word[i]])
  {
    if chunks == before && fragment <= word {
      assert before != [] ==> WordForces(casing, tok, before[|before| - 1], fragment, word);
    } else {
      OpenGrows(casing, tok, words, chunks[|chunks| - 1], fragment, [word[i]]);
    }
    GreedySnoc(casing, tok, words, chunks, fragment);
  }

  /** One word too long for the budget, cut between characters. The last fragment
      is returned open. */
  method CutWord(casing: Casing, tok: Tokenizer, ghost words: seq<string>, word: string, before: seq<string>)
    returns (r: Result<seq<string>, Error>, fragment: string)
    requires Lawful(casing) && Visible(word) && GoodPieces(casing, tok, before)
    requires word in words && Greedy(casing, tok, words, before)
    requires before != [] ==> !Fits(casing, tok, before[|before| - 1] + [' '] + word)
    ensures r.Err? ==> TokenizerCanFail(tok)
    ensures r.Ok? ==> GoodPieces(casing, tok, r.value) && Visible(fragment) && GoodPiece(casing, tok, fragment)
    ensures r.Ok? ==> Ink(Concat(r.value)) + fragment == Ink(Concat(before)) + word
    ensures r.Ok? ==> GreedyOpen(casing, tok, words, r.value, fragment)
  {
    var chunks := before;
    fragment := [];
    for i := 0 to |word|
      invariant GoodPieces(casing, tok, chunks)
      invariant i == 0 <==> fragment == []
      invariant fragment == [] || Visible(fragment)
      invariant fragment == [] || GoodPiece(casing, tok, fragment)
      invariant Ink(Concat(chunks)) + fragment == Ink(Concat(before)) + word[..i]
      invariant CuttingWord(casing, tok, words, before, word, chunks, fragment)
      invariant chunks == before ==> fragment == word[..i]
      invariant |before| <= |chunks|
    {
      if fragment != [] {
        CuttingOn(casing, tok, words, before, word, chunks, fragment, i);
      }
      ghost var was := chunks;
      r, fragment := AddChar(casing, tok, chunks, fragment, word[i]);
      if r.Err? {
        return;
      }
      chunks := r.value;
      PrefixSnoc(word, i);
      Associates(Ink(Concat(before)), word[..i], [word[i]]);
      LengthsTell(before, was, chunks);
    }
    WholePrefix(word);
    if chunks == before && before != [] {
      assert WordForces(casing, tok, before[|before| - 1], fragment, word);
    }
    r := Ok(chunks);
  }

  /** One more word: it joins the open chunk if both fit, else it starts the next,
      else it is cut between characters. */
  method AddWord(
    casing: Casing, tok: Tokenizer, ghost words: seq<string>, chunks: seq<string>, current: string, word: string)
    returns (r: Result<seq<string>, Error>, open: string)
    requires Lawful(casing) && GoodPieces(casing, tok, chunks) && Visible(word)
    requires current == [] || GoodPiece(casing, tok, current)
    requires word in words && GreedyOpen(casing, tok, words, chunks, current)
    ensures r.Err? ==> TokenizerCanFail(tok)
    ensures r.Ok? ==> GoodPieces(casing, tok, r.value) && GoodPiece(casing, tok, open)
    ensures r.Ok? ==> GreedyOpen(casing, tok, words, r.value, open)
    ensures r.Ok? ==> Ink(Concat(r.value)) + Ink(open) == Ink(Concat(chunks)) + Ink(current) + word
  {
    var candidate := if current == [] then word else current + [' '] + word;
    InkOfCandidate(current, word);
    InkOfVisible(word);
    var count := PreparedCount(casing, tok, candidate);
    if count.Err? {
      FailureIsTokenizers(casing, tok, candidate);
      return Err(TokenizerFailed), current;
    }
    if count.value <= MAX_TOKENS_PER_INFERENCE {
      JoiningKeepsGreedy(casing, tok, words, chunks, current, word);
      Associates(Ink(Concat(chunks)), Ink(current), word);
      return Ok(chunks), candidate;
    }
    var closed := chunks;
    if current != [] {
      InkSnoc(chunks, current);
      ClosingKeepsGreedy(casing, tok, words, chunks, current);
      closed := chunks + [current];
    }
    assert closed != [] ==> WordForces(casing, tok, closed[|closed| - 1], word, word);
    assert Ink(Concat(closed)) == Ink(Concat(chunks)) + Ink(current);
    count := PreparedCount(casing, tok, word);
    if count.Err? {
      FailureIsTokenizers(casing, tok, word);
      return Err(TokenizerFailed), current;
    }
    if count.value <= MAX_TOKENS_PER_INFERENCE {
      return Ok(closed), word;
    }
    r, open := CutWord(casing, tok, words, word, closed);
    InkOfFragment(open);
  }

  lemma JoiningKeepsGreedy(
    casing: Casing, tok: Tokenizer, words: seq<string>, chunks: seq<string>, current: string, word: string)
    requires GreedyOpen(casing, tok, words, chunks, current) && word != []
    ensures GreedyOpen(casing, tok, words, chunks, if current == [] then word else current + [' '] + word)
  {
    if current != [] && chunks != [] {
      OpenGrows(casing, tok, words, chunks[|chunks| - 1], current, [' '] + word);
      Associates(current, [' '], word);
    }
  }

  lemma ClosingKeepsGreedy(casing: Casing, tok: Tokenizer, words: seq<string>, chunks: seq<string>, current: string)
    requires GreedyOpen(casing, tok, words, chunks, current) && current != []
    ensures Greedy(casing, tok, words, chunks + [current])
  {
    GreedySnoc(casing, tok, words, chunks, current);
  }

  lemma LengthsTell(before: seq<string>, was: seq<string>, now: seq<string>)
    requires |before| <= |was|
    requires now == was || |now| == |was| + 1
    ensures now == before ==> now == was
  {
  }

  lemma InkOfFragment(s: string)
    ensures Visible(s) ==> Ink(s) == s
  {
    if Visible(s) {
      InkOfVisible(s);
    }
  }

  /** Greedy splitting at words, falling back to characters. */
  method CutText(casing: Casing, tok: Tokenizer, text: string) returns (r: Result<seq<string>, Error>)
    requires Lawful(casing)
    ensures r.Err? ==> TokenizerCanFail(tok)
    ensures r.Ok? ==> GoodPieces(casing, tok, r.value) && Ink(Concat(r.value)) == Ink(text)
    ensures r.Ok? ==> Greedy(casing, tok, Words(text), r.value)
  {
    WordsAreVisible(text, []);
    WordsKeepInk(text, []);
    r := CutWords(casing, tok, Words(text));
  }

  method CutWords(casing: Casing, tok: Tokenizer, words: seq<string>) returns (r: Result<seq<string>, Error>)
    requires Lawful(casing) && forall k :: 0 <= k < |words| ==> Visible(words[k])
    ensures r.Err? ==> TokenizerCanFail(tok)
    ensures r.Ok? ==> GoodPieces(casing, tok, r.value) && Ink(Concat(r.value)) == Concat(words)
    ensures r.Ok? ==> Greedy(casing, tok, words, r.value)
  {
    var chunks: seq<string> := [];
    var current: string := [];
    for w := 0 to |words|
      invariant GoodPieces(casing, tok, chunks)
      invariant current == [] || GoodPiece(casing, tok, current)
      invariant Ink(Concat(chunks)) + Ink(current) == Concat(words[..w])
      invariant GreedyOpen(casing, tok, words, chunks, current)
    {
      r, current := AddWord(casing, tok, words, chunks, current, words[w]);
      if r.Err? {
        return;
      }
      chunks := r.value;
      ConcatPrefix(words, w);
    }
    WholePrefix(words);
    CloseLast(casing, tok, words, chunks, current);
    if current != [] {
      chunks := chunks + [current];
    }
    r := Ok(chunks);
  }

  lemma ConcatPrefix(words: seq<string>, k: nat)
    requires k < |words|
    ensures Concat(words[..k + 1]) == Concat(words[..k]) + words[k]
  {
    PrefixSnoc(words, k);
    ConcatSnoc(words[..k], words[k]);
  }

  /** Closing the open piece at the end. */
  lemma CloseLast(casing: Casing, tok: Tokenizer, words: seq<string>, pieces: seq<string>, open: string)
    requires GoodPieces(casing, tok, pieces) && GreedyOpen(casing, tok, words, pieces, open)
    requires open == [] || GoodPiece(casing, tok, open)
    ensures
      var all := if open == [] then pieces else pieces + [open];
      GoodPieces(casing, tok, all) && Greedy(casing, tok, words, all) &&
      Ink(Concat(all)) == Ink(Concat(pieces)) + Ink(open)
  {
    if open == [] {
      assert Ink(Concat(pieces)) + [] == Ink(Concat(pieces));
    } else {
      InkSnoc(pieces, open);
      ClosingKeepsGreedy(casing, tok, words, pieces, open);
    }
  }

  /** Some single visible character is over budget on its own. */
  ghost predicate LoneCharacterOver(casing: Casing, tok: Tokenizer, text: string) {
    exists c :: c in Ink(text) && Over(casing, tok, [c])
  }

  predicate Over(casing: Casing, tok: Tokenizer, s: string) {
    var count := PreparedCount(casing, tok, s);
    count.Ok? && count.value > MAX_TOKENS_PER_INFERENCE
  }

  /** Chunks ready for the model: prepared, and within its budget. */
  ghost predicate Ready(casing: Casing, tok: Tokenizer, chunks: seq<string>) {
    forall k :: 0 <= k < |chunks| ==> ReadyChunk(casing, tok, chunks[k])
  }

  ghost predicate ReadyChunk(casing: Casing, tok: Tokenizer, chunk: string) {
    IsPrepared(casing, chunk) && tok(chunk).Ok? && tok(chunk).value <= MAX_TOKENS_PER_INFERENCE
  }

  lemma {:induction false} PieceInText(pieces: seq<string>, k: nat)
    requires k < |pieces|
    ensures forall c :: c in Ink(pieces[k]) ==> c in Ink(Concat(pieces))
  {
    InkConcat(pieces[0], Concat(pieces[1..]));
    if k > 0 {
      PieceInText(pieces[1..], k - 1);
    }
  }

  lemma OverBudgetIsLone(casing: Casing, tok: Tokenizer, text: string, pieces: seq<string>, k: nat)
    requires k < |pieces| && GoodPieces(casing, tok, pieces) && Ink(Concat(pieces)) == Ink(text)
    requires Over(casing, tok, pieces[k])
    ensures LoneCharacterOver(casing, tok, text)
  {
    assert GoodPiece(casing, tok, pieces[k]);
    var c := pieces[k][0];
    assert pieces[k] == [c];
    assert Ink(pieces[k]) == (if IsWhitespace(c) then [] else [c]) + Ink(pieces[k][1..]);
    assert c in Ink(pieces[k]);
    PieceInText(pieces, k);
  }

  /** The chunks are the pieces, prepared. */
  ghost predicate PreparedFrom(casing: Casing, pieces: seq<string>, chunks: seq<string>) {
    |pieces| == |chunks| && forall k :: 0 <= k < |pieces| ==> PreparesTo(casing, pieces[k], chunks[k])
  }

  ghost predicate PreparesTo(casing: Casing, piece: string, chunk: string) {
    Prepare(casing, piece) == Some(PreparedPrompt(chunk, FramesAfterEos(chunk)))
  }

  lemma ReadySnoc(casing: Casing, tok: Tokenizer, chunks: seq<string>, chunk: string)
    requires Ready(casing, tok, chunks) && ReadyChunk(casing, tok, chunk)
    ensures Ready(casing, tok, chunks + [chunk])
  {
    ElementsOfSnoc(chunks, chunk);
  }

  lemma PreparedFromSnoc(casing: Casing, pieces: seq<string>, chunks: seq<string>, piece: string, chunk: string)
    requires PreparedFrom(casing, pieces, chunks) && PreparesTo(casing, piece, chunk)
    ensures PreparedFrom(casing, pieces + [piece], chunks + [chunk])
  {
    ElementsOfSnoc(pieces, piece);
    ElementsOfSnoc(chunks, chunk);
  }

  /** The pieces keep every visible character in order and were cut only where the
      budget forced it; a text within budget stays whole. */
  ghost predicate WellSplit(casing: Casing, tok: Tokenizer, text: string, pieces: seq<string>) {
    && Ink(Concat(pieces)) == Ink(text)
    && Greedy(casing, tok, Words(text), pieces)
    && (tok(text).Ok? && tok(text).value <= MAX_TOKENS_PER_INFERENCE ==> pieces == [text])
  }

  method PrepareAll(casing: Casing, tok: Tokenizer, pieces: seq<string>) returns (r: Result<seq<string>, Error>)
    requires Lawful(casing) && GoodPieces(casing, tok, pieces)
    ensures r.Ok? ==> Ready(casing, tok, r.value) && PreparedFrom(casing, pieces, r.value)
    ensures r.Err? ==> !r.error.EmptyChunk? && !r.error.InferenceFailed?
    ensures r.Err? && r.error.TokenizerFailed? ==> TokenizerCanFail(tok)
    ensures r.Err? && r.error.OverBudget? ==>
      r.error.tokens > MAX_TOKENS_PER_INFERENCE && exists k :: 0 <= k < |pieces| && Over(casing, tok, pieces[k])
  {
    var chunks: seq<string> := [];
    for k := 0 to |pieces|
      invariant Ready(casing, tok, chunks) && PreparedFrom(casing, pieces[..k], chunks)
    {
      PrepareYieldsPrepared(casing, pieces[k]);
      var chunk := Prepare(casing, pieces[k]);
      if chunk.None? {
        return Err(EmptyChunk);
      }
      var count := tok(chunk.value.text);
      if count.Err? {
        return Err(TokenizerFailed);
      }
      if count.value > MAX_TOKENS_PER_INFERENCE {
        return Err(OverBudget(count.value));
      }
      PrefixSnoc(pieces, k);
      ReadySnoc(casing, tok, chunks, chunk.value.text);
      PreparedFromSnoc(casing, pieces[..k], chunks, pieces[k], chunk.value.text);
      chunks := chunks + [chunk.value.text];
    }
    WholePrefix(pieces);
    r := Ok(chunks);
  }

  /** Splitting to the budget fails only if the tokenizer does or a single
      character alone is over budget. */
  method SplitPrompt(casing: Casing, tok: Tokenizer, text: string)
    returns (r: Result<seq<string>, Error>, ghost pieces: seq<string>)
    requires Lawful(casing) && IsPrepared(casing, text)
    ensures r.Ok? ==>
      Ready(casing, tok, r.value) && PreparedFrom(casing, pieces, r.value) && WellSplit(casing, tok, text, pieces)
    ensures r.Err? ==> !r.error.EmptyChunk? && !r.error.InferenceFailed?
    ensures r.Err? && r.error.TokenizerFailed? ==> TokenizerCanFail(tok)
    ensures r.Err? && r.error.OverBudget? ==>
      r.error.tokens > MAX_TOKENS_PER_INFERENCE && LoneCharacterOver(casing, tok, text)
  {
    var whole := tok(text);
    if whole.Err? {
      return Err(TokenizerFailed), [];
    }
    if whole.value <= MAX_TOKENS_PER_INFERENCE {
      FixedPoint(casing, text);
      assert Concat([text]) == text + [] == text;
      return Ok([text]), [text];
    }
    var cut := CutText(casing, tok, text);
    if cut.Err? {
      return Err(TokenizerFailed), [];
    }
    pieces := cut.value;
    r := PrepareAll(casing, tok, cut.value);
    if r.Err? && r.error.OverBudget? {
      ghost var k :| 0 <= k < |pieces| && Over(casing, tok, pieces[k]);
      OverBudgetIsLone(casing, tok, text, pieces, k);
    }
  }

  function Audio(synth: Inference, tok: Tokenizer, chunks: seq<string>): seq<real> {
    if chunks == [] then []
    else Audio(synth, tok, chunks[..|chunks| - 1]) + AudioOf(synth, tok, chunks[|chunks| - 1])
  }

  /** The audio of chunks follows their order. */
  lemma {:induction false} AudioInOrder(synth: Inference, tok: Tokenizer, a: seq<string>, b: seq<string>)
    ensures Audio(synth, tok, a + b) == Audio(synth, tok, a) + Audio(synth, tok, b)
    decreases |b|
  {
    if b == [] {
      assert a + b == a;
    } else {
      assert (a + b)[..|a + b| - 1] == a + b[..|b| - 1];
      AudioInOrder(synth, tok, a, b[..|b| - 1]);
    }
  }

  lemma AudioNext(synth: Inference, tok: Tokenizer, chunks: seq<string>, k: nat)
    requires k < |chunks|
    ensures Audio(synth, tok, chunks[..k + 1]) == Audio(synth, tok, chunks[..k]) + AudioOf(synth, tok, chunks[k])
    ensures AllSpeakable(synth, tok, chunks[..k + 1]) <==>
            AllSpeakable(synth, tok, chunks[..k]) && Speakable(synth, tok, chunks[k])
  {
    PrefixSnoc(chunks, k);
  }

  lemma AudioOfOne(synth: Inference, tok: Tokenizer, chunk: string)
    ensures tok(chunk) != Ok(0) && synth(chunk).Some? ==> Audio(synth, tok, [chunk]) == synth(chunk).value
    ensures tok(chunk) == Ok(0) ==> Audio(synth, tok, [chunk]) == []
  {
    assert [chunk][..0] == [];
  }

  /** Text that tokenizes to nothing is silent. */
  function AudioOf(synth: Inference, tok: Tokenizer, chunk: string): seq<real> {
    if tok(chunk) == Ok(0) || synth(chunk).None? then [] else synth(chunk).value
  }

  predicate Speakable(synth: Inference, tok: Tokenizer, chunk: string) {
    tok(chunk) == Ok(0) || synth(chunk).Some?
  }

  ghost predicate AllSpeakable(synth: Inference, tok: Tokenizer, chunks: seq<string>) {
    forall k :: 0 <= k < |chunks| ==> Speakable(synth, tok, chunks[k])
  }

  /** One chunk to audio, with the model's own budget check. */
  method SynthChunk(tok: Tokenizer, voice: bool, synth: Inference, chunk: string) returns (r: Result<seq<real>, Error>)
    ensures r.Ok? <==>
      voice && tok(chunk).Ok? && tok(chunk).value <= MAX_TOKENS_PER_INFERENCE && Speakable(synth, tok, chunk)
    ensures r.Ok? ==> r.value == AudioOf(synth, tok, chunk)
    ensures r.Err? && r.error.OverBudget? ==>
      tok(chunk) == Ok(r.error.tokens) && r.error.tokens > MAX_TOKENS_PER_INFERENCE
    ensures r.Err? && tok(chunk).Ok? && tok(chunk).value <= MAX_TOKENS_PER_INFERENCE ==> r.error == InferenceFailed
  {
    if !voice {
      return Err(InferenceFailed);
    }
    var count := tok(chunk);
    if count.Err? {
      return Err(TokenizerFailed);
    }
    if count.value == 0 {
      return Ok([]);
    }
    if count.value > MAX_TOKENS_PER_INFERENCE {
      return Err(OverBudget(count.value));
    }
    var audio := synth(chunk);
    r := if audio.Some? then Ok(audio.value) else Err(InferenceFailed);
  }

  /** Every chunk of a split prompt is prepared once more and synthesised; on ready
      chunks neither preparing nor the budget check can fail, only inference can.
      `voice` tells whether conditioning on the voice succeeds. */
  method SynthAll(casing: Casing, tok: Tokenizer, voice: bool, synth: Inference, chunks: seq<string>)
    returns (r: Result<seq<real>, Error>)
    requires Ready(casing, tok, chunks)
    ensures
      r == if chunks == [] || (voice && AllSpeakable(synth, tok, chunks)) then Ok(Audio(synth, tok, chunks))
           else Err(InferenceFailed)
  {
    var samples: seq<real> := [];
    for k := 0 to |chunks|
      invariant samples == Audio(synth, tok, chunks[..k])
      invariant AllSpeakable(synth, tok, chunks[..k]) && (k > 0 ==> voice)
    {
      FixedPoint(casing, chunks[k]);
      var prepared := Prepare(casing, chunks[k]);
      if prepared.None? {
        return Err(EmptyChunk);
      }
      var audio := SynthChunk(tok, voice, synth, prepared.value.text);
      if audio.Err? {
        return audio;
      }
      AudioNext(synth, tok, chunks, k);
      samples := samples + audio.value;
    }
    WholePrefix(chunks);
    r := Ok(samples);
  }

  /** Text to audio: it fails only if the tokenizer does, inference does, or a
      single character of the prepared text is over budget by itself. */
  method SynthesizeText(casing: Casing, tok: Tokenizer, voice: bool, synth: Inference, text: string)
    returns (r: Result<seq<real>, Error>, ghost pieces: seq<string>, ghost chunks: seq<string>)
    requires Lawful(casing)
    ensures Ink(text) == [] ==> r == Ok([])
    ensures r.Ok? ==> r.value == Audio(synth, tok, chunks) && Ready(casing, tok, chunks)
    ensures r.Ok? && Ink(text) != [] ==>
      PreparedFrom(casing, pieces, chunks) && Prepare(casing, text).Some? &&
      WellSplit(casing, tok, Prepare(casing, text).value.text, pieces) &&
      Ink(Concat(pieces)) == Spoken(casing, Ink(text))
    ensures r.Err? ==> !r.error.EmptyChunk?
    ensures r.Err? && r.error.OverBudget? ==>
      Prepare(casing, text).Some? && LoneCharacterOver(casing, tok, Prepare(casing, text).value.text)
    ensures r.Err? && r.error.TokenizerFailed? ==> TokenizerCanFail(tok)
    ensures r.Err? && r.error.InferenceFailed? ==>
      Ready(casing, tok, chunks) && chunks != [] && (!voice || !AllSpeakable(synth, tok, chunks))
  {
    pieces, chunks := [], [];
    PrepareYieldsPrepared(casing, text);
    var prepared := Prepare(casing, text);
    if prepared.None? {
      return Ok([]), [], [];
    }
    PrepareKeepsInk(casing, text);
    var split;
    split, pieces := SplitPrompt(casing, tok, prepared.value.text);
    if split.Err? {
      return Err(split.error), [], [];
    }
    chunks := split.value;
    r := SynthAll(casing, tok, voice, synth, split.value);
  }
}
