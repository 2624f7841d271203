/** The words of a text, and the text its words make. */
module Wording {
  import opened Text
  import opened Sequences

  predicate Visible(s: string) {
    s != [] && forall k :: 0 <= k < |s| ==> !IsWhitespace(s[k])
  }

  predicate AreWords(words: seq<string>) {
    forall k :: 0 <= k < |words| ==> Visible(words[k])
  }

  function WordsFrom(s: string, word: string): seq<string>
    decreases |s|
  {
    if s == [] then (if word == [] then [] else [word])
    else if IsWhitespace(s[0]) then (if word == [] then [] else [word]) + WordsFrom(s[1..], [])
    else WordsFrom(s[1..], word + [s[0]])
  }

  /** The maximal whitespace-free pieces of a string. */
  function Words(s: string): seq<string> {
    WordsFrom(s, [])
  }

  lemma {:induction false} WordsAreVisible(s: string, word: string)
    requires word == [] || Visible(word)
    ensures AreWords(WordsFrom(s, word))
    decreases |s|
  {
    if s != [] {
      WordsAreVisible(s[1..], if IsWhitespace(s[0]) then [] else word + [s[0]]);
    }
  }

  // ---- Three laws that leave no choice about the words ----

  lemma {:induction false} WordsFromSplit(a: string, space: char, b: string, word: string)
    requires IsWhitespace(space)
    ensures WordsFrom(a + [space] + b, word) == WordsFrom(a, word) + Words(b)
    decreases |a|
  {
    var s := a + [space] + b;
    if a == [] {
      assert s[1..] == b;
    } else {
      assert s[1..] == a[1..] + [space] + b;
      if IsWhitespace(a[0]) {
        WordsFromSplit(a[1..], space, b, []);
      } else {
        WordsFromSplit(a[1..], space, b, word + [a[0]]);
      }
    }
  }

  lemma {:induction false} WordsFromVisible(v: string, word: string)
    requires forall k :: 0 <= k < |v| ==> !IsWhitespace(v[k])
    ensures WordsFrom(v, word) == if word + v == [] then [] else [word + v]
    decreases |v|
  {
    if v != [] {
      WordsFromVisible(v[1..], word + [v[0]]);
      assert word + [v[0]] + v[1..] == word + v;
    } else {
      assert word + v == word;
    }
  }

  /** A space of any kind separates the words before it from those after it, and
      what has no space in it is one word. */
  lemma WordsSplit(a: string, space: char, b: string, v: string)
    requires IsWhitespace(space) && Visible(v)
    ensures Words(a + [space] + b) == Words(a) + Words(b)
    ensures Words(v) == [v] && Words([]) == []
  {
    WordsFromSplit(a, space, b, []);
    WordsFromVisible(v, []);
    assert [] + v == v;
  }

  // ---- Words joined by single spaces ----

  function Join(words: seq<string>): string {
    if words == [] then []
    else if |words| == 1 then words[0]
    else words[0] + [' '] + Join(words[1..])
  }

  lemma {:induction false} JoinSnoc(words: seq<string>, last: string)
    ensures Join(words + [last]) == if words == [] then last else Join(words) + [' '] + last
  {
    if words == [] {
      assert [] + [last] == [last];
    } else if |words| == 1 {
      assert (words + [last])[1..] == [last];
    } else {
      assert (words + [last])[1..] == words[1..] + [last];
      JoinSnoc(words[1..], last);
    }
  }

  lemma {:induction false} WordsOfJoin(words: seq<string>)
    requires AreWords(words)
    ensures Words(Join(words)) == words
  {
    if |words| == 1 {
      WordsSplit([], ' ', [], words[0]);
    } else if |words| > 1 {
      WordsOfJoin(words[1..]);
      WordsSplit(words[0], ' ', Join(words[1..]), words[0]);
    }
  }

  lemma {:induction false} WordsTrimStart(s: string)
    ensures Words(TrimStart(s)) == Words(s)
    decreases |s|
  {
    if s != [] && IsWhitespace(s[0]) {
      WordsTrimStart(s[1..]);
    }
  }

  lemma {:induction false} WordsTrimEnd(s: string)
    ensures Words(TrimEnd(s)) == Words(s)
    decreases |s|
  {
    if s != [] && IsWhitespace(s[|s| - 1]) {
      WordsTrimEnd(s[..|s| - 1]);
      WordsFromSplit(s[..|s| - 1], s[|s| - 1], [], []);
      assert s == s[..|s| - 1] + [s[|s| - 1]] + [];
    }
  }

  lemma WordsTrim(s: string)
    ensures Words(Trim(s)) == Words(s)
  {
    WordsTrimStart(s);
    WordsTrimEnd(TrimStart(s));
  }

  // ---- Ink ----

  lemma ConcatOfFirst(word: string, rest: seq<string>)
    ensures Concat((if word == [] then [] else [word]) + rest) == word + Concat(rest)
  {
    if word == [] {
      assert [] + rest == rest;
    } else {
      assert ([word] + rest)[1..] == rest;
    }
  }

  /** The words are all that is visible, in order. */
  lemma {:induction false} WordsKeepInk(s: string, word: string)
    ensures Concat(WordsFrom(s, word)) == word + Ink(s)
    decreases |s|
  {
    if s == [] {
      assert word == [] || [word][1..] == [];
    } else if IsWhitespace(s[0]) {
      WordsKeepInk(s[1..], []);
      ConcatOfFirst(word, WordsFrom(s[1..], []));
    } else {
      WordsKeepInk(s[1..], word + [s[0]]);
      Associates(word, [s[0]], Ink(s[1..]));
    }
  }

  lemma WordsAreInk(s: string)
    ensures Concat(Words(s)) == Ink(s)
  {
    WordsKeepInk(s, []);
  }

  lemma {:induction false} InkOfVisible(s: string)
    requires forall k :: 0 <= k < |s| ==> !IsWhitespace(s[k])
    ensures Ink(s) == s
  {
    if s != [] {
      InkOfVisible(s[1..]);
    }
  }
}
