/** The phrases of two short texts that the concrete runs use. */
module WitnessTexts {
  import opened Text
  import opened ProtectedMask
  import opened Segmentation
  import opened Phrases

  /** Nothing in the text could begin anything that is protected. */
  predicate Plain(chars: string) {
    forall k :: 0 <= k < |chars| ==>
      chars[k] != '`' && chars[k] != '|' && chars[k] != '\n' && chars[k] != 'h' && chars[k] != 'w' && !IsDigit(chars[k])
  }

  function Unmasked(n: nat): (mask: seq<bool>)
    ensures |mask| == n && forall k :: 0 <= k < n ==> !mask[k]
  {
    if n == 0 then [] else Unmasked(n - 1) + [false]
  }

  lemma PlainHasNoFences(chars: string)
    requires Plain(chars)
    ensures AreFences(chars, [])
  {
  }

  lemma PlainHasNoUrl(chars: string, i: nat)
    requires Plain(chars) && i < |chars|
    ensures !UrlAt(chars, i)
  {
    HeadOfSlice(chars, i, 7);
    HeadOfSlice(chars, i, 8);
    HeadOfSlice(chars, i, 4);
  }

  lemma HeadOfSlice(chars: string, i: nat, n: nat)
    ensures 0 < n && i + n <= |chars| ==> chars[i..i + n][0] == chars[i]
  {
  }

  lemma PlainHasNoTable(chars: string)
    requires Plain(chars)
    ensures AreLines(chars, [Line(0, |chars|)])
    ensures forall p :: 0 <= p < |chars| ==> !InTable(chars, [Line(0, |chars|)], p)
  {
    assert chars[0..|chars|] == chars;
    assert forall k :: 0 <= k < |Trim(chars)| ==> Trim(chars)[k] in chars by {
      TrimTakes(chars);
    }
    assert !IsTableLine(chars, Line(0, |chars|));
  }

  lemma {:induction false} TrimStartTakes(s: string)
    ensures forall k :: 0 <= k < |TrimStart(s)| ==> TrimStart(s)[k] in s
  {
    if s != [] && IsWhitespace(s[0]) {
      TrimStartTakes(s[1..]);
    }
  }

  lemma TrimTakes(s: string)
    ensures forall k :: 0 <= k < |Trim(s)| ==> Trim(s)[k] in s
  {
    TrimStartTakes(s);
    TrimEndDone(TrimStart(s));
    forall k | 0 <= k < |Trim(s)| ensures Trim(s)[k] in s {
      assert Trim(s)[k] == TrimStart(s)[k];
    }
  }

  /** A plain text is not protected anywhere. */
  lemma PlainIsUnprotected(chars: string)
    requires Plain(chars)
    ensures IsProtectedMask(chars, [], [Line(0, |chars|)], Unmasked(|chars|))
  {
    PlainHasNoFences(chars);
    PlainHasNoTable(chars);
    forall i | 0 <= i < |chars| ensures !UrlAt(chars, i) {
      PlainHasNoUrl(chars, i);
    }
    forall p | 0 <= p < |chars| ensures !InFence([], p) && !InUrl(chars, FenceMask(chars, []), p) {
    }
  }

  lemma OnePhrase()
    ensures ArePhrases("Yes.", ["Yes."])
  {
    var text := "Yes.";
    assert Trim(text) == text;
    PlainIsUnprotected(text);
    assert IsSegmentation(text, Unmasked(4), [Span(0, 4)]);
    assert text[0..4] == text;
    assert Chunks(text, [Span(0, 4)]) == [text] by {
      assert [Span(0, 4)][..0] == [];
    }
  }

  const BOTH := "Yes. No."
  const SPANS := [Span(0, 4), Span(5, 8)]

  lemma TwoSpans()
    ensures IsSegmentation(BOTH, Unmasked(8), SPANS)
  {
    assert Follows(BOTH, SPANS[0], SPANS[1]);
    assert Tight(BOTH, Unmasked(8), SPANS[0], true) && Tight(BOTH, Unmasked(8), SPANS[1], false);
    assert Justified(BOTH, Unmasked(8), SPANS[0], true) && Justified(BOTH, Unmasked(8), SPANS[1], false);
  }

  lemma TwoChunks()
    ensures Chunks(BOTH, SPANS) == ["Yes.", "No."]
  {
    assert BOTH[0..4] == "Yes." && BOTH[5..8] == "No.";
    assert Trim("Yes.") == "Yes." && Trim("No.") == "No.";
    assert SPANS[..1] == [Span(0, 4)] && [Span(0, 4)][..0] == [];
  }

  lemma TwoPhrases()
    ensures ArePhrases(BOTH, ["Yes.", "No."])
  {
    assert Trim(BOTH) == BOTH;
    PlainIsUnprotected(BOTH);
    TwoSpans();
    TwoChunks();
  }
}
