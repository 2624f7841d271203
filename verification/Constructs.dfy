/** Whole constructs in a text: what is protected of a fenced block, a URL, a decimal
    number and what is not. */
module Constructs {
  import opened Text
  import opened Arithmetic
  import opened Sequences
  import opened ProtectedMask

  predicate NoBacktick(s: string) {
    forall k :: 0 <= k < |s| ==> s[k] != '`'
  }

  // ---- Fenced blocks ----

  lemma FencesOfBlock(a: string, b: string, c: string)
    requires NoBacktick(a) && NoBacktick(b) && NoBacktick(c)
    ensures AreFences(a + "```" + b + "```" + c, [|a|, |a| + 3 + |b|])
  {
    var s := a + "```" + b + "```" + c;
    var fences := [|a|, |a| + 3 + |b|];
    assert FenceAt(s, fences[0]) && FenceAt(s, fences[1]);
    forall i | 0 <= i < |s| && FenceAt(s, i) ensures Covered(fences, i) {
      FenceInBlock(a, b, c, i);
      assert fences[0] <= i < fences[0] + 3 || fences[1] <= i < fences[1] + 3;
    }
  }

  /** Three backticks start at the first fence, at the second, or, when nothing is
      between them, in the first. */
  lemma FenceInBlock(a: string, b: string, c: string, i: nat)
    requires NoBacktick(a) && NoBacktick(b) && NoBacktick(c)
    ensures FenceAt(a + "```" + b + "```" + c, i) ==> |a| <= i < |a| + 3 || i == |a| + 3 + |b|
  {
    var s, second := a + "```" + b + "```" + c, |a| + 3 + |b|;
    if i < |a| {
      assert s[i] == a[i];
    } else if |a| + 3 <= i < second {
      assert s[i] == b[i - |a| - 3];
    } else if second < i < |s| - 2 {
      assert s[i + 2] == c[i + 2 - second - 3];
    }
  }

  /** A fenced block is protected from its first backtick to its last, and nothing
      outside it is. */
  lemma BlockIsProtected(a: string, b: string, c: string, fences: seq<nat>, p: nat)
    requires NoBacktick(a) && NoBacktick(b) && NoBacktick(c)
    requires AreFences(a + "```" + b + "```" + c, fences)
    ensures InFence(fences, p) <==> |a| <= p < |a| + |b| + 6
  {
    FencesOfBlock(a, b, c);
    FencesAreUnique(a + "```" + b + "```" + c, fences, [|a|, |a| + 3 + |b|]);
    assert Encloses(fences, 0, p) <==> |a| <= p < |a| + |b| + 6;
    assert !Encloses(fences, 1, p);
  }

  /** A block that is never closed is protected to the end of the text. */
  lemma OpenBlockIsProtected(a: string, b: string, fences: seq<nat>, p: nat)
    requires NoBacktick(a) && NoBacktick(b) && AreFences(a + "```" + b, fences)
    ensures InFence(fences, p) <==> |a| <= p
  {
    var s := a + "```" + b;
    assert FenceAt(s, |a|);
    forall i | 0 <= i < |s| ensures FenceAt(s, i) ==> Covered([|a|], i) {
      if i < |a| {
        assert s[i] == a[i];
      } else if |a| < i < |s| - 2 {
        assert s[i + 2] == b[i + 2 - |a| - 3];
      } else {
        assert i == |a| ==> [|a|][0] <= i < [|a|][0] + 3;
      }
    }
    FencesAreUnique(s, fences, [|a|]);
    assert Encloses(fences, 0, p) <==> |a| <= p;
  }

  // ---- URLs ----

  predicate Scheme(s: string) {
    s == "http://" || s == "https://" || s == "www."
  }

  lemma UrlStarts(a: string, scheme: string, rest: string)
    requires Scheme(scheme)
    ensures UrlAt(a + scheme + rest, |a|) && forall k :: 0 <= k < |scheme| ==> !IsWhitespace(scheme[k])
  {
    assert (a + scheme + rest)[|a|..|a| + |scheme|] == scheme;
  }

  /** A URL is protected from its scheme up to the next whitespace, if it does not
      start in a fence. */
  lemma UrlIsProtected(a: string, scheme: string, rest: string, c: string, mask: seq<bool>, p: nat)
    requires Scheme(scheme) && forall k :: 0 <= k < |rest| ==> !IsWhitespace(rest[k])
    requires |mask| == |a + scheme + (rest + c)| && !mask[|a|] && |a| <= p < |a| + |scheme| + |rest|
    ensures InUrl(a + scheme + (rest + c), mask, p)
  {
    var s := a + scheme + (rest + c);
    UrlStarts(a, scheme, rest + c);
    forall k | |a| <= k < p + 1 && k < |s| ensures !IsWhitespace(s[k]) {
      if k < |a| + |scheme| {
        assert s[k] == scheme[k - |a|];
      } else {
        assert s[k] == rest[k - |a| - |scheme|];
      }
    }
    assert UrlRun(s, mask, |a|, p);
  }

  /** Whitespace is in no URL, nor is what follows it before the next one starts. */
  lemma UrlEnds(chars: string, mask: seq<bool>, space: nat, p: nat)
    requires |mask| == |chars| && space <= p < |chars| && IsWhitespace(chars[space])
    requires forall i :: space < i <= p ==> !UrlAt(chars, i)
    ensures !InUrl(chars, mask, p)
  {
  }

  // ---- Numbers ----

  predicate Digits(s: string) {
    s != [] && forall k :: 0 <= k < |s| ==> IsDigit(s[k])
  }

  lemma DigitsBetween(a: string, d: string, e: string, c: string, k: int)
    requires Digits(d) && Digits(e) && |a| <= k < |a| + |d| + 1 + |e| && k != |a| + |d|
    ensures DigitAt(a + d + "." + e + c, k)
  {
    var s := a + d + "." + e + c;
    if k < |a| + |d| {
      assert s[k] == d[k - |a|];
    } else {
      assert s[k] == e[k - |a| - |d| - 1];
    }
  }

  /** A decimal number is protected, all of it. */
  lemma DecimalIsProtected(a: string, d: string, e: string, c: string, p: int)
    requires Digits(d) && Digits(e) && |a| <= p < |a| + |d| + 1 + |e|
    ensures InDecimal(a + d + "." + e + c, p)
  {
    var s, q := a + d + "." + e + c, |a| + |d|;
    DigitsBetween(a, d, e, c, q - 1);
    DigitsBetween(a, d, e, c, q + 1);
    assert DecimalPoint(s, q);
    forall k | Min(p, q) <= k < Max(p, q) + 1 ensures NumeralAt(s, k) {
      if k != q {
        DigitsBetween(a, d, e, c, k);
      }
    }
    assert NumeralRun(s, Min(p, q), Max(p, q) + 1);
  }

  /** A number that ends in a full stop is not. */
  lemma WholeNumberIsNotProtected(a: string, d: string, c: string, p: int)
    requires Digits(d) && (a == [] || (!IsDigit(a[|a| - 1]) && a[|a| - 1] != '.' && a[|a| - 1] != ','))
    requires c == [] || !IsDigit(c[0])
    requires |a| <= p < |a| + |d|
    ensures !InDecimal(a + d + "." + c, p)
  {
    var s, end := a + d + "." + c, |a| + |d|;
    assert !NumeralAt(s, |a| - 1) by {
      assert a != [] ==> s[|a| - 1] == a[|a| - 1];
    }
    assert !NumeralAt(s, end) by {
      assert s[end] == '.';
      assert c != [] ==> s[end + 1] == c[0];
    }
    assert forall k :: |a| <= k < end ==> s[k] == d[k - |a|];
    assert NumeralRun(s, |a|, end);
    DecimalInRun(s, |a|, end, p);
  }

  /** Groups of digits belong to the decimal number they lead up to. */
  lemma GroupedDecimalIsProtected(a: string, g: string, d: string, e: string, c: string, p: int)
    requires Digits(g) && Digits(d) && Digits(e) && |a| <= p < |a| + |g| + 1 + |d| + 1 + |e|
    ensures InDecimal(a + g + "," + d + "." + e + c, p)
  {
    var s, comma, q := a + g + "," + d + "." + e + c, |a| + |g|, |a| + |g| + 1 + |d|;
    forall k | |a| <= k < q + 1 + |e|
      ensures if k == comma then s[k] == ',' else if k == q then s[k] == '.' else DigitAt(s, k)
    {
      GroupedAt(a, g, d, e, c, k);
    }
    assert DecimalPoint(s, q);
    forall k | Min(p, q) <= k < Max(p, q) + 1 ensures NumeralAt(s, k) {
      assert k == comma ==> DigitAt(s, k - 1) && DigitAt(s, k + 1);
    }
    assert NumeralRun(s, Min(p, q), Max(p, q) + 1);
  }

  lemma GroupedAt(a: string, g: string, d: string, e: string, c: string, k: int)
    requires Digits(g) && Digits(d) && Digits(e) && |a| <= k < |a| + |g| + 1 + |d| + 1 + |e|
    ensures
      var s, comma, q := a + g + "," + d + "." + e + c, |a| + |g|, |a| + |g| + 1 + |d|;
      if k == comma then s[k] == ',' else if k == q then s[k] == '.' else DigitAt(s, k)
  {
    var s, comma, q := a + g + "," + d + "." + e + c, |a| + |g|, |a| + |g| + 1 + |d|;
    if k < comma {
      assert s[k] == g[k - |a|];
    } else if comma < k < q {
      assert s[k] == d[k - comma - 1];
    } else if q < k {
      assert s[k] == e[k - q - 1];
    }
  }
}
