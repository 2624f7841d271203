/** Facts about sequences that the loops lean on. */
module Sequences {
  lemma PrefixSnoc<T>(s: seq<T>, i: nat)
    requires i < |s|
    ensures s[..i + 1] == s[..i] + [s[i]]
    ensures s[..i + 1][..i] == s[..i]
  {
  }

  lemma ElementsOfSnoc<T>(s: seq<T>, x: T)
    ensures forall j :: 0 <= j < |s| ==> (s + [x])[j] == s[j]
    ensures (s + [x])[|s|] == x
  {
  }

  lemma PrefixOfSnoc<T>(s: seq<T>, x: T, i: nat)
    requires i <= |s|
    ensures (s + [x])[..i] == s[..i]
  {
  }

  lemma WholePrefix<T>(s: seq<T>)
    ensures s[..|s|] == s
  {
  }

  lemma Associates<T>(a: seq<T>, b: seq<T>, c: seq<T>)
    ensures (a + b) + c == a + (b + c)
  {
  }

  lemma HeadTail<T>(s: seq<T>)
    requires s != []
    ensures [s[0]] + s[1..] == s
  {
  }

  lemma WithoutLast<T>(s: seq<T>)
    requires s != []
    ensures s[..|s| - 1] + [s[|s| - 1]] == s
  {
  }

  lemma PrefixOfPrefix<T>(a: seq<T>, b: seq<T>, i: nat)
    requires i <= |a| && a <= b
    ensures b[..i] == a[..i]
  {
  }

  lemma SplitAt<T>(s: seq<T>, i: nat)
    requires i <= |s|
    ensures s[..i] + s[i..] == s
  {
  }

  lemma DropTwice<T>(a: seq<T>, b: seq<T>, c: seq<T>)
    requires a <= b <= c
    ensures c[|a|..] == b[|a|..] + c[|b|..]
  {
  }

  lemma DropSnoc<T>(s: seq<T>, x: T, i: nat)
    requires i <= |s|
    ensures (s + [x])[i..] == s[i..] + [x]
  {
  }

  /** What `b` adds to `a` and then `c` to `b` is what `c` adds to `a`. */
  lemma AppendOnward<T>(s: seq<T>, a: seq<T>, b: seq<T>, c: seq<T>)
    requires a <= b <= c
    ensures s + b[|a|..] + c[|b|..] == s + c[|a|..]
  {
    DropTwice(a, b, c);
    Associates(s, b[|a|..], c[|b|..]);
  }

  /** The newest `capacity` elements of a history, oldest first. */
  function Newest<T>(history: seq<T>, capacity: nat): seq<T> {
    if |history| <= capacity then history else history[|history| - capacity..]
  }

  lemma NewestSnoc<T>(history: seq<T>, x: T, capacity: nat)
    requires capacity > 0
    ensures
      var kept := Newest(history, capacity);
      Newest(history + [x], capacity) == (if |kept| == capacity then kept[1..] else kept) + [x]
  {
  }
}
