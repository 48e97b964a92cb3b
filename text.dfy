/**
 * The part of Go's `strings` package that the service uses: `ToLower`,
 * `TrimSpace`, `Index` and `Split` with a one-character separator.
 * Strings are sequences of Unicode code points. Lower-casing folds the ASCII
 * letters and the two other characters whose lower-case form is ASCII.
 */
module Text {

  /** KELVIN SIGN, which Go's `unicode.ToLower` maps to `k`. */
  const KelvinSign: char := '\U{212A}'
  /** LATIN CAPITAL LETTER I WITH DOT ABOVE, which Go's `unicode.ToLower` maps to `i`. */
  const DottedCapitalI: char := '\U{0130}'

  predicate IsAsciiUpper(c: char) { 'A' <= c <= 'Z' }

  /** The characters whose lower-case form is an ASCII letter different from them. */
  predicate IsUpper(c: char) { IsAsciiUpper(c) || c == KelvinSign || c == DottedCapitalI }

  /** Lower-casing of one character into ASCII; every other character is kept. */
  function LowerChar(c: char): (r: char)
    ensures !IsUpper(r)
    ensures IsAsciiUpper(c) ==> r as int == c as int + 32
    ensures c == KelvinSign ==> r == 'k'
    ensures c == DottedCapitalI ==> r == 'i'
    ensures !IsUpper(c) ==> r == c
  {
    if IsAsciiUpper(c) then (c as int + 32) as char
    else if c == KelvinSign then 'k'
    else if c == DottedCapitalI then 'i'
    else c
  }

  /** `strings.ToLower`, restricted to the characters whose lower-case form is ASCII. */
  function ToLower(s: string): (r: string)
    ensures |r| == |s|
    ensures forall i :: 0 <= i < |s| ==> r[i] == LowerChar(s[i])
  {
    if s == [] then [] else [LowerChar(s[0])] + ToLower(s[1..])
  }

  predicate IsLower(s: string) { forall i :: 0 <= i < |s| ==> !IsUpper(s[i]) }

  lemma ToLowerIsLower(s: string)
    ensures IsLower(ToLower(s))
  {
  }

  /** Lower-casing a string that has no upper-case letter changes nothing. */
  lemma ToLowerOfLower(s: string)
    requires IsLower(s)
    ensures ToLower(s) == s
  {
  }

  lemma ToLowerIdempotent(s: string)
    ensures ToLower(ToLower(s)) == ToLower(s)
  {
    ToLowerIsLower(s);
    ToLowerOfLower(ToLower(s));
  }

  /** A character that is not a letter occurs in `ToLower(s)` exactly where it occurs in `s`. */
  lemma ToLowerKeepsNonLetters(s: string, c: char)
    requires !('a' <= c <= 'z') && !IsUpper(c)
    ensures c in ToLower(s) <==> c in s
  {
    var r := ToLower(s);
    if c in r {
      var i :| 0 <= i < |r| && r[i] == c;
      assert s[i] == c;
    }
    if c in s {
      var i :| 0 <= i < |s| && s[i] == c;
      assert r[i] == c;
    }
  }

  /** A character that is not a letter is the lower-case form of itself only. */
  lemma LowerCharIs(x: char, c: char)
    requires !('a' <= c <= 'z') && !IsUpper(c)
    ensures LowerChar(x) == c <==> x == c
  {
  }

  /** White space as `unicode.IsSpace` defines it, which is what `strings.TrimSpace` strips. */
  predicate IsSpace(c: char)
  {
    || c == '\t' || c == '\n' || c == '\U{000B}' || c == '\U{000C}' || c == '\r' || c == ' '
    || c == '\U{0085}' || c == '\U{00A0}' || c == '\U{1680}'
    || ('\U{2000}' <= c <= '\U{200A}')
    || c == '\U{2028}' || c == '\U{2029}' || c == '\U{202F}' || c == '\U{205F}' || c == '\U{3000}'
  }

  /** Number of white-space characters at the start of `s`. */
  function LeadingSpaces(s: string): (n: nat)
    ensures n <= |s|
    ensures forall k :: 0 <= k < n ==> IsSpace(s[k])
    ensures n < |s| ==> !IsSpace(s[n])
  {
    if s == [] || !IsSpace(s[0]) then 0 else 1 + LeadingSpaces(s[1..])
  }

  /** Number of white-space characters at the end of `s`. */
  function TrailingSpaces(s: string): (n: nat)
    ensures n <= |s|
    ensures forall k :: |s| - n <= k < |s| ==> IsSpace(s[k])
    ensures n < |s| ==> !IsSpace(s[|s| - 1 - n])
  {
    if s == [] || !IsSpace(s[|s| - 1]) then 0 else 1 + TrailingSpaces(s[..|s| - 1])
  }

  /**
   * `strings.TrimSpace`: the slice of `s` that starts after its leading white
   * space, is followed only by white space, and neither starts nor ends with it.
   */
  function TrimSpace(s: string): (r: string)
    ensures LeadingSpaces(s) + |r| <= |s|
    ensures r == s[LeadingSpaces(s)..LeadingSpaces(s) + |r|]
    ensures forall k :: LeadingSpaces(s) + |r| <= k < |s| ==> IsSpace(s[k])
    ensures r == [] || (!IsSpace(r[0]) && !IsSpace(r[|r| - 1]))
  {
    var t := s[LeadingSpaces(s)..];
    t[..|t| - TrailingSpaces(t)]
  }

  /** A string without white space at either end is its own trimming. */
  lemma TrimSpaceOfTrimmed(s: string)
    requires s == [] || (!IsSpace(s[0]) && !IsSpace(s[|s| - 1]))
    ensures TrimSpace(s) == s
  {
    assert LeadingSpaces(s) == 0;
    assert TrailingSpaces(s) == 0;
  }

  lemma TrimSpaceIdempotent(s: string)
    ensures TrimSpace(TrimSpace(s)) == TrimSpace(s)
  {
    TrimSpaceOfTrimmed(TrimSpace(s));
  }

  /** `strings.Index` for a one-character needle: the first position of `c`, or -1. */
  function IndexOf(s: string, c: char): (r: int)
    ensures -1 <= r < |s|
    ensures r == -1 <==> c !in s
    ensures r >= 0 ==> s[r] == c && c !in s[..r]
  {
    if s == [] then -1
    else if s[0] == c then 0
    else
      var k := IndexOf(s[1..], c);
      if k == -1 then -1
      else
        assert s[..k + 1] == [s[0]] + s[1..][..k];
        k + 1
  }

  /** Searching past a prefix that lacks `c` shifts the position by the prefix's length. */
  lemma {:induction false} IndexOfAfterPrefix(a: string, b: string, c: char)
    requires c !in a
    ensures IndexOf(a + b, c) == if c in b then |a| + IndexOf(b, c) else -1
  {
    if a == [] {
      assert a + b == b;
    } else {
      assert (a + b)[0] == a[0];
      assert (a + b)[1..] == a[1..] + b;
      IndexOfAfterPrefix(a[1..], b, c);
    }
  }

  /** The part of `s` before the first `c`, or all of `s` when `c` does not occur: `s[:idx]` after `strings.Index`. */
  function Before(s: string, c: char): (r: string)
    ensures c !in r
    ensures r <= s
    ensures c in s ==> |r| < |s| && s[|r|] == c
    ensures c !in s ==> r == s
  {
    var idx := IndexOf(s, c);
    if idx == -1 then s else s[..idx]
  }

  /** Lower-casing does not move the first occurrence of a character that is not a letter. */
  lemma IndexOfLower(s: string, c: char)
    requires !('a' <= c <= 'z') && !IsUpper(c)
    ensures IndexOf(ToLower(s), c) == IndexOf(s, c)
  {
    var t := ToLower(s);
    forall k | 0 <= k < |s|
      ensures t[k] == c <==> s[k] == c
    {
      LowerCharIs(s[k], c);
    }
  }

  /** Cutting before a character that is not a letter commutes with lower-casing. */
  lemma BeforeOfLower(s: string, c: char)
    requires !('a' <= c <= 'z') && !IsUpper(c)
    ensures Before(ToLower(s), c) == ToLower(Before(s, c))
  {
    IndexOfLower(s, c);
    var k := IndexOf(s, c);
    if k != -1 {
      ToLowerPrefix(s, k);
    }
  }

  lemma ToLowerPrefix(s: string, k: nat)
    requires k <= |s|
    ensures ToLower(s)[..k] == ToLower(s[..k])
  {
  }

  /**
   * `strings.Split(s, sep)` for a one-character separator: the pieces between
   * successive separators. There is always at least one piece.
   */
  function Split(s: string, sep: char): (parts: seq<string>)
    ensures |parts| >= 1
    ensures parts[0] == Before(s, sep)
    decreases |s|
  {
    var k := IndexOf(s, sep);
    if k == -1 then [s] else [s[..k]] + Split(s[k + 1..], sep)
  }

  /** No piece of a split contains the separator. */
  lemma {:induction false} SplitPiecesLackSeparator(s: string, sep: char)
    ensures forall i :: 0 <= i < |Split(s, sep)| ==> sep !in Split(s, sep)[i]
    decreases |s|
  {
    var k := IndexOf(s, sep);
    if k != -1 {
      SplitPiecesLackSeparator(s[k + 1..], sep);
    }
  }

  /** `strings.Join(parts, sep)`, the inverse of `Split`. */
  function Join(parts: seq<string>, sep: char): string
    requires |parts| >= 1
  {
    if |parts| == 1 then parts[0] else parts[0] + [sep] + Join(parts[1..], sep)
  }

  lemma SplitAtFirst(s: string, sep: char)
    requires sep in s
    ensures Split(s, sep) == [s[..IndexOf(s, sep)]] + Split(s[IndexOf(s, sep) + 1..], sep)
  {
    assert IndexOf(s, sep) != -1;
  }

  lemma JoinFirst(parts: seq<string>, sep: char)
    requires |parts| > 1
    ensures Join(parts, sep) == parts[0] + [sep] + Join(parts[1..], sep)
  {
  }

  /** A string is the part before position `k`, the character at `k`, and the part after it. */
  lemma Around(s: string, k: nat)
    requires k < |s|
    ensures s == s[..k] + [s[k]] + s[k + 1..]
  {
    assert s[..k] + [s[k]] == s[..k + 1];
  }

  lemma {:induction false} JoinSplit(s: string, sep: char)
    ensures Join(Split(s, sep), sep) == s
    decreases |s|
  {
    if sep in s {
      var k := IndexOf(s, sep);
      var head, tail := s[..k], s[k + 1..];
      var rest := Split(tail, sep);
      SplitAtFirst(s, sep);
      assert Split(s, sep) == [head] + rest;
      JoinFirst([head] + rest, sep);
      assert ([head] + rest)[1..] == rest;
      JoinSplit(tail, sep);
      Around(s, k);
    } else {
      assert IndexOf(s, sep) == -1;
      assert Split(s, sep) == [s];
    }
  }

  /** Splitting a separator-free head, the separator and a rest gives the head and the pieces of the rest. */
  lemma SplitCons(head: string, rest: string, sep: char)
    requires sep !in head
    ensures Split(head + [sep] + rest, sep) == [head] + Split(rest, sep)
  {
    var s := head + [sep] + rest;
    assert IndexOf(s, sep) == |head| by {
      assert s == head + ([sep] + rest);
      IndexOfAfterPrefix(head, [sep] + rest, sep);
      assert IndexOf([sep] + rest, sep) == 0;
    }
    assert s[|head|] == sep;
    SplitAtFirst(s, sep);
    assert s[..|head|] == head;
    assert s[|head| + 1..] == rest;
  }

  lemma {:induction false} SplitJoin(parts: seq<string>, sep: char)
    requires |parts| >= 1
    requires forall i :: 0 <= i < |parts| ==> sep !in parts[i]
    ensures Split(Join(parts, sep), sep) == parts
  {
    if |parts| > 1 {
      var head, tail := parts[0], parts[1..];
      JoinFirst(parts, sep);
      SplitCons(head, Join(tail, sep), sep);
      SplitJoin(tail, sep);
      assert parts == [head] + tail;
    }
  }
}
