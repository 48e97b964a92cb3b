/**
 * Go's `strconv.Atoi` and `strconv.Itoa` for the platform's `int`, taken to be
 * 64 bits wide. `Atoi` accepts an optional `+` or `-` followed by one or more
 * ASCII decimal digits whose value lies in the `int` range; anything else is an
 * error (a syntax error or a range error, which callers here do not tell apart).
 */
module Strconv {
  import opened Wrappers
  import Text

  const MaxInt: int := 0x7fff_ffff_ffff_ffff
  const MinInt: int := -0x8000_0000_0000_0000

  predicate IsDigit(c: char) { '0' <= c <= '9' }

  predicate AllDigits(s: string) { forall i :: 0 <= i < |s| ==> IsDigit(s[i]) }

  function DigitValue(c: char): (d: nat)
    requires IsDigit(c)
    ensures d < 10
  {
    c as int - '0' as int
  }

  function DigitChar(d: nat): (c: char)
    requires d < 10
    ensures IsDigit(c) && DigitValue(c) == d
  {
    ('0' as int + d) as char
  }

  /** The value of a string of decimal digits, most significant first; leading zeros are allowed. */
  function DigitsValue(s: string): nat
    requires AllDigits(s)
  {
    if s == [] then 0 else 10 * DigitsValue(s[..|s| - 1]) + DigitValue(s[|s| - 1])
  }

  /** The unsigned part of `s`: what follows a leading `+` or `-`. */
  function Magnitude(s: string): (m: string)
    ensures |m| <= |s|
  {
    if |s| > 0 && (s[0] == '+' || s[0] == '-') then s[1..] else s
  }

  /** `strconv.Atoi`: the integer `s` spells, or `None` when `s` is malformed or out of range. */
  function Atoi(s: string): (r: Option<int>)
    ensures r.Some? ==> MinInt <= r.value <= MaxInt
  {
    var digits := Magnitude(s);
    if digits == [] || !AllDigits(digits) then None
    else
      var v := if s[0] == '-' then -(DigitsValue(digits) as int) else DigitsValue(digits) as int;
      if MinInt <= v <= MaxInt then Some(v) else None
  }

  /** Decimal digits of a natural number without leading zeros. */
  function NatDigits(n: nat): (s: string)
    ensures |s| >= 1 && AllDigits(s)
    ensures DigitsValue(s) == n
    ensures s[0] != '0' || n == 0
  {
    if n < 10 then [DigitChar(n)]
    else
      var prefix := NatDigits(n / 10);
      var s := prefix + [DigitChar(n % 10)];
      assert s[..|s| - 1] == prefix;
      s
  }

  function Abs(n: int): nat { if n < 0 then -n else n }

  /** `strconv.Itoa`: the decimal rendering of `n`, with a `-` for negative numbers. */
  function Itoa(n: int): (s: string)
    ensures |s| >= 1
    ensures s[0] == '-' <==> n < 0
    ensures Magnitude(s) == NatDigits(Abs(n))
    ensures n >= 0 ==> s == NatDigits(n)
  {
    if n < 0 then "-" + NatDigits(-n) else NatDigits(n)
  }

  /** A string of `k` zeros. */
  function Zeros(k: nat): (z: string)
    ensures |z| == k
  {
    if k == 0 then [] else Zeros(k - 1) + "0"
  }

  lemma {:induction false} ZerosValue(k: nat)
    ensures AllDigits(Zeros(k)) && DigitsValue(Zeros(k)) == 0
  {
    if k > 0 {
      ZerosValue(k - 1);
      assert Zeros(k)[..k - 1] == Zeros(k - 1);
    }
  }

  /** Leading zeros do not change the value of a digit string. */
  lemma {:induction false} PaddedValue(k: nat, d: string)
    requires AllDigits(d)
    ensures AllDigits(Zeros(k) + d) && DigitsValue(Zeros(k) + d) == DigitsValue(d)
    decreases |d|
  {
    ZerosValue(k);
    if d == [] {
      assert Zeros(k) + d == Zeros(k);
    } else {
      var p := d[..|d| - 1];
      PaddedValue(k, p);
      assert (Zeros(k) + d)[..|Zeros(k) + d| - 1] == Zeros(k) + p;
    }
  }

  /** Every non-empty digit string is some zeros followed by the canonical digits of its value. */
  lemma {:induction false} Canonical(m: string) returns (k: nat)
    requires m != [] && AllDigits(m)
    ensures m == Zeros(k) + NatDigits(DigitsValue(m))
    decreases |m|
  {
    var p, c := m[..|m| - 1], m[|m| - 1];
    var d := DigitValue(c);
    assert m == p + [c];
    assert DigitChar(d) == c;
    if p == [] {
      k := 0;
      assert DigitsValue(m) == d;
    } else {
      var j := Canonical(p);
      var v := DigitsValue(p);
      if v == 0 {
        k := j + 1;
        assert NatDigits(0) == "0";
        assert NatDigits(d) == [c];
      } else {
        k := j;
        var n := 10 * v + d;
        assert n / 10 == v && n % 10 == d;
        assert NatDigits(n) == NatDigits(v) + [c];
      }
    }
  }

  /**
   * `Atoi` accepts exactly an optional sign, any number of zeros and the
   * digits of a value in the `int` range, with `-` required before a negative
   * value and allowed before zero: `"007"`, `"-0"` and `"+00"` are accepted.
   */
  lemma AtoiExactly(s: string, n: int)
    ensures Atoi(s) == Some(n) <==>
      && MinInt <= n <= MaxInt
      && |s| > 0
      && (exists k: nat :: Magnitude(s) == Zeros(k) + NatDigits(Abs(n)))
      && (n < 0 ==> s[0] == '-')
      && (s[0] == '-' ==> n <= 0)
  {
    if Atoi(s) == Some(n) {
      var k := AtoiCanonical(s, n);
      assert Magnitude(s) == Zeros(k) + NatDigits(Abs(n));
    } else if |s| > 0 && MinInt <= n <= MaxInt && (n < 0 ==> s[0] == '-') && (s[0] == '-' ==> n <= 0) {
      forall k: nat
        ensures Magnitude(s) != Zeros(k) + NatDigits(Abs(n))
      {
        if Magnitude(s) == Zeros(k) + NatDigits(Abs(n)) {
          AtoiOfPadded(s, n, k);
        }
      }
    }
  }

  /** What `Atoi` accepts is some zeros and the canonical digits of the value, after a fitting sign. */
  lemma AtoiCanonical(s: string, n: int) returns (k: nat)
    requires Atoi(s) == Some(n)
    ensures |s| > 0 && Magnitude(s) == Zeros(k) + NatDigits(Abs(n))
    ensures (n < 0 ==> s[0] == '-') && (s[0] == '-' ==> n <= 0)
  {
    var m := Magnitude(s);
    assert DigitsValue(m) == Abs(n);
    k := Canonical(m);
  }

  /** Some zeros and the canonical digits of an `int`, after a fitting sign, are accepted. */
  lemma AtoiOfPadded(s: string, n: int, k: nat)
    requires MinInt <= n <= MaxInt && |s| > 0 && Magnitude(s) == Zeros(k) + NatDigits(Abs(n))
    requires (n < 0 ==> s[0] == '-') && (s[0] == '-' ==> n <= 0)
    ensures Atoi(s) == Some(n)
  {
    PaddedValue(k, NatDigits(Abs(n)));
  }

  /** `Atoi` accepts leading zeros and a minus sign before zero. */
  lemma AtoiLeadingZeros()
    ensures Atoi("007") == Some(7)
    ensures Atoi("-0") == Some(0)
  {
    assert Magnitude("007") == Zeros(2) + NatDigits(7);
    AtoiOfPadded("007", 7, 2);
    assert Magnitude("-0") == Zeros(0) + NatDigits(0);
    AtoiOfPadded("-0", 0, 0);
  }

  /** Every `int` survives the round trip through its decimal rendering. */
  lemma AtoiItoa(n: int)
    requires MinInt <= n <= MaxInt
    ensures Atoi(Itoa(n)) == Some(n)
  {
    if n < 0 {
      assert Magnitude(Itoa(n)) == NatDigits(-n);
    } else {
      assert Magnitude(Itoa(n)) == NatDigits(n);
    }
  }

  /** A leading `+` is accepted on a non-negative number. */
  lemma AtoiPlusItoa(n: int)
    requires 0 <= n <= MaxInt
    ensures Atoi("+" + Itoa(n)) == Some(n)
  {
    assert Magnitude("+" + Itoa(n)) == NatDigits(n);
  }

  /** A rendering of a number outside the `int` range is refused. */
  lemma AtoiRejectsOutOfRange(n: int)
    requires n < MinInt || n > MaxInt
    ensures Atoi(Itoa(n)) == None
  {
    if n < 0 {
      assert Magnitude(Itoa(n)) == NatDigits(-n);
    } else {
      assert Magnitude(Itoa(n)) == NatDigits(n);
    }
  }

  /** The empty string, a lone sign, and a string with a non-digit after the sign are refused. */
  lemma AtoiRejectsMalformed(s: string)
    requires s == [] || s == "+" || s == "-" || exists i :: 0 <= i < |Magnitude(s)| && !IsDigit(Magnitude(s)[i])
    ensures Atoi(s) == None
  {
  }

  /** In particular, surrounding white space is refused. */
  lemma AtoiRejectsSpace(s: string)
    requires |s| > 0 && (Text.IsSpace(s[0]) || Text.IsSpace(s[|s| - 1]))
    ensures Atoi(s) == None
  {
    if Text.IsSpace(s[|s| - 1]) && Magnitude(s) != [] {
      assert Text.IsSpace(Magnitude(s)[|Magnitude(s)| - 1]);
    }
  }
}
