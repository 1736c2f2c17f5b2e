/**
 * Decimal text of integers as Python produces and reads it: `str(n)`,
 * the zero-padded `'{:0Wd}'.format(n)` used for frame and sequence numbers,
 * and `int(s)` on the sequence folder name.
 */
module Decimal {
  import opened Wrappers

  predicate IsDigit(c: char) {
    '0' <= c <= '9'
  }

  predicate AllDigits(s: string) {
    forall i :: 0 <= i < |s| ==> IsDigit(s[i])
  }

  function DigitChar(d: nat): (c: char)
    requires d < 10
    ensures IsDigit(c)
    ensures c as int - '0' as int == d
  {
    ('0' as int + d) as char
  }

  function DigitValue(c: char): (d: nat)
    requires IsDigit(c)
    ensures d < 10
    ensures DigitChar(d) == c
  {
    c as int - '0' as int
  }

  function Pow10(k: nat): (p: nat)
    ensures p >= 1
  {
    if k == 0 then 1 else 10 * Pow10(k - 1)
  }

  function Max(a: int, b: int): int {
    if a < b then b else a
  }

  /** The shortest decimal spelling of `n`: what `str(n)` gives for `n >= 0`. */
  function Digits(n: nat): (s: string)
    ensures |s| >= 1 && AllDigits(s)
    ensures s[0] == '0' ==> n == 0
    decreases n
  {
    if n < 10 then [DigitChar(n)] else Digits(n / 10) + [DigitChar(n % 10)]
  }

  /** The number a string of digits spells, leading zeros allowed. */
  function Value(s: string): nat
    requires AllDigits(s)
    decreases |s|
  {
    if s == [] then 0 else Value(s[..|s| - 1]) * 10 + DigitValue(s[|s| - 1])
  }

  /** `k` copies of '0'; none when `k` is not positive. */
  function Zeros(k: int): (z: string)
    ensures |z| == Max(k, 0)
    ensures forall i :: 0 <= i < |z| ==> z[i] == '0'
    decreases k
  {
    if k <= 0 then [] else Zeros(k - 1) + "0"
  }

  /** Python's `str(n)` for any integer. */
  function Str(n: int): string {
    if n < 0 then "-" + Digits(-n) else Digits(n)
  }

  function Abs(n: int): nat {
    if n < 0 then -n else n
  }

  /**
   * Python's `'{:0Wd}'.format(n)` with W = `width`: the sign first, then
   * zeros up to `width` characters in all; a wider number is never cut.
   */
  function Pad(n: int, width: int): string
    decreases if n < 0 then 1 else 0
  {
    if n < 0 then "-" + Pad(-n, width - 1)
    else Zeros(width - |Digits(n)|) + Digits(n)
  }

  /**
   * Python's `int(s)` on text made of an optional sign and ASCII digits;
   * anything else is the `ValueError` case, `None`.
   */
  function ParseInt(s: string): Option<int> {
    if |s| > 1 && (s[0] == '-' || s[0] == '+') && AllDigits(s[1..]) then
      var v: int := Value(s[1..]);
      Some(if s[0] == '-' then -v else v)
    else if |s| > 0 && AllDigits(s) then Some(Value(s))
    else None
  }

  lemma {:induction false} ValueOfDigits(n: nat)
    ensures Value(Digits(n)) == n
    decreases n
  {
    if n >= 10 {
      var s := Digits(n);
      assert s[..|s| - 1] == Digits(n / 10);
      ValueOfDigits(n / 10);
    }
  }

  lemma {:induction false} ValueOfZeros(k: int)
    ensures Value(Zeros(k)) == 0
    decreases k
  {
    if k > 0 {
      assert Zeros(k)[..|Zeros(k)| - 1] == Zeros(k - 1);
      ValueOfZeros(k - 1);
    }
  }

  /** Leading zeros do not change the number a digit string spells. */
  lemma {:induction false} ValueIgnoresLeadingZeros(k: int, s: string)
    requires AllDigits(s)
    ensures AllDigits(Zeros(k) + s)
    ensures Value(Zeros(k) + s) == Value(s)
    decreases |s|
  {
    var t := Zeros(k) + s;
    if s == [] {
      assert t == Zeros(k);
      ValueOfZeros(k);
    } else {
      assert t[..|t| - 1] == Zeros(k) + s[..|s| - 1];
      ValueIgnoresLeadingZeros(k, s[..|s| - 1]);
    }
  }

  /** `Digits(n)` has as many characters as `n` has decimal digits. */
  lemma {:induction false} DigitsLength(n: nat)
    ensures n < Pow10(|Digits(n)|)
    ensures n == 0 || Pow10(|Digits(n)| - 1) <= n
    decreases n
  {
    if n >= 10 {
      var m := n / 10;
      DigitsLength(m);
      var k := |Digits(m)|;
      assert |Digits(n)| == k + 1;
      assert Pow10(k + 1) == 10 * Pow10(k);
      assert n == 10 * m + n % 10;
      assert m < Pow10(k);
      assert m + 1 <= Pow10(k);
      assert 10 * (m + 1) <= 10 * Pow10(k);
      assert Pow10(k - 1) <= m;
      assert 10 * Pow10(k - 1) <= 10 * m;
    }
  }

  lemma {:induction false} Pow10Monotone(a: nat, b: nat)
    requires a <= b
    ensures Pow10(a) <= Pow10(b)
    decreases b - a
  {
    if a < b {
      Pow10Monotone(a + 1, b);
    }
  }

  /** Powers of ten are ordered as their exponents are. */
  lemma Pow10Order(a: nat, b: nat)
    ensures a <= b <==> Pow10(a) <= Pow10(b)
  {
    if a <= b {
      Pow10Monotone(a, b);
    } else {
      Pow10Monotone(b + 1, a);
    }
  }

  /** Distinct numbers have distinct spellings. */
  lemma DigitsInjective(a: nat, b: nat)
    ensures Digits(a) == Digits(b) <==> a == b
  {
    if Digits(a) == Digits(b) {
      ValueOfDigits(a);
      ValueOfDigits(b);
    }
  }

  /**
   * Zero padding round-trip: for `n >= 0` the padded text is all digits, has
   * length max(width, number of digits of n), and reads back as `n`; for any
   * `n`, `int()` recovers `n` from it.
   */
  lemma PadRoundTrip(n: int, width: int)
    ensures n >= 0 ==> AllDigits(Pad(n, width)) && |Pad(n, width)| == Max(width, |Digits(n)|)
    ensures n >= 0 ==> Value(Pad(n, width)) == n
    ensures ParseInt(Pad(n, width)) == Some(n)
  {
    if n < 0 {
      PadNegativeRoundTrip(n, width);
    } else {
      PadNonNegativeRoundTrip(n, width);
    }
  }

  lemma PadNegativeRoundTrip(n: int, width: int)
    requires n < 0
    ensures ParseInt(Pad(n, width)) == Some(n)
  {
    var m: nat := -n;
    var t := Pad(m, width - 1);
    var s := "-" + t;
    PadDigits(m, width - 1);
    assert Value(t) == m;
    assert Pad(n, width) == s;
    ParseNegative(t);
    assert ParseInt(s) == Some(-(Value(t) as int));
    assert -(Value(t) as int) == n;
  }

  lemma PadDigits(n: nat, width: int)
    ensures |Pad(n, width)| > 0 && AllDigits(Pad(n, width)) && Value(Pad(n, width)) == n
  {
    PadNonNegativeRoundTrip(n, width);
  }

  lemma PadNonNegativeRoundTrip(n: nat, width: int)
    ensures AllDigits(Pad(n, width)) && |Pad(n, width)| == Max(width, |Digits(n)|)
    ensures Value(Pad(n, width)) == n
    ensures ParseInt(Pad(n, width)) == Some(n)
  {
    var ds := Digits(n);
    var k := width - |ds|;
    var s := Zeros(k) + ds;
    assert Pad(n, width) == s;
    assert |s| == Max(k, 0) + |ds| == Max(width, |ds|);
    ValueIgnoresLeadingZeros(k, ds);
    ValueOfDigits(n);
    assert Value(s) == n;
    ParseUnsigned(s);
  }

  /**
   * The padded text is `width` characters or the number's own spelling,
   * whichever is longer, and always ends with every digit of the number.
   */
  lemma {:induction false} PadNeverTruncates(n: int, width: int)
    ensures |Pad(n, width)| == Max(width, |Str(n)|)
    ensures Pad(n, width)[|Pad(n, width)| - |Digits(Abs(n))|..] == Digits(Abs(n))
    ensures n < 0 ==> Pad(n, width)[0] == '-'
    decreases if n < 0 then 1 else 0
  {
    if n < 0 {
      PadNeverTruncates(-n, width - 1);
      var t := Pad(-n, width - 1);
      assert Pad(n, width) == "-" + t;
      assert ("-" + t)[|"-" + t| - |Digits(-n)|..] == t[|t| - |Digits(-n)|..];
    } else {
      var z := Zeros(width - |Digits(n)|);
      assert Pad(n, width) == z + Digits(n);
      assert (z + Digits(n))[|z|..] == Digits(n);
    }
  }

  /** Padded text is made of digits and, for a negative number, a leading '-'. */
  lemma PadAlphabet(n: int, width: int)
    ensures forall i :: 0 <= i < |Pad(n, width)| ==> IsDigit(Pad(n, width)[i]) || (i == 0 && Pad(n, width)[i] == '-')
  {
    if n < 0 {
      PadNonNegativeRoundTrip(-n, width - 1);
      assert Pad(n, width) == "-" + Pad(-n, width - 1);
    } else {
      PadNonNegativeRoundTrip(n, width);
    }
  }

  /** Appending a zero digit to a positive number appends '0' to its spelling. */
  lemma DigitsTimesTen(n: nat)
    requires n >= 1
    ensures Digits(10 * n) == Digits(n) + "0"
  {
    assert (10 * n) / 10 == n && (10 * n) % 10 == 0;
  }

  lemma ParseUnsigned(s: string)
    requires |s| > 0 && AllDigits(s)
    ensures ParseInt(s) == Some(Value(s))
  {
    assert IsDigit(s[0]);
  }

  lemma ParseNegative(t: string)
    requires |t| > 0 && AllDigits(t)
    ensures ParseInt("-" + t) == Some(-(Value(t) as int))
  {
    assert ("-" + t)[1..] == t;
  }

  /** `int(str(n)) == n`. */
  lemma StrRoundTrip(n: int)
    ensures ParseInt(Str(n)) == Some(n)
  {
    StrIsUnpadded(n);
    PadRoundTrip(n, 0);
  }

  /** `str(n)` is the zero-padded text at width 0. */
  lemma StrIsUnpadded(n: int)
    ensures Str(n) == Pad(n, 0)
  {
    if n < 0 {
      PadNarrowWidth(-n, -1);
      assert Pad(n, 0) == "-" + Pad(-n, -1);
    } else {
      PadNarrowWidth(n, 0);
    }
  }

  /** The padding is never longer than needed: a wide enough width adds nothing. */
  lemma PadNarrowWidth(n: nat, width: int)
    requires width <= |Digits(n)|
    ensures Pad(n, width) == Digits(n)
  {
    assert Zeros(width - |Digits(n)|) == [];
  }
}
