/**
 * Decimal rendering of naturals as the `%d` and `%0<width>d` verbs of Go's
 * fmt package print them, with a parser that inverts it.
 */
module Decimal {
  import opened Text

  function Digit(d: nat): (c: char)
    requires d < 10
    ensures IsDigit(c)
  {
    (48 + d) as char
  }

  function DigitValue(c: char): (d: nat)
    requires IsDigit(c)
    ensures d < 10
  {
    c as int - 48
  }

  predicate AllDigits(s: string)
  {
    forall i :: 0 <= i < |s| ==> IsDigit(s[i])
  }

  /** `%d`: the shortest decimal numeral of `n`. */
  function Format(n: nat): (s: string)
    ensures 1 <= |s| && AllDigits(s)
    decreases n
  {
    if n < 10 then [Digit(n)] else Format(n / 10) + [Digit(n % 10)]
  }

  /** The value of a decimal numeral; leading zeros are allowed. */
  function Parse(s: string): nat
    requires AllDigits(s)
    decreases |s|
  {
    if s == [] then 0 else 10 * Parse(s[..|s| - 1]) + DigitValue(s[|s| - 1])
  }

  function Zeros(k: nat): (z: string)
    ensures |z| == k && AllDigits(z)
  {
    seq(k, _ => '0')
  }

  /** `%0<width>d`: the numeral of `n`, left-padded with zeros to at least `width` characters. */
  function PadZero(n: nat, width: nat): (s: string)
    ensures AllDigits(s)
  {
    var digits := Format(n);
    if |digits| < width then Zeros(width - |digits|) + digits else digits
  }

  lemma {:induction false} ParseFormat(n: nat)
    ensures Parse(Format(n)) == n
    decreases n
  {
    if n >= 10 {
      var s := Format(n);
      assert s[..|s| - 1] == Format(n / 10);
      ParseFormat(n / 10);
    }
  }

  lemma {:induction false} ParseLeadingZeros(k: nat, s: string)
    requires AllDigits(s)
    ensures Parse(Zeros(k) + s) == Parse(s)
    decreases |s|
  {
    var t := Zeros(k) + s;
    if s == [] {
      assert t == Zeros(k);
      ZerosParse(k);
    } else {
      assert t[..|t| - 1] == Zeros(k) + s[..|s| - 1];
      ParseLeadingZeros(k, s[..|s| - 1]);
    }
  }

  lemma {:induction false} ZerosParse(k: nat)
    ensures Parse(Zeros(k)) == 0
  {
    if k > 0 {
      assert Zeros(k)[..k - 1] == Zeros(k - 1);
      ZerosParse(k - 1);
    }
  }

  /** The padded numeral has at least `width` digits and reads back as `n`. */
  lemma PadZeroRoundTrip(n: nat, width: nat)
    ensures |PadZero(n, width)| >= width
    ensures |PadZero(n, width)| == if |Format(n)| < width then width else |Format(n)|
    ensures Parse(PadZero(n, width)) == n
  {
    var digits := Format(n);
    ParseFormat(n);
    if |digits| < width {
      ParseLeadingZeros(width - |digits|, digits);
    }
  }

  /** Distinct numbers never print to the same padded numeral. */
  lemma PadZeroInjective(a: nat, b: nat, width: nat)
    requires PadZero(a, width) == PadZero(b, width)
    ensures a == b
  {
    PadZeroRoundTrip(a, width);
    PadZeroRoundTrip(b, width);
  }

  function Pow10(k: nat): (p: nat)
    ensures p >= 1
  {
    if k == 0 then 1 else 10 * Pow10(k - 1)
  }

  /** A number below 10^k prints with at most k digits (k >= 1). */
  lemma {:induction false} FormatLength(n: nat, k: nat)
    requires 1 <= k && n < Pow10(k)
    ensures |Format(n)| <= k
    decreases k
  {
    if n >= 10 {
      assert k >= 2;
      assert n / 10 < Pow10(k - 1);
      FormatLength(n / 10, k - 1);
    }
  }
}
