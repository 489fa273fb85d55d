/**
 * Decimal text of numbers, as `String(n)` and template interpolation render a
 * non-negative integer, the two-digit padding `String(n).padStart(2, '0')`, and
 * the parser that reads such text back.
 */
module Numerals {
  import opened Wrappers

  predicate IsDigit(c: char) {
    '0' <= c <= '9'
  }

  /** A non-empty run of decimal digits. */
  predicate IsDigits(s: string) {
    |s| > 0 && forall i :: 0 <= i < |s| ==> IsDigit(s[i])
  }

  function DigitChar(d: nat): (c: char)
    requires d < 10
    ensures IsDigit(c)
  {
    "0123456789"[d]
  }

  function DigitValue(c: char): (d: nat)
    requires IsDigit(c)
    ensures d < 10
  {
    (c as int - '0' as int) as nat
  }

  /** The decimal text of `n`, most significant digit first, without leading zeros. */
  function NatToString(n: nat): (s: string)
    ensures IsDigits(s)
    ensures |s| == 1 <==> n < 10
    ensures s[0] == '0' ==> n == 0
  {
    if n < 10 then [DigitChar(n)] else NatToString(n / 10) + [DigitChar(n % 10)]
  }

  /** The number a run of digits denotes (the empty run denotes 0). */
  function DigitsValue(s: string): nat
    requires forall i :: 0 <= i < |s| ==> IsDigit(s[i])
  {
    if s == [] then 0 else DigitsValue(s[..|s| - 1]) * 10 + DigitValue(s[|s| - 1])
  }

  /** Reads decimal text back; anything but a non-empty run of digits is rejected. */
  function ParseNat(s: string): (r: Option<nat>)
    ensures r.Some? <==> IsDigits(s)
  {
    if IsDigits(s) then Some(DigitsValue(s)) else None
  }

  /** `padStart(2, '0')`: left-pads with '0' up to two characters, leaves longer text alone. */
  function PadStart2(s: string): (r: string)
    ensures |s| >= 2 ==> r == s
    ensures |s| < 2 ==> |r| == 2 && r[2 - |s|..] == s && forall i :: 0 <= i < 2 - |s| ==> r[i] == '0'
  {
    if |s| >= 2 then s else if |s| == 1 then ['0'] + s else "00"
  }

  /** The two-digit text of a month, day or minute. */
  function TwoDigits(n: nat): string {
    PadStart2(NatToString(n))
  }

  lemma DigitRoundTrip(d: nat)
    requires d < 10
    ensures DigitValue(DigitChar(d)) == d
  {
  }

  /** Decimal text is read back as the number it was made from. */
  lemma {:induction false} NatToStringRoundTrip(n: nat)
    ensures DigitsValue(NatToString(n)) == n
    ensures ParseNat(NatToString(n)) == Some(n)
  {
    var s := NatToString(n);
    if n < 10 {
      DigitRoundTrip(n);
      assert s[..|s| - 1] == [];
    } else {
      NatToStringRoundTrip(n / 10);
      DigitRoundTrip(n % 10);
      assert s[..|s| - 1] == NatToString(n / 10);
    }
  }

  /** Different numbers have different decimal text. */
  lemma NatToStringInjective(a: nat, b: nat)
    requires NatToString(a) == NatToString(b)
    ensures a == b
  {
    NatToStringRoundTrip(a);
    NatToStringRoundTrip(b);
  }

  /** A number below 100 gets exactly two digits, with a leading '0' exactly when it is below 10, and reads back. */
  lemma {:induction false} TwoDigitsSpec(n: nat)
    requires n < 100
    ensures |TwoDigits(n)| == 2 && IsDigits(TwoDigits(n))
    ensures TwoDigits(n)[0] == '0' <==> n < 10
    ensures TwoDigits(n)[1] == DigitChar(n % 10)
    ensures ParseNat(TwoDigits(n)) == Some(n)
  {
    var s := NatToString(n);
    NatToStringRoundTrip(n);
    if n < 10 {
      assert TwoDigits(n) == ['0', DigitChar(n)];
      DigitRoundTrip(n);
      assert TwoDigits(n)[..1] == "0";
    } else {
      assert NatToString(n / 10) == [DigitChar(n / 10)];
      assert s == [DigitChar(n / 10), DigitChar(n % 10)];
      assert DigitChar(n / 10) != '0' by { DigitRoundTrip(n / 10); }
    }
  }

  /** The pieces of `a + [s1] + b + [s2] + c`, with `b` and `c` two characters long, sit at fixed offsets from the end. */
  lemma SplitLayout(a: string, s1: char, b: string, s2: char, c: string)
    requires |b| == 2 && |c| == 2
    ensures var t := a + [s1] + b + [s2] + c;
      |t| == |a| + 6 && t[..|t| - 6] == a && t[|t| - 6] == s1
      && t[|t| - 5..|t| - 3] == b && t[|t| - 3] == s2 && t[|t| - 2..] == c
  {
    var t := a + [s1] + b + [s2] + c;
    assert t[..|t| - 6] == a;
    assert t[|t| - 5..|t| - 3] == b;
    assert t[|t| - 2..] == c;
  }
}
