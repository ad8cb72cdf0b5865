/**
 * Decimal text of natural numbers, as JavaScript's `Number.prototype.toString()`
 * writes a non-negative integer, and `String.prototype.padStart` with a single
 * fill character. The HUD of the interface shows durations and latencies with them.
 */
module Decimal {

  predicate IsDigit(c: char) {
    '0' <= c <= '9'
  }

  predicate AllDigits(s: string) {
    forall i :: 0 <= i < |s| ==> IsDigit(s[i])
  }

  function DigitChar(d: nat): (c: char)
    requires d < 10
    ensures IsDigit(c) && DigitValue(c) == d
  {
    (('0' as int) + d) as char
  }

  function DigitValue(c: char): (d: nat)
    requires IsDigit(c)
    ensures d < 10
  {
    (c as int) - ('0' as int)
  }

  /** The shortest decimal text of `n`: at least one digit, no leading zero. */
  function NatToString(n: nat): (s: string)
    ensures |s| >= 1 && AllDigits(s)
    ensures |s| > 1 ==> s[0] != '0'
    ensures n < 10 <==> |s| == 1
    decreases n
  {
    if n < 10 then [DigitChar(n)] else NatToString(n / 10) + [DigitChar(n % 10)]
  }

  /** The value of a string of decimal digits (the empty string reads as 0). */
  function ParseNat(s: string): nat
    requires AllDigits(s)
    decreases |s|
  {
    if s == [] then 0 else ParseNat(s[..|s| - 1]) * 10 + DigitValue(s[|s| - 1])
  }

  /** Reading back the text of `n` gives `n`. */
  lemma {:induction false} ParseNatToString(n: nat)
    ensures ParseNat(NatToString(n)) == n
    decreases n
  {
    var s := NatToString(n);
    if n >= 10 {
      ParseNatToString(n / 10);
      assert s[..|s| - 1] == NatToString(n / 10);
    }
  }

  /** A leading zero does not change the value read. */
  lemma {:induction false} ParseNatLeadingZero(s: string)
    requires AllDigits(s)
    ensures AllDigits("0" + s) && ParseNat("0" + s) == ParseNat(s)
    decreases |s|
  {
    var z := "0" + s;
    if s != [] {
      ParseNatLeadingZero(s[..|s| - 1]);
      assert z[..|z| - 1] == "0" + s[..|s| - 1];
    }
  }

  /** `s.padStart(width, fill)` for a one-character fill string. */
  function PadStart(s: string, width: nat, fill: char): (r: string)
    ensures |r| == if |s| < width then width else |s|
    ensures r[|r| - |s|..] == s
    ensures forall i :: 0 <= i < |r| - |s| ==> r[i] == fill
  {
    if |s| < width then seq(width - |s|, _ => fill) + s else s
  }

  /** Two decimal digits, zero-padded, read back to the number they show. */
  lemma TwoDigitsRoundTrip(n: nat)
    requires n < 100
    ensures |PadStart(NatToString(n), 2, '0')| == 2
    ensures AllDigits(PadStart(NatToString(n), 2, '0'))
    ensures ParseNat(PadStart(NatToString(n), 2, '0')) == n
  {
    var s := NatToString(n);
    ParseNatToString(n);
    if n < 10 {
      assert PadStart(s, 2, '0') == "0" + s;
      ParseNatLeadingZero(s);
    } else {
      assert |NatToString(n / 10)| == 1;
    }
  }
}
