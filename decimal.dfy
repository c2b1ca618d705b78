/**
  Decimal rendering of the date components, as JavaScript does it:
  `String(n)` for an integer and `padStart(2, '0')` for month and day.
  A parser for the rendered text is the inverse used to prove that
  nothing is lost in rendering.
*/
module Decimal {

  predicate IsDigit(c: char) {
    '0' <= c <= '9'
  }

  predicate AllDigits(s: string) {
    forall i :: 0 <= i < |s| ==> IsDigit(s[i])
  }

  function DigitChar(d: nat): (c: char)
    requires d < 10
    ensures IsDigit(c) && c as int - '0' as int == d
  {
    ('0' as int + d) as char
  }

  function DigitValue(c: char): (d: nat)
    requires IsDigit(c)
    ensures d < 10 && DigitChar(d) == c
  {
    c as int - '0' as int
  }

  /** `String(n)` for a non-negative integer: shortest decimal, no sign. */
  function NatToString(n: nat): string
    decreases n
  {
    if n < 10 then [DigitChar(n)] else NatToString(n / 10) + [DigitChar(n % 10)]
  }

  /** `String(i)` for any integer: a minus sign in front of negative values. */
  function IntToString(i: int): string {
    if i < 0 then "-" + NatToString(-i) else NatToString(i)
  }

  /** `s.padStart(width, fill)`: left-pads with `fill` up to `width`; longer strings are unchanged. */
  function PadStart(s: string, width: nat, fill: char): (r: string)
    ensures |s| >= width ==> r == s
    ensures |s| < width ==> |r| == width && r[width - |s|..] == s
    ensures forall i :: 0 <= i < |r| - |s| ==> r[i] == fill
  {
    if |s| >= width then s else seq(width - |s|, _ => fill) + s
  }

  /** The two-character rendering of a month or day: `String(n).padStart(2, '0')`. */
  function TwoDigits(n: nat): string {
    PadStart(NatToString(n), 2, '0')
  }

  /** Reads a run of decimal digits back into its value (leading zeros allowed). */
  function ParseNat(s: string): nat
    requires AllDigits(s)
    decreases |s|
  {
    if s == [] then 0 else ParseNat(s[..|s| - 1]) * 10 + DigitValue(s[|s| - 1])
  }

  /** Text that `String(i)` can produce for some integer, up to leading zeros. */
  predicate IsIntText(s: string) {
    (|s| > 0 && AllDigits(s)) || (|s| > 1 && s[0] == '-' && AllDigits(s[1..]))
  }

  function ParseInt(s: string): int
    requires IsIntText(s)
  {
    if s[0] == '-' then -(ParseNat(s[1..]) as int) else ParseNat(s)
  }

  /** `String(n)` is non-empty, all digits, and starts with '0' only for zero itself. */
  lemma {:induction false} NatToStringShape(n: nat)
    ensures |NatToString(n)| > 0 && AllDigits(NatToString(n))
    ensures NatToString(n)[0] == '0' <==> n == 0
    ensures |NatToString(n)| == 1 <==> n < 10
    ensures n < 100 ==> |NatToString(n)| <= 2
    decreases n
  {
    if n >= 10 {
      NatToStringShape(n / 10);
    }
  }

  /** Parsing the rendering of `n` gives `n` back. */
  lemma {:induction false} ParseNatToString(n: nat)
    ensures AllDigits(NatToString(n)) && ParseNat(NatToString(n)) == n
    decreases n
  {
    NatToStringShape(n);
    var s := NatToString(n);
    if n >= 10 {
      ParseNatToString(n / 10);
      assert s[..|s| - 1] == NatToString(n / 10);
    } else {
      assert s[..|s| - 1] == [];
    }
  }

  /** A leading '0' does not change the parsed value. */
  lemma {:induction false} ParseNatLeadingZero(s: string)
    requires AllDigits(s)
    ensures AllDigits("0" + s) && ParseNat("0" + s) == ParseNat(s)
    decreases |s|
  {
    var t := "0" + s;
    if s == [] {
      assert t[..|t| - 1] == [];
    } else {
      ParseNatLeadingZero(s[..|s| - 1]);
      assert t[..|t| - 1] == "0" + s[..|s| - 1];
    }
  }

  /**
    For a month or a day (any value below 100) the padded rendering is exactly
    two digits, starts with '0' exactly when the value has one digit, and reads
    back as the value.
  */
  lemma TwoDigitsSpec(n: nat)
    requires n < 100
    ensures |TwoDigits(n)| == 2 && AllDigits(TwoDigits(n))
    ensures ParseNat(TwoDigits(n)) == n
    ensures TwoDigits(n)[0] == '0' <==> n < 10
    ensures TwoDigits(n)[1] == DigitChar(n % 10)
  {
    NatToStringShape(n);
    ParseNatToString(n);
    var s := NatToString(n);
    if n < 10 {
      assert TwoDigits(n) == "0" + s;
      ParseNatLeadingZero(s);
    } else {
      assert TwoDigits(n) == s;
      assert s == NatToString(n / 10) + [DigitChar(n % 10)];
      NatToStringShape(n / 10);
    }
  }

  /** `String(i)` for any integer reads back as `i`. */
  lemma ParseIntToString(i: int)
    ensures IsIntText(IntToString(i)) && ParseInt(IntToString(i)) == i
    ensures forall k :: 0 <= k < |IntToString(i)| ==> IsDigit(IntToString(i)[k]) || IntToString(i)[k] == '-'
  {
    if i < 0 {
      NatToStringShape(-i);
      ParseNatToString(-i);
      assert IntToString(i)[1..] == NatToString(-i);
    } else {
      NatToStringShape(i);
      ParseNatToString(i);
    }
  }
}
