/** Decimal digit strings: what `string.digits`, `str(int)` and the
    zero-padded `strftime` fields produce, and their numeric value. */
module Decimal {

  predicate IsDigit(c: char) {
    '0' <= c <= '9'
  }

  predicate AllDigits(s: string) {
    forall i :: 0 <= i < |s| ==> IsDigit(s[i])
  }

  /** The character for a single decimal digit. */
  function DigitChar(d: nat): (c: char)
    requires d < 10
    ensures IsDigit(c)
    ensures c as int - '0' as int == d
  {
    ('0' as int + d) as char
  }

  /** The numeric value of a digit string read most significant digit first;
      the empty string reads as zero. */
  function Value(s: string): nat
    requires AllDigits(s)
  {
    if |s| == 0 then 0
    else Value(s[..|s| - 1]) * 10 + (s[|s| - 1] as int - '0' as int)
  }

  function Pow10(w: nat): (p: nat)
    ensures p > 0
  {
    if w == 0 then 1 else 10 * Pow10(w - 1)
  }

  /** The digits of `n`, left-padded with zeros to at least `width`
      characters. With width 0 the number zero renders as the empty string. */
  function Pad(n: nat, width: nat): (r: string)
    ensures AllDigits(r)
    ensures Value(r) == n
    ensures |r| >= width
    ensures n < Pow10(width) ==> |r| == width
    decreases n + width
  {
    if n == 0 && width == 0 then ""
    else
      var prefix := Pad(n / 10, if width == 0 then 0 else width - 1);
      var r := prefix + [DigitChar(n % 10)];
      assert r[..|r| - 1] == prefix;
      r
  }

  /** `str(n)` for a Python int: minimal digits, a leading '-' when negative. */
  function Show(n: int): (r: string)
    ensures |r| > 0
    ensures n >= 0 ==> AllDigits(r) && Value(r) == n
    ensures n < 0 ==> r[0] == '-' && AllDigits(r[1..]) && Value(r[1..]) == -n
    ensures n >= 0 && |r| > 1 ==> r[0] != '0'
    ensures n < 0 ==> |r| > 1 && r[1] != '0'
  {
    if n < 0 then
      var digits := Minimal(-n);
      assert ("-" + digits)[1..] == digits;
      "-" + digits
    else if n == 0 then "0"
    else Minimal(n)
  }

  /** Digits of a positive number without leading zeros. */
  function Minimal(n: nat): (r: string)
    requires n > 0
    ensures AllDigits(r) && Value(r) == n
    ensures |r| > 0 && r[0] != '0'
  {
    if n < 10 then [DigitChar(n)]
    else
      var prefix := Minimal(n / 10);
      var r := prefix + [DigitChar(n % 10)];
      assert r[..|r| - 1] == prefix;
      r
  }
}
