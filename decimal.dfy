/**
 * The text Go's `%d` verb produces for an integer: an optional minus sign
 * followed by the decimal digits of the magnitude, without leading zeros.
 * `ParseInt` reads that text back; the round trip shows the text determines
 * the integer.
 */
module Decimal {
  import opened Wrappers

  predicate IsDigit(c: char) {
    '0' <= c <= '9'
  }

  predicate AllDigits(s: string) {
    forall i :: 0 <= i < |s| ==> IsDigit(s[i])
  }

  function DigitChar(d: nat): (c: char)
    requires d < 10
    ensures IsDigit(c) && c as int - '0' as int == d
  {
    ('0' as int + d) as char
  }

  /** Digits of `n`, most significant first. */
  function NatDigits(n: nat): (s: string)
    ensures 1 <= |s| && AllDigits(s)
    ensures s[0] == '0' ==> n == 0
    decreases n
  {
    if n < 10 then [DigitChar(n)] else NatDigits(n / 10) + [DigitChar(n % 10)]
  }

  /** The number a string of decimal digits denotes. */
  function NatValue(s: string): nat
    requires AllDigits(s)
  {
    if s == [] then 0 else NatValue(s[..|s| - 1]) * 10 + (s[|s| - 1] as int - '0' as int)
  }

  /** `fmt.Sprintf("%d", i)`. */
  function FormatInt(i: int): string {
    if i < 0 then "-" + NatDigits(-i) else NatDigits(i)
  }

  function ParseInt(s: string): Option<int> {
    if 2 <= |s| && s[0] == '-' && AllDigits(s[1..]) then Some(0 - NatValue(s[1..]) as int)
    else if 1 <= |s| && AllDigits(s) then Some(NatValue(s))
    else None
  }

  lemma {:induction false} NatDigitsRoundTrip(n: nat)
    ensures NatValue(NatDigits(n)) == n
  {
    if n >= 10 {
      var s := NatDigits(n);
      assert s[..|s| - 1] == NatDigits(n / 10);
      NatDigitsRoundTrip(n / 10);
    }
  }

  /** The `%d` text of every integer reads back as that integer. */
  lemma FormatIntRoundTrip(i: int)
    ensures ParseInt(FormatInt(i)) == Some(i)
  {
    var s := FormatInt(i);
    if i < 0 {
      var digits := NatDigits(-i);
      assert s[0] == '-' && s[1..] == digits;
      NatDigitsRoundTrip(-i);
      assert ParseInt(s) == Some(0 - NatValue(digits) as int);
    } else {
      assert IsDigit(s[0]);
      NatDigitsRoundTrip(i);
      assert ParseInt(s) == Some(NatValue(s) as int);
    }
  }
}
