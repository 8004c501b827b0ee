/**
 * The part of Go's strconv package the client uses: FormatInt(n, 10), which
 * renders the Unix timestamp stamped onto every request.
 */
module Strconv {

  /** Go's int64, the type of time.Now().Unix(). */
  newtype Int64 = x: int | -0x8000_0000_0000_0000 <= x < 0x8000_0000_0000_0000

  predicate IsDigit(c: char) {
    '0' <= c <= '9'
  }

  predicate IsDigits(s: string) {
    forall i :: 0 <= i < |s| ==> IsDigit(s[i])
  }

  function DigitChar(d: int): (c: char)
    requires 0 <= d < 10
    ensures IsDigit(c) && c as int - '0' as int == d
  {
    ('0' as int + d) as char
  }

  /** The decimal digits of n, most significant first, with no leading zero. */
  function FormatNat(n: nat): (s: string)
    ensures |s| >= 1 && IsDigits(s)
    ensures s[0] == '0' ==> n == 0 && |s| == 1
    decreases n
  {
    if n < 10 then [DigitChar(n)] else FormatNat(n / 10) + [DigitChar(n % 10)]
  }

  /** The canonical base-10 numerals: an optional '-', then digits without a leading zero; no "-0". */
  predicate IsDecimalNumeral(s: string) {
    if |s| > 0 && s[0] == '-' then
      |s| >= 2 && IsDigits(s[1..]) && s[1] != '0'
    else
      |s| >= 1 && IsDigits(s) && (s[0] == '0' ==> |s| == 1)
  }

  /** The number a string of decimal digits denotes. */
  function DigitsValue(s: string): (v: nat)
    requires IsDigits(s)
    ensures |s| > 0 && s[0] != '0' ==> v > 0
    decreases |s|
  {
    if |s| == 0 then 0 else 10 * DigitsValue(s[..|s| - 1]) + (s[|s| - 1] as int - '0' as int)
  }

  /** The number a canonical numeral denotes: the reading a server applies to the timestamp field. */
  function DecimalValue(s: string): (v: int)
    requires IsDecimalNumeral(s)
    ensures v < 0 <==> s[0] == '-'
  {
    if s[0] == '-' then 0 - DigitsValue(s[1..]) as int else DigitsValue(s)
  }

  lemma {:induction false} FormatNatValue(n: nat)
    ensures DigitsValue(FormatNat(n)) == n
    decreases n
  {
    if n >= 10 {
      var s := FormatNat(n);
      FormatNatValue(n / 10);
      assert s[..|s| - 1] == FormatNat(n / 10);
    }
  }

  /**
   * strconv.FormatInt(n, 10): a leading '-' for negative numbers, then the
   * digits of |n|. The text is a canonical numeral that reads back as n.
   */
  function FormatInt(n: int): (s: string)
    ensures IsDecimalNumeral(s) && DecimalValue(s) == n
  {
    var s := if n < 0 then "-" + FormatNat(-n) else FormatNat(n);
    FormatNatValue(if n < 0 then -n else n);
    assert n < 0 ==> s[1..] == FormatNat(-n);
    s
  }

  /** Different clock values are rendered as different timestamps. */
  lemma FormatIntInjective(a: int, b: int)
    requires FormatInt(a) == FormatInt(b)
    ensures a == b
  {
  }
}
