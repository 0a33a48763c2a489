/** The string hop between the reverse lookup and the handlers: the lookup
    returns `id.toString()` and each handler queries with `Number(userId)`. */
module JsNumber {
  import opened Optional

  predicate IsDigit(c: char) {
    '0' <= c <= '9'
  }

  predicate AllDigits(s: string) {
    forall i :: 0 <= i < |s| ==> IsDigit(s[i])
  }

  function DigitValue(c: char): (d: nat)
    requires IsDigit(c)
    ensures d < 10
  {
    (c as int) - ('0' as int)
  }

  function DigitChar(d: nat): (c: char)
    requires d < 10
    ensures IsDigit(c) && DigitValue(c) == d
  {
    (('0' as int) + d) as char
  }

  /** Decimal digits of a natural number, most significant first, no
      leading zero. */
  function NatToDigits(n: nat): (s: string)
    ensures |s| > 0 && AllDigits(s)
    decreases n
  {
    if n < 10 then [DigitChar(n)] else NatToDigits(n / 10) + [DigitChar(n % 10)]
  }

  /** The value of a string of decimal digits (leading zeros allowed). */
  function DigitsValue(s: string): nat
    requires AllDigits(s)
    decreases |s|
  {
    if |s| == 0 then 0 else DigitsValue(s[..|s| - 1]) * 10 + DigitValue(s[|s| - 1])
  }

  /** `Number.prototype.toString()` on an integer. */
  function IntToString(n: int): (s: string)
    ensures |s| > 0
  {
    if n < 0 then "-" + NatToDigits(-n) else NatToDigits(n)
  }

  /** A nonempty run of decimal digits, read as a number. */
  function ParseUnsigned(s: string): (r: Option<int>)
    ensures r.Some? ==> r.value >= 0
  {
    if |s| > 0 && AllDigits(s) then Some(DigitsValue(s)) else None
  }

  /** `Number(s)` on the strings it maps to an integer in decimal notation:
      an optional sign followed by digits; the empty string is 0. Every other
      string is NaN here (None). */
  function ParseId(s: string): (r: Option<int>)
    ensures r.Some? && |s| > 0 && s[0] != '-' ==> r.value >= 0
  {
    if |s| == 0 then Some(0)
    else if s[0] == '-' then
      match ParseUnsigned(s[1..])
      case None => None
      case Some(magnitude) => Some(-magnitude)
    else if s[0] == '+' then ParseUnsigned(s[1..])
    else ParseUnsigned(s)
  }

  lemma {:induction false} DigitsValueOfNatToDigits(n: nat)
    ensures DigitsValue(NatToDigits(n)) == n
    decreases n
  {
    if n >= 10 {
      var prefix := NatToDigits(n / 10);
      var s := prefix + [DigitChar(n % 10)];
      assert s[..|s| - 1] == prefix;
      DigitsValueOfNatToDigits(n / 10);
    }
  }

  lemma ParseUnsignedOfNatToDigits(n: nat)
    ensures ParseUnsigned(NatToDigits(n)) == Some(n)
  {
    DigitsValueOfNatToDigits(n);
  }

  /** `Number(String(n)) === n` for every integer id. */
  lemma ParseIdOfIntToString(n: int)
    ensures ParseId(IntToString(n)) == Some(n)
  {
    if n < 0 {
      var digits := NatToDigits(-n);
      var s := "-" + digits;
      assert s[0] == '-' && s[1..] == digits;
      ParseUnsignedOfNatToDigits(-n);
    } else {
      var digits := NatToDigits(n);
      assert IsDigit(digits[0]);
      ParseUnsignedOfNatToDigits(n);
    }
  }
}
