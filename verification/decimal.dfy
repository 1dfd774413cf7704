/** Decimal numerals: the value of an ASCII digit string (Python's `int()` on
    such a string) and the canonical rendering of a natural number. */
module Decimal {
  import opened Wrappers
  import opened Strings

  function Pow10(k: nat): (r: nat)
    ensures r >= 1
  {
    if k == 0 then 1 else 10 * Pow10(k - 1)
  }

  function DigitValue(c: char): (r: nat)
    requires IsDigit(c)
    ensures r < 10
  {
    c as int - '0' as int
  }

  function DigitChar(d: nat): (r: char)
    requires d < 10
    ensures IsDigit(r) && DigitValue(r) == d
  {
    ('0' as int + d) as char
  }

  /** The number a digit string denotes, most significant digit first. */
  function Value(s: string): (r: nat)
    requires AllDigits(s)
    ensures r < Pow10(|s|)
  {
    if |s| == 0 then 0
    else Value(s[..|s| - 1]) * 10 + DigitValue(s[|s| - 1])
  }

  /** The shortest digit string denoting `n`: never empty, no leading zero. */
  function ToDecimal(n: nat): (r: string)
    ensures AllDigits(r)
    ensures |r| > 0
    ensures r[0] != '0' || n == 0
  {
    if n < 10 then [DigitChar(n)]
    else ToDecimal(n / 10) + [DigitChar(n % 10)]
  }

  /** `int(s)` for strings that only Python's digit grammar could accept here:
      a non-empty run of ASCII digits parses, anything else fails. */
  function Parse(s: string): (r: Option<nat>)
    ensures r.Some? <==> |s| > 0 && AllDigits(s)
    ensures r.Some? ==> r.value < Pow10(|s|)
  {
    if |s| > 0 && AllDigits(s) then Some(Value(s)) else None
  }

  /** Parsing is total on non-empty digit strings: the ValueError handler after
      `int()` on such a string can never run. */
  lemma ParseDigitsSucceeds(s: string)
    requires |s| > 0 && AllDigits(s)
    ensures Parse(s) == Some(Value(s))
  {
  }

  /** Parsing undoes rendering. */
  lemma {:induction false} ValueOfToDecimal(n: nat)
    ensures Value(ToDecimal(n)) == n
  {
    if n >= 10 {
      var r := ToDecimal(n);
      var p := ToDecimal(n / 10);
      assert r[..|r| - 1] == p;
      ValueOfToDecimal(n / 10);
    }
  }

  lemma ParseToDecimal(n: nat)
    ensures Parse(ToDecimal(n)) == Some(n)
  {
    ValueOfToDecimal(n);
  }

  /** A leading zero does not change the value. */
  lemma {:induction false} LeadingZero(s: string)
    requires AllDigits(s)
    ensures Value(['0'] + s) == Value(s)
  {
    if |s| > 0 {
      var t := ['0'] + s;
      assert t[..|t| - 1] == ['0'] + s[..|s| - 1];
      LeadingZero(s[..|s| - 1]);
    }
  }
}
