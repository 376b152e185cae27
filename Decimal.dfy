/** Decimal rendering of unsigned integers, as Rust's `{}` formats them. */
module Decimal {

  predicate IsDigit(c: char) {
    '0' <= c <= '9'
  }

  predicate AllDigits(s: string) {
    forall i :: 0 <= i < |s| ==> IsDigit(s[i])
  }

  function DigitChar(d: nat): (c: char)
    requires d < 10
    ensures IsDigit(c)
  {
    ('0' as int + d) as char
  }

  function DigitValue(c: char): (d: nat)
    requires IsDigit(c)
    ensures d < 10
  {
    c as int - '0' as int
  }

  /** The shortest decimal numeral of n: "0" for zero, otherwise no leading zero. */
  function DecimalString(n: nat): (s: string)
    ensures |s| > 0 && AllDigits(s)
    ensures |s| > 1 ==> s[0] != '0'
    ensures '\n' !in s
    decreases n
  {
    if n < 10 then [DigitChar(n)] else DecimalString(n / 10) + [DigitChar(n % 10)]
  }

  /** The value a numeral denotes: the partner of DecimalString. */
  function DecimalValue(s: string): nat
    requires AllDigits(s)
  {
    if s == [] then 0 else DecimalValue(s[..|s| - 1]) * 10 + DigitValue(s[|s| - 1])
  }

  /** Reading back a rendered number gives the number. */
  lemma {:induction false} DecimalRoundTrip(n: nat)
    ensures DecimalValue(DecimalString(n)) == n
    decreases n
  {
    var s := DecimalString(n);
    if n >= 10 {
      DecimalRoundTrip(n / 10);
      assert s[..|s| - 1] == DecimalString(n / 10);
    }
  }

  /** Distinct numbers are rendered differently. */
  lemma DecimalStringInjective(m: nat, n: nat)
    ensures DecimalString(m) == DecimalString(n) ==> m == n
  {
    DecimalRoundTrip(m);
    DecimalRoundTrip(n);
  }


  /** A digit run at the start of a text, followed by a non-digit, spans the text's leading digits. */
  lemma DigitRunEnds(a: string, stop: char, text: string)
    requires AllDigits(a) && !IsDigit(stop) && a + [stop] <= text
    ensures forall i :: 0 <= i < |a| ==> IsDigit(text[i])
    ensures !IsDigit(text[|a|])
  {
    assert forall i :: 0 <= i < |a| ==> text[i] == a[i];
    assert text[|a|] == stop;
  }

  /**
   * A run of digits ended by a non-digit is fixed by the text it starts: two digit runs that
   * both start a text and are both followed there by the same non-digit are the same run.
   */
  lemma DigitRunUnique(a: string, b: string, stop: char, text: string)
    requires AllDigits(a) && AllDigits(b) && !IsDigit(stop)
    requires a + [stop] <= text && b + [stop] <= text
    ensures a == b
  {
    DigitRunEnds(a, stop, text);
    DigitRunEnds(b, stop, text);
    assert |a| == |b|;
    assert a == text[..|a|] == b;
  }
}
