/**
 * JavaScript strings as sequences of UTF-16 code units.
 *
 * `String.prototype.replace` without the `u` flag, `substring` and `length`
 * all work per code unit, and a JavaScript string may hold lone surrogate
 * halves, which a Dafny `char` cannot. Texts of the application are therefore
 * sequences of 16-bit code units.
 */
module Utf16Text {

  newtype CodeUnit = u: int | 0 <= u < 0x1_0000

  type Text = seq<CodeUnit>

  /** Every character of `s` lies in the Basic Multilingual Plane (one code unit each). */
  predicate InBmp(s: string) {
    forall i :: 0 <= i < |s| ==> s[i] as int < 0x1_0000
  }

  /** The UTF-16 form of a literal made of Basic Multilingual Plane characters. */
  function Bmp(s: string): (r: Text)
    requires InBmp(s)
    ensures |r| == |s|
    ensures forall i :: 0 <= i < |s| ==> r[i] as int == s[i] as int
  {
    seq(|s|, i requires 0 <= i < |s| => s[i] as int as CodeUnit)
  }

  const Hyphen: CodeUnit := 0x2D
  const DigitZero: CodeUnit := 0x30

  predicate IsDigit(c: CodeUnit) {
    DigitZero <= c <= DigitZero + 9
  }

  predicate AllDigits(t: Text) {
    forall i :: 0 <= i < |t| ==> IsDigit(t[i])
  }

  /**
   * The decimal rendering of a non-negative integer, as a template literal
   * `${n}` produces it: digits only, no sign, no leading zero.
   */
  function Decimal(n: nat): (r: Text)
    ensures r != [] && AllDigits(r)
    ensures r[0] == DigitZero ==> n == 0
  {
    if n < 10 then [DigitZero + n as CodeUnit]
    else Decimal(n / 10) + [DigitZero + (n % 10) as CodeUnit]
  }

  /** The number a sequence of decimal digits denotes (the reading direction of Decimal). */
  function DecimalValue(t: Text): nat
    requires AllDigits(t)
  {
    if t == [] then 0
    else DecimalValue(t[..|t| - 1]) * 10 + (t[|t| - 1] - DigitZero) as nat
  }

  lemma {:induction false} DecimalRoundTrip(n: nat)
    ensures DecimalValue(Decimal(n)) == n
  {
    if n >= 10 {
      var t := Decimal(n);
      assert t[..|t| - 1] == Decimal(n / 10);
      DecimalRoundTrip(n / 10);
    }
  }

  /** Two numbers render the same exactly when they are equal. */
  lemma DecimalInjective(m: nat, n: nat)
    ensures Decimal(m) == Decimal(n) <==> m == n
  {
    if Decimal(m) == Decimal(n) {
      DecimalRoundTrip(m);
      DecimalRoundTrip(n);
    }
  }
}
