/**
 * The passcode generator of Fitflex/server.js (generateOTP): a draw from the
 * random source is shifted into [100000, 999999] and rendered in decimal.
 *
 * The draw `r` stands for floor(Math.random() * 900000), an integer in
 * [0, 900000); the generated code is the decimal rendering of 100000 + r.
 */
module OtpCode {

  /** The smallest and the largest code the generator can yield. */
  const MinCode: nat := 100000
  const MaxCode: nat := 999999

  /** The number of distinct draws: the factor applied to the random source. */
  const DrawRange: nat := 900000

  /** Every generated code has this many characters. */
  const CodeLength: nat := 6

  predicate IsDigit(c: char) {
    '0' <= c <= '9'
  }

  predicate AllDigits(s: string) {
    forall i :: 0 <= i < |s| ==> IsDigit(s[i])
  }

  /** A digit string in canonical form: non-empty and without a leading zero (except "0" itself). */
  predicate Canonical(s: string) {
    |s| >= 1 && AllDigits(s) && (|s| > 1 ==> s[0] != '0')
  }

  function DigitValue(c: char): (d: nat)
    requires IsDigit(c)
    ensures d < 10
  {
    c as int - '0' as int
  }

  function DigitChar(d: nat): (c: char)
    requires d < 10
    ensures IsDigit(c) && DigitValue(c) == d
    ensures d != 0 ==> c != '0'
  {
    ('0' as int + d) as char
  }

  lemma DigitCharOfValue(c: char)
    requires IsDigit(c)
    ensures DigitChar(DigitValue(c)) == c
  {
  }

  function Pow10(k: nat): nat {
    if k == 0 then 1 else 10 * Pow10(k - 1)
  }

  /**
   * Decimal rendering of a non-negative integer: no sign, no leading zeros,
   * "0" for zero. This is what Number.prototype.toString gives for integers
   * below 10^21 (from there on it switches to exponent form); generateOTP only
   * renders values in [MinCode, MaxCode].
   */
  function Decimal(n: nat): (s: string)
    ensures Canonical(s)
    ensures n > 0 ==> s[0] != '0'
    decreases n
  {
    if n < 10 then [DigitChar(n)] else Decimal(n / 10) + [DigitChar(n % 10)]
  }

  /** The value a string of decimal digits denotes. */
  function ValueOf(s: string): nat
    requires AllDigits(s)
    decreases |s|
  {
    if s == [] then 0 else ValueOf(s[..|s| - 1]) * 10 + DigitValue(s[|s| - 1])
  }

  /** Reading back a rendering gives the number rendered. */
  lemma {:induction false} ValueOfDecimal(n: nat)
    ensures ValueOf(Decimal(n)) == n
  {
    if n >= 10 {
      var s := Decimal(n);
      assert s[..|s| - 1] == Decimal(n / 10);
      ValueOfDecimal(n / 10);
    }
  }

  /** A canonical digit string of k characters denotes a number with k digits. */
  lemma {:induction false} ValueOfBounds(s: string)
    requires Canonical(s)
    ensures ValueOf(s) < Pow10(|s|)
    ensures |s| > 1 ==> Pow10(|s| - 1) <= ValueOf(s)
  {
    if |s| > 1 {
      var p := s[..|s| - 1];
      assert p[0] == s[0];
      ValueOfBounds(p);
    }
  }

  /** Rendering the value of a canonical digit string gives the string back. */
  lemma {:induction false} DecimalOfValue(s: string)
    requires Canonical(s)
    ensures Decimal(ValueOf(s)) == s
  {
    var d := DigitValue(s[|s| - 1]);
    DigitCharOfValue(s[|s| - 1]);
    if |s| == 1 {
      assert Decimal(ValueOf(s)) == [DigitChar(d)];
    } else {
      var p := s[..|s| - 1];
      assert p[0] == s[0];
      ValueOfBounds(p);
      DecimalOfValue(p);
      var n := ValueOf(s);
      assert n / 10 == ValueOf(p) && n % 10 == d;
      assert s == p + [s[|s| - 1]];
    }
  }

  /** A number with k decimal digits renders to exactly k characters. */
  lemma {:induction false} DecimalLength(n: nat, k: nat)
    requires 1 <= k && Pow10(k - 1) <= n < Pow10(k)
    ensures |Decimal(n)| == k
  {
    if k > 1 {
      assert Pow10(k - 1) == 10 * Pow10(k - 2);
      assert Pow10(k) == 10 * Pow10(k - 1);
      DecimalLength(n / 10, k - 1);
    }
  }

  /** The code range is exactly the range of six-digit numbers. */
  lemma CodeRangeIsSixDigits()
    ensures Pow10(CodeLength - 1) == MinCode && Pow10(CodeLength) == MaxCode + 1
  {
    assert Pow10(3) == 1000;
  }

  /**
   * generateOTP: the code for draw r is the rendering of 100000 + r, which
   * is always six digits with a non-zero first digit, and denotes a value in
   * [MinCode, MaxCode].
   */
  function GenerateOtp(r: nat): (code: string)
    requires r < DrawRange
    ensures |code| == CodeLength && Canonical(code) && code[0] != '0'
    ensures ValueOf(code) == MinCode + r
    ensures MinCode <= ValueOf(code) <= MaxCode
  {
    CodeRangeIsSixDigits();
    DecimalLength(MinCode + r, CodeLength);
    ValueOfDecimal(MinCode + r);
    Decimal(MinCode + r)
  }

  /** Distinct draws give distinct codes: no two draws collide. */
  lemma GenerateOtpInjective(r1: nat, r2: nat)
    requires r1 < DrawRange && r2 < DrawRange && r1 != r2
    ensures GenerateOtp(r1) != GenerateOtp(r2)
  {
  }

  /**
   * Every six-digit code without a leading zero is the code of exactly one
   * draw: the generator's image is the whole code space, one draw per code.
   */
  lemma GenerateOtpOnto(code: string)
    requires |code| == CodeLength && AllDigits(code) && code[0] != '0'
    ensures ValueOf(code) - MinCode < DrawRange
    ensures MinCode <= ValueOf(code) && GenerateOtp(ValueOf(code) - MinCode) == code
  {
    ValueOfBounds(code);
    CodeRangeIsSixDigits();
    DecimalOfValue(code);
  }
}
