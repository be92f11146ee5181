/**
 * Decimal rendering of unsigned integers (Rust's `Display` for `u32`, used by
 * `to_string` and by `format!`) and the matching parser, which is the inverse
 * the round-trip properties are stated against.
 */
module Decimal {
  import opened Primitives

  predicate IsDigit(c: char) { '0' <= c <= '9' }

  predicate AllDigits(s: string) { forall i :: 0 <= i < |s| ==> IsDigit(s[i]) }

  function DigitChar(d: nat): (c: char)
    requires d < 10
    ensures IsDigit(c) && DigitValue(c) == d
  {
    ('0' as int + d) as char
  }

  function DigitValue(c: char): nat
    requires IsDigit(c)
  {
    c as int - '0' as int
  }

  function Pow10(k: nat): (p: nat)
    ensures p >= 1
  {
    if k == 0 then 1 else 10 * Pow10(k - 1)
  }

  /** The number a string of decimal digits denotes, most significant digit first. */
  function Value(s: string): nat
    requires AllDigits(s)
  {
    if s == [] then 0 else Value(s[..|s| - 1]) * 10 + DigitValue(s[|s| - 1])
  }

  /** Parses a non-empty string of decimal digits; anything else is rejected. */
  function Parse(s: string): (r: Option<nat>)
    ensures r.Some? <==> s != [] && AllDigits(s)
  {
    if s != [] && AllDigits(s) then Some(Value(s)) else None
  }

  lemma ValueSnoc(s: string, c: char)
    requires AllDigits(s) && IsDigit(c)
    ensures AllDigits(s + [c]) && Value(s + [c]) == Value(s) * 10 + DigitValue(c)
  {
  }

  /**
   * The shortest decimal rendering of `n`: the digits of `n` with no leading
   * zero, "0" for zero. Its length is the number of decimal digits of `n`.
   */
  function Digits(n: nat): (s: string)
    ensures s != [] && AllDigits(s) && Value(s) == n
    ensures n == 0 ==> s == "0"
    ensures |s| > 1 ==> s[0] != '0'
    ensures n < Pow10(|s|)
    ensures n == 0 || Pow10(|s| - 1) <= n
    decreases n
  {
    if n < 10 then
      [DigitChar(n)]
    else
      var prefix := Digits(n / 10);
      ValueSnoc(prefix, DigitChar(n % 10));
      assert n < 10 * Pow10(|prefix|);
      prefix + [DigitChar(n % 10)]
  }

  /** A leading zero does not change the value of a digit string. */
  lemma {:induction false} ValueLeadingZero(s: string)
    requires AllDigits(s)
    ensures AllDigits("0" + s) && Value("0" + s) == Value(s)
  {
    if s != [] {
      var init := s[..|s| - 1];
      ValueLeadingZero(init);
      assert ("0" + s)[..|s|] == "0" + init;
    }
  }

  /**
   * Rust's `{:02}`: at least two characters, a leading zero added below ten.
   * It is a minimum width, never a truncation.
   */
  function Pad2(n: nat): (s: string)
    ensures |s| >= 2 && AllDigits(s) && Value(s) == n
    ensures n >= 10 ==> s == Digits(n)
    ensures n >= 100 ==> |s| >= 3
    ensures n < 100 ==> s == [DigitChar(n / 10), DigitChar(n % 10)]
  {
    var d := Digits(n);
    if n < 10 then
      ValueLeadingZero(d);
      "0" + d
    else
      assert n < 100 ==> Digits(n / 10) == [DigitChar(n / 10)];
      d
  }
}
