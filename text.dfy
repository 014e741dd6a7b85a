/**
  Text helpers for the messages of the error layer: the decimal rendering that
  Rust's `{}` gives an unsigned integer, reading such a rendering back, and
  "occurs inside" for strings.
 */
module Text {

  predicate IsDigit(c: char) {
    '0' <= c <= '9'
  }

  predicate AllDigits(s: string) {
    forall i :: 0 <= i < |s| ==> IsDigit(s[i])
  }

  function DigitValue(c: char): (d: nat)
    requires IsDigit(c)
    ensures d < 10
  {
    c as int - '0' as int
  }

  function DigitChar(d: nat): (c: char)
    requires d < 10
    ensures IsDigit(c) && DigitValue(c) == d
  {
    ('0' as int + d) as char
  }

  /** The number a string of decimal digits denotes, most significant digit first. */
  function DecimalValue(s: string): nat
    requires AllDigits(s)
  {
    if s == [] then 0 else DecimalValue(s[..|s| - 1]) * 10 + DigitValue(s[|s| - 1])
  }

  /** A decimal numeral as Rust prints one: at least one digit, no leading zero. */
  predicate IsCanonical(s: string) {
    |s| >= 1 && AllDigits(s) && (s[0] == '0' ==> s == "0")
  }

  /**
    What `write!(f, "{}", n)` produces for an unsigned integer `n`: a canonical
    numeral whose value is `n`.
   */
  function NatToDecimal(n: nat): (r: string)
    ensures IsCanonical(r)
    ensures DecimalValue(r) == n
  {
    if n < 10 then
      [DigitChar(n)]
    else
      var high := NatToDecimal(n / 10);
      var r := high + [DigitChar(n % 10)];
      assert r[..|r| - 1] == high;
      r
  }

  /** Every canonical numeral is the rendering of its value, so NatToDecimal is a bijection onto them. */
  lemma {:induction false} CanonicalIsRendering(s: string)
    requires IsCanonical(s)
    ensures NatToDecimal(DecimalValue(s)) == s
  {
    var last := s[|s| - 1];
    assert DigitChar(DigitValue(last)) == last;
    if |s| > 1 {
      var high := s[..|s| - 1];
      assert IsCanonical(high) by {
        assert high[0] == s[0];
      }
      CanonicalIsRendering(high);
      var q := DecimalValue(high);
      assert q != 0 by {
        assert high[0] == s[0] && NatToDecimal(0) == "0";
      }
      DecimalShift(q, DigitValue(last));
      assert s == high + [last];
    }
  }

  /** Appending a digit `d` to a number `q` and taking it off again. */
  lemma DecimalShift(q: nat, d: nat)
    requires 1 <= q && d < 10
    ensures 10 <= q * 10 + d
    ensures (q * 10 + d) / 10 == q && (q * 10 + d) % 10 == d
  {
  }

  /** The longest prefix of decimal digits of `s`, and what follows it. */
  function SplitDigits(s: string): (r: (string, string))
    ensures r.0 + r.1 == s
    ensures AllDigits(r.0)
    ensures r.1 == [] || !IsDigit(r.1[0])
  {
    if s != [] && IsDigit(s[0]) then
      var (digits, rest) := SplitDigits(s[1..]);
      assert [s[0]] + (digits + rest) == s;
      ([s[0]] + digits, rest)
    else
      ([], s)
  }

  /** Splitting a run of digits followed by a non-digit (or nothing) recovers both parts. */
  lemma {:induction false} SplitDigitsOf(digits: string, rest: string)
    requires AllDigits(digits)
    requires rest == [] || !IsDigit(rest[0])
    ensures SplitDigits(digits + rest) == (digits, rest)
  {
    if digits == [] {
      assert digits + rest == rest;
    } else {
      assert (digits + rest)[1..] == digits[1..] + rest;
      SplitDigitsOf(digits[1..], rest);
      assert [digits[0]] + digits[1..] == digits;
    }
  }

  /** `needle` occurs as a contiguous piece of `haystack`. */
  ghost predicate IsInfix(needle: string, haystack: string) {
    exists i :: OccursAt(needle, haystack, i)
  }

  /** `needle` occurs in `haystack` starting at position `i`. */
  predicate OccursAt(needle: string, haystack: string, i: int) {
    0 <= i <= |haystack| - |needle| && haystack[i..i + |needle|] == needle
  }

  /** A string occurs inside any string built around it. */
  lemma InfixOfConcat(prefix: string, needle: string, suffix: string)
    ensures IsInfix(needle, prefix + needle + suffix)
  {
    var h := prefix + needle + suffix;
    assert OccursAt(needle, h, |prefix|);
  }
}
