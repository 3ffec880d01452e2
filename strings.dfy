/**
 * The string operations the plugin relies on: JavaScript's decimal rendering of
 * a non-negative integer (`${n}`) and ASCII upper/lower casing
 * (`toUpperCase()`, `toLowerCase()`).
 */
module Strings {

  predicate IsDigit(c: char)
  {
    '0' <= c <= '9'
  }

  function Digit(d: nat): (c: char)
    requires d < 10
    ensures IsDigit(c)
  {
    (d + 48) as char
  }

  /** `${n}` for a non-negative integer: its decimal digits, most significant first. */
  function DecimalString(n: nat): (s: string)
    ensures |s| > 0
    ensures forall i :: 0 <= i < |s| ==> IsDigit(s[i])
    ensures n >= 10 ==> |s| >= 2
  {
    if n < 10 then [Digit(n)] else DecimalString(n / 10) + [Digit(n % 10)]
  }

  /** Different numbers render differently. */
  lemma {:induction false} DecimalStringInjective(a: nat, b: nat)
    requires DecimalString(a) == DecimalString(b)
    ensures a == b
  {
    if a >= 10 && b >= 10 {
      var sa, sb := DecimalString(a), DecimalString(b);
      assert sa[..|sa| - 1] == DecimalString(a / 10);
      assert sb[..|sb| - 1] == DecimalString(b / 10);
      DecimalStringInjective(a / 10, b / 10);
      assert Digit(a % 10) == sa[|sa| - 1] == sb[|sb| - 1] == Digit(b % 10);
    }
  }

  /**
   * A string made of a prefix ending in a separator that is not a digit,
   * followed by a rendered number, determines both the prefix and the number.
   */
  lemma {:induction false} PrefixedNumberInjective(p1: string, p2: string, a: nat, b: nat)
    requires |p1| > 0 && |p2| > 0 && !IsDigit(p1[|p1| - 1]) && !IsDigit(p2[|p2| - 1])
    requires p1 + DecimalString(a) == p2 + DecimalString(b)
    ensures p1 == p2 && a == b
  {
    var s := p1 + DecimalString(a);
    if |p1| < |p2| {
      DigitsAfterPrefix(p1, DecimalString(a), |p2| - 1);
      assert false;
    } else if |p2| < |p1| {
      DigitsAfterPrefix(p2, DecimalString(b), |p1| - 1);
      assert false;
    }
    assert p1 == s[..|p1|] == p2;
    assert DecimalString(a) == s[|p1|..] == DecimalString(b);
    DecimalStringInjective(a, b);
  }

  /** Every position past the prefix of `p + d` holds a digit when `d` is all digits. */
  lemma DigitsAfterPrefix(p: string, d: string, k: nat)
    requires forall i :: 0 <= i < |d| ==> IsDigit(d[i])
    requires |p| <= k < |p| + |d|
    ensures IsDigit((p + d)[k])
  {
    assert (p + d)[k] == d[k - |p|];
  }

  function UpperChar(c: char): char
  {
    if 'a' <= c <= 'z' then (c as int - 32) as char else c
  }

  function LowerChar(c: char): char
  {
    if 'A' <= c <= 'Z' then (c as int + 32) as char else c
  }

  /** `s.toUpperCase()`, for ASCII letters. */
  function ToUpper(s: string): (r: string)
    ensures |r| == |s|
  {
    seq(|s|, i requires 0 <= i < |s| => UpperChar(s[i]))
  }

  /** `s.toLowerCase()`, for ASCII letters. */
  function ToLower(s: string): (r: string)
    ensures |r| == |s|
  {
    seq(|s|, i requires 0 <= i < |s| => LowerChar(s[i]))
  }

  /** Upper-casing twice is upper-casing once. */
  lemma ToUpperIdempotent(s: string)
    ensures ToUpper(ToUpper(s)) == ToUpper(s)
  {
  }

  /** Upper-casing forgets how the letters were cased: a lower-cased string upper-cases to the same result. */
  lemma ToUpperIgnoresCase(s: string)
    ensures ToUpper(ToLower(s)) == ToUpper(s)
  {
  }

  /** Lower-casing twice is lower-casing once. */
  lemma ToLowerIdempotent(s: string)
    ensures ToLower(ToLower(s)) == ToLower(s)
  {
  }
}
