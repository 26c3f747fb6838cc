/** Decimal text of integers, as Swift's string interpolation and `String(format:)` print them. */
module Decimal {

  function DigitChar(d: nat): (c: char)
    requires d < 10
    ensures '0' <= c <= '9' && c as int - '0' as int == d
  {
    ('0' as int + d) as char
  }

  predicate IsDigit(c: char) {
    '0' <= c <= '9'
  }

  /** The decimal digits of `n`, most significant first, without leading zeros. */
  function Digits(n: nat): (s: string)
    ensures |s| >= 1
    ensures forall i :: 0 <= i < |s| ==> IsDigit(s[i])
    ensures |s| > 1 ==> s[0] != '0'
  {
    if n < 10 then [DigitChar(n)] else Digits(n / 10) + [DigitChar(n % 10)]
  }

  function DigitValue(c: char): (d: nat)
    requires IsDigit(c)
    ensures d < 10
  {
    c as int - '0' as int
  }

  /** The value of a string of decimal digits. */
  function ValueOf(s: string): nat
    requires forall i :: 0 <= i < |s| ==> IsDigit(s[i])
  {
    if s == [] then 0 else ValueOf(s[..|s| - 1]) * 10 + DigitValue(s[|s| - 1])
  }

  lemma {:induction false} DigitsRoundTrip(n: nat)
    ensures ValueOf(Digits(n)) == n
  {
    if n >= 10 {
      var s := Digits(n);
      assert s[..|s| - 1] == Digits(n / 10);
      DigitsRoundTrip(n / 10);
    }
  }

  /** Digits are one-to-one: different numbers never print the same. */
  lemma DigitsInjective(m: nat, n: nat)
    ensures Digits(m) == Digits(n) ==> m == n
  {
    DigitsRoundTrip(m);
    DigitsRoundTrip(n);
  }

  /** `\(i)` in Swift: a minus sign for negative numbers, then the digits of the magnitude. */
  function IntText(i: int): (s: string)
    ensures i >= 0 ==> s == Digits(i)
    ensures i < 0 ==> s == "-" + Digits(-i)
  {
    if i < 0 then "-" + Digits(-i) else Digits(i)
  }

  /** `%+d`: the sign is always written, and zero counts as positive. */
  function SignedText(i: int): (s: string)
    ensures |s| >= 2 && s[0] == (if i >= 0 then '+' else '-')
    ensures s[1..] == Digits(if i >= 0 then i else -i)
    ensures forall k :: 1 <= k < |s| ==> IsDigit(s[k])
    ensures ValueOf(s[1..]) == (if i >= 0 then i else -i)
  {
    DigitsRoundTrip(if i >= 0 then i else -i);
    (if i >= 0 then "+" else "-") + Digits(if i >= 0 then i else -i)
  }

  /** `%02d` for a number below 100: at least two digits, padded with a leading zero. */
  function TwoDigitText(n: nat): (s: string)
    requires n < 100
    ensures |s| == 2 && IsDigit(s[0]) && IsDigit(s[1])
    ensures ValueOf(s) == n
  {
    var s := if n < 10 then ['0', DigitChar(n)] else [DigitChar(n / 10), DigitChar(n % 10)];
    assert s[..1] == [s[0]] && s[..1][..0] == [];
    assert ValueOf(s[..1]) == DigitValue(s[0]);
    s
  }
}
