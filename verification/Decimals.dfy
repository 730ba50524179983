/** Decimal digit strings: printing a natural number and reading it back. */
module Decimals {

  predicate IsDigit(c: char) { '0' <= c <= '9' }

  predicate AllDigits(s: string) { forall i :: 0 <= i < |s| ==> IsDigit(s[i]) }

  function DigitChar(d: nat): (c: char)
    requires d < 10
    ensures IsDigit(c) && DigitValue(c) == d
  {
    ('0' as int + d) as char
  }

  function DigitValue(c: char): (d: nat)
    requires IsDigit(c)
    ensures d < 10
  {
    c as int - '0' as int
  }

  /** `str(n)` for a natural number. */
  function NatText(n: nat): (s: string)
    ensures s != [] && AllDigits(s)
  {
    if n < 10 then [DigitChar(n)] else NatText(n / 10) + [DigitChar(n % 10)]
  }

  /** The number a string of digits denotes; leading zeros are allowed. */
  function NatValue(s: string): nat
    requires AllDigits(s)
  {
    if s == [] then 0 else 10 * NatValue(s[..|s| - 1]) + DigitValue(s[|s| - 1])
  }

  /** The last `width` digits of `n`, padded with zeros on the left. */
  function PaddedText(n: nat, width: nat): (s: string)
    ensures |s| == width && AllDigits(s)
  {
    if width == 0 then [] else PaddedText(n / 10, width - 1) + [DigitChar(n % 10)]
  }

  function Pow10(k: nat): (p: nat)
    ensures p > 0
  {
    if k == 0 then 1 else 10 * Pow10(k - 1)
  }

  lemma {:induction false} NatRoundTrip(n: nat)
    ensures NatValue(NatText(n)) == n
  {
    if n < 10 {
      assert NatText(n)[..0] == [];
    } else {
      NatRoundTrip(n / 10);
      var s := NatText(n);
      assert s[..|s| - 1] == NatText(n / 10);
    }
  }

  lemma NatTextInjective(m: nat, n: nat)
    requires NatText(m) == NatText(n)
    ensures m == n
  {
    NatRoundTrip(m);
    NatRoundTrip(n);
  }

  lemma DivideBelow(n: nat, p: nat)
    requires n < 10 * p
    ensures n / 10 < p
  {
  }

  lemma LastDigit(s: string, d: nat)
    requires AllDigits(s) && d < 10
    ensures NatValue(s + [DigitChar(d)]) == 10 * NatValue(s) + d
  {
    assert (s + [DigitChar(d)])[..|s|] == s;
  }

  lemma {:induction false} PaddedRoundTrip(n: nat, width: nat)
    requires n < Pow10(width)
    ensures NatValue(PaddedText(n, width)) == n
  {
    if width == 0 {
    } else {
      DivideBelow(n, Pow10(width - 1));
      PaddedRoundTrip(n / 10, width - 1);
      LastDigit(PaddedText(n / 10, width - 1), n % 10);
    }
  }

  /** Numbers are printed without leading zeros. */
  lemma {:induction false} NoLeadingZero(n: nat)
    ensures NatText(n)[0] == '0' <==> n == 0
    ensures n < 10 <==> |NatText(n)| == 1
  {
    if n < 10 {
    } else {
      NoLeadingZero(n / 10);
    }
  }
}
