/**
 Decimal digit strings and the natural numbers they denote.

 A column number may be given as text; the text is accepted when it is a
 non-empty run of the ASCII digits 0-9 and denotes the usual base-10 value.
 */
module Decimal {

  predicate IsDigit(c: char) {
    '0' <= c <= '9'
  }

  /** A non-empty string made only of decimal digits. */
  predicate IsDecimal(s: string) {
    |s| > 0 && AllDigits(s)
  }

  predicate AllDigits(s: string) {
    forall i :: 0 <= i < |s| ==> IsDigit(s[i])
  }

  /** A digit string in canonical form: no leading zero unless it is "0" itself. */
  predicate IsCanonical(s: string) {
    IsDecimal(s) && (|s| > 1 ==> s[0] != '0')
  }

  function Pow10(k: nat): (p: nat)
    ensures p >= 1
  {
    if k == 0 then 1 else 10 * Pow10(k - 1)
  }

  function DigitValue(c: char): (d: nat)
    requires IsDigit(c)
    ensures d < 10
  {
    c as int - '0' as int
  }

  function DigitChar(d: nat): (c: char)
    requires d < 10
    ensures IsDigit(c) && DigitValue(c) == d
  {
    ('0' as int + d) as char
  }

  /** The value of a digit string, read left to right; a string of k digits stays below 10^k. */
  function Value(s: string): (n: nat)
    requires AllDigits(s)
    ensures n < Pow10(|s|)
    decreases |s|
  {
    if s == [] then 0
    else
      var m := Value(s[..|s| - 1]);
      var d := DigitValue(s[|s| - 1]);
      assert m * 10 + d < Pow10(|s|) by {
        assert m + 1 <= Pow10(|s| - 1);
        assert (m + 1) * 10 <= Pow10(|s| - 1) * 10;
      }
      m * 10 + d
  }

  /** The canonical decimal rendering of n: no leading zero, "0" for zero. */
  function Render(n: nat): (s: string)
    ensures IsDecimal(s)
    ensures |s| > 1 ==> s[0] != '0'
    decreases n
  {
    if n < 10 then [DigitChar(n)]
    else Render(n / 10) + [DigitChar(n % 10)]
  }

  /** Rendering and then reading back gives the number again. */
  lemma {:induction false} ValueOfRender(n: nat)
    ensures Value(Render(n)) == n
    decreases n
  {
    var s := Render(n);
    if n >= 10 {
      ValueOfRender(n / 10);
      assert s[..|s| - 1] == Render(n / 10);
    }
  }

  /** A digit string that starts with a non-zero digit denotes a positive number. */
  lemma {:induction false} ValuePositive(s: string)
    requires AllDigits(s) && |s| > 0 && s[0] != '0'
    ensures Value(s) >= 1
    decreases |s|
  {
    if |s| > 1 {
      ValuePositive(s[..|s| - 1]);
    }
  }

  /** Reading a canonical digit string and rendering the number gives the string back. */
  lemma {:induction false} RenderOfValue(s: string)
    requires IsCanonical(s)
    ensures Render(Value(s)) == s
    decreases |s|
  {
    var k := |s| - 1;
    var d := DigitValue(s[k]);
    assert DigitChar(d) == s[k];
    if k > 0 {
      var init := s[..k];
      assert init[0] == s[0];
      ValuePositive(init);
      RenderOfValue(init);
      var n := Value(s);
      assert n == Value(init) * 10 + d;
      assert n / 10 == Value(init) && n % 10 == d;
      assert s == init + [s[k]];
    }
  }
}
