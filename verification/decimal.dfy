/** Decimal text for integers: Python's `str(n)` and `int(text)`. */
module Decimal {
  import opened Wrappers
  import Text

  predicate IsDigit(c: char) {
    '0' <= c <= '9'
  }

  predicate AllDigits(s: string) {
    forall i :: 0 <= i < |s| ==> IsDigit(s[i])
  }

  function DigitChar(d: nat): (c: char)
    requires d < 10
    ensures IsDigit(c)
  {
    ('0' as int + d) as char
  }

  function DigitValue(c: char): (d: nat)
    requires IsDigit(c)
    ensures d < 10 && DigitChar(d) == c
  {
    c as int - '0' as int
  }

  /** `str(n)` for a non-negative `n`: no sign, no leading zero. */
  function NatToString(n: nat): (s: string)
    ensures |s| >= 1 && AllDigits(s)
    ensures |s| > 1 ==> s[0] != '0'
  {
    if n < 10 then [DigitChar(n)] else NatToString(n / 10) + [DigitChar(n % 10)]
  }

  /** `str(i)` for any integer. */
  function IntToString(i: int): (s: string)
    ensures |s| >= 1
    ensures i < 0 <==> s[0] == '-'
    ensures '_' !in s
  {
    if i < 0 then "-" + NatToString(-i) else NatToString(i)
  }

  /** The number a string of decimal digits denotes, most significant first. */
  function DigitsValue(s: string): nat
    requires AllDigits(s)
  {
    if |s| == 0 then 0 else 10 * DigitsValue(s[..|s| - 1]) + DigitValue(s[|s| - 1])
  }

  lemma {:induction false} DigitsValueOfNatToString(n: nat)
    ensures DigitsValue(NatToString(n)) == n
  {
    if n >= 10 {
      var s := NatToString(n);
      assert s[..|s| - 1] == NatToString(n / 10);
      DigitsValueOfNatToString(n / 10);
    }
  }

  /** Python's `int(text)` on text without underscores: surrounding whitespace
      is ignored, one optional sign, then at least one ASCII digit; anything
      else raises `ValueError`, modelled as None. */
  function ParseInt(text: string): (r: Option<int>)
    ensures r.Some? ==> exists c :: c in text && IsDigit(c)
  {
    var t := Text.Strip(text);
    if |t| > 0 && (t[0] == '-' || t[0] == '+') then
      var digits := t[1..];
      if |digits| > 0 && AllDigits(digits) then
        assert digits[0] in text;
        var v: int := DigitsValue(digits);
        Some(if t[0] == '-' then -v else v)
      else None
    else if |t| > 0 && AllDigits(t) then
      assert t[0] in text;
      Some(DigitsValue(t))
    else None
  }

  /** `str(i)` has no surrounding whitespace, so stripping it is the identity. */
  lemma {:induction false} StripUnpadded(s: string)
    requires |s| >= 1 && !Text.IsSpace(s[0]) && !Text.IsSpace(s[|s| - 1])
    ensures Text.Strip(s) == s
  {
    assert Text.SkipSpace(s, 0) == 0;
    assert Text.SkipSpaceBack(s, 0, |s|) == |s|;
  }

  /** Text that starts with something other than whitespace, a sign or a
      digit is not an integer. */
  lemma {:induction false} ParseIntRejectsWord(s: string)
    requires |s| >= 1 && !Text.IsSpace(s[0]) && !Text.IsSpace(s[|s| - 1])
    requires s[0] != '-' && s[0] != '+' && !IsDigit(s[0])
    ensures ParseInt(s) == None
  {
    StripUnpadded(s);
  }

  /** A plain run of digits reads as its value. */
  lemma ParseIntOfDigits(d: string)
    requires |d| >= 1 && AllDigits(d)
    ensures ParseInt(d) == Some(DigitsValue(d))
  {
    assert IsDigit(d[0]) && IsDigit(d[|d| - 1]);
    StripUnpadded(d);
  }

  /** A minus sign before a run of digits negates its value. */
  lemma ParseIntOfMinusDigits(d: string)
    requires |d| >= 1 && AllDigits(d)
    ensures ParseInt("-" + d) == Some(-(DigitsValue(d) as int))
  {
    var s := "-" + d;
    assert s[0] == '-' && s[1..] == d;
    assert s[|s| - 1] == d[|d| - 1];
    assert IsDigit(d[|d| - 1]);
    StripUnpadded(s);
    assert Text.Strip(s) == s;
  }

  /** `int(str(i)) == i` for every integer. */
  lemma ParseIntOfIntToString(i: int)
    ensures ParseInt(IntToString(i)) == Some(i)
  {
    if i < 0 {
      var n: nat := -i;
      assert IntToString(i) == "-" + NatToString(n);
      ParseIntOfMinusDigits(NatToString(n));
      DigitsValueOfNatToString(n);
    } else {
      assert IntToString(i) == NatToString(i);
      ParseIntOfDigits(NatToString(i));
      DigitsValueOfNatToString(i);
    }
  }

  /** Two-digit zero-padded month, Python's `f"{m:02d}"` for 1 <= m <= 12. */
  function TwoDigits(m: nat): (s: string)
    requires m < 100
    ensures |s| == 2 && AllDigits(s) && DigitsValue(s) == m
  {
    var s := [DigitChar(m / 10), DigitChar(m % 10)];
    assert s[..1] == [DigitChar(m / 10)];
    assert s[..1][..0] == [];
    assert DigitsValue(s[..1]) == m / 10;
    s
  }
}
