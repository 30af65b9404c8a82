/**
 * The decimal text of the year in the email's copyright line: the number the
 * clock reports, written the way a template literal prints a whole number.
 */
module Decimal {

  predicate IsDigit(c: char)
  {
    '0' <= c <= '9'
  }

  predicate AllDigits(s: string)
  {
    forall i :: 0 <= i < |s| ==> IsDigit(s[i])
  }

  function DigitChar(d: nat): (c: char)
    requires d < 10
    ensures IsDigit(c)
  {
    ('0' as int + d) as char
  }

  function DigitValue(c: char): (d: nat)
    requires IsDigit(c)
    ensures d < 10 && DigitChar(d) == c
  {
    c as int - '0' as int
  }

  /** The decimal digits of `n`, most significant first, without leading zeros. */
  function Digits(n: nat): (s: string)
    ensures |s| >= 1 && AllDigits(s)
    ensures s[0] == '0' ==> n == 0
    decreases n
  {
    if n < 10 then [DigitChar(n)] else Digits(n / 10) + [DigitChar(n % 10)]
  }

  /** The number a string of decimal digits denotes. */
  function ValueOf(s: string): nat
    requires AllDigits(s)
    decreases |s|
  {
    if s == [] then 0 else ValueOf(s[..|s| - 1]) * 10 + DigitValue(s[|s| - 1])
  }

  /** Reading the digits back gives the number: the year text loses nothing. */
  lemma {:induction false} ValueOfDigits(n: nat)
    ensures ValueOf(Digits(n)) == n
    decreases n
  {
    var s := Digits(n);
    if n < 10 {
      assert s[..|s| - 1] == [];
    } else {
      ValueOfDigits(n / 10);
      assert s[..|s| - 1] == Digits(n / 10);
    }
  }

  /**
   * The year as printed: a minus sign exactly for years before year zero,
   * then digits that read back as the year's magnitude.
   */
  function YearText(year: int): (s: string)
    ensures |s| >= 1 && (s[0] == '-' <==> year < 0)
    ensures var digits := if year < 0 then s[1..] else s;
      AllDigits(digits) && ValueOf(digits) == if year < 0 then -year else year
  {
    if year < 0 then
      ValueOfDigits(-year);
      assert ("-" + Digits(-year))[1..] == Digits(-year);
      "-" + Digits(-year)
    else
      ValueOfDigits(year);
      assert IsDigit(Digits(year)[0]);
      Digits(year)
  }

  /** Different years print differently. */
  lemma YearTextInjective(a: int, b: int)
    requires YearText(a) == YearText(b)
    ensures a == b
  {
  }
}
