/**
 * Decimal spelling of unsigned integers, as strconv.FormatUint(n, 10)
 * produces it for the port strings, and the parse that undoes it.
 */
module Decimal {

  predicate IsDigit(c: char) {
    '0' <= c <= '9'
  }

  predicate AllDigits(s: string) {
    forall i :: 0 <= i < |s| ==> IsDigit(s[i])
  }

  /** The canonical spelling: non-empty, digits only, no leading zero except "0" itself. */
  predicate Canonical(s: string) {
    |s| >= 1 && AllDigits(s) && (|s| > 1 ==> s[0] != '0')
  }

  function DigitChar(d: nat): (c: char)
    requires d < 10
    ensures IsDigit(c) && c as int - '0' as int == d
  {
    ('0' as int + d) as char
  }

  function DigitValue(c: char): (d: nat)
    requires IsDigit(c)
    ensures d < 10
  {
    c as int - '0' as int
  }

  /** strconv.FormatUint(n, 10): the shortest decimal spelling of n. */
  function FormatUint(n: nat): (s: string)
    ensures Canonical(s)
    ensures s[0] == '0' <==> n == 0
  {
    if n < 10 then [DigitChar(n)] else FormatUint(n / 10) + [DigitChar(n % 10)]
  }

  /** The value of a string of decimal digits, most significant first. */
  function ParseDecimal(s: string): nat
    requires AllDigits(s)
  {
    if s == [] then 0 else ParseDecimal(s[..|s| - 1]) * 10 + DigitValue(s[|s| - 1])
  }

  /** Parsing the spelling gives the number back. */
  lemma {:induction false} ParseFormat(n: nat)
    ensures ParseDecimal(FormatUint(n)) == n
  {
    var s := FormatUint(n);
    if n >= 10 {
      ParseFormat(n / 10);
      assert s[..|s| - 1] == FormatUint(n / 10);
    }
  }

  /** A spelling whose first digit is not '0' denotes a positive number. */
  lemma {:induction false} LeadingNonZeroPositive(s: string)
    requires |s| >= 1 && AllDigits(s) && s[0] != '0'
    ensures ParseDecimal(s) >= 1
  {
    if |s| > 1 {
      LeadingNonZeroPositive(s[..|s| - 1]);
    }
  }

  /** Every canonical spelling is the spelling of the number it denotes. */
  lemma {:induction false} FormatParse(s: string)
    requires Canonical(s)
    ensures FormatUint(ParseDecimal(s)) == s
  {
    var n := ParseDecimal(s);
    if |s| > 1 {
      var init := s[..|s| - 1];
      var d := DigitValue(s[|s| - 1]);
      FormatParse(init);
      LeadingNonZeroPositive(init);
      assert n == ParseDecimal(init) * 10 + d;
      assert n / 10 == ParseDecimal(init) && n % 10 == d;
      assert s == init + [s[|s| - 1]];
    }
  }

  /** Distinct numbers have distinct spellings. */
  lemma FormatInjective(m: nat, n: nat)
    requires FormatUint(m) == FormatUint(n)
    ensures m == n
  {
    ParseFormat(m);
    ParseFormat(n);
  }
}
