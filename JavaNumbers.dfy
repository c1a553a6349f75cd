/** Decimal text of Java integers: Integer.toString (used by StringBuilder.append)
    and Long.parseLong in radix 10. */
module JavaNumbers {
  import opened Wrappers

  const INT_MIN: int := -0x8000_0000
  const INT_MAX: int := 0x7fff_ffff
  const LONG_MIN: int := -0x8000_0000_0000_0000
  const LONG_MAX: int := 0x7fff_ffff_ffff_ffff

  /** The range of a Java `int` / `Integer`. */
  predicate IsInt(n: int) { INT_MIN <= n <= INT_MAX }

  /** The range of a Java `long`. */
  predicate IsLong(n: int) { LONG_MIN <= n <= LONG_MAX }

  predicate IsDigit(c: char) { '0' <= c <= '9' }

  predicate AllDigits(s: string) { forall i :: 0 <= i < |s| ==> IsDigit(s[i]) }

  function DigitValue(c: char): (d: nat)
    requires IsDigit(c)
    ensures d < 10
  {
    c as int - '0' as int
  }

  function DigitChar(d: nat): (c: char)
    requires d < 10
    ensures IsDigit(c) && DigitValue(c) == d
  {
    ('0' as int + d) as char
  }

  /** The decimal digits of `n`, most significant first. */
  function NaturalString(n: nat): (s: string)
    ensures |s| > 0 && AllDigits(s)
    ensures (s[0] == '0') == (n == 0)
  {
    if n < 10 then [DigitChar(n)] else NaturalString(n / 10) + [DigitChar(n % 10)]
  }

  /** The value of a string of decimal digits, accumulated left to right. */
  function DigitsValue(s: string): nat
    requires AllDigits(s)
  {
    if s == [] then 0 else DigitsValue(s[..|s| - 1]) * 10 + DigitValue(s[|s| - 1])
  }

  /** Integer.toString(n) / Long.toString(n): a minus sign for negatives, no leading zeros. */
  function DecimalString(n: int): (s: string)
    ensures |s| > 0 && (s[0] == '-') == (n < 0)
    ensures n >= 0 ==> AllDigits(s)
    ensures n < 0 ==> |s| > 1 && AllDigits(s[1..])
  {
    if n < 0 then "-" + NaturalString(-n) else NaturalString(n)
  }

  /** Long.parseLong(s): an optional sign, at least one digit, only digits, and a value
      within the range of `long`; None stands for the NumberFormatException. */
  function ParseLong(s: string): (r: Option<int>)
    ensures r.Some? ==> IsLong(r.value)
    ensures r.Some? ==> |s| > 0
  {
    if |s| == 0 then None
    else if s[0] == '-' || s[0] == '+' then
      var magnitude := s[1..];
      if |magnitude| == 0 || !AllDigits(magnitude) then None
      else
        var v: int := if s[0] == '-' then -(DigitsValue(magnitude) as int) else DigitsValue(magnitude);
        if IsLong(v) then Some(v) else None
    else if AllDigits(s) && IsLong(DigitsValue(s)) then Some(DigitsValue(s))
    else None
  }

  lemma {:induction false} DigitsValueOfNaturalString(n: nat)
    ensures DigitsValue(NaturalString(n)) == n
  {
    var s := NaturalString(n);
    if n < 10 {
      assert s[..|s| - 1] == [];
    } else {
      assert s[..|s| - 1] == NaturalString(n / 10);
      DigitsValueOfNaturalString(n / 10);
    }
  }

  /** Long.parseLong reads back exactly what Long.toString wrote. */
  lemma ParseLongOfDecimalString(n: int)
    requires IsLong(n)
    ensures ParseLong(DecimalString(n)) == Some(n)
  {
    var s := DecimalString(n);
    if n < 0 {
      assert s[1..] == NaturalString(-n);
      DigitsValueOfNaturalString(-n);
    } else {
      DigitsValueOfNaturalString(n);
    }
  }

  /** Leading zeros do not change the value of a digit string. */
  lemma {:induction false} LeadingZeroIgnored(s: string)
    requires AllDigits(s)
    ensures AllDigits("0" + s) && DigitsValue("0" + s) == DigitsValue(s)
  {
    if s != [] {
      assert ("0" + s)[..|"0" + s| - 1] == "0" + s[..|s| - 1];
      LeadingZeroIgnored(s[..|s| - 1]);
    }
  }

  /** Unsigned digit text is accepted exactly when its value fits a `long`, leading
      zeros included. */
  lemma ParseLongOfDigits(s: string)
    requires |s| > 0 && AllDigits(s)
    ensures ParseLong(s) == if DigitsValue(s) <= LONG_MAX then Some(DigitsValue(s)) else None
  {
  }

  /** A sign followed by digit text is accepted exactly when the signed value fits a `long`. */
  lemma ParseLongOfSignedDigits(sign: char, digits: string)
    requires sign == '-' || sign == '+'
    requires |digits| > 0 && AllDigits(digits)
    ensures ParseLong([sign] + digits)
         == (var v: int := if sign == '-' then -(DigitsValue(digits) as int) else DigitsValue(digits);
             if IsLong(v) then Some(v) else None)
  {
    assert ([sign] + digits)[1..] == digits;
  }

  /** Everything else is the NumberFormatException: empty text, a lone sign, a first
      character that is neither sign nor digit, or a non-digit after the first character. */
  lemma ParseLongRejects(s: string)
    ensures s == "" || s == "-" || s == "+" ==> ParseLong(s) == None
    ensures |s| > 0 && !IsDigit(s[0]) && s[0] != '-' && s[0] != '+' ==> ParseLong(s) == None
    ensures (exists i :: 1 <= i < |s| && !IsDigit(s[i])) ==> ParseLong(s) == None
  {
    if i :| 1 <= i < |s| && !IsDigit(s[i]) {
      assert !IsDigit(s[1..][i - 1]);
    }
  }

  /** The LIMIT text "007" reads as 7. */
  lemma ParseLongOfPaddedSeven()
    ensures ParseLong("007") == Some(7)
  {
    LeadingZeroIgnored("7");
    LeadingZeroIgnored("07");
    assert "0" + "7" == "07" && "0" + "07" == "007";
    ParseLongOfDigits("007");
  }
}
