/**
 * Decimal text of integers, as Go's `fmt.Sprintf("%d", n)` writes it, together with
 * a reader for that text. The reader is the partner of the writer: reading back what
 * was written gives the original number.
 */
module Decimal {
  import opened Wrappers

  predicate IsDigit(c: char) {
    '0' <= c <= '9'
  }

  predicate AllDigits(s: string) {
    forall i :: 0 <= i < |s| ==> IsDigit(s[i])
  }

  function DigitChar(d: nat): (c: char)
    requires d < 10
    ensures IsDigit(c) && DigitValue(c) == d
  {
    (d + '0' as int) as char
  }

  function DigitValue(c: char): (d: nat)
    requires IsDigit(c)
    ensures d < 10
  {
    c as int - '0' as int
  }

  /** The shortest decimal text of `n`: digits only, and no leading zero unless `n` is 0. */
  function FormatNat(n: nat): (s: string)
    ensures |s| >= 1 && AllDigits(s)
    ensures s[0] == '0' ==> s == "0"
    ensures n < 10 <==> |s| == 1
    decreases n
  {
    if n < 10 then [DigitChar(n)] else FormatNat(n / 10) + [DigitChar(n % 10)]
  }

  /**
   * `%d` of a Go integer: a minus sign before the digits of a negative number, and no
   * leading zero unless the number is 0.
   */
  function FormatInt(n: int): (s: string)
    ensures |s| >= 1
    ensures s[0] == '-' <==> n < 0
    ensures n >= 0 ==> AllDigits(s) && (s[0] == '0' ==> s == "0")
    ensures n < 0 ==> |s| >= 2 && AllDigits(s[1..]) && s[1] != '0'
    ensures IsCanonicalInt(s)
  {
    if n < 0 then "-" + FormatNat(-n) else FormatNat(n)
  }

  /**
   * Text in the form `%d` writes: digits with no leading zero unless the text is "0",
   * or a minus sign followed by digits that do not start with 0.
   */
  predicate IsCanonicalInt(s: string) {
    (|s| >= 1 && AllDigits(s) && (s[0] == '0' ==> s == "0")) ||
    (|s| >= 2 && s[0] == '-' && AllDigits(s[1..]) && s[1] != '0')
  }

  /** The number a string of digits denotes (leading zeros allowed). */
  function DigitsValue(s: string): nat
    requires AllDigits(s)
    decreases |s|
  {
    if s == [] then 0 else DigitsValue(s[..|s| - 1]) * 10 + DigitValue(s[|s| - 1])
  }

  /** Reads a non-empty string of digits; anything else is not a natural number. */
  function ParseNat(s: string): (r: Option<nat>)
    ensures r.Some? <==> |s| >= 1 && AllDigits(s)
  {
    if |s| >= 1 && AllDigits(s) then Some(DigitsValue(s)) else None
  }

  /** Reads an optional minus sign followed by digits. */
  function ParseInt(s: string): (r: Option<int>)
    ensures r.Some? <==> (|s| >= 1 && AllDigits(s)) || (|s| >= 2 && s[0] == '-' && AllDigits(s[1..]))
  {
    if |s| >= 1 && s[0] == '-' then
      match ParseNat(s[1..])
      case Some(n) => var m: int := n; Some(-m)
      case None => None
    else
      match ParseNat(s)
      case Some(n) => Some(n)
      case None => None
  }

  /** Reading back the text `FormatNat` writes gives the number. */
  lemma {:induction false} ParseFormatNat(n: nat)
    ensures ParseNat(FormatNat(n)) == Some(n)
    decreases n
  {
    if n < 10 {
      var s := FormatNat(n);
      assert s == [DigitChar(n)];
      assert s[..|s| - 1] == [];
      assert DigitsValue(s) == DigitValue(DigitChar(n));
    } else {
      var prefix := FormatNat(n / 10);
      var s := prefix + [DigitChar(n % 10)];
      assert s[..|s| - 1] == prefix;
      ParseFormatNat(n / 10);
      assert DigitsValue(s) == (n / 10) * 10 + n % 10;
    }
  }

  /** Reading back the text `FormatInt` writes gives the number, negative or not. */
  lemma ParseFormatInt(n: int)
    ensures ParseInt(FormatInt(n)) == Some(n)
  {
    if n < 0 {
      var digits := FormatNat(-n);
      ParseFormatNat(-n);
      assert FormatInt(n) == "-" + digits;
      assert ("-" + digits)[1..] == digits;
    } else {
      ParseFormatNat(n);
    }
  }

  /** Distinct numbers are written as distinct texts. */
  lemma FormatIntInjective(a: int, b: int)
    ensures FormatInt(a) == FormatInt(b) <==> a == b
  {
    ParseFormatInt(a);
    ParseFormatInt(b);
  }

  /** Digits that do not start with 0 denote at least 1, and at least 10 when there are two or more. */
  lemma {:induction false} LeadingDigitBound(s: string)
    requires |s| >= 1 && AllDigits(s) && s[0] != '0'
    ensures DigitsValue(s) >= 1
    ensures |s| >= 2 ==> DigitsValue(s) >= 10
    decreases |s|
  {
    if |s| >= 2 {
      var prefix := s[..|s| - 1];
      assert prefix[0] == s[0];
      LeadingDigitBound(prefix);
    }
  }

  /** Two digit texts without leading zeros that denote the same number are the same text. */
  lemma {:induction false} CanonicalDigitsUnique(s: string, t: string)
    requires |s| >= 1 && AllDigits(s) && (s[0] == '0' ==> s == "0")
    requires |t| >= 1 && AllDigits(t) && (t[0] == '0' ==> t == "0")
    requires DigitsValue(s) == DigitsValue(t)
    ensures s == t
    decreases |s|
  {
    var s', t' := s[..|s| - 1], t[..|t| - 1];
    var d, e := DigitValue(s[|s| - 1]), DigitValue(t[|t| - 1]);
    assert DigitsValue(s) == DigitsValue(s') * 10 + d;
    assert DigitsValue(t) == DigitsValue(t') * 10 + e;
    assert d == e && DigitsValue(s') == DigitsValue(t');
    assert s[|s| - 1] == t[|t| - 1];
    if |s| == 1 && |t| == 1 {
    } else if |s| == 1 {
      LeadingDigitBound(t);
    } else if |t| == 1 {
      LeadingDigitBound(s);
    } else {
      assert s'[0] == s[0] && t'[0] == t[0];
      CanonicalDigitsUnique(s', t');
      assert s == s' + [s[|s| - 1]] && t == t' + [t[|t| - 1]];
    }
  }

  /** `FormatInt(n)` is the only text in `%d` form that reads back as `n`. */
  lemma CanonicalIntUnique(s: string, n: int)
    requires IsCanonicalInt(s) && ParseInt(s) == Some(n)
    ensures s == FormatInt(n)
  {
    if s[0] == '-' {
      var digits := s[1..];
      LeadingDigitBound(digits);
      var value: int := DigitsValue(digits);
      assert n == -value;
      ParseFormatNat(-n);
      CanonicalDigitsUnique(digits, FormatNat(-n));
      assert s == "-" + digits;
    } else {
      ParseFormatNat(n);
      CanonicalDigitsUnique(s, FormatNat(n));
    }
  }
}
