/** Python's `str(i)` for an `int` and `int(s)` for a string in base 10. */
module Decimal {
  import opened Wrappers
  import PyText

  predicate IsDigit(c: char) {
    '0' <= c <= '9'
  }

  function DigitChar(d: nat): (c: char)
    requires d < 10
    ensures IsDigit(c)
  {
    (48 + d) as char
  }

  function DigitValue(c: char): (d: nat)
    requires IsDigit(c)
    ensures d < 10
  {
    c as int - 48
  }

  /** The shortest decimal numeral of `n`, most significant digit first. */
  function NatDigits(n: nat): (r: string)
    ensures |r| >= 1 && forall k :: 0 <= k < |r| ==> IsDigit(r[k])
  {
    if n < 10 then [DigitChar(n)] else NatDigits(n / 10) + [DigitChar(n % 10)]
  }

  /** `str(i)`. */
  function IntToString(i: int): (r: string)
    ensures |r| >= 1 && (r[0] == '-' <==> i < 0)
    ensures forall k :: (i < 0 ==> 1 <= k) && 0 <= k < |r| ==> IsDigit(r[k])
  {
    if i < 0 then "-" + NatDigits(-i) else NatDigits(i)
  }

  /** The number a run of ASCII digits denotes. */
  function DigitsValue(s: string): nat
    requires forall k :: 0 <= k < |s| ==> IsDigit(s[k])
  {
    if s == [] then 0 else DigitsValue(s[..|s| - 1]) * 10 + DigitValue(s[|s| - 1])
  }

  /** Digits with single underscores between them, as `int()` accepts. */
  predicate IsNumeral(s: string) {
    && s != [] && IsDigit(s[0]) && IsDigit(s[|s| - 1])
    && (forall k :: 0 <= k < |s| ==> IsDigit(s[k]) || s[k] == '_')
    && (forall k :: 0 < k < |s| ==> !UnderscorePair(s, k))
  }

  /** Two underscores in a row, ending at index `k`. */
  predicate UnderscorePair(s: string, k: int)
    requires 0 < k < |s|
  {
    s[k - 1] == '_' && s[k] == '_'
  }

  function DropUnderscores(s: string): (r: string)
    requires forall k :: 0 <= k < |s| ==> IsDigit(s[k]) || s[k] == '_'
    ensures forall k :: 0 <= k < |r| ==> IsDigit(r[k])
  {
    if s == [] then []
    else if s[0] == '_' then DropUnderscores(s[1..])
    else [s[0]] + DropUnderscores(s[1..])
  }

  /** `int(s)`: surrounding whitespace, an optional sign, then a numeral;
      `None` where Python raises `ValueError`. */
  function ParseInt(s: string): Option<int> {
    ParseSigned(PyText.Strip(s))
  }

  /** An optional sign followed by a numeral. */
  function ParseSigned(t: string): Option<int> {
    if t != [] && (t[0] == '-' || t[0] == '+') then
      match ParseUnsigned(t[1..])
      case None => None
      case Some(n) => var v: int := n; Some(if t[0] == '-' then -v else v)
    else ParseUnsigned(t)
  }

  /** A numeral without sign: digits with single underscores between them. */
  function ParseUnsigned(body: string): Option<nat> {
    if IsNumeral(body) then Some(DigitsValue(DropUnderscores(body))) else None
  }

  lemma {:induction false} NatDigitsValue(n: nat)
    ensures DigitsValue(NatDigits(n)) == n
  {
    if n >= 10 {
      var s := NatDigits(n);
      assert s[..|s| - 1] == NatDigits(n / 10);
      NatDigitsValue(n / 10);
    }
  }

  lemma {:induction false} DropNoUnderscores(s: string)
    requires forall k :: 0 <= k < |s| ==> IsDigit(s[k])
    ensures DropUnderscores(s) == s
  {
    if s != [] {
      DropNoUnderscores(s[1..]);
    }
  }

  /** `int(str(i)) == i`. */
  lemma ParseIntToString(i: int)
    ensures ParseInt(IntToString(i)) == Some(i)
  {
    var s := IntToString(i);
    StripIntToString(i);
    SignedIntToString(i);
  }

  lemma StripIntToString(i: int)
    ensures PyText.Strip(IntToString(i)) == IntToString(i)
  {
    var s := IntToString(i);
    assert s[0] == '-' || IsDigit(s[0]);
    assert IsDigit(s[|s| - 1]);
    PyText.StripUnspaced(s);
  }

  lemma SignedIntToString(i: int)
    ensures ParseSigned(IntToString(i)) == Some(i)
  {
    var n: nat := if i < 0 then -i else i;
    var digits := NatDigits(n);
    NatDigitsValue(n);
    UnsignedDigits(digits);
    if i < 0 {
      ParseNegative(digits);
    } else {
      ParsePositive(digits);
    }
  }

  /** A run of ASCII digits parses to the number it denotes. */
  lemma UnsignedDigits(digits: string)
    requires digits != [] && forall k :: 0 <= k < |digits| ==> IsDigit(digits[k])
    ensures ParseUnsigned(digits) == Some(DigitsValue(digits))
  {
    DigitRunNumeral(digits);
  }

  /** Without a sign, `int()` reads the numeral as it stands. */
  lemma ParsePositive(digits: string)
    requires digits != [] && IsDigit(digits[0])
    ensures ParseSigned(digits) == ParseUnsigned(digits)
  {
  }

  /** A minus sign before a numeral negates it. */
  lemma ParseNegative(digits: string)
    requires ParseUnsigned(digits).Some?
    ensures var n: int := ParseUnsigned(digits).value; ParseSigned("-" + digits) == Some(-n)
  {
    var t := "-" + digits;
    assert t[0] == '-' && t[1..] == digits;
  }

  /** A run of digits is a numeral without underscores. */
  lemma DigitRunNumeral(digits: string)
    requires digits != [] && forall k :: 0 <= k < |digits| ==> IsDigit(digits[k])
    ensures IsNumeral(digits) && DropUnderscores(digits) == digits
  {
    DropNoUnderscores(digits);
    assert forall k :: 0 < k < |digits| ==> !UnderscorePair(digits, k);
  }

  /** `int()` accepts nothing without a digit. */
  lemma ParseIntNeedsDigit(s: string)
    requires forall k :: 0 <= k < |s| ==> !IsDigit(s[k])
    ensures ParseInt(s) == None
  {
    var t := PyText.Strip(s);
    StripNoDigit(s);
    if t != [] && (t[0] == '-' || t[0] == '+') && |t| > 1 {
      assert t[1..][0] == t[1];
    }
  }

  /** Stripping whitespace keeps a string free of digits. */
  lemma StripNoDigit(s: string)
    requires forall k :: 0 <= k < |s| ==> !IsDigit(s[k])
    ensures forall k :: 0 <= k < |PyText.Strip(s)| ==> !IsDigit(PyText.Strip(s)[k])
  {
    var l := PyText.LStrip(s);
    var t := PyText.RStrip(l);
    assert forall c :: c in l ==> c in s;
    assert forall c :: c in t ==> c in l;
    assert forall k :: 0 <= k < |t| ==> t[k] in s;
  }
}
