/**
 * JavaScript numbers as far as the OS-version term needs them: the result
 * of `parseInt(s, 10)` and `parseFloat(s)` (sections 19.2.5 and 19.2.4 of
 * ECMA-262) and the `>=` comparison against a threshold.
 *
 * Values are exact reals: IEEE-754 rounding of the parsed decimal is not
 * modelled.
 */
module JsNumber {

  import opened Optional

  /** A JavaScript number: NaN, a finite value, or one of the infinities. */
  datatype Num = NaN | Finite(value: real) | PosInfinity | NegInfinity {

    /** `this >= t` in JavaScript; every comparison with NaN is false. */
    predicate AtLeast(t: real) {
      match this
      case NaN => false
      case Finite(v) => v >= t
      case PosInfinity => true
      case NegInfinity => false
    }
  }

  /** StrWhiteSpaceChar of ECMA-262: WhiteSpace (with every space separator, Zs) and LineTerminator. */
  predicate IsStrWhiteSpace(c: char) {
    c == '\t' || c == '\U{000B}' || c == '\U{000C}' || c == ' ' || c == '\U{00A0}' || c == '\U{FEFF}'
    || c == '\U{1680}' || ('\U{2000}' <= c <= '\U{200A}') || c == '\U{202F}' || c == '\U{205F}' || c == '\U{3000}'
    || c == '\n' || c == '\r' || c == '\U{2028}' || c == '\U{2029}'
  }

  predicate IsDigit(c: char) {
    '0' <= c <= '9'
  }

  predicate AllDigits(d: string) {
    forall i :: 0 <= i < |d| ==> IsDigit(d[i])
  }

  function DigitValue(c: char): (v: nat)
    requires IsDigit(c)
    ensures v < 10
  {
    (c as int) - ('0' as int)
  }

  function DigitChar(v: nat): (c: char)
    requires v < 10
    ensures IsDigit(c) && DigitValue(c) == v
  {
    (('0' as int) + v) as char
  }

  /** Value of a string of decimal digits, most significant digit first. */
  function DigitsValue(d: string): nat
    requires AllDigits(d)
  {
    if d == [] then 0 else 10 * DigitsValue(d[..|d| - 1]) + DigitValue(d[|d| - 1])
  }

  function Pow10(k: nat): (p: nat)
    ensures p >= 1
  {
    if k == 0 then 1 else 10 * Pow10(k - 1)
  }

  /** The decimal numeral of n, without leading zeros. */
  function NatToDecimal(n: nat): (d: string)
    ensures d != [] && AllDigits(d)
    ensures DigitsValue(d) == n
  {
    if n < 10 then
      [DigitChar(n)]
    else
      var high := NatToDecimal(n / 10);
      var d := high + [DigitChar(n % 10)];
      assert d[..|d| - 1] == high;
      d
  }

  /** The decimal numeral of k, with a leading '-' when k is negative. */
  function IntToDecimal(k: int): string {
    if k < 0 then "-" + NatToDecimal(-k) else NatToDecimal(k)
  }

  /** s without its leading white space. */
  function TrimStart(s: string): string {
    if s != [] && IsStrWhiteSpace(s[0]) then TrimStart(s[1..]) else s
  }

  /** The longest prefix of s made of decimal digits. */
  function LeadingDigits(s: string): (d: string)
    ensures |d| <= |s| && AllDigits(d)
  {
    if s != [] && IsDigit(s[0]) then [s[0]] + LeadingDigits(s[1..]) else []
  }

  /** An optional leading sign and what follows it. */
  datatype Signed = Signed(negative: bool, rest: string)

  function SplitSign(s: string): (r: Signed)
    ensures r.rest == s || (s != [] && (s[0] == '+' || s[0] == '-') && r.rest == s[1..])
    ensures r.negative <==> s != [] && s[0] == '-'
  {
    if s != [] && s[0] == '-' then Signed(true, s[1..])
    else if s != [] && s[0] == '+' then Signed(false, s[1..])
    else Signed(false, s)
  }

  function Negate(negative: bool, v: real): real {
    if negative then -v else v
  }

  function SignedValue(negative: bool, d: string): int
    requires AllDigits(d)
  {
    if negative then -(DigitsValue(d) as int) else DigitsValue(d)
  }

  /** `parseInt(s, 10)`: the leading (signed) integer of s after white space, or NaN when it has no digits. */
  function ParseInt(s: string): (n: Num)
    ensures n.NaN? || n.Finite?
    ensures n.Finite? ==> n.value == n.value.Floor as real
  {
    var signed := SplitSign(TrimStart(s));
    var d := LeadingDigits(signed.rest);
    if d == [] then NaN else Finite(SignedValue(signed.negative, d) as real)
  }

  /** The value of an ExponentPart at the head of s, or 0 when s does not start with one. */
  function ExponentOf(s: string): int {
    if s != [] && (s[0] == 'e' || s[0] == 'E') then
      var signed := SplitSign(s[1..]);
      var d := LeadingDigits(signed.rest);
      if d == [] then 0 else SignedValue(signed.negative, d)
    else 0
  }

  function Scale(e: int): (p: real)
    ensures p > 0.0
  {
    if e >= 0 then Pow10(e) as real else 1.0 / (Pow10(-e) as real)
  }

  /** The value of the digits `whole` '.' `frac`. */
  function Mantissa(whole: string, frac: string): real
    requires AllDigits(whole) && AllDigits(frac)
  {
    DigitsValue(whole) as real + DigitsValue(frac) as real / Pow10(|frac|) as real
  }

  /**
   * The value of a StrUnsignedDecimalLiteral without "Infinity" at the head
   * of body (digits, an optional '.' with digits, an optional exponent), or
   * None when body starts with neither a digit nor '.' and a digit.
   */
  function UnsignedDecimal(body: string): Option<real> {
    var whole := LeadingDigits(body);
    AfterWholeDigits(whole, body[|whole|..])
  }

  /** The rest of an unsigned decimal once its integer digits `whole` have been read. */
  function AfterWholeDigits(whole: string, rest: string): Option<real>
    requires AllDigits(whole)
  {
    if rest != [] && rest[0] == '.' then
      var frac := LeadingDigits(rest[1..]);
      if whole == [] && frac == [] then None
      else Some(Mantissa(whole, frac) * Scale(ExponentOf(rest[1 + |frac|..])))
    else if whole == [] then None
    else Some(Mantissa(whole, []) * Scale(ExponentOf(rest)))
  }

  /** The number read after the sign has been split off. */
  function SignedDecimal(signed: Signed): Num {
    if "Infinity" <= signed.rest then
      (if signed.negative then NegInfinity else PosInfinity)
    else
      match UnsignedDecimal(signed.rest)
      case None => NaN
      case Some(v) => Finite(Negate(signed.negative, v))
  }

  /**
   * `parseFloat(s)`: the longest prefix of s, after white space, that is a
   * StrDecimalLiteral (sign, "Infinity", or digits with an optional
   * fraction and exponent), or NaN when there is none.
   */
  function ParseFloat(s: string): (n: Num)
    ensures ParseInt(s).Finite? ==> n.Finite?
  {
    var signed := SplitSign(TrimStart(s));
    assert ParseInt(s).Finite? ==> IsDigit(signed.rest[0]) && !("Infinity" <= signed.rest)
                                   && LeadingDigits(signed.rest) != [];
    SignedDecimal(signed)
  }

  // ----- Lemmas -----

  /** TrimStart removes exactly the white space at the head of s: what is left is a suffix that starts with something else. */
  lemma {:induction false} TrimStartRemovesLeadingWhiteSpace(s: string)
    ensures |TrimStart(s)| <= |s| && TrimStart(s) == s[|s| - |TrimStart(s)|..]
    ensures forall i :: 0 <= i < |s| - |TrimStart(s)| ==> IsStrWhiteSpace(s[i])
    ensures TrimStart(s) == [] || !IsStrWhiteSpace(TrimStart(s)[0])
  {
    if s != [] && IsStrWhiteSpace(s[0]) {
      var tail := s[1..];
      TrimStartRemovesLeadingWhiteSpace(tail);
      var t := TrimStart(tail);
      assert TrimStart(s) == t;
      assert tail[|tail| - |t|..] == s[|s| - |t|..];
      forall i | 0 <= i < |s| - |t|
        ensures IsStrWhiteSpace(s[i])
      {
        if i > 0 {
          assert s[i] == tail[i - 1];
        }
      }
    }
  }

  lemma {:induction false} DigitsValueBound(d: string)
    requires AllDigits(d)
    ensures DigitsValue(d) < Pow10(|d|)
  {
    if d != [] {
      var p := d[..|d| - 1];
      DigitsValueBound(p);
      assert DigitsValue(d) <= 10 * DigitsValue(p) + 9;
    }
  }

  /** LeadingDigits is the longest prefix of s made of digits. */
  lemma {:induction false} LeadingDigitsIsLongestDigitPrefix(s: string)
    ensures LeadingDigits(s) <= s
    ensures |LeadingDigits(s)| == |s| || !IsDigit(s[|LeadingDigits(s)|])
  {
    if s != [] && IsDigit(s[0]) {
      LeadingDigitsIsLongestDigitPrefix(s[1..]);
    }
  }

  lemma {:induction false} LeadingDigitsOfNumeral(d: string, rest: string)
    requires AllDigits(d)
    requires rest == [] || !IsDigit(rest[0])
    ensures LeadingDigits(d + rest) == d
  {
    if d != [] {
      assert (d + rest)[1..] == d[1..] + rest;
      LeadingDigitsOfNumeral(d[1..], rest);
    } else {
      assert d + rest == rest;
    }
  }

  lemma {:induction false} TrimStartSkipsWhiteSpace(w: string, s: string)
    requires forall i :: 0 <= i < |w| ==> IsStrWhiteSpace(w[i])
    ensures TrimStart(w + s) == TrimStart(s)
  {
    if w == [] {
      assert w + s == s;
    } else {
      assert (w + s)[1..] == w[1..] + s;
      TrimStartSkipsWhiteSpace(w[1..], s);
    }
  }

  /** Leading white space does not change what either parser reads. */
  lemma ParsersSkipWhiteSpace(w: string, s: string)
    requires forall i :: 0 <= i < |w| ==> IsStrWhiteSpace(w[i])
    ensures ParseInt(w + s) == ParseInt(s)
    ensures ParseFloat(w + s) == ParseFloat(s)
  {
    TrimStartSkipsWhiteSpace(w, s);
  }

  /** `parseInt` reads back the decimal numeral of any integer, whatever non-digit text follows it. */
  lemma ParseIntOfDecimal(k: int, rest: string)
    requires rest == [] || !IsDigit(rest[0])
    ensures ParseInt(IntToDecimal(k) + rest) == Finite(k as real)
  {
    if k < 0 {
      ParseIntOfNegative(-k, rest);
    } else {
      ParseIntOfNumeral(k, rest);
    }
  }

  lemma ParseIntOfNumeral(n: nat, rest: string)
    requires rest == [] || !IsDigit(rest[0])
    ensures ParseInt(NatToDecimal(n) + rest) == Finite(n as real)
  {
    var d := NatToDecimal(n);
    LeadingDigitsOfNumeral(d, rest);
    StartsWithDigit(d + rest);
  }

  lemma ParseIntOfNegative(n: nat, rest: string)
    requires rest == [] || !IsDigit(rest[0])
    ensures ParseInt("-" + NatToDecimal(n) + rest) == Finite(-(n as real))
  {
    var d := NatToDecimal(n);
    var s := "-" + d + rest;
    LeadingDigitsOfNumeral(d, rest);
    assert TrimStart(s) == s;
    assert SplitSign(s).rest == d + rest;
  }

  /** A string that starts with a digit is read from its first character, with no sign. */
  lemma StartsWithDigit(s: string)
    requires s != [] && IsDigit(s[0])
    ensures SplitSign(TrimStart(s)) == Signed(false, s)
    ensures !("Infinity" <= s)
  {
    assert TrimStart(s) == s;
    assert s[0] != 'I';
  }

  lemma UnsignedDecimalAfterNumeral(d: string, rest: string)
    requires AllDigits(d)
    requires rest == [] || !IsDigit(rest[0])
    ensures UnsignedDecimal(d + rest) == AfterWholeDigits(d, rest)
  {
    LeadingDigitsOfNumeral(d, rest);
    assert (d + rest)[|d|..] == rest;
  }

  lemma FractionOfVersion(d: string, minor: string, tail: string)
    requires d != [] && AllDigits(d) && AllDigits(minor)
    requires tail == [] || (!IsDigit(tail[0]) && tail[0] != 'e' && tail[0] != 'E')
    ensures AfterWholeDigits(d, "." + (minor + tail)) == Some(Mantissa(d, minor))
  {
    var rest := "." + (minor + tail);
    assert rest[1..] == minor + tail;
    LeadingDigitsOfNumeral(minor, tail);
    assert rest[1 + |minor|..] == tail;
    assert ExponentOf(tail) == 0 && Scale(0) == 1.0;
  }

  /** The digits after the point add less than one. */
  lemma FractionBelowOne(frac: string)
    requires AllDigits(frac)
    ensures 0.0 <= DigitsValue(frac) as real / Pow10(|frac|) as real < 1.0
  {
    DigitsValueBound(frac);
    QuotientBelowOne(DigitsValue(frac) as real, Pow10(|frac|) as real);
  }

  lemma QuotientBelowOne(x: real, p: real)
    requires 0.0 <= x < p
    ensures 0.0 <= x / p < 1.0
  {
    assert (x / p) * p == x;
  }

  lemma MantissaBounds(d: string, frac: string)
    requires AllDigits(d) && AllDigits(frac)
    ensures DigitsValue(d) as real <= Mantissa(d, frac) < (DigitsValue(d) + 1) as real
  {
    FractionBelowOne(frac);
  }

  /** The version string "major.minor" followed by a tail that does not continue the number. */
  function VersionString(major: nat, minor: string, tail: string): string {
    NatToDecimal(major) + ("." + (minor + tail))
  }

  /** `parseFloat` of a version string "major.minor..." is major plus the fraction minor. */
  lemma ParseFloatOfVersion(major: nat, minor: string, tail: string)
    requires AllDigits(minor)
    requires tail == [] || (!IsDigit(tail[0]) && tail[0] != 'e' && tail[0] != 'E')
    ensures ParseFloat(VersionString(major, minor, tail)) == Finite(Mantissa(NatToDecimal(major), minor))
  {
    var d := NatToDecimal(major);
    var rest := "." + (minor + tail);
    StartsWithDigit(d + rest);
    UnsignedDecimalAfterNumeral(d, rest);
    FractionOfVersion(d, minor, tail);
  }

  /** The value `parseFloat` reads from a version string has the major version as its integer part. */
  lemma ParseFloatOfVersionFloor(major: nat, minor: string, tail: string)
    requires AllDigits(minor)
    requires tail == [] || (!IsDigit(tail[0]) && tail[0] != 'e' && tail[0] != 'E')
    ensures ParseFloat(VersionString(major, minor, tail)).Finite?
    ensures ParseFloat(VersionString(major, minor, tail)).value.Floor == major
  {
    ParseFloatOfVersion(major, minor, tail);
    MantissaBounds(NatToDecimal(major), minor);
  }

  /** `parseInt` of a version string is its major version. */
  lemma ParseIntOfVersion(major: nat, minor: string, tail: string)
    ensures ParseInt(VersionString(major, minor, tail)) == Finite(major as real)
  {
    assert IntToDecimal(major) == NatToDecimal(major);
    ParseIntOfDecimal(major, "." + (minor + tail));
  }

  /** `parseFloat` of an integer numeral followed by text that cannot extend it is that integer. */
  lemma ParseFloatOfNumeral(n: nat, tail: string)
    requires tail == [] || (!IsDigit(tail[0]) && tail[0] != '.' && tail[0] != 'e' && tail[0] != 'E')
    ensures ParseFloat(NatToDecimal(n) + tail) == Finite(n as real)
  {
    var d := NatToDecimal(n);
    var s := d + tail;
    StartsWithDigit(s);
    LeadingDigitsOfNumeral(d, tail);
    assert s[|d|..] == tail;
    assert UnsignedDecimal(s) == Some(n as real);
  }
}
