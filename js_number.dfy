/**
 * Numbers as the bot sees them: decimal rendering of integers (String(n)),
 * parseInt(text, 10) and parseFloat(text). Doubles are modelled as exact
 * reals; rounding, overflow and negative zero are not modelled.
 */
module JsNumber {
  import opened Wrappers
  import opened JsString

  /** A JavaScript value as `typeof`, `isNaN` and the numeric comparisons see it. */
  datatype Value = Num(r: real) | Inf(negative: bool) | NaN | NonNumber

  predicate IsDigit(c: char)
  {
    '0' <= c <= '9'
  }

  predicate AllDigits(s: string)
  {
    forall i :: 0 <= i < |s| ==> IsDigit(s[i])
  }

  function DigitValue(c: char): nat
    requires IsDigit(c)
  {
    c as int - '0' as int
  }

  function DigitChar(d: nat): (c: char)
    requires d < 10
    ensures IsDigit(c) && DigitValue(c) == d
  {
    ('0' as int + d) as char
  }

  /** The decimal digits of `n` without leading zeros, as Number.prototype.toString writes an integer. */
  function Decimal(n: nat): (r: string)
    ensures |r| >= 1 && AllDigits(r)
    ensures r[0] == '0' <==> n == 0
    decreases n
  {
    if n < 10 then [DigitChar(n)] else Decimal(n / 10) + [DigitChar(n % 10)]
  }

  /** The value of a string of decimal digits. */
  function DigitsValue(s: string): nat
    requires AllDigits(s)
    decreases |s|
  {
    if s == [] then 0 else DigitsValue(s[..|s| - 1]) * 10 + DigitValue(s[|s| - 1])
  }

  /** A digit string as Decimal writes one: non-empty, and no leading zero unless it is "0". */
  predicate IsCanonical(s: string)
  {
    |s| >= 1 && AllDigits(s) && (s[0] == '0' ==> |s| == 1)
  }

  /** Reading back the digits of `n` gives `n`. */
  lemma {:induction false} DecimalValue(n: nat)
    ensures DigitsValue(Decimal(n)) == n
    decreases n
  {
    if n >= 10 {
      DecimalValue(n / 10);
      var r := Decimal(n);
      assert r[..|r| - 1] == Decimal(n / 10);
    }
  }

  lemma {:induction false} LeadingDigitNonZero(s: string)
    requires |s| >= 1 && AllDigits(s) && s[0] != '0'
    ensures DigitsValue(s) >= 1
    decreases |s|
  {
    if |s| > 1 {
      LeadingDigitNonZero(s[..|s| - 1]);
    }
  }

  /** Writing the value of a canonical digit string gives back the string. */
  lemma {:induction false} CanonicalDecimal(s: string)
    requires IsCanonical(s)
    ensures Decimal(DigitsValue(s)) == s
    decreases |s|
  {
    if |s| > 1 {
      var init := s[..|s| - 1];
      assert init[0] == s[0];
      CanonicalDecimal(init);
      LeadingDigitNonZero(init);
      var v := DigitsValue(s);
      assert v / 10 == DigitsValue(init) && v % 10 == DigitValue(s[|s| - 1]);
      assert s == init + [s[|s| - 1]];
    } else {
      assert DigitChar(DigitValue(s[0])) == s[0];
    }
  }

  /** String(i) for an integer `i`. */
  function IntToString(i: int): (r: string)
    ensures |r| >= 1 && (r[0] == '-' || IsDigit(r[0]))
    ensures i < 0 ==> r[1..] == Decimal(-i)
  {
    if i < 0 then "-" + Decimal(-i) else Decimal(i)
  }

  /** The longest prefix of `s` made of decimal digits. */
  function LeadingDigits(s: string): (r: string)
    ensures r <= s && AllDigits(r)
    ensures |r| == |s| || !IsDigit(s[|r|])
    ensures AllDigits(s) ==> r == s
    decreases |s|
  {
    if s != [] && IsDigit(s[0]) then [s[0]] + LeadingDigits(s[1..]) else []
  }

  lemma {:induction false} LeadingDigitsOfDigits(digits: string, tail: string)
    requires AllDigits(digits)
    requires tail == [] || !IsDigit(tail[0])
    ensures LeadingDigits(digits + tail) == digits
    decreases |digits|
  {
    if digits != [] {
      assert (digits + tail)[1..] == digits[1..] + tail;
      LeadingDigitsOfDigits(digits[1..], tail);
    } else {
      assert digits + tail == tail;
    }
  }

  /** An optional leading sign: whether it is '-', and the text after it. */
  function SignSplit(t: string): (split: (bool, string))
    ensures split.0 ==> t != [] && t[0] == '-'
  {
    if t != [] && (t[0] == '-' || t[0] == '+') then (t[0] == '-', t[1..]) else (false, t)
  }

  /** A signed value from its sign and magnitude. */
  function Signed(negative: bool, magnitude: nat): int
  {
    if negative then -(magnitude as int) else magnitude
  }

  /** An optionally signed run of decimal digits at the start of `t`; None when there are no digits. */
  function ReadInteger(t: string): (r: Option<int>)
    ensures r.Some? && r.value < 0 ==> t != [] && t[0] == '-'
  {
    var (negative, u) := SignSplit(t);
    var digits := LeadingDigits(u);
    if digits == [] then None else Some(Signed(negative, DigitsValue(digits)))
  }

  /** An unsigned run of digits reads as its value. */
  lemma ReadIntegerOfUnsigned(digits: string, tail: string)
    requires |digits| >= 1 && AllDigits(digits)
    requires tail == [] || !IsDigit(tail[0])
    ensures ReadInteger(digits + tail) == Some(DigitsValue(digits))
  {
    var u := digits + tail;
    assert u[0] == digits[0];
    assert SignSplit(u) == (false, u);
    LeadingDigitsOfDigits(digits, tail);
  }

  /** A run of digits alone reads as its value. */
  lemma ReadIntegerOfDigits(digits: string)
    requires |digits| >= 1 && AllDigits(digits)
    ensures ReadInteger(digits) == Some(DigitsValue(digits))
  {
    assert SignSplit(digits) == (false, digits);
  }

  /** A minus sign and a run of digits read as the negated value. */
  lemma ReadIntegerOfNegated(digits: string)
    requires |digits| >= 1 && AllDigits(digits)
    ensures ReadInteger("-" + digits) == Some(Signed(true, DigitsValue(digits)))
  {
    var t := "-" + digits;
    assert SignSplit(t) == (true, digits) by {
      assert t[0] == '-' && t[1..] == digits;
    }
    ReadIntegerOfSign(t, true, digits);
  }

  /** Once the sign is split off, a run of digits reads as its signed value. */
  lemma ReadIntegerOfSign(t: string, negative: bool, u: string)
    requires SignSplit(t) == (negative, u)
    requires |u| >= 1 && AllDigits(u)
    ensures ReadInteger(t) == Some(Signed(negative, DigitsValue(u)))
  {
  }

  /**
   * parseInt(s, 10), with NaN as None: skip leading whitespace, read an
   * optional sign and then as many decimal digits as follow; no digits is NaN.
   */
  function ParseInt(s: string): (r: Option<int>)
    ensures r.Some? && r.value < 0 ==> TrimStart(s) != [] && TrimStart(s)[0] == '-'
  {
    ReadInteger(TrimStart(s))
  }

  /** Removing leading whitespace stops at the first other character. */
  lemma {:induction false} TrimStartOfPadded(pad: string, s: string)
    requires AllWhitespace(pad)
    requires s == [] || !IsWhitespace(s[0])
    ensures TrimStart(pad + s) == s
    decreases |pad|
  {
    if pad == [] {
      assert pad + s == s;
    } else {
      assert (pad + s)[1..] == pad[1..] + s;
      TrimStartOfPadded(pad[1..], s);
    }
  }

  /** Text that does not start with whitespace has nothing to trim. */
  lemma TrimStartOfUnpadded(s: string)
    requires s != [] && !IsWhitespace(s[0])
    ensures TrimStart(s) == s
  {
    TrimStartOfPadded([], s);
    assert [] + s == s;
  }

  /** parseInt reads the digits String writes for a natural number. */
  lemma ParseIntOfNatural(i: int)
    requires i >= 0
    ensures ParseInt(IntToString(i)) == Some(i)
  {
    var d := Decimal(i);
    assert IntToString(i) == d;
    DecimalValue(i);
    assert IsDigit(d[0]);
    TrimStartOfUnpadded(d);
    ReadIntegerOfDigits(d);
  }

  /** parseInt reads the minus sign and digits String writes for a negative number. */
  lemma ParseIntOfNegative(i: int)
    requires i < 0
    ensures ParseInt(IntToString(i)) == Some(i)
  {
    var d := Decimal(-i);
    var s := "-" + d;
    assert IntToString(i) == s;
    DecimalValue(-i);
    assert s[0] == '-';
    TrimStartOfUnpadded(s);
    ReadIntegerOfNegated(d);
    assert Signed(true, -i) == i;
  }

  /** parseInt reads the integer String writes. */
  lemma ParseIntRoundTrip(i: int)
    ensures ParseInt(IntToString(i)) == Some(i)
  {
    if i < 0 {
      ParseIntOfNegative(i);
    } else {
      ParseIntOfNatural(i);
    }
  }

  /** parseInt reads leading digits and ignores whatever follows them ("10abc" is 10, "3.7" is 3). */
  lemma ParseIntOfPrefix(pad: string, digits: string, tail: string)
    requires AllWhitespace(pad)
    requires |digits| >= 1 && AllDigits(digits)
    requires tail == [] || !IsDigit(tail[0])
    ensures ParseInt(pad + digits + tail) == Some(DigitsValue(digits))
  {
    ParseIntOfPadded(pad, digits, tail);
    ReadIntegerOfUnsigned(digits, tail);
  }

  /** parseInt skips the leading whitespace before a digit. */
  lemma ParseIntOfPadded(pad: string, digits: string, tail: string)
    requires AllWhitespace(pad)
    requires |digits| >= 1 && AllDigits(digits)
    ensures ParseInt(pad + digits + tail) == ReadInteger(digits + tail)
  {
    var u := digits + tail;
    assert u[0] == digits[0];
    TrimStartOfPadded(pad, u);
    assert pad + digits + tail == pad + u;
  }

  /** parseInt finds no number in text whose first character after whitespace and sign is not a digit. */
  lemma ParseIntNoDigits(pad: string, rest: string)
    requires AllWhitespace(pad)
    requires rest != [] && !IsWhitespace(rest[0]) && !IsDigit(rest[0])
    requires rest[0] == '-' || rest[0] == '+' ==> |rest| == 1 || !IsDigit(rest[1])
    ensures ParseInt(pad + rest) == None
  {
    TrimStartOfPadded(pad, rest);
  }

  /** 10 to the power `n`. */
  function Pow10(n: nat): (r: real)
    ensures r >= 1.0
  {
    if n == 0 then 1.0 else 10.0 * Pow10(n - 1)
  }

  /** `m` times 10 to the power `e`, for a signed exponent. */
  function Scaled(m: real, e: int): (r: real)
    requires m >= 0.0
    ensures r >= 0.0
    ensures e == 0 ==> r == m
  {
    if e >= 0 then PowerScaled(m, e) else m / Pow10(-e)
  }

  /** `m` times 10 to the power `n`. */
  function PowerScaled(m: real, n: nat): (r: real)
    requires m >= 0.0
    ensures r >= m
  {
    if n == 0 then m else 10.0 * PowerScaled(m, n - 1)
  }

  /** An ExponentPart at the start of `s`: 'e' or 'E' and a signed integer. */
  function ExponentPrefix(s: string): Option<int>
  {
    if s != [] && (s[0] == 'e' || s[0] == 'E') then ReadInteger(s[1..]) else None
  }

  /** The fraction digits after a leading '.', if `s` starts with one. */
  function FractionDigits(s: string): (f: string)
    ensures AllDigits(f)
    ensures f != [] ==> |s| >= 1 + |f| && s[0] == '.' && s[1..1 + |f|] == f
  {
    if s != [] && s[0] == '.' then LeadingDigits(s[1..]) else []
  }

  /** The value of the digits `whole` "." `fraction`. */
  function Mantissa(whole: string, fraction: string): (m: real)
    requires AllDigits(whole) && AllDigits(fraction)
    ensures m >= DigitsValue(whole) as real
    ensures fraction == [] ==> m == DigitsValue(whole) as real
  {
    DigitsValue(whole) as real + DigitsValue(fraction) as real / Pow10(|fraction|)
  }

  /**
   * The magnitude of the StrUnsignedDecimalLiteral at the start of `u`:
   * digits, an optional '.' with digits, and an optional exponent; at least
   * one digit before or after the point.
   */
  function UnsignedDecimal(u: string): (m: Option<real>)
    ensures m.Some? ==> m.value >= 0.0
  {
    var whole := LeadingDigits(u);
    var afterWhole := u[|whole|..];
    var fraction := FractionDigits(afterWhole);
    if whole == [] && fraction == [] then None
    else
      var hasPoint := afterWhole != [] && afterWhole[0] == '.';
      var rest := if hasPoint then afterWhole[1 + |fraction|..] else afterWhole;
      Some(Scaled(Mantissa(whole, fraction), ExponentPrefix(rest).GetOr(0)))
  }

  /** A signed magnitude. */
  function SignedReal(negative: bool, magnitude: real): real
  {
    if negative then -magnitude else magnitude
  }

  /** A StrDecimalLiteral at the start of `t`: a sign, then "Infinity" or an unsigned decimal. */
  function ReadDecimal(t: string): (v: Value)
    ensures v != NonNumber
    ensures (v.Num? && v.r < 0.0) || v == Inf(true) ==> t != [] && t[0] == '-'
  {
    var (negative, u) := SignSplit(t);
    if "Infinity" <= u then Inf(negative)
    else
      match UnsignedDecimal(u)
      case None => NaN
      case Some(magnitude) => Num(SignedReal(negative, magnitude))
  }

  /**
   * parseFloat(s): the value of the longest prefix of the trimmed text that is
   * a StrDecimalLiteral; NaN when there is none.
   */
  function ParseFloat(s: string): (v: Value)
    ensures v != NonNumber
    ensures (v.Num? && v.r < 0.0) || v == Inf(true) ==> TrimStart(s) != [] && TrimStart(s)[0] == '-'
  {
    ReadDecimal(TrimStart(s))
  }

  /** The unsigned decimal of a digit string alone is its integer value. */
  lemma UnsignedDecimalOfDigits(digits: string)
    requires |digits| >= 1 && AllDigits(digits)
    ensures UnsignedDecimal(digits) == Some(DigitsValue(digits) as real)
  {
    LeadingDigitsOfDigits(digits, []);
    assert digits + [] == digits;
    assert digits[|digits|..] == [];
    assert FractionDigits([]) == [];
    assert ExponentPrefix([]) == None;
  }

  /** The unsigned decimal of "whole.fraction". */
  lemma UnsignedDecimalOfFraction(whole: string, fraction: string)
    requires |whole| >= 1 && AllDigits(whole) && AllDigits(fraction)
    ensures UnsignedDecimal(whole + ("." + fraction)) == Some(Mantissa(whole, fraction))
  {
    var u := whole + ("." + fraction);
    LeadingDigitsOfDigits(whole, "." + fraction);
    assert u[|whole|..] == "." + fraction;
    assert ("." + fraction)[1..] == fraction;
    LeadingDigitsOfDigits(fraction, []);
    assert fraction + [] == fraction;
    assert FractionDigits("." + fraction) == fraction;
    assert ("." + fraction)[1 + |fraction|..] == [];
    assert ExponentPrefix([]) == None;
  }

  /** A decimal literal that starts with a digit. */
  lemma ReadDecimalOfUnsigned(u: string, m: real)
    requires u != [] && IsDigit(u[0]) && UnsignedDecimal(u) == Some(m)
    ensures ReadDecimal(u) == Num(m)
  {
    assert SignSplit(u) == (false, u);
    assert !("Infinity" <= u) by { assert u[0] != "Infinity"[0]; }
  }

  /** A minus sign and a decimal literal that starts with a digit. */
  lemma ReadDecimalOfNegated(u: string, m: real)
    requires u != [] && IsDigit(u[0]) && UnsignedDecimal(u) == Some(m)
    ensures ReadDecimal("-" + u) == Num(SignedReal(true, m))
  {
    var s := "-" + u;
    assert s[0] == '-' && s[1..] == u;
    assert SignSplit(s) == (true, u);
    assert !("Infinity" <= u) by { assert u[0] != "Infinity"[0]; }
  }

  /** parseFloat of an unsigned decimal that starts with a digit. */
  lemma ParseFloatOfUnsigned(u: string, m: real)
    requires u != [] && IsDigit(u[0]) && UnsignedDecimal(u) == Some(m)
    ensures ParseFloat(u) == Num(m)
  {
    TrimStartOfUnpadded(u);
    ReadDecimalOfUnsigned(u, m);
  }

  /** parseFloat of a negated unsigned decimal that starts with a digit. */
  lemma ParseFloatOfNegated(u: string, m: real)
    requires u != [] && IsDigit(u[0]) && UnsignedDecimal(u) == Some(m)
    ensures ParseFloat("-" + u) == Num(SignedReal(true, m))
  {
    var s := "-" + u;
    assert s[0] == '-';
    TrimStartOfUnpadded(s);
    ReadDecimalOfNegated(u, m);
  }

  /** parseFloat reads the digits String writes for a natural number. */
  lemma ParseFloatOfNatural(i: int)
    requires i >= 0
    ensures ParseFloat(IntToString(i)) == Num(i as real)
  {
    var u := Decimal(i);
    assert IntToString(i) == u;
    UnsignedDecimalOfDigits(u);
    DecimalValue(i);
    ParseFloatOfUnsigned(u, i as real);
  }

  /** parseFloat reads the minus sign and digits String writes for a negative number. */
  lemma ParseFloatOfNegative(i: int)
    requires i < 0
    ensures ParseFloat(IntToString(i)) == Num(i as real)
  {
    var u := Decimal(-i);
    assert IntToString(i) == "-" + u;
    UnsignedDecimalOfDigits(u);
    DecimalValue(-i);
    ParseFloatOfNegated(u, (-i) as real);
    assert SignedReal(true, (-i) as real) == i as real;
  }

  /** parseFloat reads the integer String writes. */
  lemma ParseFloatOfInteger(i: int)
    ensures ParseFloat(IntToString(i)) == Num(i as real)
  {
    if i < 0 {
      ParseFloatOfNegative(i);
    } else {
      ParseFloatOfNatural(i);
    }
  }

  /** parseFloat reads a decimal fraction "whole.fraction". */
  lemma ParseFloatOfDecimal(whole: string, fraction: string)
    requires |whole| >= 1 && AllDigits(whole) && AllDigits(fraction)
    ensures ParseFloat(whole + ("." + fraction)) == Num(Mantissa(whole, fraction))
  {
    UnsignedDecimalOfFraction(whole, fraction);
    var u := whole + ("." + fraction);
    assert u[0] == whole[0];
    ParseFloatOfUnsigned(u, Mantissa(whole, fraction));
  }
}
