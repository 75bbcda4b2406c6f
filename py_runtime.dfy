/** The small part of Python's runtime behaviour that the validation scripts and the
    report generator rely on: exceptions as a Result, `str()` of integers, and the
    fixed-point `format` specifiers `.1f` / `.2f`. */
module PyRuntime {

  datatype Option<+T> = None | Some(value: T)

  /** The exceptions the modelled code can raise. */
  datatype PyError =
    | KeyError(key: string)   // a missing dictionary key or DataFrame column
    | TypeError               // an operation applied to a value of the wrong type
    | ValueError              // a format specifier the value does not support

  /** A computation that either returns a value or raises a Python exception. */
  datatype Result<+T> = Ok(value: T) | Err(error: PyError) {
    predicate IsFailure() { Err? }
    function PropagateFailure<U>(): Result<U> requires Err? { Err(error) }
    function Extract(): T requires Ok? { value }
  }

  function Min(a: int, b: int): int { if a <= b then a else b }

  predicate IsDigit(c: char) { '0' <= c <= '9' }

  function DigitChar(d: nat): (c: char)
    requires d < 10
    ensures IsDigit(c) && c as int - '0' as int == d
  {
    ('0' as int + d) as char
  }

  /** `str(n)` for a non-negative integer: its decimal digits, most significant first. */
  function NatToDecimal(n: nat): (s: string)
    ensures |s| > 0
    ensures forall k :: 0 <= k < |s| ==> IsDigit(s[k])
  {
    if n < 10 then [DigitChar(n)] else NatToDecimal(n / 10) + [DigitChar(n % 10)]
  }

  /** The value of a string of decimal digits. */
  function DigitsValue(s: string): nat
    requires forall k :: 0 <= k < |s| ==> IsDigit(s[k])
  {
    if s == [] then 0
    else
      assert IsDigit(s[|s| - 1]);
      10 * DigitsValue(s[..|s| - 1]) + (s[|s| - 1] as int - '0' as int)
  }

  /** Reading the digits back gives the number: `int(str(n)) == n`. */
  lemma {:induction false} NatToDecimalRoundTrip(n: nat)
    ensures DigitsValue(NatToDecimal(n)) == n
  {
    if n >= 10 {
      NatToDecimalRoundTrip(n / 10);
      var s := NatToDecimal(n);
      assert s[..|s| - 1] == NatToDecimal(n / 10);
    }
  }

  /** `str(i)` for any integer. */
  function Decimal(i: int): (s: string)
    ensures |s| > 0
    ensures forall k :: 0 <= k < |s| ==> s[k] == '-' || IsDigit(s[k])
    ensures (s[0] == '-') == (i < 0)
  {
    if i < 0 then "-" + NatToDecimal(-i) else NatToDecimal(i)
  }

  function Pow10(d: nat): (p: nat)
    ensures p >= 1
  {
    if d == 0 then 1 else 10 * Pow10(d - 1)
  }

  /** The integer nearest to `x`, ties to the even neighbour. */
  function RoundHalfEven(x: real): (r: int)
    ensures x - 0.5 <= r as real <= x + 0.5
    ensures x >= 0.0 ==> r >= 0
  {
    var f := x.Floor;
    var frac := x - f as real;
    if frac < 0.5 then f
    else if frac > 0.5 then f + 1
    else if f % 2 == 0 then f
    else f + 1
  }

  /** Left-pads with zeros up to `width` characters. */
  function PadZeros(s: string, width: nat): (r: string)
    ensures |r| == if |s| >= width then |s| else width
    ensures (forall k :: 0 <= k < |s| ==> IsDigit(s[k])) ==> forall k :: 0 <= k < |r| ==> IsDigit(r[k])
    decreases width - |s|
  {
    if |s| >= width then s else PadZeros("0" + s, width)
  }

  /** `format(x, ".<digits>f")`: fixed-point notation with `digits` decimals,
      rounding the exact value half to even. */
  function FormatFixed(x: real, digits: nat): string
  {
    var sign := if x < 0.0 then "-" else "";
    var magnitude := if x < 0.0 then -x else x;
    var p := Pow10(digits);
    var scaled := RoundHalfEven(ScaleUp(magnitude, p));
    if digits == 0 then sign + Decimal(scaled)
    else sign + Decimal(scaled / p) + "." + PadZeros(Decimal(scaled % p), digits)
  }

  /** The shape of `format(x, ".<digits>f")`: a minus sign exactly for a negative `x`,
      and for `digits > 0` a point followed by exactly `digits` digits. */
  lemma FormatFixedShape(x: real, digits: nat)
    ensures var s := FormatFixed(x, digits);
      && |s| > 0 && (s[0] == '-' <==> x < 0.0)
      && (digits > 0 ==>
        && |s| >= digits + 2
        && s[|s| - digits - 1] == '.'
        && forall k :: |s| - digits <= k < |s| ==> IsDigit(s[k]))
  {
    var sign := if x < 0.0 then "-" else "";
    var magnitude := if x < 0.0 then -x else x;
    var p := Pow10(digits);
    var scaled := RoundHalfEven(ScaleUp(magnitude, p));
    if digits == 0 {
      SignOfJoin(sign, Decimal(scaled), x < 0.0);
    } else {
      QuotientNonNegative(scaled, p);
      DecimalWidth(scaled % p, digits);
      FixedPointParts(sign, Decimal(scaled / p), PadZeros(Decimal(scaled % p), digits), x < 0.0);
    }
  }

  /** A sign, an integer part without a sign, a point and the digits after it. */
  lemma FixedPointParts(sign: string, whole: string, tail: string, negative: bool)
    requires sign == if negative then "-" else ""
    requires |whole| > 0 && whole[0] != '-'
    requires forall k :: 0 <= k < |tail| ==> IsDigit(tail[k])
    ensures var s := sign + whole + "." + tail;
      && |s| >= |tail| + 2 && (s[0] == '-' <==> negative)
      && s[|s| - |tail| - 1] == '.'
      && forall k :: |s| - |tail| <= k < |s| ==> IsDigit(s[k])
  {
    var s := sign + whole + "." + tail;
    assert s == sign + (whole + "." + tail);
    SignOfJoin(sign, whole + "." + tail, negative);
    assert forall k :: |s| - |tail| <= k < |s| ==> s[k] == tail[k - (|s| - |tail|)];
  }

  /** A number below `10^d` has at most `d` digits. */
  lemma {:induction false} DecimalWidth(n: nat, d: nat)
    requires d > 0 && n < Pow10(d)
    ensures |Decimal(n)| <= d
  {
    if n >= 10 {
      DecimalWidth(n / 10, d - 1);
    }
  }

  lemma QuotientNonNegative(a: int, b: int)
    requires a >= 0 && b > 0
    ensures a / b >= 0 && 0 <= a % b < b
  {
  }

  lemma SignOfJoin(sign: string, digits: string, negative: bool)
    requires sign == if negative then "-" else ""
    requires |digits| > 0 && digits[0] != '-'
    ensures |sign + digits| > 0 && ((sign + digits)[0] == '-' <==> negative)
  {
  }

  /** `x * p` for a non-negative `x` and a positive power of ten. */
  function ScaleUp(x: real, p: nat): (r: real)
    requires x >= 0.0 && p >= 1
    ensures r >= 0.0
  {
    x * p as real
  }

  /** `str(x)` for a float: integral values print with a trailing ".0"; other values
      are shown with six decimals, a stand-in for Python's shortest round-trip repr. */
  function ShowFloat(x: real): string
  {
    if x == x.Floor as real then Decimal(x.Floor) + ".0" else FormatFixed(x, 6)
  }
}
