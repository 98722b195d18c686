/** The Python values a setting can be handed (`None`, `bool`, `int`, `float`,
    `str`) and the built-in conversions `bool()`, `int()`, `float()` and `str()`
    that the settings' correction functions apply to them. Strings are ASCII;
    floats are exact reals. */
module PyValues {
  import opened Wrappers
  import opened PyErrors
  import Text

  datatype Value =
    | NoneValue
    | BoolValue(b: bool)
    | IntValue(i: int)
    | FloatValue(f: real)
    | StrValue(s: string)

  /** `isinstance(v, int)`: a `bool` is an `int` in Python. */
  predicate IsInt(v: Value)
  {
    v.IntValue? || v.BoolValue?
  }

  /** `bool(v)`: Python truthiness; it never raises for these values. */
  function Truth(v: Value): bool
  {
    match v
    case NoneValue => false
    case BoolValue(b) => b
    case IntValue(i) => i != 0
    case FloatValue(f) => f != 0.0
    case StrValue(s) => s != ""
  }

  /** `int(x)` on a float: rounding towards zero. */
  function Truncate(f: real): (r: int)
    ensures f >= 0.0 ==> 0 <= r && r as real <= f < r as real + 1.0
    ensures f < 0.0 ==> r <= 0 && r as real - 1.0 < f <= r as real
  {
    if f >= 0.0 then f.Floor else -((-f).Floor)
  }

  /** `int(v)`: booleans are 0 or 1, floats are truncated, strings must hold a
      decimal integer (`ValueError` otherwise); `int(None)` is a `TypeError`. */
  function ToInt(v: Value): (r: Result<int, Exception>)
    ensures r.Failure? ==> r.error == (if v.NoneValue? then TypeError else ValueError)
    ensures v.IntValue? ==> r == Success(v.i)
    ensures v.StrValue? ==> (r.Success? <==> Text.ParseInt(v.s).Some?)
  {
    match v
    case NoneValue => Failure(TypeError)
    case BoolValue(b) => Success(if b then 1 else 0)
    case IntValue(i) => Success(i)
    case FloatValue(f) => Success(Truncate(f))
    case StrValue(s) =>
      match Text.ParseInt(s)
      case Some(i) => Success(i)
      case None => Failure(ValueError)
  }

  /** `int(str(i)) == i`. */
  lemma ToIntOfString(i: int)
    ensures ToInt(StrValue(Text.IntToString(i))) == Success(i)
  {
    Text.ParseIntToString(i);
  }

  /** `10 ** n`. */
  function Pow10(n: nat): (r: nat)
    ensures r >= 1
  {
    if n == 0 then 1 else 10 * Pow10(n - 1)
  }

  /** `n` digits denote a number below `10 ** n`. */
  lemma {:induction false} DigitsBelowPow10(b: string)
    requires Text.AllDigits(b)
    ensures Text.DigitsValue(b) < Pow10(|b|)
  {
    if b != [] {
      var init := b[..|b| - 1];
      assert Text.AllDigits(init) by {
        forall i | 0 <= i < |init| ensures Text.IsDigit(init[i]) { assert init[i] == b[i]; }
      }
      DigitsBelowPow10(init);
    }
  }

  lemma ProperFraction(n: nat, d: nat)
    requires n < d
    ensures 0.0 <= n as real / d as real < 1.0
  {
    var q := n as real / d as real;
    assert q * d as real == n as real;
  }

  /** The value of `a.b` written in decimal digits: the digits after the point
      add a fraction below one. */
  function DecimalValue(a: string, b: string): (r: real)
    requires Text.AllDigits(a) && Text.AllDigits(b)
    ensures Text.DigitsValue(a) as real <= r < Text.DigitsValue(a) as real + 1.0
  {
    var frac := Text.DigitsValue(b) as real / Pow10(|b|) as real;
    DigitsBelowPow10(b);
    ProperFraction(Text.DigitsValue(b), Pow10(|b|));
    Text.DigitsValue(a) as real + frac
  }

  /** The position of the first `.`, or the length when there is none. */
  function DotIndex(t: string): (k: nat)
    ensures k <= |t| && (k < |t| ==> t[k] == '.')
    ensures forall m :: 0 <= m < k ==> t[m] != '.'
  {
    if t == [] || t[0] == '.' then 0 else 1 + DotIndex(t[1..])
  }

  /** The unsigned part of a decimal literal: digits with at most one `.`, and
      at least one digit. */
  function ParseUnsignedDecimal(t: string): (r: Option<real>)
    ensures r.Some? ==> r.value >= 0.0
  {
    var k := DotIndex(t);
    if k == |t| then
      if |t| > 0 && Text.AllDigits(t) then Some(Text.DigitsValue(t) as real) else None
    else
      var a, b := t[..k], t[k + 1..];
      if |a| + |b| > 0 && Text.AllDigits(a) && Text.AllDigits(b) then Some(DecimalValue(a, b)) else None
  }

  /** `float(s)` for a decimal literal such as ` -12.5 `. */
  function ParseFloat(s: string): Option<real>
  {
    var t := Text.Strip(s);
    if |t| > 0 && (t[0] == '-' || t[0] == '+') then
      match ParseUnsignedDecimal(t[1..])
      case Some(x) => Some(if t[0] == '-' then -x else x)
      case None => None
    else ParseUnsignedDecimal(t)
  }

  /** `float(v)`: booleans and ints convert exactly, strings must hold a
      decimal literal (`ValueError` otherwise); `float(None)` is a `TypeError`. */
  function ToFloat(v: Value): (r: Result<real, Exception>)
    ensures r.Failure? ==> r.error == (if v.NoneValue? then TypeError else ValueError)
    ensures IsInt(v) ==> r.Success?
    ensures v.IntValue? ==> r == Success(v.i as real)
    ensures v.FloatValue? ==> r == Success(v.f)
  {
    match v
    case NoneValue => Failure(TypeError)
    case BoolValue(b) => Success(if b then 1.0 else 0.0)
    case IntValue(i) => Success(i as real)
    case FloatValue(f) => Success(f)
    case StrValue(s) =>
      match ParseFloat(s)
      case Some(x) => Success(x)
      case None => Failure(ValueError)
  }

  /** `float(str(i))` for an integer literal: the integer's value. */
  lemma ToFloatOfIntString(i: int)
    ensures ToFloat(StrValue(Text.IntToString(i))) == Success(i as real)
  {
    var s := Text.IntToString(i);
    Text.StripUnchanged(s);
    if i < 0 {
      var d := Text.NatToString(-i);
      assert s[1..] == d;
      assert forall k :: 0 <= k < |d| ==> d[k] != '.' by {
        assert Text.AllDigits(d);
      }
    } else {
      assert forall k :: 0 <= k < |s| ==> s[k] != '.' by {
        assert Text.AllDigits(s);
      }
    }
  }

  /** Up to `n` decimal digits of a fraction in [0, 1), truncated, without
      trailing zeros. */
  function FractionDigits(x: real, n: nat): (r: string)
    requires 0.0 <= x < 1.0
    ensures Text.AllDigits(r) && |r| <= n
    decreases n
  {
    if n == 0 || x == 0.0 then ""
    else
      var d := (x * 10.0).Floor;
      var rest := FractionDigits(x * 10.0 - d as real, n - 1);
      if d == 0 && rest == "" then "" else [Text.DigitChar(d)] + rest
  }

  /** `str(f)` for a float: sign, integral digits, `.`, then the fraction's
      digits, `0` for an integral value. */
  function FloatText(f: real): (r: string)
    ensures |r| > 0
  {
    var a := if f < 0.0 then -f else f;
    var whole := a.Floor;
    var frac := FractionDigits(a - whole as real, 17);
    (if f < 0.0 then "-" else "") + Text.NatToString(whole) + "." + (if frac == "" then "0" else frac)
  }

  /** `str(v)`; it never raises for these values. */
  function ToStr(v: Value): string
  {
    match v
    case NoneValue => "None"
    case BoolValue(b) => if b then "True" else "False"
    case IntValue(i) => Text.IntToString(i)
    case FloatValue(f) => FloatText(f)
    case StrValue(s) => s
  }
}
