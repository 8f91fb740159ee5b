/**
 * JavaScript numbers as the host side uses them for positions and sizes:
 * integers, the two infinities and NaN, with the language's arithmetic,
 * comparisons, Math.min, String(n) and parseInt(s, 10) on them.
 */
module JsNumber {
  import Decimal

  datatype Number = Int(v: int) | PosInf | NegInf | NaN

  function Neg(a: Number): Number
  {
    match a
    case Int(x) => Int(-x)
    case PosInf => NegInf
    case NegInf => PosInf
    case NaN => NaN
  }

  /** a + b */
  function Add(a: Number, b: Number): Number
  {
    match (a, b)
    case (NaN, _) => NaN
    case (_, NaN) => NaN
    case (PosInf, NegInf) => NaN
    case (NegInf, PosInf) => NaN
    case (PosInf, _) => PosInf
    case (_, PosInf) => PosInf
    case (NegInf, _) => NegInf
    case (_, NegInf) => NegInf
    case (Int(x), Int(y)) => Int(x + y)
  }

  /** a - b */
  function Sub(a: Number, b: Number): Number
  {
    Add(a, Neg(b))
  }

  /** a < b; every comparison with NaN is false */
  predicate Less(a: Number, b: Number)
  {
    match (a, b)
    case (NaN, _) => false
    case (_, NaN) => false
    case (Int(x), Int(y)) => x < y
    case (NegInf, _) => b != NegInf
    case (_, PosInf) => a != PosInf
    case (_, _) => false
  }

  /** a <= b */
  predicate LessEq(a: Number, b: Number)
  {
    a != NaN && b != NaN && !Less(b, a)
  }

  /** a > b */
  predicate Greater(a: Number, b: Number)
  {
    Less(b, a)
  }

  /** a === b: NaN equals nothing, not even itself */
  predicate StrictEq(a: Number, b: Number)
  {
    a != NaN && a == b
  }

  /** Math.min(a, b) */
  function Min(a: Number, b: Number): Number
  {
    if a == NaN || b == NaN then NaN else if Less(b, a) then b else a
  }

  /** String(n) for integers below 10^21 in magnitude */
  function ToString(a: Number): string
  {
    match a
    case Int(x) => Decimal.IntToString(x)
    case PosInf => "Infinity"
    case NegInf => "-Infinity"
    case NaN => "NaN"
  }

  /** The white-space and line-terminator characters parseInt skips. */
  predicate IsWhiteSpace(c: char)
  {
    c == '\t' || c == '\n' || c == '\U{000B}' || c == '\U{000C}' || c == '\r' || c == ' '
    || c == '\U{00A0}' || c == '\U{1680}' || ('\U{2000}' <= c <= '\U{200A}')
    || c == '\U{2028}' || c == '\U{2029}' || c == '\U{202F}' || c == '\U{205F}'
    || c == '\U{3000}' || c == '\U{FEFF}'
  }

  function TrimStart(s: string): (t: string)
    ensures |t| <= |s| && t == s[|s| - |t|..]
    ensures t == [] || !IsWhiteSpace(t[0])
    decreases |s|
  {
    if s != [] && IsWhiteSpace(s[0]) then TrimStart(s[1..]) else s
  }

  /** The longest prefix of s made of decimal digits. */
  function DigitPrefix(s: string): (d: string)
    ensures Decimal.AllDigits(d) && d <= s
    ensures |d| < |s| ==> !Decimal.IsDigit(s[|d|])
    decreases |s|
  {
    if s != [] && Decimal.IsDigit(s[0]) then [s[0]] + DigitPrefix(s[1..]) else []
  }

  /**
   * parseInt(s, 10): skip leading white space, read an optional sign and the
   * longest run of digits after it; NaN when there is no digit.
   */
  function ParseInt10(s: string): Number
  {
    var t := TrimStart(s);
    var negative := t != [] && t[0] == '-';
    var rest := if t != [] && (t[0] == '-' || t[0] == '+') then t[1..] else t;
    var d := DigitPrefix(rest);
    if d == [] then NaN
    else if negative then Int(-(Decimal.DigitsValue(d) as int))
    else Int(Decimal.DigitsValue(d))
  }

  lemma {:induction false} DigitPrefixOfDigits(s: string)
    requires Decimal.AllDigits(s)
    ensures DigitPrefix(s) == s
    decreases |s|
  {
    if s != [] {
      DigitPrefixOfDigits(s[1..]);
    }
  }

  /** parseInt reads back exactly the number whose decimal digits it is given. */
  lemma ParseIntOfDigits(n: nat)
    ensures ParseInt10(Decimal.NatToString(n)) == Int(n)
  {
    var s := Decimal.NatToString(n);
    assert TrimStart(s) == s;
    DigitPrefixOfDigits(s);
    Decimal.NatToStringValue(n);
  }
}
