/**
 * The slice of JavaScript's value semantics that the WeeRT server and client
 * code relies on: numbers with NaN and the infinities, the unary `+`
 * conversion, truthiness, `new Date(...)` time values, and objects that the
 * server code changes in place.
 */
module JsValue {
  import opened Wrappers

  /** An IEEE double as JavaScript sees it, kept exact: rounding to 53 bits is not modelled. */
  datatype JsNumber = NaN | PosInf | NegInf | Finite(value: real)

  /** A JavaScript value. Functions are compared by identity, so they carry only an id. */
  datatype JsVal =
    | Undefined
    | Null
    | Bool(b: bool)
    | Num(n: JsNumber)
    | Str(s: string)
    | Arr(elems: seq<JsVal>)
    | Obj(props: map<string, JsVal>)
    | Date(time: JsNumber)
    | Function(id: nat)

  /** A plain object, keyed by property name. */
  type Props = map<string, JsVal>

  /** An object that the source changes in place, so that the change is visible to its owner. */
  class JsObject {
    var props: Props

    constructor (p: Props)
      ensures props == p
    {
      props := p;
    }
  }

  /** Property read `o.k` on a plain object: a missing own property reads as undefined. */
  function Get(o: Props, k: string): (v: JsVal)
    ensures k !in o ==> v == Undefined
    ensures k in o ==> v == o[k]
  {
    if k in o then o[k] else Undefined
  }

  /** `new Error(message)` with the given `name`, as the server's error objects are built. */
  function ErrorObject(name: string, message: string): (e: Props)
    ensures Get(e, "name") == Str(name) && Get(e, "message") == Str(message)
    ensures e.Keys == {"name", "message"}
  {
    map["name" := Str(name), "message" := Str(message)]
  }

  /** The TypeError thrown by calling `name`, which is not a function. */
  function NotAFunction(name: string): (e: Props)
    ensures Get(e, "name") == Str("TypeError") && Get(e, "message") == Str(name + " is not a function")
  {
    ErrorObject("TypeError", name + " is not a function")
  }

  /** A plain `new Error(message)`. */
  function PlainError(message: string): Props {
    ErrorObject("Error", message)
  }

  /** JavaScript's ToBoolean: the test done by `if (x)` and `!x`. */
  predicate Truthy(v: JsVal) {
    match v
    case Undefined => false
    case Null => false
    case Bool(b) => b
    case Num(n) => (n.Finite? && n.value != 0.0) || n.PosInf? || n.NegInf?
    case Str(s) => |s| > 0
    case _ => true
  }

  /**
   * The test `typeof x !== 'number' || (x % 1) !== 0` that the server applies after `+x`:
   * it passes exactly for finite numbers without a fractional part.
   */
  predicate IsIntegral(n: JsNumber) {
    n.Finite? && n.value.Floor as real == n.value
  }

  function IntegralValue(n: JsNumber): (i: int)
    requires IsIntegral(n)
    ensures i as real == n.value
  {
    n.value.Floor
  }

  // ---------------------------------------------------------------------------
  // Characters and strings
  // ---------------------------------------------------------------------------

  /** WhiteSpace and LineTerminator code points of ECMAScript (section 12.2 and 12.3 of ECMA-262). */
  predicate IsJsSpace(c: char) {
    var u := c as int;
    u == 0x09 || u == 0x0B || u == 0x0C || u == 0x20 || u == 0xA0 || u == 0xFEFF
    || u == 0x1680 || (0x2000 <= u <= 0x200A) || u == 0x202F || u == 0x205F || u == 0x3000
    || u == 0x0A || u == 0x0D || u == 0x2028 || u == 0x2029
  }

  function TrimStart(s: string): (t: string)
    ensures |t| <= |s| && t == s[|s| - |t|..]
    ensures t == [] || !IsJsSpace(t[0])
  {
    if s != [] && IsJsSpace(s[0]) then TrimStart(s[1..]) else s
  }

  function TrimEnd(s: string): (t: string)
    ensures |t| <= |s| && t == s[..|t|]
    ensures t == [] || !IsJsSpace(t[|t| - 1])
  {
    if s != [] && IsJsSpace(s[|s| - 1]) then TrimEnd(s[..|s| - 1]) else s
  }

  /** `String.prototype.trim`. */
  function Trim(s: string): string {
    TrimEnd(TrimStart(s))
  }

  predicate StartsWith(s: string, prefix: string) {
    |prefix| <= |s| && s[..|prefix|] == prefix
  }

  /** `String.prototype.includes`. */
  predicate Includes(s: string, sub: string) {
    StartsWith(s, sub) || (s != [] && Includes(s[1..], sub))
  }

  /** `toLowerCase` on ASCII letters; other characters are kept. */
  function ToLowerAscii(s: string): (t: string)
    ensures |t| == |s|
    ensures forall i :: 0 <= i < |s| ==> t[i] == LowerChar(s[i])
  {
    if s == [] then [] else [LowerChar(s[0])] + ToLowerAscii(s[1..])
  }

  function LowerChar(c: char): char {
    if 'A' <= c <= 'Z' then (c as int + 32) as char else c
  }

  // ---------------------------------------------------------------------------
  // Digits
  // ---------------------------------------------------------------------------

  predicate IsDigit(c: char) { '0' <= c <= '9' }

  /** The value of a digit in bases up to 16, in either case; 16 for anything else. */
  function DigitValue(c: char): (d: nat)
    ensures d <= 16
  {
    if '0' <= c <= '9' then c as int - '0' as int
    else if 'a' <= c <= 'f' then c as int - 'a' as int + 10
    else if 'A' <= c <= 'F' then c as int - 'A' as int + 10
    else 16
  }

  predicate AllDigits(s: string, base: nat) {
    forall i :: 0 <= i < |s| ==> DigitValue(s[i]) < base
  }

  /** The value of a digit string, most significant digit first. */
  function DigitsValue(s: string, base: nat): nat
    requires AllDigits(s, base)
  {
    if s == [] then 0 else DigitsValue(s[..|s| - 1], base) * base + DigitValue(s[|s| - 1])
  }

  /** `m` times ten to the power `x`, for an exponent of either sign. */
  function Scaled(m: real, x: int): real
    decreases if x >= 0 then x else -x
  {
    if x == 0 then m
    else if x > 0 then Scaled(m, x - 1) * 10.0
    else Scaled(m, x + 1) / 10.0
  }

  /** The decimal digits of `n`, without leading zeros. */
  function NatToString(n: nat): (s: string)
    ensures |s| > 0 && AllDigits(s, 10)
    ensures forall i :: 0 <= i < |s| ==> IsDigit(s[i])
    ensures s[0] == '0' ==> n == 0 && |s| == 1
  {
    if n < 10 then ['0' + n as char]
    else NatToString(n / 10) + ['0' + (n % 10) as char]
  }

  /** `String(n)` for an integer-valued number below 1e21, the form the client puts in a URL. */
  function IntToString(n: int): (s: string)
    ensures |s| > 0
  {
    if n < 0 then "-" + NatToString(-n) else NatToString(n)
  }

  lemma {:induction false} NatToStringValue(n: nat)
    ensures DigitsValue(NatToString(n), 10) == n
  {
    if n >= 10 {
      var s := NatToString(n);
      NatToStringValue(n / 10);
      assert s[..|s| - 1] == NatToString(n / 10);
    }
  }

  // ---------------------------------------------------------------------------
  // Unary `+` (ToNumber)
  // ---------------------------------------------------------------------------

  /**
   * ToNumber applied to a string (section 7.1.4.1.1 of ECMA-262): surrounding white space
   * is ignored, the empty string is 0, and the literal is decimal (with optional sign,
   * fraction and exponent), `Infinity`, or a `0x`/`0o`/`0b` integer; anything else is NaN.
   */
  function StringToNumber(s: string): JsNumber {
    var t := Trim(s);
    if t == [] then Finite(0.0) else NumericLiteral(t)
  }

  function NumericLiteral(t: string): JsNumber
    requires t != []
  {
    match RadixLiteral(t)
    case Some(v) => Finite(v as real)
    case None => SignedDecimal(t)
  }

  /** A `0x`, `0o` or `0b` literal (no sign is allowed before it). */
  function RadixLiteral(t: string): Option<nat> {
    if |t| <= 2 || t[0] != '0' then None
    else
      var base := if t[1] == 'x' || t[1] == 'X' then 16
                  else if t[1] == 'o' || t[1] == 'O' then 8
                  else if t[1] == 'b' || t[1] == 'B' then 2
                  else 0;
      if base != 0 && AllDigits(t[2..], base) then Some(DigitsValue(t[2..], base)) else None
  }

  function SignedDecimal(t: string): JsNumber
    requires t != []
  {
    var negative := t[0] == '-';
    var body := if t[0] == '-' || t[0] == '+' then t[1..] else t;
    if body == "Infinity" then (if negative then NegInf else PosInf)
    else match UnsignedDecimal(body)
      case Some(r) => Finite(if negative then -r else r)
      case None => NaN
  }

  /** First index of `e` or `E`, or `|s|` when there is none. */
  function ExponentIndex(s: string): (i: nat)
    ensures i <= |s|
    ensures i < |s| ==> s[i] == 'e' || s[i] == 'E'
    ensures forall j :: 0 <= j < i ==> s[j] != 'e' && s[j] != 'E'
  {
    if s == [] then 0
    else if s[0] == 'e' || s[0] == 'E' then 0
    else 1 + ExponentIndex(s[1..])
  }

  /** First index of `.`, or `|s|` when there is none. */
  function DotIndex(s: string): (i: nat)
    ensures i <= |s|
    ensures i < |s| ==> s[i] == '.'
    ensures forall j :: 0 <= j < i ==> s[j] != '.'
  {
    if s == [] then 0 else if s[0] == '.' then 0 else 1 + DotIndex(s[1..])
  }

  function UnsignedDecimal(body: string): Option<real> {
    var e := ExponentIndex(body);
    var m :- Mantissa(body[..e]);
    if e == |body| then Some(m)
    else
      var x :- Exponent(body[e + 1..]);
      Some(Scaled(m, x))
  }

  function Mantissa(m: string): Option<real> {
    var d := DotIndex(m);
    var whole := m[..d];
    var frac := if d < |m| then m[d + 1..] else [];
    if |whole| + |frac| > 0 && AllDigits(whole, 10) && AllDigits(frac, 10) then
      Some(DigitsValue(whole, 10) as real + Scaled(DigitsValue(frac, 10) as real, -|frac|))
    else None
  }

  function Exponent(x: string): Option<int> {
    var negative := x != [] && x[0] == '-';
    var digits := if x != [] && (x[0] == '-' || x[0] == '+') then x[1..] else x;
    if digits != [] && AllDigits(digits, 10) then
      var v: int := DigitsValue(digits, 10);
      Some(if negative then -v else v)
    else None
  }

  /**
   * Unary `+` (ToNumber). An array converts through its string form: `[]` is 0, a one-element
   * array converts like its element's string, and a longer one always holds a comma, so NaN.
   */
  function ToNumber(v: JsVal): JsNumber {
    match v
    case Undefined => NaN
    case Null => Finite(0.0)
    case Bool(b) => Finite(if b then 1.0 else 0.0)
    case Num(n) => n
    case Str(s) => StringToNumber(s)
    case Date(t) => t
    case Arr(es) =>
      if |es| == 0 then Finite(0.0)
      else if |es| > 1 then NaN
      else (match es[0]
        case Undefined => Finite(0.0)
        case Null => Finite(0.0)
        case Num(n) => n
        case Str(s) => StringToNumber(s)
        case Arr(_) => ToNumber(es[0])
        case _ => NaN)
    case Obj(_) => NaN
    case Function(_) => NaN
  }

  /** A string that starts and ends with something other than white space trims to itself. */
  lemma TrimUnchanged(t: string)
    requires t != [] && !IsJsSpace(t[0]) && !IsJsSpace(t[|t| - 1])
    ensures Trim(t) == t
  {
    assert TrimStart(t) == t;
  }

  /** A plain digit string reads as its value. */
  lemma {:induction false} DigitStringDecimal(body: string)
    requires body != [] && forall i :: 0 <= i < |body| ==> IsDigit(body[i])
    ensures AllDigits(body, 10)
    ensures UnsignedDecimal(body) == Some(DigitsValue(body, 10) as real)
  {
    assert forall i :: 0 <= i < |body| ==> body[i] != 'e' && body[i] != 'E' && body[i] != '.';
    var e := ExponentIndex(body);
    assert body[..e] == body;
    var d := DotIndex(body);
    assert body[..d] == body;
    assert Mantissa(body) == Some(DigitsValue(body, 10) as real + Scaled(DigitsValue([], 10) as real, 0));
  }

  /** `-` and a decimal numeral of value `r` without a leading zero is the literal `-r`. */
  lemma NegativeNumeral(digits: string, r: real)
    requires digits != [] && IsDigit(digits[0]) && (digits[0] == '0' ==> |digits| == 1)
    requires UnsignedDecimal(digits) == Some(r)
    ensures NumericLiteral("-" + digits) == Finite(-r)
  {
    DigitsNotRadix("-" + digits, true, digits);
    NegativeDecimal(digits, r);
  }

  /** A decimal numeral of value `r` without a leading zero is the literal `r`. */
  lemma PlainNumeral(digits: string, r: real)
    requires digits != [] && IsDigit(digits[0]) && (digits[0] == '0' ==> |digits| == 1)
    requires UnsignedDecimal(digits) == Some(r)
    ensures NumericLiteral(digits) == Finite(r)
  {
    assert digits == "" + digits;
    DigitsNotRadix(digits, false, digits);
    PlainDecimal(digits, r);
  }

  /** A decimal numeral without a leading zero is no `0x`/`0o`/`0b` literal. */
  lemma DigitsNotRadix(t: string, negative: bool, digits: string)
    requires digits != [] && (digits[0] == '0' ==> |digits| == 1)
    requires t == (if negative then "-" else "") + digits
    ensures RadixLiteral(t).None?
  {
    if negative {
      assert t[0] == '-';
    } else {
      assert t == digits;
    }
  }

  lemma NegativeDecimal(body: string, r: real)
    requires body != [] && IsDigit(body[0])
    requires UnsignedDecimal(body) == Some(r)
    ensures SignedDecimal("-" + body) == Finite(-r)
  {
    DigitLedIsNotInfinity(body);
    var t := "-" + body;
    assert t[0] == '-' && t[1..] == body;
  }

  lemma PlainDecimal(body: string, r: real)
    requires body != [] && IsDigit(body[0])
    requires UnsignedDecimal(body) == Some(r)
    ensures SignedDecimal(body) == Finite(r)
  {
    DigitLedIsNotInfinity(body);
  }

  lemma DigitLedIsNotInfinity(body: string)
    requires body != [] && IsDigit(body[0])
    ensures body != "Infinity"
  {
    assert "Infinity"[0] == 'I';
  }

  /** `+s` of what `String(n)` printed is `n` again, for every integer. */
  lemma IntToStringToNumber(n: int)
    ensures StringToNumber(IntToString(n)) == Finite(n as real)
  {
    if n < 0 {
      NegativeToNumber(n);
    } else {
      NaturalToNumber(n);
    }
  }

  lemma NaturalToNumber(n: nat)
    ensures StringToNumber(IntToString(n)) == Finite(n as real)
  {
    var digits := NatToString(n);
    assert IntToString(n) == digits;
    NumeralValue(n);
    assert IsDigit(digits[0]) && IsDigit(digits[|digits| - 1]);
    UntrimmedLiteral(digits);
    PlainNumeral(digits, n as real);
  }

  lemma NegativeToNumber(n: int)
    requires n < 0
    ensures StringToNumber(IntToString(n)) == Finite(n as real)
  {
    var k: nat := -n;
    var digits := NatToString(k);
    var t := "-" + digits;
    assert IntToString(n) == t;
    NumeralValue(k);
    assert t[0] == '-' && t[|t| - 1] == digits[|digits| - 1];
    assert IsDigit(digits[0]) && IsDigit(digits[|digits| - 1]);
    UntrimmedLiteral(t);
    NegativeNumeral(digits, k as real);
  }

  /** The decimal digits of `k` read as `k`. */
  lemma NumeralValue(k: nat)
    ensures UnsignedDecimal(NatToString(k)) == Some(k as real)
  {
    NatToStringValue(k);
    DigitStringDecimal(NatToString(k));
  }

  /** A string with no white space at either end converts as a numeric literal. */
  lemma UntrimmedLiteral(t: string)
    requires t != [] && !IsJsSpace(t[0]) && !IsJsSpace(t[|t| - 1])
    ensures StringToNumber(t) == NumericLiteral(t)
  {
    TrimUnchanged(t);
  }

  /** `+String(n)`: the decimal text of an integer, converted to a number, is that integer. */
  lemma ToNumberOfIntString(n: int)
    ensures ToNumber(Str(IntToString(n))) == Finite(n as real)
  {
    var s := IntToString(n);
    IntToStringToNumber(n);
    StringConverts(s);
  }

  /** A string primitive converts by the StringToNumber rule. */
  lemma StringConverts(s: string)
    ensures ToNumber(Str(s)) == StringToNumber(s)
  {
    match Str(s)
    case Str(x) => assert x == s;
  }

  // ---------------------------------------------------------------------------
  // Dates
  // ---------------------------------------------------------------------------

  /** The largest time value a Date can hold, in milliseconds (section 21.4.1.1 of ECMA-262). */
  const MaxTimeValue: real := 8640000000000000.0

  /** Truncation toward zero, as ToIntegerOrInfinity does. */
  function Truncate(r: real): (i: int)
    ensures r.Floor as real == r ==> i as real == r
  {
    if r >= 0.0 then r.Floor
    else
      NegatedFloor(r);
      -((-r).Floor)
  }

  lemma NegatedFloor(r: real)
    ensures r.Floor as real == r ==> (-r).Floor == -r.Floor
  {
    if r.Floor as real == r {
      var k := r.Floor;
      assert -r == (-k) as real;
    }
  }

  /** TimeClip: the time value `new Date(n)` stores for a number `n`. */
  function TimeClip(n: JsNumber): (t: JsNumber)
    ensures t.NaN? || IsIntegral(t)
    ensures IsIntegral(n) && -MaxTimeValue <= n.value <= MaxTimeValue ==> t == n
  {
    match n
    case Finite(r) =>
      if r < -MaxTimeValue || r > MaxTimeValue then NaN
      else
        var i := Truncate(r);
        assert (i as real).Floor == i;
        Finite(i as real)
    case _ => NaN
  }

  /**
   * `new Date(v)`: a Date keeps its time value; any other argument that is not a string
   * goes through ToNumber and TimeClip. Strings are parsed as calendar dates by the engine,
   * which this model does not do: they give an invalid date.
   */
  function NewDate(v: JsVal): (d: JsVal)
    ensures d.Date?
  {
    match v
    case Date(t) => Date(t)
    case Str(_) => Date(NaN)
    case Obj(_) => Date(NaN)
    case Arr(_) => Date(NaN)
    case _ => Date(TimeClip(ToNumber(v)))
  }

  /** A number that a Date stores unchanged: an integer within the time range. */
  predicate IsTimeValue(v: JsVal) {
    v.Num? && IsIntegral(v.n) && -MaxTimeValue <= v.n.value <= MaxTimeValue
  }
}
