/**
 * The one piece of the WeeRT server's start-up script that is modelled: `normalizePort`,
 * which turns the configured port into a port number, a named pipe, or false.
 */
module Server {
  import opened Wrappers
  import opened JsValue

  /** Length of the longest prefix of decimal digits. */
  function DigitRun(s: string): (k: nat)
    ensures k <= |s| && forall i :: 0 <= i < k ==> IsDigit(s[i])
    ensures k < |s| ==> !IsDigit(s[k])
  {
    if s != [] && IsDigit(s[0]) then 1 + DigitRun(s[1..]) else 0
  }

  /** The text after one optional sign. */
  function Unsigned(t: string): (body: string)
    ensures |body| <= |t|
  {
    if t != [] && (t[0] == '-' || t[0] == '+') then t[1..] else t
  }

  /** The value of the leading run of decimal digits; None when there is none. */
  function LeadingValue(body: string): (r: Option<nat>)
    ensures r.None? <==> DigitRun(body) == 0
  {
    var k := DigitRun(body);
    if k == 0 then None
    else
      assert AllDigits(body[..k], 10) by {
        assert forall i :: 0 <= i < k ==> IsDigit(body[..k][i]);
      }
      Some(DigitsValue(body[..k], 10))
  }

  /**
   * `parseInt(s, 10)` (section 21.1.2.13 of ECMA-262): leading white space is skipped, one
   * sign is read, then the longest run of decimal digits; no digits at all is NaN (None).
   * What follows the digits is ignored. A negative zero is reported as 0.
   */
  function ParseInt(s: string): (r: Option<int>)
    ensures r.None? <==> DigitRun(Unsigned(TrimStart(s))) == 0
  {
    SignedLeadingValue(TrimStart(s))
  }

  /** The value of a text without leading white space: an optional sign, then digits. */
  function SignedLeadingValue(t: string): (r: Option<int>)
    ensures r.None? <==> DigitRun(Unsigned(t)) == 0
    ensures r.Some? && r.value < 0 ==> t[0] == '-'
  {
    match LeadingValue(Unsigned(t))
    case None => None
    case Some(v) => Some(if t != [] && t[0] == '-' then -(v as int) else v)
  }

  /** The digits of a natural number, followed by anything but a digit, run exactly that far. */
  lemma {:induction false} DigitRunOfNumeral(digits: string, rest: string)
    requires forall i :: 0 <= i < |digits| ==> IsDigit(digits[i])
    requires rest == [] || !IsDigit(rest[0])
    ensures DigitRun(digits + rest) == |digits|
  {
    if digits != [] {
      assert (digits + rest)[1..] == digits[1..] + rest;
      DigitRunOfNumeral(digits[1..], rest);
    }
  }

  /** The digits of `k`, followed by anything but a digit, lead with the value `k`. */
  lemma LeadingValueOfNumeral(k: nat, rest: string)
    requires rest == [] || !IsDigit(rest[0])
    ensures LeadingValue(NatToString(k) + rest) == Some(k)
  {
    var digits := NatToString(k);
    DigitRunOfNumeral(digits, rest);
    assert (digits + rest)[..|digits|] == digits;
    NatToStringValue(k);
  }

  /** The signed value from the sign and the value of the digits. */
  lemma SignedLeadingValueParts(t: string, negative: bool, k: nat)
    requires LeadingValue(Unsigned(t)) == Some(k)
    requires negative == (t != [] && t[0] == '-')
    ensures SignedLeadingValue(t) == Some(if negative then -(k as int) else k)
  {
  }

  /** The text `String(n)` printed starts with a digit or a minus sign, so it is not trimmed. */
  lemma NumeralUntrimmed(n: int, rest: string)
    ensures TrimStart(IntToString(n) + rest) == IntToString(n) + rest
  {
    var s := IntToString(n) + rest;
    var k: nat := if n < 0 then -n else n;
    assert IsDigit(NatToString(k)[0]);
    assert s[0] == '-' || IsDigit(s[0]);
  }

  /** The signed value of what `String(n)` printed, followed by a non-digit, is `n`. */
  lemma SignedValueOfNumeral(n: int, rest: string)
    requires rest == [] || !IsDigit(rest[0])
    ensures SignedLeadingValue(IntToString(n) + rest) == Some(n)
  {
    if n < 0 {
      SignedValueOfNegative(n, rest);
    } else {
      SignedValueOfNatural(n, rest);
    }
  }

  lemma SignedValueOfNegative(n: int, rest: string)
    requires n < 0
    requires rest == [] || !IsDigit(rest[0])
    ensures SignedLeadingValue(IntToString(n) + rest) == Some(n)
  {
    var k: nat := -n;
    var digits := NatToString(k);
    assert IntToString(n) + rest == "-" + (digits + rest);
    LeadingValueOfNumeral(k, rest);
    MinusLeadingValue(digits + rest, k);
  }

  lemma SignedValueOfNatural(n: nat, rest: string)
    requires rest == [] || !IsDigit(rest[0])
    ensures SignedLeadingValue(IntToString(n) + rest) == Some(n)
  {
    var digits := NatToString(n);
    assert IntToString(n) + rest == digits + rest;
    LeadingValueOfNumeral(n, rest);
    assert IsDigit((digits + rest)[0]);
    DigitLeadingValue(digits + rest, n);
  }

  /** A minus sign in front of digits of value `k` reads as `-k`. */
  lemma MinusLeadingValue(x: string, k: nat)
    requires LeadingValue(x) == Some(k)
    ensures SignedLeadingValue("-" + x) == Some(-(k as int))
  {
    assert ("-" + x)[0] == '-' && ("-" + x)[1..] == x;
    SignedLeadingValueParts("-" + x, true, k);
  }

  /** Digits of value `k` with no sign in front read as `k`. */
  lemma DigitLeadingValue(x: string, k: nat)
    requires x != [] && IsDigit(x[0])
    requires LeadingValue(x) == Some(k)
    ensures SignedLeadingValue(x) == Some(k)
  {
    assert Unsigned(x) == x;
    SignedLeadingValueParts(x, false, k);
  }

  /**
   * `parseInt` reads back the integer `String(n)` printed, whatever follows it, provided it
   * does not start with a digit.
   */
  lemma ParseIntOfNumeral(n: int, rest: string)
    requires rest == [] || !IsDigit(rest[0])
    ensures ParseInt(IntToString(n) + rest) == Some(n)
  {
    NumeralUntrimmed(n, rest);
    SignedValueOfNumeral(n, rest);
  }

  /** What `normalizePort` gives back: a named pipe, a port number, or false. */
  datatype Port = NamedPipe(name: string) | PortNumber(port: nat) | NoPort

  /**
   * `normalizePort(val)`: a value that does not parse as an integer is a named pipe and is
   * kept as it is; a parsed value of at least 0 is the port; a negative one is false.
   */
  function NormalizePort(val: string): (p: Port)
    ensures p.NamedPipe? <==> ParseInt(val).None?
    ensures p.NamedPipe? ==> p.name == val
    ensures p.PortNumber? ==> ParseInt(val) == Some(p.port as int)
    ensures p.NoPort? <==> ParseInt(val).Some? && ParseInt(val).value < 0
  {
    match ParseInt(val)
    case None => NamedPipe(val)
    case Some(port) => if port >= 0 then PortNumber(port) else NoPort
  }

  /** A port written in decimal is that port, even with trailing text. */
  lemma NormalizePortOfNumber(port: nat, rest: string)
    requires rest == [] || !IsDigit(rest[0])
    ensures NormalizePort(IntToString(port) + rest) == PortNumber(port)
  {
    ParseIntOfNumeral(port, rest);
  }

  /** A negative number is refused. */
  lemma NormalizePortOfNegative(n: int)
    requires n < 0
    ensures NormalizePort(IntToString(n)) == NoPort
  {
    ParseIntOfNumeral(n, []);
    assert IntToString(n) + [] == IntToString(n);
  }

  /** The server's default port, `'3000'`, normalises to 3000. */
  lemma DefaultPort()
    ensures NormalizePort("3000") == PortNumber(3000)
  {
    assert IntToString(3000) == "3000";
    NormalizePortOfNumber(3000, []);
    assert IntToString(3000) + [] == "3000";
  }

  /** A name that starts with neither a sign, a digit nor white space is a named pipe. */
  lemma NamedPipeKept(val: string)
    requires val != [] && !IsDigit(val[0]) && val[0] != '-' && val[0] != '+' && !IsJsSpace(val[0])
    ensures NormalizePort(val) == NamedPipe(val)
  {
    assert TrimStart(val) == val;
  }
}
