/**
 * Decimal text as the C and C++ libraries read and write it:
 * std::stoi (strtol in base 10, then a range check against int) and
 * the decimal rendering an ostream produces for an int.
 */
module Decimal {
  import opened Wrappers

  /** isspace in the C locale: the space and the controls \t \n \v \f \r. */
  predicate IsSpace(c: char) {
    c == ' ' || 9 <= c as int <= 13
  }

  predicate IsDigit(c: char) {
    '0' <= c <= '9'
  }

  predicate AllSpace(s: string) {
    forall i | 0 <= i < |s| :: IsSpace(s[i])
  }

  predicate AllDigits(s: string) {
    forall i | 0 <= i < |s| :: IsDigit(s[i])
  }

  function DigitChar(d: nat): (c: char)
    requires d < 10
    ensures IsDigit(c) && c as int - '0' as int == d
  {
    ('0' as int + d) as char
  }

  /** The number a digit string denotes, most significant digit first. */
  function DigitsValue(s: string): nat
    requires AllDigits(s)
  {
    if s == [] then 0
    else 10 * DigitsValue(s[..|s| - 1]) + (s[|s| - 1] as int - '0' as int)
  }

  /** Decimal rendering of a natural number, without padding. */
  function NatToString(n: nat): (s: string)
    ensures |s| >= 1 && AllDigits(s) && DigitsValue(s) == n
    ensures n == 0 || s[0] != '0'
  {
    if n < 10 then [DigitChar(n)]
    else
      var prefix := NatToString(n / 10);
      var s := prefix + [DigitChar(n % 10)];
      assert s[..|s| - 1] == prefix;
      s
  }

  /** Decimal rendering of an integer: a '-' before the magnitude when negative. */
  function IntToString(v: int): string {
    if v < 0 then "-" + NatToString(-v) else NatToString(v)
  }

  /** Length of the white space at the front of s. */
  function SpaceRun(s: string): (k: nat)
    ensures k <= |s|
    ensures forall i | 0 <= i < k :: IsSpace(s[i])
    ensures k < |s| ==> !IsSpace(s[k])
  {
    if s != [] && IsSpace(s[0]) then 1 + SpaceRun(s[1..]) else 0
  }

  /** Length of the run of digits at the front of s. */
  function DigitRun(s: string): (k: nat)
    ensures k <= |s|
    ensures forall i | 0 <= i < k :: IsDigit(s[i])
    ensures k < |s| ==> !IsDigit(s[k])
  {
    if s != [] && IsDigit(s[0]) then 1 + DigitRun(s[1..]) else 0
  }

  /** The range of a 32-bit int. */
  const IntMin: int := -0x8000_0000
  const IntMax: int := 0x7FFF_FFFF

  /** The two exceptions std::stoi raises. */
  datatype StoiError = InvalidArgument | OutOfRange

  /** What strtol reads after the leading white space: the sign (if any) removed. */
  function Unsigned(s: string): string {
    var t := s[SpaceRun(s)..];
    if t != [] && (t[0] == '-' || t[0] == '+') then t[1..] else t
  }

  /** True when the first non-blank character is a minus sign. */
  predicate Negative(s: string) {
    var t := s[SpaceRun(s)..];
    t != [] && t[0] == '-'
  }

  /**
   * std::stoi(s): skip white space, take an optional sign and the longest
   * run of digits after it, ignore what follows. No digit raises
   * invalid_argument; a value outside int raises out_of_range (strtol's
   * own overflow past long is outside int as well).
   */
  function Stoi(s: string): (r: Result<int, StoiError>)
    ensures r.Success? ==> IntMin <= r.value <= IntMax
    ensures r == Failure(InvalidArgument) <==> DigitRun(Unsigned(s)) == 0
  {
    var u := Unsigned(s);
    var k := DigitRun(u);
    if k == 0 then Failure(InvalidArgument)
    else
      var magnitude: int := DigitsValue(u[..k]);
      var v: int := if Negative(s) then -magnitude else magnitude;
      if v < IntMin || IntMax < v then Failure(OutOfRange) else Success(v)
  }

  lemma {:induction false} SpaceRunAppend(ws: string, t: string)
    requires AllSpace(ws)
    requires t == [] || !IsSpace(t[0])
    ensures SpaceRun(ws + t) == |ws|
  {
    if ws != [] {
      assert (ws + t)[1..] == ws[1..] + t;
      SpaceRunAppend(ws[1..], t);
    }
  }

  lemma {:induction false} DigitRunAppend(digits: string, rest: string)
    requires AllDigits(digits)
    requires rest == [] || !IsDigit(rest[0])
    ensures DigitRun(digits + rest) == |digits|
  {
    if digits != [] {
      assert (digits + rest)[1..] == digits[1..] + rest;
      DigitRunAppend(digits[1..], rest);
    }
  }

  /** stoi on text that holds a number: the value of its digits, with its sign. */
  lemma StoiOfNumber(s: string, digits: string, negative: bool)
    requires DigitRun(Unsigned(s)) > 0
    requires digits == Unsigned(s)[..DigitRun(Unsigned(s))] && negative == Negative(s)
    ensures var m: int := DigitsValue(digits);
            var v: int := if negative then -m else m;
            Stoi(s) == if IntMin <= v <= IntMax then Success(v) else Failure(OutOfRange)
  {
  }

  /** Where strtol starts reading digits in white space, a sign and digits. */
  lemma UnsignedOf(ws: string, sign: string, digits: string, rest: string)
    requires AllSpace(ws)
    requires sign == "" || sign == "-" || sign == "+"
    requires |digits| >= 1 && AllDigits(digits)
    ensures Unsigned(ws + (sign + digits) + rest) == digits + rest
    ensures Negative(ws + (sign + digits) + rest) == (sign == "-")
  {
    var t := sign + digits + rest;
    assert ws + (sign + digits) + rest == ws + t;
    SpaceRunAppend(ws, t);
    assert (ws + t)[|ws|..] == t;
    if sign != "" {
      assert t[1..] == digits + rest;
    }
  }

  /** stoi reads exactly the digits behind white space and a sign. */
  lemma StoiOfDigits(ws: string, sign: string, digits: string, rest: string)
    requires AllSpace(ws)
    requires sign == "" || sign == "-" || sign == "+"
    requires |digits| >= 1 && AllDigits(digits)
    requires rest == [] || !IsDigit(rest[0])
    ensures var m: int := DigitsValue(digits);
            var v: int := if sign == "-" then -m else m;
            Stoi(ws + (sign + digits) + rest) ==
            if IntMin <= v <= IntMax then Success(v) else Failure(OutOfRange)
  {
    var s := ws + (sign + digits) + rest;
    UnsignedOf(ws, sign, digits, rest);
    DigitRunAppend(digits, rest);
    var u := Unsigned(s);
    assert u[..DigitRun(u)] == digits by {
      assert (digits + rest)[..|digits|] == digits;
    }
    StoiOfNumber(s, digits, sign == "-");
  }

  /**
   * Round trip: the rendering of any integer, behind any white space and in
   * front of anything that is not a digit, is read back by stoi as that
   * integer when it fits in an int and raises out_of_range when it does not.
   */
  lemma StoiOfRendered(ws: string, v: int, rest: string)
    requires AllSpace(ws)
    requires rest == [] || !IsDigit(rest[0])
    ensures Stoi(ws + IntToString(v) + rest) ==
            if IntMin <= v <= IntMax then Success(v) else Failure(OutOfRange)
  {
    var sign := if v < 0 then "-" else "";
    var digits := NatToString(if v < 0 then -v else v);
    assert IntToString(v) == sign + digits;
    StoiOfDigits(ws, sign, digits, rest);
  }

  /** Text without a single digit is never a number: stoi raises invalid_argument. */
  lemma StoiWithoutDigits(s: string)
    requires forall i | 0 <= i < |s| :: !IsDigit(s[i])
    ensures Stoi(s) == Failure(InvalidArgument)
  {
    var t := s[SpaceRun(s)..];
    var u := Unsigned(s);
    if u != [] {
      if t != [] && (t[0] == '-' || t[0] == '+') {
        assert u[0] == s[SpaceRun(s) + 1];
      } else {
        assert u[0] == s[SpaceRun(s)];
      }
    }
  }
}
