/**
  The string case of ECMAScript's global `parseFloat` (section 19.2.4 of
  ECMA-262): skip leading white space, then read the longest prefix that is a
  StrDecimalLiteral (optional sign, digits with an optional fraction, an
  optional exponent). A string with no such prefix yields NaN, here None.
 */
module NumberParsing {
  import opened Wrappers

  predicate IsDigit(c: char)
  {
    '0' <= c <= '9'
  }

  /** StrWhiteSpaceChar: the WhiteSpace and LineTerminator code points. */
  predicate IsStrWhiteSpace(c: char)
  {
    || c == '\t' || c == '\U{B}' || c == '\U{C}' || c == ' ' || c == '\U{A0}' || c == '\U{FEFF}'
    || c == '\U{1680}' || ('\U{2000}' <= c <= '\U{200A}') || c == '\U{202F}' || c == '\U{205F}'
    || c == '\U{3000}' || c == '\n' || c == '\r' || c == '\U{2028}' || c == '\U{2029}'
  }

  predicate AllDigits(d: string)
  {
    forall i :: 0 <= i < |d| ==> IsDigit(d[i])
  }

  /** Number of white-space characters at the start of s. */
  function LeadingWhiteSpace(s: string): (n: nat)
    ensures n <= |s|
    ensures forall i :: 0 <= i < n ==> IsStrWhiteSpace(s[i])
    ensures n < |s| ==> !IsStrWhiteSpace(s[n])
  {
    if |s| > 0 && IsStrWhiteSpace(s[0]) then 1 + LeadingWhiteSpace(s[1..]) else 0
  }

  /** Number of decimal digits at the start of s. */
  function DigitRun(s: string): (n: nat)
    ensures n <= |s|
    ensures AllDigits(s[..n])
    ensures n < |s| ==> !IsDigit(s[n])
  {
    if |s| > 0 && IsDigit(s[0]) then
      var m := DigitRun(s[1..]);
      assert s[..1 + m] == [s[0]] + s[1..][..m];
      1 + m
    else 0
  }

  /** The value of a string of decimal digits, most significant first. */
  function DigitsValue(d: string): nat
    requires AllDigits(d)
  {
    if d == [] then 0 else 10 * DigitsValue(d[..|d| - 1]) + (d[|d| - 1] as int - '0' as int)
  }

  function Pow10(k: nat): (r: nat)
    ensures r >= 1
  {
    if k == 0 then 1 else 10 * Pow10(k - 1)
  }

  /** m * 10^e for an integer exponent e. */
  function Scale(m: real, e: int): real
  {
    if e >= 0 then m * Pow10(e) as real else m / Pow10(-e) as real
  }

  /**
    The value of an ExponentPart `(e|E) [+|-] digits` at the start of t. When t
    does not start with a complete exponent part, the exponent is not part of
    the longest literal prefix, and the value is 0.
   */
  function ExponentPrefix(t: string): int
  {
    if |t| == 0 || (t[0] != 'e' && t[0] != 'E') then 0
    else
      var signed := |t| > 1 && (t[1] == '-' || t[1] == '+');
      var body := if signed then t[2..] else t[1..];
      var n := DigitRun(body);
      if n == 0 then 0
      else if signed && t[1] == '-' then -(DigitsValue(body[..n]) as int)
      else DigitsValue(body[..n])
  }

  /**
    The longest StrUnsignedDecimalLiteral prefix of t (its `Infinity` form
    aside): `digits [. digits?]`, or `. digits`, then an optional exponent.
   */
  function UnsignedDecimalPrefix(t: string): Option<real>
  {
    var i := DigitRun(t);
    AfterIntegerDigits(t[..i], t[i..])
  }

  /** The rest of an unsigned literal once its integer digits have been read. */
  function AfterIntegerDigits(intDigits: string, rest: string): Option<real>
    requires AllDigits(intDigits)
  {
    if |rest| > 0 && rest[0] == '.' then
      var fracLen := DigitRun(rest[1..]);
      if |intDigits| == 0 && fracLen == 0 then None
      else
        var mantissa := DigitsValue(intDigits + rest[1..][..fracLen]) as real / Pow10(fracLen) as real;
        Some(Scale(mantissa, ExponentPrefix(rest[1 + fracLen..])))
    else if |intDigits| == 0 then None
    else Some(Scale(DigitsValue(intDigits) as real, ExponentPrefix(rest)))
  }

  /**
    `parseFloat(s)` for a string s; None is NaN. A blank string, and one whose
    first non-blank character cannot begin a number, give NaN; a sign applies
    to the unsigned literal after it.
   */
  function ParseFloatString(s: string): (r: Option<real>)
    ensures LeadingWhiteSpace(s) == |s| ==> r.None?
    ensures var t := s[LeadingWhiteSpace(s)..];
      |t| > 0 && !IsDigit(t[0]) && t[0] !in {'+', '-', '.'} ==> r.None?
    ensures var t := s[LeadingWhiteSpace(s)..];
      |t| > 0 && t[0] == '+' ==> r == UnsignedDecimalPrefix(t[1..])
    ensures var t := s[LeadingWhiteSpace(s)..];
      |t| > 0 && t[0] == '-' ==> r.Some? == UnsignedDecimalPrefix(t[1..]).Some?
    ensures var t := s[LeadingWhiteSpace(s)..];
      |t| > 0 && t[0] == '-' && r.Some? ==> r.value == -UnsignedDecimalPrefix(t[1..]).value
  {
    var t := s[LeadingWhiteSpace(s)..];
    assert |t| > 0 && !IsDigit(t[0]) ==> DigitRun(t) == 0 && t[..0] == [] && t[0..] == t;
    SignedDecimalPrefix(t)
  }

  /** The longest StrDecimalLiteral prefix of t: an optional sign before an unsigned literal. */
  function SignedDecimalPrefix(t: string): Option<real>
  {
    if |t| > 0 && t[0] == '-' then
      match UnsignedDecimalPrefix(t[1..])
      case None => None
      case Some(x) => Some(-x)
    else if |t| > 0 && t[0] == '+' then UnsignedDecimalPrefix(t[1..])
    else UnsignedDecimalPrefix(t)
  }

  /** The decimal digits of n, most significant first, in plain decimal notation. */
  function NatToDigits(n: nat): (d: string)
    ensures |d| > 0 && AllDigits(d)
  {
    var last := ['0' + (n % 10) as char];
    if n < 10 then last else NatToDigits(n / 10) + last
  }

  lemma {:induction false} DigitsValueOfNatToDigits(n: nat)
    ensures DigitsValue(NatToDigits(n)) == n
  {
    var d := NatToDigits(n);
    if n >= 10 {
      DigitsValueOfNatToDigits(n / 10);
      assert d[..|d| - 1] == NatToDigits(n / 10);
    }
  }

  /** A string made only of digits parses to the number those digits denote. */
  lemma ParseFloatOfDigits(d: string)
    requires |d| > 0 && AllDigits(d)
    ensures ParseFloatString(d) == Some(DigitsValue(d) as real)
  {
    assert !IsStrWhiteSpace(d[0]);
    assert LeadingWhiteSpace(d) == 0;
    assert d[0..] == d;
    UnsignedDecimalOfDigits(d);
  }

  lemma UnsignedDecimalOfDigits(d: string)
    requires |d| > 0 && AllDigits(d)
    ensures UnsignedDecimalPrefix(d) == Some(DigitsValue(d) as real)
  {
    DigitRunOfDigits(d);
    assert d[..|d|] == d && d[|d|..] == [];
    IntegerOnly(d);
  }

  lemma IntegerOnly(d: string)
    requires |d| > 0 && AllDigits(d)
    ensures AfterIntegerDigits(d, []) == Some(DigitsValue(d) as real)
  {
    assert ExponentPrefix([]) == 0;
    assert Scale(DigitsValue(d) as real, 0) == DigitsValue(d) as real;
  }

  lemma {:induction false} DigitRunOfDigits(d: string)
    requires AllDigits(d)
    ensures DigitRun(d) == |d|
  {
    if |d| > 0 {
      DigitRunOfDigits(d[1..]);
    }
  }

  /** Round trip: parseFloat reads back every natural number written in decimal. */
  lemma ParseFloatOfNat(n: nat)
    ensures ParseFloatString(NatToDigits(n)) == Some(n as real)
  {
    ParseFloatOfDigits(NatToDigits(n));
    DigitsValueOfNatToDigits(n);
  }

  /** Leading white space never changes the result. */
  lemma ParseFloatSkipsWhiteSpace(c: char, s: string)
    requires IsStrWhiteSpace(c)
    ensures ParseFloatString([c] + s) == ParseFloatString(s)
  {
    var cs := [c] + s;
    assert cs[1..] == s;
    var k := LeadingWhiteSpace(s);
    assert LeadingWhiteSpace(cs) == 1 + k;
    assert cs[1 + k..] == s[k..];
  }

  /** Worked inputs: strings with no numeric prefix are NaN. */
  lemma ParseFloatNoPrefix()
    ensures ParseFloatString("abc") == None
    ensures ParseFloatString(".") == None
    ensures ParseFloatString("") == None
  {
    NoNumericPrefix("abc");
    NoNumericPrefix(".");
    NoNumericPrefix("");
  }

  /** A string starting with neither white space, a sign, a digit nor ".digit" has no numeric prefix. */
  lemma NoNumericPrefix(s: string)
    requires |s| > 0 ==> !IsStrWhiteSpace(s[0]) && s[0] != '-' && s[0] != '+' && !IsDigit(s[0])
    requires |s| > 1 && s[0] == '.' ==> !IsDigit(s[1])
    ensures ParseFloatString(s) == None
  {
    assert LeadingWhiteSpace(s) == 0;
    assert s[0..] == s;
    assert DigitRun(s) == 0;
    assert s[..0] == [] && s[0..] == s;
    if |s| > 0 && s[0] == '.' {
      assert DigitRun(s[1..]) == 0;
    }
  }
}
