/**
 * The string conversions the time and pace displays rely on: `toString()` of
 * an integer, `padStart(2, '0')`, and the `parseInt(value) || 0` fallback that
 * turns the text of each number field into an integer.
 */
module JsText {
  import opened Wrappers

  predicate IsDecimalDigit(c: char) {
    '0' <= c <= '9'
  }

  /** The value of `c` as a digit of radix 36, or 36 when it is none; only radices 10 and 16 are used */
  function DigitValue(c: char): (v: nat)
    ensures v <= 36
    ensures IsDecimalDigit(c) <==> v < 10
  {
    if '0' <= c <= '9' then (c as int) - ('0' as int)
    else if 'a' <= c <= 'z' then (c as int) - ('a' as int) + 10
    else if 'A' <= c <= 'Z' then (c as int) - ('A' as int) + 10
    else 36
  }

  /** The digit character of `d` in 0..9 */
  function DigitChar(d: int): (c: char)
    requires 0 <= d < 10
    ensures IsDecimalDigit(c) && DigitValue(c) == d
  {
    ('0' as int + d) as char
  }

  /** `n.toString()` for a non-negative integer: its decimal digits, without leading zeros */
  function NatToString(n: nat): (s: string)
    ensures 1 <= |s|
    ensures forall i :: 0 <= i < |s| ==> IsDecimalDigit(s[i])
    ensures s[0] == '0' ==> n == 0
    decreases n
  {
    if n < 10 then [DigitChar(n)] else NatToString(n / 10) + [DigitChar(n % 10)]
  }

  /** `i.toString()` for an integer */
  function IntToString(i: int): (s: string)
    ensures 1 <= |s|
    ensures s[0] == '-' <==> i < 0
  {
    if i < 0 then "-" + NatToString(-i) else NatToString(i)
  }

  /** `s.padStart(2, '0')`: `s` itself when it has two characters or more, otherwise `s` behind enough zeros to make two */
  function PadStart2(s: string): (r: string)
    ensures |r| == if |s| < 2 then 2 else |s|
    ensures r[|r| - |s|..] == s
    ensures forall i :: 0 <= i < |r| - |s| ==> r[i] == '0'
  {
    if 2 <= |s| then s else if |s| == 1 then "0" + s else "00"
  }

  /** A number below 100 padded to two places is its tens digit followed by its units digit */
  lemma TwoDigits(n: int)
    requires 0 <= n < 100
    ensures PadStart2(IntToString(n)) == [DigitChar(n / 10), DigitChar(n % 10)]
  {
    if n < 10 {
      assert IntToString(n) == [DigitChar(n)];
      assert DigitChar(0) == '0';
    } else {
      var tens := n / 10;
      assert NatToString(tens) == [DigitChar(tens)];
      assert IntToString(n) == [DigitChar(tens), DigitChar(n % 10)];
    }
  }

  /** The characters `parseInt` skips before the number: the ECMAScript white space and line terminators */
  predicate IsJsWhitespace(c: char) {
    c in {'\U{0009}', '\U{000A}', '\U{000B}', '\U{000C}', '\U{000D}', '\U{0020}', '\U{00A0}', '\U{1680}',
          '\U{2000}', '\U{2001}', '\U{2002}', '\U{2003}', '\U{2004}', '\U{2005}', '\U{2006}', '\U{2007}',
          '\U{2008}', '\U{2009}', '\U{200A}', '\U{2028}', '\U{2029}', '\U{202F}', '\U{205F}', '\U{3000}',
          '\U{FEFF}'}
  }

  /** The length of the white space at the start of `s` */
  function LeadingWhitespace(s: string): (n: nat)
    ensures n <= |s|
    ensures forall i :: 0 <= i < n ==> IsJsWhitespace(s[i])
    ensures n < |s| ==> !IsJsWhitespace(s[n])
  {
    if |s| == 0 || !IsJsWhitespace(s[0]) then 0 else 1 + LeadingWhitespace(s[1..])
  }

  /** The length of the longest run of digits of `radix` at the start of `s` */
  function DigitRun(s: string, radix: nat): (n: nat)
    ensures n <= |s|
    ensures forall i :: 0 <= i < n ==> DigitValue(s[i]) < radix
    ensures n < |s| ==> radix <= DigitValue(s[n])
  {
    if |s| == 0 || radix <= DigitValue(s[0]) then 0 else 1 + DigitRun(s[1..], radix)
  }

  /** The value of a string of digits of `radix`, most significant first */
  function DigitsValue(ds: string, radix: nat): (v: nat)
  {
    if |ds| == 0 then 0 else DigitsValue(ds[..|ds| - 1], radix) * radix + DigitValue(ds[|ds| - 1])
  }

  /**
   * `parseInt(s)` with no radix: white space skipped, an optional sign, then
   * the magnitude; `None` stands for NaN.
   */
  function ParseInt(s: string): (r: Option<int>)
  {
    ParseSigned(s[LeadingWhitespace(s)..])
  }

  /** `parseInt` after the white space: a `-` negates the magnitude, a `+` is dropped */
  function ParseSigned(t: string): (r: Option<int>)
  {
    var signed := 0 < |t| && (t[0] == '-' || t[0] == '+');
    var magnitude := ParseMagnitude(if signed then t[1..] else t);
    if signed && t[0] == '-' && magnitude.Some? then Some(-magnitude.value) else magnitude
  }

  /**
   * The unsigned part of `parseInt`: a `0x` or `0X` prefix chooses radix 16,
   * otherwise radix 10, and the value is that of the longest run of digits of
   * the radix; an empty run is NaN.
   */
  function ParseMagnitude(u: string): (r: Option<int>)
    ensures r.Some? ==> 0 <= r.value
  {
    var hex := 2 <= |u| && u[0] == '0' && (u[1] == 'x' || u[1] == 'X');
    var radix := if hex then 16 else 10;
    var v := if hex then u[2..] else u;
    var k := DigitRun(v, radix);
    if k == 0 then None else Some(DigitsValue(v[..k], radix))
  }

  /** `parseInt(s) || 0`: NaN, like zero, is falsy and becomes 0 */
  function ParseIntOrZero(s: string): int
  {
    match ParseInt(s)
    case None => 0
    case Some(v) => v
  }

  /** The digits of `n` read back in radix 10 are `n` */
  lemma {:induction false} DigitsOfNat(n: nat)
    ensures DigitsValue(NatToString(n), 10) == n
    decreases n
  {
    var s := NatToString(n);
    if n < 10 {
      assert s[..0] == [];
    } else {
      DigitsOfNat(n / 10);
      assert s[..|s| - 1] == NatToString(n / 10);
    }
  }

  /** A string made only of decimal digits is one run of decimal digits */
  lemma {:induction false} AllDigitsRun(s: string)
    requires forall i :: 0 <= i < |s| ==> IsDecimalDigit(s[i])
    ensures DigitRun(s, 10) == |s|
  {
    if |s| != 0 {
      AllDigitsRun(s[1..]);
    }
  }

  /** A non-empty string of decimal digits has the magnitude its digits spell */
  lemma MagnitudeOfDigits(digits: string)
    requires 1 <= |digits|
    requires forall i :: 0 <= i < |digits| ==> IsDecimalDigit(digits[i])
    ensures ParseMagnitude(digits) == Some(DigitsValue(digits, 10))
  {
    assert 2 <= |digits| ==> IsDecimalDigit(digits[1]);
    AllDigitsRun(digits);
    assert digits[..|digits|] == digits;
  }

  /** Decimal digits with no sign parse as the value of the digits */
  lemma ParseUnsignedDigits(digits: string)
    requires 1 <= |digits|
    requires forall i :: 0 <= i < |digits| ==> IsDecimalDigit(digits[i])
    ensures ParseInt(digits) == Some(DigitsValue(digits, 10))
  {
    assert ParseInt(digits) == ParseSigned(digits) by {
      NotWhitespace(digits[0]);
      StartsUnpadded(digits);
    }
    assert digits[0] != '-' && digits[0] != '+';
    MagnitudeOfDigits(digits);
  }

  /** A minus sign followed by decimal digits parses as the negated value of the digits */
  lemma ParseNegativeDigits(digits: string)
    requires 1 <= |digits|
    requires forall i :: 0 <= i < |digits| ==> IsDecimalDigit(digits[i])
    ensures var value: int := DigitsValue(digits, 10); ParseInt("-" + digits) == Some(-value)
  {
    var s := "-" + digits;
    assert s[0] == '-';
    NotWhitespace('-');
    StartsUnpadded(s);
    SignedNegativeDigits(digits);
  }

  /** The sign step of `ParseNegativeDigits`, once the white space is skipped */
  lemma SignedNegativeDigits(digits: string)
    requires 1 <= |digits|
    requires forall i :: 0 <= i < |digits| ==> IsDecimalDigit(digits[i])
    ensures var value: int := DigitsValue(digits, 10); ParseSigned("-" + digits) == Some(-value)
  {
    var s := "-" + digits;
    assert s[0] == '-' && s[1..] == digits;
    MagnitudeOfDigits(digits);
  }

  /** A string that does not start with white space is what `parseInt` goes on to read */
  lemma StartsUnpadded(s: string)
    requires 0 < |s| && !IsJsWhitespace(s[0])
    ensures s[LeadingWhitespace(s)..] == s
  {
    assert LeadingWhitespace(s) == 0;
  }

  /** Neither the minus sign nor a digit is white space */
  lemma NotWhitespace(c: char)
    requires c == '-' || IsDecimalDigit(c)
    ensures !IsJsWhitespace(c)
  {
  }

  /** Reading a printed integer back with `parseInt(...) || 0` gives the integer */
  lemma ParseIntOfToString(i: int)
    ensures ParseIntOrZero(IntToString(i)) == i
  {
    var n: nat := if i < 0 then -i else i;
    DigitsOfNat(n);
    if i < 0 {
      ParseNegativeDigits(NatToString(n));
      assert IntToString(i) == "-" + NatToString(n);
    } else {
      ParseUnsignedDigits(NatToString(n));
      assert IntToString(i) == NatToString(n);
    }
  }

  /** A field holding no digit at all reads as 0 */
  lemma NoDigitsIsZero(s: string)
    requires forall i :: 0 <= i < |s| ==> !IsDecimalDigit(s[i])
    ensures ParseIntOrZero(s) == 0
  {
    var t := s[LeadingWhitespace(s)..];
    var u := if 0 < |t| && (t[0] == '-' || t[0] == '+') then t[1..] else t;
    assert forall i :: 0 <= i < |u| ==> !IsDecimalDigit(u[i]);
    assert 0 < |u| ==> DigitValue(u[0]) >= 10;
  }
}
