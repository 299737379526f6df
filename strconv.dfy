/**
  Decimal conversions the source takes from Go's standard library: `%v` of an
  int in fmt's formatted messages, and `strconv.ParseInt(s, 10, 32)` in the
  command parser.
*/
module Strconv {
  import opened Wrappers

  const MinInt32: int := -0x8000_0000
  const MaxInt32: int := 0x7FFF_FFFF

  predicate IsDigit(c: char) {
    '0' <= c <= '9'
  }

  predicate AllDigits(s: string) {
    forall i :: 0 <= i < |s| ==> IsDigit(s[i])
  }

  function DigitValue(c: char): nat
    requires IsDigit(c)
  {
    (c as int) - ('0' as int)
  }

  function DigitChar(d: nat): (c: char)
    requires d < 10
    ensures IsDigit(c) && DigitValue(c) == d
  {
    (('0' as int) + d) as char
  }

  /** The value of a string of decimal digits, most significant digit first. */
  function DigitsValue(s: string): nat
    requires AllDigits(s)
    decreases |s|
  {
    if s == [] then 0 else 10 * DigitsValue(s[..|s| - 1]) + DigitValue(s[|s| - 1])
  }

  /** The decimal digits of `n`, without leading zeros. */
  function NatToString(n: nat): (s: string)
    ensures |s| > 0 && AllDigits(s)
    decreases n
  {
    if n < 10 then [DigitChar(n)] else NatToString(n / 10) + [DigitChar(n % 10)]
  }

  /** How `%v` prints an int: a minus sign for negative values, then the digits. */
  function IntToString(i: int): (s: string)
    ensures |s| > 0
  {
    if i < 0 then "-" + NatToString(-i) else NatToString(i)
  }

  /**
    The text of Go's runtime panic for an index outside an array of the given
    length; a negative index is reported without the length.
  */
  function IndexOutOfRange(i: int, length: nat): string {
    "runtime error: index out of range [" + IntToString(i) + "]"
    + (if i < 0 then "" else " with length " + IntToString(length))
  }

  predicate IsSign(c: char) {
    c == '+' || c == '-'
  }

  /** The decimal syntax `ParseInt` accepts in base 10: digits, or one sign and then digits. */
  predicate WellFormedDecimal(s: string) {
    (|s| > 0 && AllDigits(s)) || (|s| > 1 && IsSign(s[0]) && AllDigits(s[1..]))
  }

  /** The value a well-formed decimal denotes, negated after a minus sign. */
  function SignedValue(s: string): int
    requires WellFormedDecimal(s)
  {
    if AllDigits(s) then DigitsValue(s)
    else if s[0] == '-' then 0 - (DigitsValue(s[1..]) as int)
    else DigitsValue(s[1..])
  }

  /**
    strconv.ParseInt(s, 10, 32): an optional '+' or '-', then at least one
    decimal digit, and a value that fits in 32 bits. Every other input is an
    error (None): the syntax error and the range error alike.
  */
  function ParseInt32(s: string): (r: Option<int>)
    ensures r.Some? <==> WellFormedDecimal(s) && MinInt32 <= SignedValue(s) <= MaxInt32
    ensures r.Some? ==> r.value == SignedValue(s)
  {
    var negative := |s| > 0 && s[0] == '-';
    var digits := if |s| > 0 && (s[0] == '+' || s[0] == '-') then s[1..] else s;
    if digits == [] || !AllDigits(digits) then None
    else
      var v: int := if negative then 0 - (DigitsValue(digits) as int) else DigitsValue(digits);
      if MinInt32 <= v <= MaxInt32 then Some(v) else None
  }

  lemma {:induction false} DigitsValueOfNatToString(n: nat)
    ensures DigitsValue(NatToString(n)) == n
    decreases n
  {
    if n >= 10 {
      DigitsValueOfNatToString(n / 10);
      var s := NatToString(n);
      assert s[..|s| - 1] == NatToString(n / 10);
    }
  }

  /** An unsigned digit string within range parses to its value. */
  lemma ParseUnsigned(t: string)
    requires t != [] && AllDigits(t) && DigitsValue(t) <= MaxInt32
    ensures ParseInt32(t) == Some(DigitsValue(t))
  {
    assert IsDigit(t[0]);
  }

  /** A minus sign and a digit string within range parse to the negated value. */
  lemma ParseNegative(t: string)
    requires t != [] && AllDigits(t) && DigitsValue(t) <= -MinInt32
    ensures ParseInt32("-" + t) == Some(0 - DigitsValue(t))
  {
    var s := "-" + t;
    assert s[0] == '-';
    assert s[1..] == t;
  }

  /** Every 32-bit value printed with `%v` parses back to itself. */
  lemma ParseIntOfIntToString(n: int)
    requires MinInt32 <= n <= MaxInt32
    ensures ParseInt32(IntToString(n)) == Some(n)
  {
    if n < 0 {
      DigitsValueOfNatToString(-n);
      ParseNegative(NatToString(-n));
    } else {
      DigitsValueOfNatToString(n);
      ParseUnsigned(NatToString(n));
    }
  }
}
