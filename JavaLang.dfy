/**
 * The few pieces of the Java platform the core relies on: fixed-width
 * integers, the runtime exceptions it can raise, and the decimal rendering
 * of `String.valueOf`.
 */
module JavaLang {
  import opened Wrappers

  const INT32_MIN: int := -0x8000_0000
  const INT32_MAX: int := 0x7FFF_FFFF

  /** A Java `int` / `Integer` value. */
  type Int32 = x: int | -0x8000_0000 <= x < 0x8000_0000

  /** A Java `long` / `Long` value. */
  type Int64 = x: int | -0x8000_0000_0000_0000 <= x < 0x8000_0000_0000_0000

  /** The runtime exceptions the core can raise. */
  datatype Failure = NullPointer | IllegalState(message: string)

  /** A narrowing `(int)` conversion: the value congruent to `n` modulo 2^32 in the `int` range. */
  function WrapInt32(n: int): (r: Int32)
    ensures (r - n) % 0x1_0000_0000 == 0
    ensures INT32_MIN <= n <= INT32_MAX ==> r == n
  {
    var low := n % 0x1_0000_0000;
    if low < 0x8000_0000 then low else low - 0x1_0000_0000
  }

  predicate IsDigit(c: char) {
    '0' <= c <= '9'
  }

  predicate AllDigits(s: string) {
    forall i :: 0 <= i < |s| ==> IsDigit(s[i])
  }

  function DigitChar(d: nat): (c: char)
    requires d < 10
    ensures IsDigit(c) && c as int - '0' as int == d
  {
    ('0' as int + d) as char
  }

  /** The decimal digits of `n`, most significant first, without leading zeros. */
  function NatToDecimal(n: nat): (s: string)
    ensures |s| > 0 && AllDigits(s)
    ensures s[0] == '0' <==> n == 0
    decreases n
  {
    if n < 10 then [DigitChar(n)] else NatToDecimal(n / 10) + [DigitChar(n % 10)]
  }

  /** The number a string of decimal digits denotes. */
  function DecimalValue(s: string): nat
    requires AllDigits(s)
  {
    if s == [] then 0 else 10 * DecimalValue(s[..|s| - 1]) + (s[|s| - 1] as int - '0' as int)
  }

  lemma {:induction false} DecimalRoundTrip(n: nat)
    ensures DecimalValue(NatToDecimal(n)) == n
  {
    if n >= 10 {
      var front := NatToDecimal(n / 10);
      var s := front + [DigitChar(n % 10)];
      assert s[..|s| - 1] == front;
      DecimalRoundTrip(n / 10);
    }
  }

  /** `String.valueOf(int)`: an optional minus sign followed by the decimal digits. */
  function IntToString(n: int): (s: string)
    ensures |s| > 0
    ensures forall i :: 0 <= i < |s| ==> IsDigit(s[i]) || (i == 0 && s[i] == '-' && n < 0)
  {
    if n < 0 then "-" + NatToDecimal(-n) else NatToDecimal(n)
  }

  /** A reader for an optional '-' followed by one or more decimal digits (leading zeros allowed), the inverse of `IntToString`. */
  function ParseInt(s: string): Option<int> {
    if |s| > 1 && s[0] == '-' && AllDigits(s[1..]) then var v: int := DecimalValue(s[1..]); Some(-v)
    else if |s| > 0 && AllDigits(s) then Some(DecimalValue(s))
    else None
  }

  lemma IntToStringRoundTrip(n: int)
    ensures ParseInt(IntToString(n)) == Some(n)
  {
    if n < 0 {
      var s := IntToString(n);
      assert s[1..] == NatToDecimal(-n);
      DecimalRoundTrip(-n);
    } else {
      DecimalRoundTrip(n);
    }
  }

  /** The characters `String.trim` removes: every code point up to and including the space. */
  predicate IsBlank(c: char) {
    c <= ' '
  }

  predicate AllBlank(s: string) {
    forall i :: 0 <= i < |s| ==> IsBlank(s[i])
  }

  function TrimStart(s: string): string {
    if s != [] && IsBlank(s[0]) then TrimStart(s[1..]) else s
  }

  function TrimEnd(s: string): string {
    if s != [] && IsBlank(s[|s| - 1]) then TrimEnd(s[..|s| - 1]) else s
  }

  /** `String.trim`: blanks are removed from both ends. */
  function Trim(s: string): string {
    TrimEnd(TrimStart(s))
  }

  lemma {:induction false} TrimStartPadded(p: string, x: string)
    requires AllBlank(p)
    requires x == [] || !IsBlank(x[0])
    ensures TrimStart(p + x) == x
    decreases |p|
  {
    if p == [] {
      assert p + x == x;
    } else {
      assert (p + x)[1..] == p[1..] + x;
      TrimStartPadded(p[1..], x);
    }
  }

  lemma {:induction false} TrimEndPadded(x: string, q: string)
    requires AllBlank(q)
    requires x == [] || !IsBlank(x[|x| - 1])
    ensures TrimEnd(x + q) == x
    decreases |q|
  {
    if q == [] {
      assert x + q == x;
    } else {
      var q' := q[..|q| - 1];
      assert (x + q)[..|x + q| - 1] == x + q';
      TrimEndPadded(x, q');
    }
  }

  /** Text that neither starts nor ends with a blank is left as it is. */
  lemma TrimUnpadded(t: string)
    requires t == [] || (!IsBlank(t[0]) && !IsBlank(t[|t| - 1]))
    ensures Trim(t) == t
  {
  }

  /** Trimming removes exactly the padding around text that neither starts nor ends with a blank. */
  lemma TrimPadded(p: string, t: string, q: string)
    requires AllBlank(p) && AllBlank(q)
    requires t == [] || (!IsBlank(t[0]) && !IsBlank(t[|t| - 1]))
    ensures Trim(p + t + q) == t
  {
    if t == [] {
      assert p + t + q == p + q + t;
      TrimStartPadded(p + q, t);
    } else {
      assert p + t + q == p + (t + q);
      TrimStartPadded(p, t + q);
      TrimEndPadded(t, q);
    }
  }

  /** `String.valueOf(Object)` applied to an `Integer`: a null reference becomes "null". */
  function ValueOf(x: Option<Int32>): string {
    match x
    case None => "null"
    case Some(n) => IntToString(n)
  }

  /** Distinct ids (and null) are rendered as distinct strings. */
  lemma ValueOfInjective(a: Option<Int32>, b: Option<Int32>)
    requires ValueOf(a) == ValueOf(b)
    ensures a == b
  {
    match a {
      case None =>
        if b.Some? { IntToStringRoundTrip(b.value); }
      case Some(x) =>
        IntToStringRoundTrip(x);
        if b.Some? { IntToStringRoundTrip(b.value); }
    }
  }

  /** String concatenation of a possibly null `String`: null becomes "null". */
  function StringOf(x: Option<string>): string {
    match x
    case None => "null"
    case Some(s) => s
  }
}
