/** Fixed-width integers, decimal rendering ("%u") and decimal parsing
    (String::toInt, which is atol) as the firmware uses them. */
module Numbers {

  /** C's uint8_t and uint16_t. */
  type uint8 = x: int | 0 <= x < 0x100
  type uint16 = x: int | 0 <= x < 0x1_0000

  /** Conversion of an integer to uint16_t: reduction modulo 2^16. */
  function ToUint16(x: int): (r: uint16)
    ensures (x - r) % 0x1_0000 == 0
    ensures 0 <= x < 0x1_0000 ==> r == x
  {
    x % 0x1_0000
  }

  /** Conversion of an integer to uint8_t: reduction modulo 2^8. */
  function ToUint8(x: int): (r: uint8)
    ensures (x - r) % 0x100 == 0
    ensures 0 <= x < 0x100 ==> r == x
  {
    x % 0x100
  }

  // ---------- digits ----------

  predicate IsDigit(c: char) { '0' <= c <= '9' }

  predicate AllDigits(s: string) { forall i :: 0 <= i < |s| ==> IsDigit(s[i]) }

  /** A digit string without superfluous leading zeros. */
  predicate Canonical(s: string) { AllDigits(s) && |s| >= 1 && (|s| > 1 ==> s[0] != '0') }

  function DigitChar(d: nat): (c: char)
    requires d < 10
    ensures IsDigit(c)
  {
    (('0' as int) + d) as char
  }

  function DigitValue(c: char): (d: nat)
    requires IsDigit(c)
    ensures d < 10
  {
    (c as int) - ('0' as int)
  }

  function Pow10(k: nat): (p: nat)
    ensures p >= 1
  {
    if k == 0 then 1 else 10 * Pow10(k - 1)
  }

  /** The number a digit string denotes, most significant digit first. */
  function DigitsValue(s: string): (v: nat)
    requires AllDigits(s)
    ensures v < Pow10(|s|)
  {
    if s == [] then 0 else 10 * DigitsValue(s[..|s| - 1]) + DigitValue(s[|s| - 1])
  }

  /** printf's "%u": the shortest decimal rendering of n. */
  function Decimal(n: nat): (s: string)
    ensures Canonical(s)
    ensures n < Pow10(|s|)
  {
    if n < 10 then [DigitChar(n)] else Decimal(n / 10) + [DigitChar(n % 10)]
  }

  lemma {:induction false} DecimalValue(n: nat)
    ensures DigitsValue(Decimal(n)) == n
  {
    if n >= 10 {
      var s := Decimal(n);
      assert s[..|s| - 1] == Decimal(n / 10);
      DecimalValue(n / 10);
    }
  }

  lemma {:induction false} LeadingNonZeroPositive(s: string)
    requires AllDigits(s) && |s| >= 1 && s[0] != '0'
    ensures DigitsValue(s) > 0
  {
    if |s| > 1 {
      LeadingNonZeroPositive(s[..|s| - 1]);
    }
  }

  /** Decimal and DigitsValue are mutually inverse on canonical digit strings. */
  lemma {:induction false} DecimalOfValue(s: string)
    requires Canonical(s)
    ensures Decimal(DigitsValue(s)) == s
  {
    if |s| > 1 {
      var p := s[..|s| - 1];
      LeadingNonZeroPositive(p);
      DecimalOfValue(p);
      // the value has at least two digits, so Decimal takes its recursive branch
      assert DigitsValue(s) / 10 == DigitsValue(p);
      assert DigitsValue(s) % 10 == DigitValue(s[|s| - 1]);
      assert DigitChar(DigitValue(s[|s| - 1])) == s[|s| - 1];
      assert s == p + [s[|s| - 1]];
    }
  }

  /** A number below 10^k takes at most k digits. */
  lemma {:induction false} DecimalLength(n: nat, k: nat)
    requires k >= 1 && n < Pow10(k)
    ensures |Decimal(n)| <= k
  {
    if n >= 10 {
      DecimalLength(n / 10, k - 1);
    }
  }

  // ---------- String::toInt (atol) ----------

  /** LONG_MAX of a 32-bit long: toInt reads values up to here exactly;
      beyond it, and below -(LongMax + 1) (LONG_MIN), atol saturates. */
  const LongMax: nat := 0x7FFF_FFFF

  /** C's isspace in the "C" locale: space, \t, \n, \v, \f, \r. */
  predicate IsSpace(c: char) { c == ' ' || 9 <= c as int <= 13 }

  /** What remains after the leading white space. */
  function SkipSpace(s: string): (t: string)
    ensures |t| <= |s| && t == s[|s| - |t|..]
    ensures t == [] || !IsSpace(t[0])
    ensures forall i :: 0 <= i < |s| - |t| ==> IsSpace(s[i])
  {
    if s != [] && IsSpace(s[0]) then SkipSpace(s[1..]) else s
  }

  /** The longest prefix of s made of digits. */
  function LeadingDigits(s: string): (d: string)
    ensures d <= s && AllDigits(d)
    ensures |d| < |s| ==> !IsDigit(s[|d|])
  {
    if s != [] && IsDigit(s[0]) then [s[0]] + LeadingDigits(s[1..]) else []
  }

  /** atol: optional white space, an optional sign, then as many digits as
      follow; text that holds no digits there is 0. */
  function ToInt(s: string): int
  {
    SignedDigits(SkipSpace(s))
  }

  /** atol after the white space: an optional sign, then the leading digits. */
  function SignedDigits(t: string): int
  {
    if t != [] && t[0] == '-' then -(DigitsValue(LeadingDigits(t[1..])) as int)
    else if t != [] && t[0] == '+' then DigitsValue(LeadingDigits(t[1..]))
    else DigitsValue(LeadingDigits(t))
  }

  predicate AllSpace(s: string) { forall i :: 0 <= i < |s| ==> IsSpace(s[i]) }

  lemma {:induction false} SkipSpaceAppend(ws: string, t: string)
    requires AllSpace(ws) && (t == [] || !IsSpace(t[0]))
    ensures SkipSpace(ws + t) == t
  {
    if ws != [] {
      assert (ws + t)[1..] == ws[1..] + t;
      SkipSpaceAppend(ws[1..], t);
    }
  }

  lemma {:induction false} LeadingDigitsAppend(d: string, rest: string)
    requires AllDigits(d) && (rest == [] || !IsDigit(rest[0]))
    ensures LeadingDigits(d + rest) == d
  {
    if d != [] {
      assert (d + rest)[1..] == d[1..] + rest;
      LeadingDigitsAppend(d[1..], rest);
    }
  }

  /** Leading white space does not change what toInt reads. */
  lemma ToIntAfterSpace(ws: string, u: string)
    requires AllSpace(ws) && (u == [] || !IsSpace(u[0]))
    ensures ToInt(ws + u) == ToInt(u)
  {
    SkipSpaceAppend(ws, u);
    NoLeadingSpace(u);
  }

  lemma ToIntOfDigits(d: string, rest: string)
    requires AllDigits(d) && |d| >= 1 && (rest == [] || !IsDigit(rest[0]))
    ensures ToInt(d + rest) == DigitsValue(d)
  {
    var u := d + rest;
    assert u[0] == d[0];
    UnsignedDigits(u);
    LeadingDigitsAppend(d, rest);
  }

  /** Text that starts with a digit is read as its leading digits. */
  lemma UnsignedDigits(u: string)
    requires u != [] && IsDigit(u[0])
    ensures ToInt(u) == DigitsValue(LeadingDigits(u))
  {
    NoLeadingSpace(u);
  }

  /** A solver hint: SkipSpace leaves text alone that does not start with
      white space. */
  lemma NoLeadingSpace(u: string)
    requires u == [] || !IsSpace(u[0])
    ensures SkipSpace(u) == u
  {
  }

  lemma ToIntOfNegatedDigits(d: string, rest: string)
    requires AllDigits(d) && (rest == [] || !IsDigit(rest[0]))
    ensures ToInt("-" + d + rest) == -(DigitsValue(d) as int)
  {
    var u := "-" + d + rest;
    assert u[0] == '-' && u[1..] == d + rest;
    NoLeadingSpace(u);
    LeadingDigitsAppend(d, rest);
  }

  /** toInt reads back what "%u" wrote, up to LONG_MAX, whatever white space
      precedes it and whatever non-digit text follows it. */
  lemma ToIntDecimal(ws: string, n: nat, rest: string)
    requires AllSpace(ws) && (rest == [] || !IsDigit(rest[0])) && n <= LongMax
    ensures ToInt(ws + Decimal(n) + rest) == n
  {
    var d := Decimal(n);
    assert ws + d + rest == ws + (d + rest);
    assert (d + rest)[0] == d[0];
    ToIntAfterSpace(ws, d + rest);
    ToIntOfDigits(d, rest);
    DecimalValue(n);
  }

  /** With a '-' in front of the digits, toInt reads the negated value, down
      to LONG_MIN. */
  lemma ToIntNegatedDecimal(ws: string, n: nat, rest: string)
    requires AllSpace(ws) && (rest == [] || !IsDigit(rest[0])) && n <= LongMax + 1
    ensures ToInt(ws + "-" + Decimal(n) + rest) == -(n as int)
  {
    var d := Decimal(n);
    var u := "-" + d + rest;
    assert ws + "-" + d + rest == ws + u;
    ToIntAfterSpace(ws, u);
    ToIntOfNegatedDigits(d, rest);
    DecimalValue(n);
  }

  /** toInt of the bare "%u" rendering of n is n, up to LONG_MAX. */
  lemma ToIntOfDecimal(n: nat)
    requires n <= LongMax
    ensures ToInt(Decimal(n)) == n
  {
    ToIntDecimal([], n, []);
    assert [] + Decimal(n) + [] == Decimal(n);
  }
}
