/**
 * JavaScript number <-> string conversions used by the core: Number.prototype.toString
 * on non-negative integers, String.prototype.padStart, parseInt (no radix) and parseFloat.
 * NaN is None.
 */
module Numbers {
  import opened Wrappers
  import opened Text

  predicate IsDigit(c: char) {
    '0' <= c <= '9'
  }

  predicate AllDigits(s: string) {
    forall i :: 0 <= i < |s| ==> IsDigit(s[i])
  }

  function DigitChar(d: nat): (c: char)
    requires d < 10
    ensures IsDigit(c)
  {
    ('0' as int + d) as char
  }

  function DigitValue(c: char): (d: nat)
    requires IsDigit(c)
    ensures d < 10
  {
    c as int - '0' as int
  }

  /** The value of a string of decimal digits, most significant first. */
  function DigitsValue(s: string): nat
    requires AllDigits(s)
  {
    if s == [] then 0 else DigitsValue(s[..|s| - 1]) * 10 + DigitValue(s[|s| - 1])
  }

  /** Number.prototype.toString() of a non-negative integer. */
  function NatToString(n: nat): (r: string)
    ensures |r| > 0 && AllDigits(r)
    ensures (n == 0) == (r == "0")
    ensures r[0] == '0' ==> n == 0
  {
    if n < 10 then [DigitChar(n)] else NatToString(n / 10) + [DigitChar(n % 10)]
  }

  /** Number.prototype.toString() of an integer. */
  function IntToString(i: int): string {
    if i < 0 then "-" + NatToString(-i) else NatToString(i)
  }

  /** Reading back what NatToString wrote gives the number. */
  lemma {:induction false} NatToStringRoundTrip(n: nat)
    ensures DigitsValue(NatToString(n)) == n
  {
    if n >= 10 {
      NatToStringRoundTrip(n / 10);
      var s := NatToString(n);
      assert s[..|s| - 1] == NatToString(n / 10);
    }
  }

  /** String.prototype.padStart(width, c) */
  function PadStart(s: string, width: nat, c: char): (r: string)
    ensures |r| == if |s| >= width then |s| else width
    ensures EndsWith(r, s)
    ensures forall i :: 0 <= i < |r| - |s| ==> r[i] == c
  {
    if |s| >= width then s else seq(width - |s|, _ => c) + s
  }

  /** The number of leading characters of `s` satisfying `ok`. */
  function LeadingCount(s: string, ok: char -> bool): (k: nat)
    ensures k <= |s|
    ensures forall i :: 0 <= i < k ==> ok(s[i])
    ensures k < |s| ==> !ok(s[k])
  {
    if s != [] && ok(s[0]) then 1 + LeadingCount(s[1..], ok) else 0
  }

  predicate IsHexDigit(c: char) {
    IsDigit(c) || 'a' <= c <= 'f' || 'A' <= c <= 'F'
  }

  function HexDigitValue(c: char): nat
    requires IsHexDigit(c)
  {
    if IsDigit(c) then DigitValue(c)
    else if 'a' <= c <= 'f' then c as int - 'a' as int + 10
    else c as int - 'A' as int + 10
  }

  function HexValue(s: string): nat
    requires forall i :: 0 <= i < |s| ==> IsHexDigit(s[i])
  {
    if s == [] then 0 else HexValue(s[..|s| - 1]) * 16 + HexDigitValue(s[|s| - 1])
  }

  /** Splits an optional '+' or '-' off the front: (sign, rest). */
  function SplitSign(s: string): (r: (int, string))
    ensures r.0 == 1 || r.0 == -1
    ensures |r.1| <= |s|
  {
    if s != [] && s[0] == '-' then (-1, s[1..])
    else if s != [] && s[0] == '+' then (1, s[1..])
    else (1, s)
  }

  /**
   * parseInt(s) with no radix: leading white space, an optional sign, an optional
   * 0x/0X prefix selecting base 16, then the longest run of digits; NaN when the run is empty.
   */
  function ParseInt(s: string): Option<int> {
    var (sign, u) := SplitSign(TrimStart(s));
    if StartsWith(u, "0x") || StartsWith(u, "0X") then
      var h := LeadingCount(u[2..], IsHexDigit);
      if h == 0 then None else Some(sign * HexValue(u[2..][..h]))
    else
      var d := LeadingCount(u, IsDigit);
      if d == 0 then None else Some(sign * DigitsValue(u[..d]))
  }

  /** parseInt reads a numeral written by toString back as the number. */
  lemma ParseIntOfNatToString(n: nat)
    ensures ParseInt(NatToString(n)) == Some(n)
  {
    var s := NatToString(n);
    assert !IsSpace(s[0]);
    assert TrimStart(s) == s;
    assert SplitSign(s) == (1, s);
    assert !StartsWith(s, "0x") && !StartsWith(s, "0X") by {
      if |s| >= 2 { assert IsDigit(s[1]) && s[..2][1] == s[1]; }
    }
    assert LeadingCount(s, IsDigit) == |s|;
    assert s[..|s|] == s;
    NatToStringRoundTrip(n);
  }

  function Pow10(e: nat): (r: nat)
    ensures r >= 1
  {
    if e == 0 then 1 else 10 * Pow10(e - 1)
  }

  /** The exponent part of a decimal literal at the front of `s` ("e", optional sign, digits), or 0. */
  function ExponentOf(s: string): int {
    if s != [] && (s[0] == 'e' || s[0] == 'E') then
      var (sign, u) := SplitSign(s[1..]);
      var d := LeadingCount(u, IsDigit);
      if d == 0 then 0 else sign * DigitsValue(u[..d])
    else 0
  }

  function Scale(m: real, e: int): real {
    if e >= 0 then m * (Pow10(e) as real) else m / (Pow10(-e) as real)
  }

  /**
   * parseFloat(s): leading white space, an optional sign, then the longest prefix
   * of the form digits [ '.' digits ] [ exponent ] or '.' digits [ exponent ];
   * NaN when there is no digit before the exponent.
   */
  function ParseFloat(s: string): Option<real> {
    var (sign, u) := SplitSign(TrimStart(s));
    match ParseUnsigned(u)
    case None => None
    case Some(m) => Some(if sign < 0 then -m else m)
  }

  /** The unsigned decimal literal at the front of `u`: its digits without the dot, scaled by the exponent. */
  function ParseUnsigned(u: string): Option<real> {
    var k := LeadingCount(u, IsDigit);
    var hasDot := k < |u| && u[k] == '.';
    var f := if hasDot then LeadingCount(u[k + 1..], IsDigit) else 0;
    var digits := if hasDot then u[..k] + u[k + 1..k + 1 + f] else u[..k];
    var afterDigits := if hasDot then k + 1 + f else k;
    if k == 0 && f == 0 then None
    else Some(Scale(DigitsValue(digits) as real, ExponentOf(u[afterDigits..]) - f))
  }

  lemma ParseUnsignedOfDigits(s: string)
    requires |s| > 0 && AllDigits(s)
    ensures ParseUnsigned(s) == Some(Scale(DigitsValue(s) as real, 0))
  {
    assert LeadingCount(s, IsDigit) == |s|;
    assert s[..|s|] == s;
    assert ExponentOf(s[|s|..]) == 0;
  }

  /** A plain numeral of digits is read by parseFloat as its value. */
  lemma ParseFloatOfDigits(s: string)
    requires |s| > 0 && AllDigits(s)
    ensures ParseFloat(s) == Some(DigitsValue(s) as real)
  {
    assert !IsSpace(s[0]);
    assert TrimStart(s) == s;
    assert SplitSign(s) == (1, s);
    ParseUnsignedOfDigits(s);
    ScaleByZero(DigitsValue(s) as real);
  }

  lemma ScaleByZero(m: real)
    ensures Scale(m, 0) == m
  {
    assert Pow10(0) == 1;
  }
}
