/**
 * The number-to-text conversions the formatters rely on, on exact reals:
 * `Math.round`, the decimal rendering of an integral Number (`${n}` in a
 * template literal) and `Number.prototype.toFixed(1)`. Each rendering has a
 * parser beside it, and the round trips are proved.
 */
module NumberText {
  import opened Wrappers

  /**
   * `Math.round`: the integer nearest to `x`; of two equally near, the one
   * toward +infinity.
   */
  function Round(x: real): (r: int)
    ensures x - 0.5 < r as real <= x + 0.5
  {
    (x + 0.5).Floor
  }

  predicate IsDigit(c: char) {
    '0' <= c <= '9'
  }

  function DigitValue(c: char): (d: nat)
    requires IsDigit(c)
    ensures d < 10
  {
    c as int - '0' as int
  }

  function DigitChar(d: nat): (c: char)
    requires d < 10
    ensures IsDigit(c) && DigitValue(c) == d
  {
    ('0' as int + d) as char
  }

  /** Decimal digits of `n`, most significant first, without leading zeros. */
  function NatToString(n: nat): (s: string)
    ensures |s| > 0
    ensures forall i :: 0 <= i < |s| ==> IsDigit(s[i])
    ensures |s| > 1 ==> s[0] != '0'
    ensures s[0] == '0' <==> n == 0
    decreases n
  {
    if n < 10 then [DigitChar(n)] else NatToString(n / 10) + [DigitChar(n % 10)]
  }

  /** Reads a non-empty string of decimal digits. */
  function ParseNat(s: string): (r: Option<nat>)
    ensures r.Some? <==> |s| > 0 && forall i :: 0 <= i < |s| ==> IsDigit(s[i])
  {
    if |s| == 0 || !IsDigit(s[|s| - 1]) then None
    else if |s| == 1 then Some(DigitValue(s[0]))
    else
      match ParseNat(s[..|s| - 1])
      case None => None
      case Some(p) => Some(10 * p + DigitValue(s[|s| - 1]))
  }

  lemma {:induction false} ParseNatToString(n: nat)
    ensures ParseNat(NatToString(n)) == Some(n)
    decreases n
  {
    if n >= 10 {
      ParseNatToString(n / 10);
      var s := NatToString(n);
      assert s[..|s| - 1] == NatToString(n / 10);
    }
  }

  /** Digits without a leading zero, as a non-negative integer is printed. */
  predicate CanonicalNat(s: string) {
    |s| > 0 && (forall i :: 0 <= i < |s| ==> IsDigit(s[i])) && (|s| > 1 ==> s[0] != '0')
  }

  /**
   * An integer as JavaScript prints it: canonical digits, optionally after a
   * minus sign that is never followed by a zero, so there is no "-0".
   */
  predicate CanonicalInt(s: string) {
    if |s| > 0 && s[0] == '-' then CanonicalNat(s[1..]) && s[1] != '0' else CanonicalNat(s)
  }

  /** `${n}` for an integral Number `n` (`-0` also prints as "0"). */
  function IntToString(n: int): (s: string)
    ensures CanonicalInt(s)
    ensures s[0] == '-' <==> n < 0
  {
    if n < 0 then "-" + NatToString(-n) else NatToString(n)
  }

  /** Reads an optional minus sign followed by decimal digits. */
  function ParseInt(s: string): Option<int> {
    if |s| > 0 && s[0] == '-' then
      match ParseNat(s[1..])
      case None => None
      case Some(p) => Some(-(p as int))
    else
      match ParseNat(s)
      case None => None
      case Some(p) => Some(p)
  }

  lemma ParseIntToString(n: int)
    ensures ParseInt(IntToString(n)) == Some(n)
  {
    var s := IntToString(n);
    if n < 0 {
      ParseNatToString(-n);
      assert s[1..] == NatToString(-n);
    } else {
      ParseNatToString(n);
    }
  }

  /** `y.toFixed(1)` for `y >= 0`: `n = Round(10 y)` tenths, written "w.d". */
  function UnsignedFixed1(y: real): (s: string)
    requires y >= 0.0
    ensures |s| >= 3 && IsDigit(s[0])
  {
    var n: nat := Round(y * 10.0);
    NatToString(n / 10) + "." + [DigitChar(n % 10)]
  }

  /**
   * `x.toFixed(1)`: a negative `x` is written as "-" followed by the
   * rendering of `-x`, so that halves round away from zero and a small
   * negative `x` prints as "-0.0". The number read back is within half a
   * tenth of `x`.
   */
  function ToFixed1(x: real): (s: string)
    ensures |s| >= 3
    ensures s[0] == '-' <==> x < 0.0
    ensures ParseTenths(s).Some?
    ensures x >= 0.0 ==> x - 0.05 < ParseTenths(s).value as real / 10.0 <= x + 0.05
    ensures x < 0.0 ==> x - 0.05 <= ParseTenths(s).value as real / 10.0 < x + 0.05
  {
    if x < 0.0 then
      var s := "-" + UnsignedFixed1(-x);
      UnsignedTenthsRoundTrip(-x);
      assert s[1..] == UnsignedFixed1(-x);
      s
    else
      UnsignedTenthsRoundTrip(x);
      UnsignedFixed1(x)
  }

  /** Reads "w.d" as a count of tenths. */
  function ParseUnsignedTenths(s: string): Option<nat> {
    if |s| >= 3 && s[|s| - 2] == '.' && IsDigit(s[|s| - 1]) then
      match ParseNat(s[..|s| - 2])
      case None => None
      case Some(w) => Some(10 * w + DigitValue(s[|s| - 1]))
    else None
  }

  /** Reads an optional minus sign followed by "w.d" as a count of tenths. */
  function ParseTenths(s: string): Option<int> {
    if |s| > 0 && s[0] == '-' then
      match ParseUnsignedTenths(s[1..])
      case None => None
      case Some(t) => Some(-(t as int))
    else
      match ParseUnsignedTenths(s)
      case None => None
      case Some(t) => Some(t)
  }

  lemma UnsignedTenthsRoundTrip(y: real)
    requires y >= 0.0
    ensures ParseUnsignedTenths(UnsignedFixed1(y)) == Some(Round(y * 10.0))
  {
    var n: nat := Round(y * 10.0);
    var s := UnsignedFixed1(y);
    ParseNatToString(n / 10);
    assert s[..|s| - 2] == NatToString(n / 10);
  }
}
