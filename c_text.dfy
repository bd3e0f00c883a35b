/**
 * The C library text conversions the daemon relies on, over C strings as
 * byte sequences (without their NUL terminator): `%u` printing as done by
 * snprintf and `%u` scanning as done by sscanf.
 */
module CText {
  import opened Util

  /** A C string without its terminating NUL. */
  type CString = seq<bv8>

  const ZERO: bv8 := 0x30
  const PLUS: bv8 := 0x2B
  const MINUS: bv8 := 0x2D
  const TWO_TO_32: nat := 0x1_0000_0000

  /** isdigit */
  predicate IsDigit(c: bv8)
  {
    ZERO <= c <= 0x39
  }

  /** isspace, in the C locale. */
  predicate IsSpace(c: bv8)
  {
    c == 0x20 || 0x09 <= c <= 0x0D
  }

  /** A sign character accepted by %u. */
  predicate IsSign(c: bv8)
  {
    c == PLUS || c == MINUS
  }

  predicate AllDigits(s: CString)
  {
    forall i :: 0 <= i < |s| ==> IsDigit(s[i])
  }

  /** The value of a digit. */
  function DigitValue(c: bv8): nat
    requires IsDigit(c)
  {
    (c - ZERO) as nat
  }

  /** The character of a digit value. */
  function DigitChar(d: nat): (c: bv8)
    requires d < 10
    ensures IsDigit(c) && DigitValue(c) == d
  {
    ZERO + d as bv8
  }

  /** `n` in decimal, most significant digit first, without leading zeros. */
  function Decimal(n: nat): (s: CString)
    ensures 1 <= |s| && AllDigits(s)
    ensures |s| > 1 ==> s[0] != ZERO
  {
    if n < 10 then [DigitChar(n)] else Decimal(n / 10) + [DigitChar(n % 10)]
  }

  function Pow10(k: nat): (p: nat)
    ensures p >= 1
  {
    if k == 0 then 1 else 10 * Pow10(k - 1)
  }

  /** The number a sequence of decimal digits denotes. */
  function DigitsValue(s: CString): nat
    requires AllDigits(s)
  {
    if s == [] then 0 else DigitsValue(s[..|s| - 1]) * 10 + DigitValue(s[|s| - 1])
  }

  /** Reading back the decimal rendering of n gives n. */
  lemma {:induction false} DecimalValue(n: nat)
    ensures DigitsValue(Decimal(n)) == n
  {
    if n >= 10 {
      var s := Decimal(n);
      assert s[..|s| - 1] == Decimal(n / 10);
      DecimalValue(n / 10);
    }
  }

  /** The decimal rendering has at most k digits exactly below 10^k. */
  lemma {:induction false} DecimalLength(n: nat, k: nat)
    requires k >= 1
    ensures n < Pow10(k) <==> |Decimal(n)| <= k
  {
    if n >= 10 {
      assert |Decimal(n)| == |Decimal(n / 10)| + 1;
      if k == 1 {
        assert Pow10(1) == 10;
      } else {
        DecimalLength(n / 10, k - 1);
        assert n < Pow10(k) <==> n / 10 < Pow10(k - 1);
      }
    } else {
      assert Pow10(k) >= 10 by { Pow10AtLeastTen(k); }
    }
  }

  lemma {:induction false} Pow10AtLeastTen(k: nat)
    requires k >= 1
    ensures Pow10(k) >= 10
  {
    if k > 1 {
      Pow10AtLeastTen(k - 1);
    }
  }

  /** The length of the run of leading characters with property `digit`
      (digits) or not (spaces). */
  function LeadingDigits(s: CString): (n: nat)
    ensures n <= |s| && AllDigits(s[..n])
    ensures n < |s| ==> !IsDigit(s[n])
  {
    if s != [] && IsDigit(s[0]) then
      var n := 1 + LeadingDigits(s[1..]);
      assert s[..n] == [s[0]] + s[1..][..n - 1];
      n
    else 0
  }

  function LeadingSpaces(s: CString): (n: nat)
    ensures n <= |s| && forall i :: 0 <= i < n ==> IsSpace(s[i])
    ensures n < |s| ==> !IsSpace(s[n])
  {
    if s != [] && IsSpace(s[0]) then 1 + LeadingSpaces(s[1..]) else 0
  }

  /**
   * sscanf(s, "%u", &v): after optional white space and an optional sign,
   * at least one digit must follow; the value of the digits, negated for a
   * minus sign, is stored modulo 2^32. None when no conversion is made
   * (sscanf returns 0); the characters after the digits are ignored.
   */
  function ScanUnsigned(s: CString): (r: Option<bv32>)
    ensures r.Some? ==> exists c :: c in s && IsDigit(c)
  {
    var t := s[LeadingSpaces(s)..];
    assert forall c :: c in t ==> c in s;
    match ScanNumber(t)
    case None => None
    case Some(n) => Some(Converted(n.value, n.negative))
  }

  /** What the conversion reads: the value of the digits and the sign. */
  datatype Number = Number(value: nat, negative: bool)

  /** The conversion after the white space: an optional sign, then digits. */
  function ScanNumber(t: CString): (r: Option<Number>)
    ensures r.Some? ==> exists c :: c in t && IsDigit(c)
  {
    var signed := |t| > 0 && IsSign(t[0]);
    var u := if signed then t[1..] else t;
    var n := LeadingDigits(u);
    if n == 0 then None
    else
      assert IsDigit(u[0]) && u[0] in t;
      Some(Number(DigitsValue(u[..n]), signed && t[0] == MINUS))
  }

  /** The digits' value stored into an unsigned 32-bit variable, negated
      modulo 2^32 after a minus sign. */
  function Converted(value: nat, negative: bool): bv32
  {
    var v := value % TWO_TO_32;
    (if negative then (TWO_TO_32 - v) % TWO_TO_32 else v) as bv32
  }

  /** A run of white space. */
  predicate Spaces(ws: CString)
  {
    forall i :: 0 <= i < |ws| ==> IsSpace(ws[i])
  }

  /** An optional sign. */
  predicate Sign(sign: CString)
  {
    sign == [] || sign == [PLUS] || sign == [MINUS]
  }

  /** White space is skipped up to the first other character. */
  lemma {:induction false} LeadingSpacesOf(ws: CString, rest: CString)
    requires Spaces(ws) && (rest == [] || !IsSpace(rest[0]))
    ensures LeadingSpaces(ws + rest) == |ws|
  {
    if ws != [] {
      assert (ws + rest)[1..] == ws[1..] + rest;
      LeadingSpacesOf(ws[1..], rest);
    } else {
      assert ws + rest == rest;
    }
  }

  /** %u converts white space, an optional sign and at least one digit: the
      digits' value modulo 2^32, negated modulo 2^32 after a minus sign.
      Leading zeros and whatever follows the digits do not matter. */
  lemma ScanParts(ws: CString, sign: CString, d: CString, rest: CString)
    requires Spaces(ws) && Sign(sign) && 1 <= |d| && AllDigits(d)
    requires rest == [] || !IsDigit(rest[0])
    ensures ScanUnsigned(ws + sign + d + rest) == Some(Converted(DigitsValue(d), sign == [MINUS]))
  {
    var t := sign + d + rest;
    AppendAssociative(ws, sign, d);
    AppendAssociative(ws, sign + d, rest);
    assert t[0] == (if sign == [] then d[0] else sign[0]);
    ScanSigned(sign, d, rest);
    ScanAfterSpaces(ws, t);
  }

  /** A value that fits 32 bits is stored unchanged without a sign. */
  lemma ConvertedUnsigned(value: nat)
    requires value < TWO_TO_32
    ensures Converted(value, false) == value as bv32
  {
  }

  /** Leading white space is skipped before the number is read. */
  lemma ScanAfterSpaces(ws: CString, t: CString)
    requires Spaces(ws) && (t == [] || !IsSpace(t[0]))
    ensures ScanNumber(t).None? ==> ScanUnsigned(ws + t).None?
    ensures ScanNumber(t).Some? ==>
              ScanUnsigned(ws + t) == Some(Converted(ScanNumber(t).value.value, ScanNumber(t).value.negative))
  {
    LeadingSpacesOf(ws, t);
    assert (ws + t)[|ws|..] == t;
  }

  /** The conversion of a sign and digits. */
  lemma ScanSigned(sign: CString, d: CString, rest: CString)
    requires Sign(sign) && 1 <= |d| && AllDigits(d)
    requires rest == [] || !IsDigit(rest[0])
    ensures ScanNumber(sign + d + rest) == Some(Number(DigitsValue(d), sign == [MINUS]))
  {
    var u := d + rest;
    LeadingDigitsOf(d, rest);
    assert u[..|d|] == d;
    AppendAssociative(sign, d, rest);
    if sign == [] {
      assert sign + u == u;
      ScanUnsignedDigits(u, |d|);
    } else {
      assert sign == [sign[0]];
      ScanSignedDigits(sign[0], u, |d|);
    }
  }

  /** Digits read without a sign. */
  lemma ScanUnsignedDigits(u: CString, n: nat)
    requires LeadingDigits(u) == n && 1 <= n
    ensures ScanNumber(u) == Some(Number(DigitsValue(u[..n]), false))
  {
    assert !IsSign(u[0]);
  }

  /** Digits read after a sign. */
  lemma ScanSignedDigits(c: bv8, u: CString, n: nat)
    requires IsSign(c) && LeadingDigits(u) == n && 1 <= n
    ensures ScanNumber([c] + u) == Some(Number(DigitsValue(u[..n]), c == MINUS))
  {
    assert ([c] + u)[1..] == u;
  }

  /** %u fails exactly when, after the white space, neither a digit nor a
      sign followed by a digit comes. Every string splits this way, with
      `ws` its leading white space. */
  lemma ScanFails(ws: CString, rest: CString)
    requires Spaces(ws) && (rest == [] || !IsSpace(rest[0]))
    ensures ScanUnsigned(ws + rest).None? <==>
              !(|rest| >= 1 && IsDigit(rest[0]))
              && !(|rest| >= 2 && IsSign(rest[0]) && IsDigit(rest[1]))
  {
    ScanAfterSpaces(ws, rest);
    var signed := |rest| > 0 && IsSign(rest[0]);
    var u := if signed then rest[1..] else rest;
    assert LeadingDigits(u) == 0 <==> u == [] || !IsDigit(u[0]);
  }

  /** sscanf reads back what %u prints, and stops at the first character
      that is not a digit. */
  lemma ScanDecimal(n: nat, rest: CString)
    requires n < TWO_TO_32
    requires rest == [] || !IsDigit(rest[0])
    ensures ScanUnsigned(Decimal(n) + rest) == Some(n as bv32)
  {
    ScanParts([], [], Decimal(n), rest);
    assert [] + [] + Decimal(n) == Decimal(n);
    DecimalValue(n);
    ConvertedUnsigned(n);
  }

  /** The digits followed by anything else than a digit are a leading run. */
  lemma {:induction false} LeadingDigitsOf(d: CString, rest: CString)
    requires AllDigits(d)
    requires rest == [] || !IsDigit(rest[0])
    ensures LeadingDigits(d + rest) == |d|
  {
    if d != [] {
      assert (d + rest)[1..] == d[1..] + rest;
      LeadingDigitsOf(d[1..], rest);
    } else {
      assert d + rest == rest;
    }
  }

  /** snprintf(buf, size, "%u", n): the rendering cut to size - 1 bytes,
      leaving room for the NUL. */
  function FormatUnsigned(n: bv32, size: nat): (s: CString)
    requires size >= 1
    ensures s <= Decimal(n as nat)
    ensures |s| == if |Decimal(n as nat)| <= size - 1 then |Decimal(n as nat)| else size - 1
  {
    var d := Decimal(n as nat);
    if |d| <= size - 1 then d else d[..size - 1]
  }
}
