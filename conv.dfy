/** The two integer/text conversions of the C++ standard library the shell
    relies on: `std::stoi` (used by `exit`) and writing an `int` to an
    output stream (used by the return-code operators). */
module Conv {
  import opened CType
  import Util

  const IntMin: int := -0x8000_0000
  const IntMax: int := 0x7FFF_FFFF

  /** The values of a 32-bit C++ `int`. */
  type Int32 = x: int | -0x8000_0000 <= x <= 0x7FFF_FFFF

  // ---------------------------------------------------------------------
  // Decimal digits
  // ---------------------------------------------------------------------

  function DigitChar(d: nat): (c: char)
    requires d < 10
    ensures IsDigit(c)
  {
    ['0', '1', '2', '3', '4', '5', '6', '7', '8', '9'][d]
  }

  function DigitValue(c: char): (d: nat)
    requires IsDigit(c)
    ensures d < 10 && DigitChar(d) == c
  {
    (c as int - '0' as int) as nat
  }

  predicate AllDigits(s: string)
  {
    forall k :: 0 <= k < |s| ==> IsDigit(s[k])
  }

  /** The value of a string of decimal digits, most significant first. */
  function DigitsValue(ds: string): nat
    requires AllDigits(ds)
    decreases |ds|
  {
    if ds == [] then 0
    else DigitsValue(ds[..|ds| - 1]) * 10 + DigitValue(ds[|ds| - 1])
  }

  /** The decimal digits of a natural number, with no leading zero. */
  function NatDigits(n: nat): (ds: string)
    ensures ds != [] && AllDigits(ds)
    ensures ds[0] == '0' ==> n == 0
    decreases n
  {
    if n < 10 then [DigitChar(n)] else NatDigits(n / 10) + [DigitChar(n % 10)]
  }

  /** Writing an `int` with `operator<<`: a '-' for negative values, then
      the decimal digits of the magnitude. */
  function DecimalString(n: int): (s: string)
    ensures s != [] && (s[0] == '-' || IsDigit(s[0]))
  {
    if n < 0 then "-" + NatDigits(-n) else NatDigits(n)
  }

  /** `operator<<` writes a '-' exactly for a negative value, and nothing
      but the digits of the magnitude after it. */
  lemma DecimalStringShape(n: int)
    ensures var s := DecimalString(n);
      && (s[0] == '-' <==> n < 0)
      && (n < 0 ==> s[1..] == NatDigits(-n))
      && AllDigits(if n < 0 then s[1..] else s)
  {
    if n < 0 {
      var s := DecimalString(n);
      assert s == "-" + NatDigits(-n);
      assert s[1..] == NatDigits(-n);
    }
  }

  // ---------------------------------------------------------------------
  // std::stoi
  // ---------------------------------------------------------------------

  /** How `std::stoi` ends: a value, or one of its two exceptions. */
  datatype StoiResult = Parsed(value: Int32) | InvalidArgument | OutOfRange

  /** The longest prefix made of decimal digits. */
  function LeadingDigits(s: string): (ds: string)
    ensures |ds| <= |s| && ds == s[..|ds|] && AllDigits(ds)
    ensures |ds| == |s| || !IsDigit(s[|ds|])
    decreases |s|
  {
    if s != [] && IsDigit(s[0]) then [s[0]] + LeadingDigits(s[1..]) else []
  }

  /** `std::stoi` in base 10: skip leading whitespace, accept one optional
      sign, require at least one digit and ignore whatever follows the
      digits; a value outside the range of `int` is out of range. */
  function Stoi(s: string): (r: StoiResult)
    ensures r == InvalidArgument <==>
      var t := Util.LTrimmed(s);
      var body := if t != [] && (t[0] == '-' || t[0] == '+') then t[1..] else t;
      body == [] || !IsDigit(body[0])
  {
    StoiTrimmed(Util.LTrimmed(s))
  }

  /** `std::stoi` once the leading whitespace is gone. */
  function StoiTrimmed(t: string): StoiResult
  {
    var negative := t != [] && t[0] == '-';
    var body := if t != [] && (t[0] == '-' || t[0] == '+') then t[1..] else t;
    FromDigits(negative, LeadingDigits(body))
  }

  /** The value of the digits read, with its sign, checked against the
      range of `int`. */
  function FromDigits(negative: bool, ds: string): StoiResult
    requires AllDigits(ds)
  {
    if ds == [] then InvalidArgument
    else
      var v: int := if negative then -(DigitsValue(ds) as int) else DigitsValue(ds);
      if IntMin <= v <= IntMax then Parsed(v) else OutOfRange
  }

  // ---------------------------------------------------------------------
  // Round trip
  // ---------------------------------------------------------------------

  lemma {:induction false} DigitsValueOfNatDigits(n: nat)
    ensures DigitsValue(NatDigits(n)) == n
    decreases n
  {
    if n >= 10 {
      var ds := NatDigits(n);
      assert ds[..|ds| - 1] == NatDigits(n / 10);
      DigitsValueOfNatDigits(n / 10);
    }
  }

  lemma {:induction false} LeadingDigitsOfDigits(ds: string, junk: string)
    requires AllDigits(ds)
    requires junk == [] || !IsDigit(junk[0])
    ensures LeadingDigits(ds + junk) == ds
    decreases |ds|
  {
    if ds != [] {
      assert (ds + junk)[1..] == ds[1..] + junk;
      LeadingDigitsOfDigits(ds[1..], junk);
    } else {
      assert ds + junk == junk;
    }
  }

  /** A run of digits followed by a non-digit reads back as its value, or
      is out of range when that value exceeds `INT_MAX`. */
  lemma StoiOfUnsigned(ds: string, junk: string)
    requires ds != [] && AllDigits(ds)
    requires junk == [] || !IsDigit(junk[0])
    ensures DigitsValue(ds) <= IntMax ==> Stoi(ds + junk) == Parsed(DigitsValue(ds))
    ensures DigitsValue(ds) > IntMax ==> Stoi(ds + junk) == OutOfRange
  {
    var s := ds + junk;
    assert s[0] == ds[0];
    assert Util.LTrimmed(s) == s;
    LeadingDigitsOfDigits(ds, junk);
  }

  /** The decimal digits of any number above `INT_MAX` are out of range. */
  lemma StoiOutOfRange(n: nat, junk: string)
    requires n > IntMax
    requires junk == [] || !IsDigit(junk[0])
    ensures Stoi(NatDigits(n) + junk) == OutOfRange
  {
    DigitsValueOfNatDigits(n);
    StoiOfUnsigned(NatDigits(n), junk);
  }

  /** A '-' and a run of digits followed by a non-digit reads back as the
      negated value. */
  lemma StoiOfNegative(ds: string, junk: string)
    requires ds != [] && AllDigits(ds) && IntMin <= -(DigitsValue(ds) as int)
    requires junk == [] || !IsDigit(junk[0])
    ensures Stoi("-" + ds + junk) == Parsed(-(DigitsValue(ds) as int))
  {
    var body := ds + junk;
    var s := "-" + body;
    assert "-" + ds + junk == s;
    assert s[0] == '-' && s[1..] == body;
    assert Util.LTrimmed(s) == s;
    LeadingDigitsOfDigits(ds, junk);
    assert StoiTrimmed(s) == FromDigits(true, ds);
  }

  /** Reading back what `operator<<` wrote for an `int`, with anything not
      starting with a digit after it, gives the same `int`. */
  lemma StoiReadsDecimal(n: Int32, junk: string)
    requires junk == [] || !IsDigit(junk[0])
    ensures Stoi(DecimalString(n) + junk) == Parsed(n)
  {
    if n < 0 {
      StoiReadsNegative(n, junk);
    } else {
      DigitsValueOfNatDigits(n);
      StoiOfUnsigned(NatDigits(n), junk);
    }
  }

  lemma StoiReadsNegative(n: Int32, junk: string)
    requires n < 0
    requires junk == [] || !IsDigit(junk[0])
    ensures Stoi(DecimalString(n) + junk) == Parsed(n)
  {
    var m: nat := -(n as int);
    var ds := NatDigits(m);
    DigitsValueOfNatDigits(m);
    assert ds != [] && AllDigits(ds);
    assert -(DigitsValue(ds) as int) == n;
    StoiOfNegative(ds, junk);
    assert DecimalString(n) + junk == "-" + ds + junk;
  }

  /** Leading whitespace never changes what `std::stoi` reads. */
  lemma StoiSkipsLeadingSpace(ws: string, s: string)
    requires AllSpace(ws)
    ensures Stoi(ws + s) == Stoi(s)
  {
    LTrimmedSkips(ws, s);
  }

  lemma {:induction false} LTrimmedSkips(ws: string, s: string)
    requires AllSpace(ws)
    ensures Util.LTrimmed(ws + s) == Util.LTrimmed(s)
    decreases |ws|
  {
    if ws != [] {
      assert (ws + s)[0] == ws[0] && (ws + s)[1..] == ws[1..] + s;
      assert AllSpace(ws[1..]) by {
        assert forall k :: 0 <= k < |ws[1..]| ==> ws[1..][k] == ws[k + 1];
      }
      LTrimmedSkips(ws[1..], s);
    } else {
      assert ws + s == s;
    }
  }

  /** A string that holds no digit before its first non-sign character
      (nothing but whitespace and at most a sign in front of a non-digit) is
      rejected as an invalid argument. */
  lemma StoiRejectsNonNumeric(s: string)
    requires var t := Util.LTrimmed(s);
      var body := if t != [] && (t[0] == '-' || t[0] == '+') then t[1..] else t;
      body == [] || !IsDigit(body[0])
    ensures Stoi(s) == InvalidArgument
  {
  }
}
