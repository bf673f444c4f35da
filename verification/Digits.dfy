/** Numbers written as ASCII digits: reading, comparing and printing them. */
module Digits {
  import opened Common

  predicate AllDigits(s: seq<int>) { forall i :: 0 <= i < |s| ==> IsDigit(s[i]) }

  /** The natural number a string of ASCII digits denotes. */
  function DigitsValue(s: seq<int>): (v: int)
    requires AllDigits(s)
    ensures v >= 0
  {
    if s == [] then 0
    else
      assert IsDigit(s[|s| - 1]);
      10 * DigitsValue(s[..|s| - 1]) + (s[|s| - 1] - '0' as int)
  }

  predicate IsZero(c: byte) { c == '0' as int }

  function StripLeadingZeros(s: seq<byte>): seq<byte> {
    s[Leading(s, IsZero)..]
  }

  lemma {:induction false} StrippingKeepsTheNumber(s: seq<byte>)
    requires AllDigits(s)
    ensures DigitsValue(StripLeadingZeros(s)) == DigitsValue(s)
  {
    var n := Leading(s, IsZero);
    var i := 0;
    while i < n
      invariant i <= n
      invariant DigitsValue(s[i..]) == DigitsValue(s)
    {
      DroppingAZero(s[i..]);
      assert s[i..][1..] == s[i + 1..];
      i := i + 1;
    }
  }

  lemma {:induction false} DroppingAZero(s: seq<byte>)
    requires s != [] && s[0] == '0' as int
    requires AllDigits(s)
    ensures DigitsValue(s[1..]) == DigitsValue(s)
  {
    if |s| > 1 {
      DroppingAZero(s[..|s| - 1]);
      assert s[..|s| - 1][1..] == s[1..][..|s[1..]| - 1];
    }
  }

  function Pow10(n: nat): (p: nat)
    ensures p > 0
  {
    if n == 0 then 1 else 10 * Pow10(n - 1)
  }

  /** A number without leading zeros lies between the powers of ten of its length. */
  lemma {:induction false} NumberBounds(s: seq<byte>)
    requires AllDigits(s)
    ensures DigitsValue(s) < Pow10(|s|)
    ensures s != [] && s[0] != '0' as int ==> Pow10(|s| - 1) <= DigitsValue(s)
  {
    if s != [] {
      NumberBounds(s[..|s| - 1]);
      assert IsDigit(s[|s| - 1]);
    }
  }

  lemma {:induction false} Pow10Monotone(m: nat, n: nat)
    requires m <= n
    ensures Pow10(m) <= Pow10(n)
  {
    if m < n { Pow10Monotone(m, n - 1); }
  }

  /** Without leading zeros, comparing lengths and then bytes compares numbers. */
  lemma {:induction false} LengthThenBytesIsNumeric(a: seq<byte>, b: seq<byte>)
    requires AllDigits(a)
    requires AllDigits(b)
    requires a != [] ==> a[0] != '0' as int
    requires b != [] ==> b[0] != '0' as int
    ensures CompareInt(|a|, |b|).Then(CompareSeq(a, b)) == CompareInt(DigitsValue(a), DigitsValue(b))
  {
    NumberBounds(a);
    NumberBounds(b);
    if |a| < |b| {
      Pow10Monotone(|a|, |b| - 1);
    } else if |b| < |a| {
      Pow10Monotone(|b|, |a| - 1);
    } else {
      SameLengthIsNumeric(a, b);
    }
  }

  lemma {:induction false} SameLengthIsNumeric(a: seq<byte>, b: seq<byte>)
    requires |a| == |b|
    requires AllDigits(a)
    requires AllDigits(b)
    ensures CompareSeq(a, b) == CompareInt(DigitsValue(a), DigitsValue(b))
  {
    if a != [] {
      var n := |a| - 1;
      SameLengthIsNumeric(a[..n], b[..n]);
      CompareSeqLast(a, b);
      assert IsDigit(a[n]) && IsDigit(b[n]);
    }
  }

  lemma {:induction false} CompareSeqLast(a: seq<int>, b: seq<int>)
    requires |a| == |b| > 0
    ensures CompareSeq(a, b) == CompareSeq(a[..|a| - 1], b[..|b| - 1]).Then(CompareInt(a[|a| - 1], b[|b| - 1]))
  {
    if |a| > 1 {
      CompareSeqLast(a[1..], b[1..]);
      assert a[1..][..|a| - 2] == a[..|a| - 1][1..];
      assert b[1..][..|b| - 2] == b[..|b| - 1][1..];
    }
  }

  lemma StrippedComparisonIsNumeric(a: seq<byte>, b: seq<byte>)
    requires AllDigits(a)
    requires AllDigits(b)
    ensures var sa, sb := StripLeadingZeros(a), StripLeadingZeros(b);
            CompareInt(|sa|, |sb|).Then(CompareSeq(sa, sb)) == CompareInt(DigitsValue(a), DigitsValue(b))
  {
    StrippingKeepsTheNumber(a);
    StrippingKeepsTheNumber(b);
    LengthThenBytesIsNumeric(StripLeadingZeros(a), StripLeadingZeros(b));
  }

  // ---------- printing ----------

  /** A number below ten as its digit. */
  function Digit(n: nat): byte
    requires n < 10
  {
    '0' as int + n
  }

  /** The decimal digits of a number, `0` for zero. */
  function Decimal(n: nat): (s: seq<byte>)
    ensures s != [] && AllDigits(s) && DigitsValue(s) == n
  {
    if n < 10 then
      assert [Digit(n)][..0] == [];
      [Digit(n)]
    else
      var s := Decimal(n / 10) + [Digit(n % 10)];
      assert s[..|s| - 1] == Decimal(n / 10);
      s
  }

  function Zeros(n: nat): (s: seq<byte>)
    ensures |s| == n && AllDigits(s) && DigitsValue(s) == 0
  {
    if n == 0 then [] else
      var s := Zeros(n - 1) + [Digit(0)];
      assert s[..n - 1] == Zeros(n - 1);
      s
  }

  /** The decimal digits padded with zeros to at least `width`. */
  function Padded(n: nat, width: nat): seq<byte> {
    var s := Decimal(n);
    if |s| < width then Zeros(width - |s|) + s else s
  }

  lemma {:induction false} ZerosInFront(n: nat, s: seq<byte>)
    requires AllDigits(s)
    ensures AllDigits(Zeros(n) + s) && DigitsValue(Zeros(n) + s) == DigitsValue(s)
  {
    var t: seq<byte> := Zeros(n) + s;
    if s == [] {
      assert t == Zeros(n);
    } else {
      ZerosInFront(n, s[..|s| - 1]);
      assert t[..|t| - 1] == Zeros(n) + s[..|s| - 1];
    }
  }

  /** Decimal forms have no more digits than needed. */
  lemma {:induction false} DecimalLength(n: nat, width: nat)
    requires width > 0
    ensures |Decimal(n)| <= width <==> n < Pow10(width)
  {
    if n >= 10 {
      if width == 1 {
        assert Decimal(n) == Decimal(n / 10) + [Digit(n % 10)];
      } else {
        DecimalLength(n / 10, width - 1);
      }
    } else {
      Pow10Monotone(1, width);
    }
  }

  lemma PaddedValue(n: nat, width: nat)
    requires width > 0
    ensures AllDigits(Padded(n, width)) && DigitsValue(Padded(n, width)) == n
    ensures |Padded(n, width)| == width <==> n < Pow10(width)
    ensures |Padded(n, width)| >= width
  {
    var s := Decimal(n);
    DecimalLength(n, width);
    if |s| < width {
      ZerosInFront(width - |s|, s);
    }
  }
}
