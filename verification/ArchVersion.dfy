/**
 * Full Arch versions, `[epoch:]pkgver[-pkgrel]`: the comparison, and exactly
 * where it is an order.
 */
module ArchVersion {
  import opened Common
  import opened Digits
  import opened RpmVersion

  datatype Version = Version(epoch: int, pkgver: seq<byte>, pkgrel: Option<seq<byte>>)

  const U64_LIMIT := 0x1_0000_0000_0000_0000

  /** The epoch and what follows it; a number that does not fit 64 bits reads as 0. */
  function SplitEpoch(s: seq<byte>): (int, seq<byte>) {
    var i := IndexOf(s, ':' as int);
    if 0 < i < |s| && AllDigits(s[..i]) then
      var v := DigitsValue(s[..i]);
      (if v < U64_LIMIT then v else 0, s[i + 1..])
    else (0, s)
  }

  function Parse(s: seq<byte>): Version {
    var (epoch, rest) := SplitEpoch(s);
    match LastIndexOf(rest, '-' as int)
    case Some(i) => Version(epoch, rest[..i], Some(rest[i + 1..]))
    case None => Version(epoch, rest, None)
  }

  function VersionCompare(a: Version, b: Version): Ordering {
    CompareInt(a.epoch, b.epoch)
    .Then(RpmOrder(a.pkgver, b.pkgver))
    .Then(if a.pkgrel.Some? && b.pkgrel.Some? then RpmOrder(a.pkgrel.value, b.pkgrel.value) else Equal)
  }

  function Order(a: seq<byte>, b: seq<byte>): Ordering {
    VersionCompare(Parse(a), Parse(b))
  }

  method Vercmp(a: seq<byte>, b: seq<byte>) returns (ord: Ordering)
    ensures ord == Order(a, b)
  {
    var va, vb := Parse(a), Parse(b);
    ord := CompareInt(va.epoch, vb.epoch);
    if ord == Equal {
      ord := RpmVercmp(va.pkgver, vb.pkgver);
    }
    if ord == Equal && va.pkgrel.Some? && vb.pkgrel.Some? {
      ord := RpmVercmp(va.pkgrel.value, vb.pkgrel.value);
    }
  }

  // ---------- the epoch ----------

  const COLON: byte := ':' as int

  function WithEpoch(e: seq<byte>, rest: seq<byte>): seq<byte> { e + [COLON] + rest }

  lemma EpochReads(e: seq<byte>, rest: seq<byte>)
    requires e != [] && AllDigits(e)
    ensures SplitEpoch(WithEpoch(e, rest)) == (if DigitsValue(e) < U64_LIMIT then DigitsValue(e) else 0, rest)
    ensures Parse(WithEpoch(e, rest)).epoch == if DigitsValue(e) < U64_LIMIT then DigitsValue(e) else 0
  {
    var s := WithEpoch(e, rest);
    assert forall k :: 0 <= k < |e| ==> s[k] == e[k] && IsDigit(e[k]);
    IndexIs(s, COLON, |e|);
    assert s[..|e|] == e && s[|e| + 1..] == rest;
  }

  /** The epoch read is the number written exactly when that fits 64 bits. */
  lemma EpochIsTheNumber(e: seq<byte>, rest: seq<byte>)
    requires e != [] && AllDigits(e)
    ensures Parse(WithEpoch(e, rest)).epoch == DigitsValue(e) <==> DigitsValue(e) < 0x1_0000_0000_0000_0000
  {
    EpochReads(e, rest);
    hide Parse, SplitEpoch, DigitsValue;
  }

  /** The smaller of two epochs comes first, whatever follows, exactly when the greater fits 64 bits. */
  lemma EpochsOrder(e: seq<byte>, f: seq<byte>)
    requires e != [] && f != [] && AllDigits(e) && AllDigits(f) && DigitsValue(e) < DigitsValue(f)
    ensures (forall u, v :: Order(WithEpoch(e, u), WithEpoch(f, v)) == Less) <==>
      DigitsValue(f) < 0x1_0000_0000_0000_0000
  {
    hide Parse, SplitEpoch, DigitsValue, WithEpoch, RpmOrder;
    forall u, v
      ensures Parse(WithEpoch(e, u)).epoch == if DigitsValue(e) < U64_LIMIT then DigitsValue(e) else 0
      ensures Parse(WithEpoch(f, v)).epoch == if DigitsValue(f) < U64_LIMIT then DigitsValue(f) else 0
    {
      EpochReads(e, u);
      EpochReads(f, v);
    }
    if DigitsValue(f) >= U64_LIMIT {
      BareEpoch(e);
      BareEpoch(f);
      RpmOrderReverses([], []);
      assert Order(WithEpoch(e, []), WithEpoch(f, [])) != Less;
    }
  }

  lemma BareEpoch(e: seq<byte>)
    requires e != [] && AllDigits(e)
    ensures Parse(WithEpoch(e, [])).pkgver == [] && Parse(WithEpoch(e, [])).pkgrel == None
  {
    EpochReads(e, []);
    hide SplitEpoch, WithEpoch, DigitsValue;
  }

  /** The first number beyond 64 bits, as an epoch, sorts below epoch 1. */
  lemma BeyondSixtyFourBits(rest: seq<byte>)
    ensures AllDigits(Decimal(U64_LIMIT)) && DigitsValue(Decimal(U64_LIMIT)) > DigitsValue(Decimal(1))
    ensures Order(WithEpoch(Decimal(U64_LIMIT), rest), WithEpoch(Decimal(1), rest)) == Less
  {
    hide Parse, SplitEpoch, DigitsValue, WithEpoch, RpmOrder, Decimal;
    EpochReads(Decimal(U64_LIMIT), rest);
    EpochReads(Decimal(1), rest);
  }

  // ---------- clean strings ----------

  predicate EndsInSeparator(s: seq<byte>) {
    s != [] && !IsAlnum(s[|s| - 1])
  }

  lemma {:induction false} CleanIffNoTrailingSeparator(s: seq<byte>)
    ensures Split(s).Clean() <==> !EndsInSeparator(s)
    decreases |s|
  {
    var n := Leading(s, IsSeparator);
    var word := s[n..];
    if word == [] {
      assert n == |s|;
    } else {
      var k := Leading(word, Kind(IsDigit(word[0])));
      CleanIffNoTrailingSeparator(word[k..]);
      if k == |word| {
        assert s[|s| - 1] == word[k - 1];
      }
    }
  }

  lemma RpmOrderReverses(a: seq<byte>, b: seq<byte>)
    ensures RpmOrder(b, a) == RpmOrder(a, b).Reverse()
    ensures RpmOrder(a, a) == Equal
  {
    CompareReverses(Split(a), Split(b));
    CompareReverses(Split(a), Split(a));
  }

  lemma VersionCompareReverses(x: Version, y: Version)
    ensures VersionCompare(y, x) == VersionCompare(x, y).Reverse()
  {
    hide Split, Compare;
    RpmOrderReverses(x.pkgver, y.pkgver);
    if x.pkgrel.Some? && y.pkgrel.Some? {
      RpmOrderReverses(x.pkgrel.value, y.pkgrel.value);
    }
  }

  /** Swapping the arguments reverses the answer, for all strings. */
  lemma OrderReverses(a: seq<byte>, b: seq<byte>)
    ensures Order(b, a) == Order(a, b).Reverse()
  {
    VersionCompareReverses(Parse(a), Parse(b));
  }

  lemma RpmOrderTransitive(a: seq<byte>, b: seq<byte>, c: seq<byte>)
    requires !EndsInSeparator(a) && !EndsInSeparator(b) && !EndsInSeparator(c)
    ensures Consistent(RpmOrder(a, b), RpmOrder(b, c), RpmOrder(a, c))
  {
    CleanIffNoTrailingSeparator(a);
    CleanIffNoTrailingSeparator(b);
    CleanIffNoTrailingSeparator(c);
    CompareTransitive(Split(a), Split(b), Split(c));
  }

  /** No part of the version ends in a separator. */
  predicate CleanVersion(v: Version) {
    !EndsInSeparator(v.pkgver) && (v.pkgrel.Some? ==> !EndsInSeparator(v.pkgrel.value))
  }

  lemma VersionCompareTransitive(x: Version, y: Version, z: Version)
    requires CleanVersion(x) && CleanVersion(y) && CleanVersion(z)
    requires x.pkgrel.Some? == y.pkgrel.Some? == z.pkgrel.Some?
    ensures Consistent(VersionCompare(x, y), VersionCompare(y, z), VersionCompare(x, z))
  {
    hide Split, Compare;
    RpmOrderTransitive(x.pkgver, y.pkgver, z.pkgver);
    if x.pkgrel.Some? {
      RpmOrderTransitive(x.pkgrel.value, y.pkgrel.value, z.pkgrel.value);
    }
  }

  /** On clean versions that all carry a pkgrel, or all lack one, the order is transitive. */
  lemma OrderTransitive(a: seq<byte>, b: seq<byte>, c: seq<byte>)
    requires CleanVersion(Parse(a)) && CleanVersion(Parse(b)) && CleanVersion(Parse(c))
    requires Parse(a).pkgrel.Some? == Parse(b).pkgrel.Some? == Parse(c).pkgrel.Some?
    ensures Consistent(Order(a, b), Order(b, c), Order(a, c))
  {
    VersionCompareTransitive(Parse(a), Parse(b), Parse(c));
  }

  // ---------- where the order ends ----------

  lemma LeadingIs(s: seq<byte>, p: byte -> bool, n: nat)
    requires n <= |s| && (n < |s| ==> !p(s[n]))
    requires forall i :: 0 <= i < n ==> p(s[i])
    ensures Leading(s, p) == n
  {}

  /** The first segment of a string that goes on past it is that of any extension. */
  lemma SplitStep(s: seq<byte>, t: seq<byte>)
    requires EndsInSeparator(s) && Leading(s, IsSeparator) < |s|
    ensures var n := Leading(s, IsSeparator);
            var k := Leading(s[n..], Kind(IsDigit(s[n])));
            && n + k < |s|
            && Split(s) == Segment(n, IsDigit(s[n]), s[n..][..k], Split(s[n..][k..]))
            && Split(s + t) == Segment(n, IsDigit(s[n]), s[n..][..k], Split(s[n..][k..] + t))
  {
    hide *;
    var n := Leading(s, IsSeparator);
    var word := s[n..];
    var k := Leading(word, Kind(IsDigit(word[0])));
    WordEnds(s, n, k);
    LeadingIs(s + t, IsSeparator, n);
    assert (s + t)[n..] == word + t;
    LeadingIs(word + t, Kind(IsDigit(word[0])), k);
    assert (word + t)[..k] == word[..k] && (word + t)[k..] == word[k..] + t;
    SplitIs(s, n, k);
    SplitIs(s + t, n, k);
  }

  /** The separator the string ends in is no part of its first word. */
  lemma WordEnds(s: seq<byte>, n: nat, k: nat)
    requires EndsInSeparator(s) && n < |s| && Leading(s, IsSeparator) == n && k == Leading(s[n..], Kind(IsDigit(s[n])))
    ensures k < |s[n..]|
  {
    assert s[|s| - 1] == s[n..][|s[n..]| - 1];
    hide Leading;
  }

  lemma SplitIs(s: seq<byte>, n: nat, k: nat)
    requires n < |s| && Leading(s, IsSeparator) == n && Leading(s[n..], Kind(IsDigit(s[n]))) == k
    ensures k <= |s[n..]| && Split(s) == Segment(n, IsDigit(s[n]), s[n..][..k], Split(s[n..][k..]))
  {
    hide Leading;
  }

  const ONE: seq<byte> := ['1' as int]
  const DOT_A: seq<byte> := ['.' as int, 'a' as int]

  /** A string that ends in a separator closes a cycle through two clean ones: z < z1 < z.a < z. */
  ghost predicate Cycle(z: seq<byte>) {
    && RpmOrder(z, z + ONE) == Less
    && RpmOrder(z + ONE, z + DOT_A) == Less
    && RpmOrder(z, z + DOT_A) == Greater
  }

  lemma {:induction false} TrailingSeparatorCycle(z: seq<byte>)
    requires EndsInSeparator(z)
    ensures Cycle(z)
    decreases |z|
  {
    var n := Leading(z, IsSeparator);
    if n == |z| {
      OnlySeparatorsCycle(z);
    } else {
      var num := IsDigit(z[n]);
      var k := Leading(z[n..], Kind(num));
      var rest := z[n..][k..];
      SplitStep(z, ONE);
      SplitStep(z, DOT_A);
      assert EndsInSeparator(rest) by { assert rest[|rest| - 1] == z[|z| - 1]; }
      TrailingSeparatorCycle(rest);
      SameFirstSegment(n, num, z[n..][..k], Split(rest), Split(rest + ONE));
      SameFirstSegment(n, num, z[n..][..k], Split(rest + ONE), Split(rest + DOT_A));
      SameFirstSegment(n, num, z[n..][..k], Split(rest), Split(rest + DOT_A));
    }
  }

  lemma SameFirstSegment(seps: nat, num: bool, text: seq<byte>, x: Segments, y: Segments)
    requires Segment(seps, num, text, x).Valid() && Segment(seps, num, text, y).Valid()
    ensures Compare(Segment(seps, num, text, x), Segment(seps, num, text, y)) == Compare(x, y)
  {
    CompareSeqReverses(text, text);
  }

  lemma SeparatorsThenWord(z: seq<byte>, c: byte)
    requires Leading(z, IsSeparator) == |z| && IsAlnum(c)
    ensures Split(z + [c]) == Segment(|z|, IsDigit(c), [c], End(0))
  {
    LeadingIs(z + [c], IsSeparator, |z|);
    assert (z + [c])[|z|..] == [c];
    LeadingIs([c], Kind(IsDigit(c)), 1);
    assert [c][..1] == [c] && [c][1..] == [];
    assert Split([]) == End(0);
  }

  lemma OnlySeparators(z: seq<byte>)
    requires Leading(z, IsSeparator) == |z|
    ensures Split(z) == End(|z|)
  {}

  lemma SeparatorsDotLetter(z: seq<byte>)
    requires Leading(z, IsSeparator) == |z|
    ensures Split(z + DOT_A) == Segment(|z| + 1, false, ['a' as int], End(0))
  {
    var zd: seq<byte> := z + ['.' as int];
    assert zd + ['a' as int] == z + DOT_A;
    LeadingIs(zd, IsSeparator, |zd|);
    SeparatorsThenWord(zd, 'a' as int);
  }

  lemma OnlySeparatorsCycle(z: seq<byte>)
    requires z != [] && Leading(z, IsSeparator) == |z|
    ensures Cycle(z)
  {
    hide Split;
    var n := |z|;
    var x, y := Segment(n, true, ['1' as int], End(0)), Segment(n + 1, false, ['a' as int], End(0));
    OnlySeparators(z);
    assert Split(z + ONE) == x by { SeparatorsThenWord(z, '1' as int); }
    SeparatorsDotLetter(z);
    assert Compare(End(n), x) == Less && Compare(x, y) == Less && Compare(End(n), y) == Greater;
  }

  /** Whether `z` can join the clean strings without breaking transitivity. */
  ghost predicate FitsAmongClean(z: seq<byte>) {
    forall x, y :: !EndsInSeparator(x) && !EndsInSeparator(y) ==>
      && Consistent(RpmOrder(x, y), RpmOrder(y, z), RpmOrder(x, z))
      && Consistent(RpmOrder(x, z), RpmOrder(z, y), RpmOrder(x, y))
      && Consistent(RpmOrder(z, x), RpmOrder(x, y), RpmOrder(z, y))
  }

  /** The clean strings are exactly the domain of the order: no other string can be added. */
  lemma CleanIsTheExactDomain(z: seq<byte>)
    ensures FitsAmongClean(z) <==> !EndsInSeparator(z)
  {
    if EndsInSeparator(z) {
      TrailingSeparatorCycle(z);
      var x, y := z + ONE, z + DOT_A;
      RpmOrderReverses(z, y);
      assert !Consistent(RpmOrder(z, x), RpmOrder(x, y), RpmOrder(z, y));
    } else {
      forall x: seq<byte>, y: seq<byte> | !EndsInSeparator(x) && !EndsInSeparator(y)
        ensures Consistent(RpmOrder(x, y), RpmOrder(y, z), RpmOrder(x, z))
        ensures Consistent(RpmOrder(x, z), RpmOrder(z, y), RpmOrder(x, y))
        ensures Consistent(RpmOrder(z, x), RpmOrder(x, y), RpmOrder(z, y))
      {
        RpmOrderTransitive(x, y, z);
        RpmOrderTransitive(x, z, y);
        RpmOrderTransitive(z, x, y);
      }
    }
  }

  // ---------- the same, for whole versions ----------

  const DASH: byte := '-' as int

  /** Versions that carry a pkgrel and have no part ending in a separator. */
  predicate InOrder(z: seq<byte>) {
    Parse(z).pkgrel.Some? && CleanVersion(Parse(z))
  }

  /** Reading a version assembled from a head `w`, more pkgver text `u` and a pkgrel `r`. */
  lemma ParseAssembled(w: seq<byte>, u: seq<byte>, r: seq<byte>)
    requires ':' as int !in u && DASH !in r
    ensures Parse(w + u + [DASH] + r) == Version(SplitEpoch(w).0, SplitEpoch(w).1 + u, Some(r))
  {
    hide IndexOf, LastIndexOf, DigitsValue;
    var s: seq<byte> := w + u + [DASH] + r;
    var i, j := IndexOf(w, ':' as int), IndexOf(s, ':' as int);
    var n := |w| + |u|;
    assert s[n] == DASH && s[..n] == w + u;
    if i < |w| {
      IndexIs(s, ':' as int, i);
      assert s[..i] == w[..i] && s[i + 1..] == w[i + 1..] + u + [DASH] + r;
    } else {
      forall k | 0 <= k < n ensures s[k] != ':' as int {
        assert s[k] == if k < |w| then w[k] else u[k - |w|];
      }
      assert n < j < |s| ==> s[..j][n] == DASH;
    }
    var v := SplitEpoch(w).1 + u;
    assert SplitEpoch(s) == (SplitEpoch(w).0, v + [DASH] + r);
    LastDash(v, r);
  }

  lemma LastDash(v: seq<byte>, r: seq<byte>)
    requires DASH !in r
    ensures var rest := v + [DASH] + r;
            LastIndexOf(rest, DASH) == Some(|v|) && rest[..|v|] == v && rest[|v| + 1..] == r
  {
    var rest := v + [DASH] + r;
    forall k | |v| < k < |rest| ensures rest[k] != DASH {
      assert rest[k] == r[k - |v| - 1];
    }
    LastIndexIs(rest, DASH, |v|);
  }

  /** The text in front of the pkgrel, which reads as the same epoch and pkgver. */
  lemma BeforePkgrel(z: seq<byte>) returns (w: seq<byte>)
    ensures SplitEpoch(w) == (Parse(z).epoch, Parse(z).pkgver)
    ensures Parse(z).pkgrel.Some? ==> DASH !in Parse(z).pkgrel.value
  {
    hide IndexOf, LastIndexOf, DigitsValue;
    var (e, rest) := SplitEpoch(z);
    var d := LastIndexOf(rest, DASH);
    if d.None? {
      w := z;
      return;
    }
    var n := |z| - |rest| + d.value;
    w := z[..n];
    var i := IndexOf(z, ':' as int);
    assert z[n] == DASH;
    if i < n {
      IndexIs(w, ':' as int, i);
      assert w[..i] == z[..i] && w[i + 1..] == z[i + 1..][..n - i - 1];
    } else {
      IndexIs(w, ':' as int, n);
      assert i < |z| ==> z[..i][n] == DASH;
    }
  }

  /** Whether `z` can join the ordered versions without breaking transitivity. */
  ghost predicate FitsAmongOrdered(z: seq<byte>) {
    forall x, y :: InOrder(x) && InOrder(y) ==>
      && Consistent(Order(x, y), Order(y, z), Order(x, z))
      && Consistent(Order(x, z), Order(z, y), Order(x, y))
      && Consistent(Order(z, x), Order(x, y), Order(z, y))
  }

  /** A version outside the domain contradicts two versions inside it. */
  lemma OutsiderBreaksTheOrder(z: seq<byte>) returns (x: seq<byte>, y: seq<byte>)
    requires !InOrder(z)
    ensures InOrder(x) && InOrder(y) && !Consistent(Order(z, x), Order(x, y), Order(z, y))
  {
    hide Parse, SplitEpoch, Split, Compare;
    var v := Parse(z);
    var w := BeforePkgrel(z);
    if EndsInSeparator(v.pkgver) {
      x, y := w + ONE + [DASH] + ONE, w + DOT_A + [DASH] + ONE;
      ParseAssembled(w, ONE, ONE);
      ParseAssembled(w, DOT_A, ONE);
      TrailingSeparatorCycle(v.pkgver);
    } else if v.pkgrel.None? {
      x, y := w + [] + [DASH] + ONE, w + [] + [DASH] + TWO;
      ParseAssembled(w, [], ONE);
      ParseAssembled(w, [], TWO);
      assert v.pkgver + [] == v.pkgver;
      RpmOrderReverses(v.pkgver, v.pkgver);
      OneBelowTwo();
    } else {
      var r := v.pkgrel.value;
      x, y := w + [] + [DASH] + (r + ONE), w + [] + [DASH] + (r + DOT_A);
      ParseAssembled(w, [], r + ONE);
      ParseAssembled(w, [], r + DOT_A);
      assert v.pkgver + [] == v.pkgver;
      RpmOrderReverses(v.pkgver, v.pkgver);
      TrailingSeparatorCycle(r);
    }
  }

  const TWO: seq<byte> := ['2' as int]

  lemma OneBelowTwo()
    ensures RpmOrder(ONE, TWO) == Less
  {
    SeparatorsThenWord([], '1' as int);
    SeparatorsThenWord([], '2' as int);
    assert [] + ['1' as int] == ONE && [] + ['2' as int] == TWO;
    assert ONE[..0] == [] && TWO[..0] == [];
    assert DigitsValue(ONE) == 1 && DigitsValue(TWO) == 2;
  }

  /**
   * Versions with a pkgrel and no part ending in a separator are exactly what the
   * comparison orders: any other version, added to them, breaks transitivity.
   */
  lemma OrderedIsTheExactDomain(z: seq<byte>)
    ensures FitsAmongOrdered(z) <==> InOrder(z)
  {
    hide Parse, SplitEpoch, Split, Compare, VersionCompare;
    if !InOrder(z) {
      var x, y := OutsiderBreaksTheOrder(z);
    } else {
      forall x: seq<byte>, y: seq<byte> | InOrder(x) && InOrder(y)
        ensures Consistent(Order(x, y), Order(y, z), Order(x, z))
        ensures Consistent(Order(x, z), Order(z, y), Order(x, y))
        ensures Consistent(Order(z, x), Order(x, y), Order(z, y))
      {
        OrderTransitive(x, y, z);
        OrderTransitive(x, z, y);
        OrderTransitive(z, x, y);
      }
    }
  }
}
