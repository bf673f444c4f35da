/**
 * The version order in plain terms: which of two versions is newer, read off their
 * letters, digits and separators.
 */
module VersionLaws {
  import opened Common
  import opened Digits
  import opened RpmVersion
  import opened ArchVersion

  predicate Letter(c: byte) { 'A' as int <= c <= 'Z' as int || 'a' as int <= c <= 'z' as int }

  predicate Numeral(c: byte) { '0' as int <= c <= '9' as int }

  predicate Letters(s: seq<byte>) { s != [] && forall i :: 0 <= i < |s| ==> Letter(s[i]) }

  predicate Numerals(s: seq<byte>) { s != [] && forall i :: 0 <= i < |s| ==> Numeral(s[i]) }

  predicate Separators(s: seq<byte>) { forall i :: 0 <= i < |s| ==> !Letter(s[i]) && !Numeral(s[i]) }

  /** The letters, the digits or the separators that `p` ends in do not go on in `a`. */
  predicate Breaks(p: seq<byte>, a: seq<byte>) {
    p == [] ||
    var last := p[|p| - 1];
    if Letter(last) then a == [] || !Letter(a[0])
    else if Numeral(last) then a == [] || !Numeral(a[0])
    else a != [] && (Letter(a[0]) || Numeral(a[0]))
  }

  lemma Kinds(c: byte)
    ensures IsAlpha(c) == Letter(c) && IsDigit(c) == Numeral(c) && IsSeparator(c) == (!Letter(c) && !Numeral(c))
    ensures Kind(true)(c) == Numeral(c) && Kind(false)(c) == Letter(c)
  {}

  // ---------- a common prefix ----------

  /** What does not go on with the leading run leaves it as it is. */
  lemma LeadsAlso(s: seq<byte>, t: seq<byte>, q: byte -> bool)
    requires Leading(s, q) < |s| || t == [] || !q(t[0])
    ensures Leading(s + t, q) == Leading(s, q)
  {
    hide Leading;
    LeadingIs(s + t, q, Leading(s, q));
  }

  lemma Regrouped(p: seq<byte>, t: seq<byte>, n: nat, k: nat)
    requires n < |p| && k <= |p[n..]|
    ensures (p + t)[n] == p[n] && (p + t)[n..] == p[n..] + t
    ensures (p + t)[n..][..k] == p[n..][..k] && (p + t)[n..][k..] == p[n..][k..] + t
  {}

  /** The first segment of `p`, when what follows does not prolong it. */
  lemma FirstSegment(p: seq<byte>, t: seq<byte>)
    requires Leading(p, IsSeparator) < |p|
    requires var n := Leading(p, IsSeparator);
             var k := Leading(p[n..], Kind(IsDigit(p[n])));
             k < |p[n..]| || t == [] || !Kind(IsDigit(p[n]))(t[0])
    ensures var n := Leading(p, IsSeparator);
            var k := Leading(p[n..], Kind(IsDigit(p[n])));
            && k > 0 && Split(p + t) == Segment(n, IsDigit(p[n]), p[n..][..k], Split(p[n..][k..] + t))
  {
    hide *;
    var n := Leading(p, IsSeparator);
    var q := Kind(IsDigit(p[n]));
    var k := Leading(p[n..], q);
    LeadsAlso(p, t, IsSeparator);
    LeadsAlso(p[n..], t, q);
    Regrouped(p, t, n, k);
    SplitIs(p + t, n, k);
    StartsSegment(p, n);
  }

  lemma StartsSegment(p: seq<byte>, n: nat)
    requires n < |p| && Leading(p, IsSeparator) == n
    ensures Leading(p[n..], Kind(IsDigit(p[n]))) > 0
  {}

  /** More separators in front of two words. */
  lemma MoreSeparators(p: seq<byte>, a: seq<byte>, b: seq<byte>)
    requires Leading(p, IsSeparator) == |p| && a != [] && b != [] && IsAlnum(a[0]) && IsAlnum(b[0])
    ensures RpmOrder(p + a, p + b) == RpmOrder(a, b)
  {
    WordBehind(p, a);
    WordBehind(p, b);
    hide Split, Leading;
  }

  lemma WordBehind(p: seq<byte>, a: seq<byte>)
    requires Leading(p, IsSeparator) == |p| && a != [] && IsAlnum(a[0])
    ensures Split(a).Segment? && Split(a).seps == 0 && Split(p + a) == Split(a).(seps := |p|)
  {
    hide *;
    var k := Leading(a, Kind(IsDigit(a[0])));
    AlnumLeads(a);
    assert a[0..] == a;
    SplitIs(a, 0, k);
    LeadingIs(p + a, IsSeparator, |p|);
    assert (p + a)[|p|..] == a;
    SplitIs(p + a, |p|, k);
  }

  lemma AlnumLeads(a: seq<byte>)
    requires a != [] && IsAlnum(a[0])
    ensures Leading(a, IsSeparator) == 0
  {}

  /** Behind a common prefix that ends where both go on with something else, the rest decides. */
  lemma {:induction false} CommonPrefix(p: seq<byte>, a: seq<byte>, b: seq<byte>)
    requires Breaks(p, a) && Breaks(p, b)
    ensures RpmOrder(p + a, p + b) == RpmOrder(a, b)
    decreases |p|
  {
    var n := Leading(p, IsSeparator);
    if p == [] {
      assert p + a == a && p + b == b;
    } else if n == |p| {
      Kinds(p[|p| - 1]);
      assert IsSeparator(p[|p| - 1]);
      hide Split, Compare, Leading;
      MoreSeparators(p, a, b);
    } else {
      var num := IsDigit(p[n]);
      var word := p[n..];
      var k := Leading(word, Kind(num));
      var rest := word[k..];
      EndsLike(p, n, k, a);
      EndsLike(p, n, k, b);
      FirstSegment(p, a);
      FirstSegment(p, b);
      hide Split, Compare, Leading;
      CommonPrefix(rest, a, b);
      SameFirstSegment(n, num, word[..k], Split(rest + a), Split(rest + b));
    }
  }

  /** What follows breaks the first segment, and the rest of the prefix. */
  lemma EndsLike(p: seq<byte>, n: nat, k: nat, t: seq<byte>)
    requires n < |p| && Breaks(p, t) && Leading(p, IsSeparator) == n && k == Leading(p[n..], Kind(IsDigit(p[n])))
    ensures k > 0 && (k < |p[n..]| || t == [] || !Kind(IsDigit(p[n]))(t[0])) && Breaks(p[n..][k..], t)
  {
    StartsSegment(p, n);
    if k == |p[n..]| {
      LastOfRun(p, n, k);
      Kinds(p[|p| - 1]);
      if t != [] { Kinds(t[0]); }
    } else {
      SameEnd(p, n, k);
    }
    hide Leading, Kind;
  }

  lemma LastOfRun(p: seq<byte>, n: nat, k: nat)
    requires n < |p| && k == |p[n..]| > 0 && Leading(p[n..], Kind(IsDigit(p[n]))) == k
    ensures Kind(IsDigit(p[n]))(p[|p| - 1])
  {
    assert p[n..][k - 1] == p[|p| - 1];
  }

  lemma SameEnd(p: seq<byte>, n: nat, k: nat)
    requires n < |p| && k < |p[n..]|
    ensures p[n..][k..] != [] && p[n..][k..][|p[n..][k..]| - 1] == p[|p| - 1]
  {}

  // ---------- what decides ----------

  /** What comes first in `t` is no letter, or no digit. */
  predicate NoLetter(t: seq<byte>) { t == [] || !Letter(t[0]) }

  predicate NoNumeral(t: seq<byte>) { t == [] || !Numeral(t[0]) }

  /** The first segment of a text that starts with letters, or with digits. */
  lemma WordFirst(a: seq<byte>, t: seq<byte>)
    requires Letters(a) && NoLetter(t)
    ensures Split(a + t) == Segment(0, false, a, Split(t))
  {
    RunFirst(a, t, false);
  }

  lemma NumberFirst(a: seq<byte>, t: seq<byte>)
    requires Numerals(a) && NoNumeral(t)
    ensures AllDigits(a) && Split(a + t) == Segment(0, true, a, Split(t))
  {
    RunFirst(a, t, true);
  }

  lemma RunFirst(a: seq<byte>, t: seq<byte>, num: bool)
    requires if num then Numerals(a) && NoNumeral(t) else Letters(a) && NoLetter(t)
    ensures Split(a + t) == Segment(0, num, a, Split(t))
  {
    var s := a + t;
    forall i | 0 <= i < |a| ensures Kind(num)(a[i]) && IsDigit(a[i]) == num && IsAlnum(a[i]) { Kinds(a[i]); }
    if t != [] { Kinds(t[0]); }
    AlnumLeads(s);
    assert s[0..] == s;
    LeadingIs(s, Kind(num), |a|);
    assert s[..|a|] == a && s[|a|..] == t;
    hide Split, Leading;
    SplitIs(s, 0, |a|);
  }

  /** Words behind a common prefix compare letter by letter, in ASCII order; equal words leave it to what follows. */
  lemma WordsDecide(p: seq<byte>, a: seq<byte>, t: seq<byte>, b: seq<byte>, u: seq<byte>)
    requires Letters(a) && Letters(b) && NoLetter(t) && NoLetter(u) && Breaks(p, a) && Breaks(p, b)
    ensures RpmOrder(p + (a + t), p + (b + u)) == CompareSeq(a, b).Then(RpmOrder(t, u))
  {
    BreaksOn(p, a, t);
    BreaksOn(p, b, u);
    WordFirst(a, t);
    WordFirst(b, u);
    CommonPrefix(p, a + t, b + u);
    hide Split, Breaks;
  }

  /** Numbers behind a common prefix compare as the numbers they denote, of any length. */
  lemma NumbersDecide(p: seq<byte>, a: seq<byte>, t: seq<byte>, b: seq<byte>, u: seq<byte>)
    requires Numerals(a) && Numerals(b) && NoNumeral(t) && NoNumeral(u) && Breaks(p, a) && Breaks(p, b)
    ensures AllDigits(a) && AllDigits(b)
    ensures RpmOrder(p + (a + t), p + (b + u)) == CompareInt(DigitsValue(a), DigitsValue(b)).Then(RpmOrder(t, u))
  {
    BreaksOn(p, a, t);
    BreaksOn(p, b, u);
    NumberFirst(a, t);
    NumberFirst(b, u);
    CommonPrefix(p, a + t, b + u);
    hide Split, Breaks, DigitsValue;
  }

  lemma BreaksOn(p: seq<byte>, a: seq<byte>, t: seq<byte>)
    requires Breaks(p, a) && a != []
    ensures Breaks(p, a + t)
  {
    assert (a + t)[0] == a[0];
  }

  /** A number is newer than a word in its place. */
  lemma NumbersBeatWords(p: seq<byte>, a: seq<byte>, t: seq<byte>, b: seq<byte>, u: seq<byte>)
    requires Numerals(a) && Letters(b) && NoNumeral(t) && NoLetter(u) && Breaks(p, a) && Breaks(p, b)
    ensures RpmOrder(p + (a + t), p + (b + u)) == Greater
  {
    BreaksOn(p, a, t);
    BreaksOn(p, b, u);
    NumberFirst(a, t);
    WordFirst(b, u);
    CommonPrefix(p, a + t, b + u);
    hide Split, Breaks;
  }

  /** Behind more separators a version is newer, whatever follows them. */
  lemma MoreSeparatorsAreNewer(p: seq<byte>, s: seq<byte>, a: seq<byte>, r: seq<byte>, b: seq<byte>)
    requires p == [] || Letter(p[|p| - 1]) || Numeral(p[|p| - 1])
    requires Separators(s) && Separators(r) && |s| < |r| && a != [] && b != []
    requires (Letter(a[0]) || Numeral(a[0])) && (Letter(b[0]) || Numeral(b[0])) && (s == [] ==> Breaks(p, a))
    ensures RpmOrder(p + (s + a), p + (r + b)) == Less
  {
    hide *;
    BreaksAt(p, s, a);
    BreaksAt(p, r, b);
    FewerSeparators(s, a, r, b);
    CommonPrefix(p, s + a, r + b);
  }

  lemma BreaksAt(p: seq<byte>, s: seq<byte>, a: seq<byte>)
    requires p == [] || Letter(p[|p| - 1]) || Numeral(p[|p| - 1])
    requires Separators(s) && a != [] && (s == [] ==> Breaks(p, a))
    ensures Breaks(p, s + a)
  {
    if s == [] { assert s + a == a; } else { assert (s + a)[0] == s[0]; }
  }

  lemma FewerSeparators(s: seq<byte>, a: seq<byte>, r: seq<byte>, b: seq<byte>)
    requires Separators(s) && Separators(r) && |s| < |r| && a != [] && b != []
    requires (Letter(a[0]) || Numeral(a[0])) && (Letter(b[0]) || Numeral(b[0]))
    ensures RpmOrder(s + a, r + b) == Less
  {
    Kinds(a[0]);
    Kinds(b[0]);
    SeparatorsLead(s);
    SeparatorsLead(r);
    WordBehind(s, a);
    WordBehind(r, b);
    hide Split, Leading, Separators;
  }

  lemma SeparatorsLead(s: seq<byte>)
    requires Separators(s)
    ensures Leading(s, IsSeparator) == |s|
  {
    forall i | 0 <= i < |s| ensures IsSeparator(s[i]) { Kinds(s[i]); }
    LeadingIs(s, IsSeparator, |s|);
  }

  /** A version that goes on is newer, unless it goes on with a letter: `1.0` is newer than `1.0rc1`. */
  lemma GoingOn(p: seq<byte>, t: seq<byte>)
    requires p == [] || Letter(p[|p| - 1]) || Numeral(p[|p| - 1])
    requires t != [] && Breaks(p, t)
    ensures RpmOrder(p, p + t) == if Letter(t[0]) then Greater else Less
  {
    assert p + [] == p;
    CommonPrefix(p, [], t);
    Kinds(t[0]);
    StartOf(t);
    OtherHead([], t);
    var nothing: seq<byte> := [];
    assert nothing[0..] == nothing && t[0..] == t;
    hide RpmOrder, Breaks;
  }

  lemma StartOf(t: seq<byte>)
    requires t != []
    ensures (Letter(t[0]) || Numeral(t[0])) <==> Leading(t, IsSeparator) == 0
  {
    Kinds(t[0]);
  }

  // ---------- whole versions ----------

  /** A version text: an epoch if `e` is not empty, a pkgver, and a pkgrel if there is one. */
  function Written(e: seq<byte>, pkgver: seq<byte>, pkgrel: Option<seq<byte>>): seq<byte> {
    (if e == [] then [] else e + [':' as int]) + pkgver + (if pkgrel.Some? then ['-' as int] + pkgrel.value else [])
  }

  predicate ColonFree(s: seq<byte>) { forall i :: 0 <= i < |s| ==> s[i] != ':' as int }

  predicate DashFree(s: seq<byte>) { forall i :: 0 <= i < |s| ==> s[i] != '-' as int }

  /** The parts are what the text of a version is read as. */
  predicate Proper(e: seq<byte>, pkgver: seq<byte>, pkgrel: Option<seq<byte>>) {
    && (e != [] ==> Numerals(e) && AllDigits(e) && DigitsValue(e) < 0x1_0000_0000_0000_0000)
    && ColonFree(pkgver)
    && (if pkgrel.Some? then ColonFree(pkgrel.value) && DashFree(pkgrel.value) else DashFree(pkgver))
  }

  lemma ReadsAs(e: seq<byte>, pkgver: seq<byte>, pkgrel: Option<seq<byte>>)
    requires Proper(e, pkgver, pkgrel)
    ensures AllDigits(e) && Parse(Written(e, pkgver, pkgrel)) == Version(DigitsValue(e), pkgver, pkgrel)
  {
    hide *;
    var rest := Rest(pkgver, pkgrel);
    WrittenIs(e, pkgver, pkgrel);
    NoColon(pkgver, pkgrel, e);
    EpochPart(e, rest);
    RestReads(e, pkgver, pkgrel);
    ParseIs(Written(e, pkgver, pkgrel), DigitsValue(e), rest);
  }

  function Rest(pkgver: seq<byte>, pkgrel: Option<seq<byte>>): seq<byte> {
    if pkgrel.Some? then pkgver + [DASH] + pkgrel.value else pkgver
  }

  lemma WrittenIs(e: seq<byte>, pkgver: seq<byte>, pkgrel: Option<seq<byte>>)
    ensures Written(e, pkgver, pkgrel) == if e == [] then Rest(pkgver, pkgrel) else WithEpoch(e, Rest(pkgver, pkgrel))
  {}

  lemma NoColon(pkgver: seq<byte>, pkgrel: Option<seq<byte>>, e: seq<byte>)
    requires Proper(e, pkgver, pkgrel)
    ensures ColonFree(Rest(pkgver, pkgrel))
    ensures e != [] ==> AllDigits(e) && DigitsValue(e) < 0x1_0000_0000_0000_0000
    ensures AllDigits(e)
  {
    hide DigitsValue;
  }

  lemma EpochPart(e: seq<byte>, rest: seq<byte>)
    requires ColonFree(rest) && AllDigits(e) && (e != [] ==> DigitsValue(e) < 0x1_0000_0000_0000_0000)
    ensures SplitEpoch(if e == [] then rest else WithEpoch(e, rest)) == (DigitsValue(e), rest)
  {
    if e == [] { NoEpoch(rest); } else { EpochReads(e, rest); }
    hide SplitEpoch, DigitsValue;
  }

  lemma RestReads(e: seq<byte>, pkgver: seq<byte>, pkgrel: Option<seq<byte>>)
    requires Proper(e, pkgver, pkgrel)
    ensures LastIndexOf(Rest(pkgver, pkgrel), DASH) == if pkgrel.Some? then Some(|pkgver|) else None
    ensures pkgrel.None? ==> Rest(pkgver, pkgrel) == pkgver
    ensures pkgrel.Some? ==> var rest := Rest(pkgver, pkgrel);
      |pkgver| < |rest| && rest[..|pkgver|] == pkgver && rest[|pkgver| + 1..] == pkgrel.value
  {
    if pkgrel.Some? { LastDash(pkgver, pkgrel.value); } else { NoDash(pkgver); }
    hide LastIndexOf;
  }

  lemma ParseIs(s: seq<byte>, epoch: int, rest: seq<byte>)
    requires SplitEpoch(s) == (epoch, rest)
    ensures Parse(s) == match LastIndexOf(rest, DASH)
                        case Some(i) => Version(epoch, rest[..i], Some(rest[i + 1..]))
                        case None => Version(epoch, rest, None)
  {
    hide SplitEpoch, LastIndexOf;
  }

  lemma NoEpoch(s: seq<byte>)
    requires ColonFree(s)
    ensures SplitEpoch(s) == (0, s) && DigitsValue([]) == 0
  {
    IndexIs(s, ':' as int, |s|);
  }

  lemma NoDash(s: seq<byte>)
    requires DASH !in s
    ensures LastIndexOf(s, DASH) == None
  {}

  /**
   * Epochs compare first, as numbers, a missing one as 0; then the pkgvers; then the
   * pkgrels, when both versions have one.
   */
  lemma PartsDecide(e: seq<byte>, v: seq<byte>, r: Option<seq<byte>>, f: seq<byte>, u: seq<byte>, s: Option<seq<byte>>)
    requires Proper(e, v, r) && Proper(f, u, s)
    ensures AllDigits(e) && AllDigits(f)
    ensures Order(Written(e, v, r), Written(f, u, s))
            == CompareInt(DigitsValue(e), DigitsValue(f)).Then(RpmOrder(v, u))
               .Then(if r.Some? && s.Some? then RpmOrder(r.value, s.value) else Equal)
  {
    ReadsAs(e, v, r);
    ReadsAs(f, u, s);
    hide Parse, Written, DigitsValue, RpmOrder;
  }

  /** Two versions that differ in one word of their pkgver: the words decide. */
  lemma VersionWords(e: seq<byte>, p: seq<byte>, a: seq<byte>, b: seq<byte>, t: seq<byte>, r: Option<seq<byte>>)
    requires Letters(a) && Letters(b) && a != b && NoLetter(t) && Breaks(p, a) && Breaks(p, b)
    requires Proper(e, p + (a + t), r) && Proper(e, p + (b + t), r)
    ensures Order(Written(e, p + (a + t), r), Written(e, p + (b + t), r)) == CompareSeq(a, b) != Equal
  {
    PartsDecide(e, p + (a + t), r, e, p + (b + t), r);
    WordsDecide(p, a, t, b, t);
    CompareSeqReverses(a, b);
    hide RpmOrder, Written, DigitsValue;
  }

  /** ... or in one number: the numbers do. */
  lemma VersionNumbers(e: seq<byte>, p: seq<byte>, a: seq<byte>, b: seq<byte>, t: seq<byte>, r: Option<seq<byte>>)
    requires Numerals(a) && Numerals(b) && NoNumeral(t) && Breaks(p, a) && Breaks(p, b)
    requires Proper(e, p + (a + t), r) && Proper(e, p + (b + t), r)
    ensures AllDigits(a) && AllDigits(b)
    ensures Order(Written(e, p + (a + t), r), Written(e, p + (b + t), r)) == CompareInt(DigitsValue(a), DigitsValue(b))
  {
    PartsDecide(e, p + (a + t), r, e, p + (b + t), r);
    NumbersDecide(p, a, t, b, t);
    RpmOrderReverses(t, t);
    if r.Some? { RpmOrderReverses(r.value, r.value); }
    hide RpmOrder, Written, DigitsValue;
  }
}
