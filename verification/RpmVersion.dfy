/**
 * Arch version comparison: the port of libalpm's `rpmvercmp` as it is written (a
 * loop over two shrinking slices), and the order on segments it computes.
 */
module RpmVersion {
  import opened Common
  import opened Digits

  // ---------- the order ----------

  /**
   * A version string cut into segments: each a run of digits or of letters
   * behind `seps` separator bytes. `End` holds the separators nothing follows.
   */
  datatype Segments =
    | End(trailing: nat)
    | Segment(seps: nat, num: bool, text: seq<byte>, rest: Segments)
  {
    /** Well-formed: what `Split` yields. */
    predicate Valid() {
      Segment? ==> (num ==> AllDigits(text)) && rest.Valid()
    }

    /** No separators at the end of the string. */
    predicate Clean() {
      if End? then trailing == 0 else rest.Clean()
    }

    /**
     * Where a head sorts, whatever its text: letters behind n separators at 3n,
     * digits at 3n + 2, and the end of the string at 1 - above letters that
     * follow directly, below everything else.
     */
    function Rank(): nat {
      if End? then 1 else 3 * seps + (if num then 2 else 0)
    }
  }

  predicate IsSeparator(c: byte) { !IsAlnum(c) }

  /** The bytes a segment that starts with a digit (or a letter) is made of. */
  function Kind(num: bool): byte -> bool {
    (c: byte) => if num then IsDigit(c) else IsAlpha(c)
  }

  function Split(s: seq<byte>): (r: Segments)
    ensures r.Valid()
    decreases |s|
  {
    var n := Leading(s, IsSeparator);
    var word := s[n..];
    if word == [] then End(n)
    else
      var num := IsDigit(word[0]);
      var k := Leading(word, Kind(num));
      assert k > 0;
      Segment(n, num, word[..k], Split(word[k..]))
  }

  /** Digit runs compare as the numbers they denote, letter runs byte by byte. */
  function CompareText(num: bool, a: seq<byte>, b: seq<byte>): Ordering
    requires num ==> AllDigits(a)
    requires num ==> AllDigits(b)
  {
    if num then CompareInt(DigitsValue(a), DigitsValue(b)) else CompareSeq(a, b)
  }

  /**
   * Heads by rank, equal heads by text, equal texts by what follows. Only a
   * string with trailing separators leaves this pattern: those separators beat a
   * bare end, and lose to any digits and win over any letters on the other side.
   */
  function Compare(x: Segments, y: Segments): Ordering
    requires x.Valid() && y.Valid()
  {
    if x.End? && x.trailing > 0 then
      (if y.End? then (if y.trailing > 0 then Equal else Greater)
       else if y.num then Less else Greater)
    else if y.End? && y.trailing > 0 then
      (if x.End? then Less else if x.num then Greater else Less)
    else if x.End? || y.End? then CompareInt(x.Rank(), y.Rank())
    else
      CompareInt(x.Rank(), y.Rank())
      .Then(if x.num == y.num then CompareText(x.num, x.text, y.text) else Equal)
      .Then(Compare(x.rest, y.rest))
  }

  function RpmOrder(a: seq<byte>, b: seq<byte>): Ordering {
    Compare(Split(a), Split(b))
  }

  lemma {:induction false} CompareReverses(x: Segments, y: Segments)
    requires x.Valid() && y.Valid()
    ensures Compare(y, x) == Compare(x, y).Reverse()
    ensures x == y ==> Compare(x, y) == Equal
  {
    if x.Segment? && y.Segment? {
      CompareReverses(x.rest, y.rest);
      CompareSeqReverses(x.text, y.text);
    }
  }

  lemma {:induction false} CompareTransitive(x: Segments, y: Segments, z: Segments)
    requires x.Valid() && y.Valid() && z.Valid()
    requires x.Clean() && y.Clean() && z.Clean()
    ensures Consistent(Compare(x, y), Compare(y, z), Compare(x, z))
  {
    if x.Segment? && y.Segment? && z.Segment? {
      CompareTransitive(x.rest, y.rest, z.rest);
      CompareSeqTransitive(x.text, y.text, z.text);
    }
  }

  // ---------- the loop ----------

  /** The kind and the length of the segment a string starts with. */
  function Run(word: seq<byte>): (nat, bool)
    requires word != []
  {
    (Leading(word, Kind(IsDigit(word[0]))), IsDigit(word[0]))
  }

  /** One step of `Split`. */
  lemma SplitHead(s: seq<byte>)
    ensures var n := Leading(s, IsSeparator);
            if s[n..] == [] then Split(s) == End(n)
            else
              var (k, num) := Run(s[n..]);
              k > 0 && Split(s) == Segment(n, num, s[n..][..k], Split(s[n..][k..]))
  {}

  /** One step of the order, when both strings go on with the same kind of segment behind equally many separators. */
  lemma SameHead(a: seq<byte>, b: seq<byte>)
    requires var n := Leading(a, IsSeparator);
             n == Leading(b, IsSeparator) && a[n..] != [] && b[n..] != [] && IsDigit(a[n]) == IsDigit(b[n])
    ensures var n := Leading(a, IsSeparator);
            var (k, num) := Run(a[n..]);
            var (l, _) := Run(b[n..]);
            RpmOrder(a, b) == CompareText(num, a[n..][..k], b[n..][..l]).Then(RpmOrder(a[n..][k..], b[n..][l..]))
  {
    hide Split, CompareText, Leading;
    SplitHead(a);
    SplitHead(b);
  }

  /** The order, when the heads of the strings decide it. */
  lemma OtherHead(a: seq<byte>, b: seq<byte>)
    ensures var m, n := Leading(a, IsSeparator), Leading(b, IsSeparator);
            var one, two := a[m..], b[n..];
            && (one != [] && two != [] && m != n ==> RpmOrder(a, b) == CompareInt(m, n))
            && (one != [] && two != [] && m == n && IsDigit(one[0]) && IsAlpha(two[0]) ==> RpmOrder(a, b) == Greater)
            && (one != [] && two != [] && m == n && IsAlpha(one[0]) && IsDigit(two[0]) ==> RpmOrder(a, b) == Less)
            && (one == [] && two == [] && (m == 0 <==> n == 0) ==> RpmOrder(a, b) == Equal)
            && (one == [] && two != [] && (m > 0 || n == 0) ==>
               RpmOrder(a, b) == if IsAlpha(two[0]) then Greater else Less)
            && (one != [] && two == [] && (n > 0 || m == 0) ==>
               RpmOrder(a, b) == if IsAlpha(one[0]) then Less else Greater)
            && (a == [] && n > 0 ==> RpmOrder(a, b) == Less)
            && (b == [] && m > 0 ==> RpmOrder(a, b) == Greater)
  {
    hide Split, CompareText, Leading;
    SplitHead(a);
    SplitHead(b);
  }

  /** Segment-wise comparison, as the source's loop does it. */
  method RpmVercmp(a: seq<byte>, b: seq<byte>) returns (ord: Ordering)
    ensures ord == RpmOrder(a, b)
  {
    hide Split, Compare, StripLeadingZeros, Leading;
    if a == b {
      CompareReverses(Split(a), Split(b));
      return Equal;
    }
    var one, two := a, b;
    while one != [] && two != []
      invariant RpmOrder(one, two) == RpmOrder(a, b)
      decreases |one|
    {
      var sepA, sepB := Leading(one, IsSeparator), Leading(two, IsSeparator);
      OtherHead(one, two);
      ghost var x, y := one, two;
      one, two := one[sepA..], two[sepB..];
      if one == [] || two == [] {
        break;
      }
      if sepA != sepB {
        return if sepA < sepB then Less else Greater;
      }
      var isNum := IsDigit(one[0]);
      var segA := Leading(one, Kind(isNum));
      var segB := Leading(two, Kind(isNum));
      if segB == 0 {
        return if isNum then Greater else Less;
      }
      SameHead(x, y);
      var sa, sb := one[..segA], two[..segB];
      one, two := one[segA..], two[segB..];
      if isNum {
        StrippedComparisonIsNumeric(sa, sb);
        var za, zb := StripLeadingZeros(sa), StripLeadingZeros(sb);
        ord := CompareInt(|za|, |zb|).Then(CompareSeq(za, zb));
      } else {
        ord := CompareSeq(sa, sb);
      }
      if ord != Equal {
        return;
      }
    }
    OtherHead(one, two);
    if one == [] && two == [] {
      return Equal;
    }
    if one == [] {
      ord := if IsAlpha(two[0]) then Greater else Less;
    } else {
      ord := if IsAlpha(one[0]) then Less else Greater;
    }
  }
}
