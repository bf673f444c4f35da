/** Shared vocabulary: options, results, three-way comparison results and byte strings. */
module Common {

  datatype Option<+T> = None | Some(value: T)

  datatype Result<+T, +E> = Ok(value: T) | Err(error: E)

  /** The outcome of a three-way comparison. */
  datatype Ordering = Less | Equal | Greater {
    function Reverse(): Ordering {
      match this
      case Less => Greater
      case Equal => Equal
      case Greater => Less
    }

    /** Lexicographic composition: `next` decides only a tie. */
    function Then(next: Ordering): Ordering {
      if this == Equal then next else this
    }
  }

  /** `xz` is what a transitive comparison must answer, given `xy` and `yz`. */
  predicate Consistent(xy: Ordering, yz: Ordering, xz: Ordering) {
    && (xy == Equal ==> xz == yz)
    && (yz == Equal ==> xz == xy)
    && (xy == yz ==> xz == xy)
  }

  function CompareInt(a: int, b: int): Ordering {
    if a < b then Less else if a == b then Equal else Greater
  }

  type byte = x: int | 0 <= x < 256

  /** Lexicographic comparison of sequences of codes; a proper prefix sorts first. */
  function CompareSeq(a: seq<int>, b: seq<int>): Ordering {
    if a == [] && b == [] then Equal
    else if a == [] then Less
    else if b == [] then Greater
    else CompareInt(a[0], b[0]).Then(CompareSeq(a[1..], b[1..]))
  }

  /** `a` begins `b`, or has the smaller element at the first difference. */
  predicate Precedes(a: seq<int>, b: seq<int>) {
    exists k :: 0 <= k <= |a| && k < |b| && a[..k] == b[..k] && (k == |a| || a[k] < b[k])
  }

  lemma SameStart(x: int, c: seq<int>, d: seq<int>)
    ensures Precedes([x] + c, [x] + d) <==> Precedes(c, d)
  {
    var a, b := [x] + c, [x] + d;
    if k :| 0 <= k <= |c| && k < |d| && c[..k] == d[..k] && (k == |c| || c[k] < d[k]) {
      assert a[..k + 1] == [x] + c[..k] && b[..k + 1] == [x] + d[..k];
    }
    if k :| 0 <= k <= |a| && k < |b| && a[..k] == b[..k] && (k == |a| || a[k] < b[k]) {
      assert k > 0 && c[..k - 1] == a[..k][1..] && d[..k - 1] == b[..k][1..];
    }
  }

  lemma OtherStart(a: seq<int>, b: seq<int>)
    requires a == [] || b == [] || a[0] != b[0]
    ensures Precedes(a, b) <==> b != [] && (a == [] || a[0] < b[0])
  {
    forall k | 0 < k <= |a| && k < |b| ensures a[..k] != b[..k] { assert a[..k][0] == a[0] && b[..k][0] == b[0]; }
    if b != [] && (a == [] || a[0] < b[0]) { assert a[..0] == b[..0]; }
  }

  /** At the first difference the smaller element comes first; a prefix comes before what it begins. */
  lemma {:induction false} BytesOrder(a: seq<int>, b: seq<int>)
    ensures CompareSeq(a, b) == Less <==> Precedes(a, b)
  {
    if a != [] && b != [] && a[0] == b[0] {
      BytesOrder(a[1..], b[1..]);
      SameStart(a[0], a[1..], b[1..]);
      assert a == [a[0]] + a[1..] && b == [a[0]] + b[1..];
    } else {
      OtherStart(a, b);
    }
    hide Precedes;
  }

  lemma {:induction false} CompareSeqReverses(a: seq<int>, b: seq<int>)
    ensures CompareSeq(b, a) == CompareSeq(a, b).Reverse()
    ensures CompareSeq(a, b) == Equal <==> a == b
  {
    if a != [] && b != [] {
      CompareSeqReverses(a[1..], b[1..]);
      assert a == [a[0]] + a[1..] && b == [b[0]] + b[1..];
    }
  }

  lemma {:induction false} CompareSeqTransitive(a: seq<int>, b: seq<int>, c: seq<int>)
    ensures Consistent(CompareSeq(a, b), CompareSeq(b, c), CompareSeq(a, c))
  {
    if a != [] && b != [] && c != [] {
      CompareSeqTransitive(a[1..], b[1..], c[1..]);
    }
  }

  /** Comparing concatenations whose first parts are equally long. */
  lemma {:induction false} CompareConcat(a: seq<int>, b: seq<int>, c: seq<int>, d: seq<int>)
    requires |a| == |c|
    ensures CompareSeq(a + b, c + d) == CompareSeq(a, c).Then(CompareSeq(b, d))
  {
    if a == [] {
      assert a + b == b && c + d == d;
    } else {
      CompareConcat(a[1..], b, c[1..], d);
      assert (a + b)[1..] == a[1..] + b && (c + d)[1..] == c[1..] + d;
    }
  }

  /** The UTF-8 form of a string: what code that works on bytes sees. */
  function Utf8(s: string): seq<byte> {
    if s == [] then [] else Utf8Char(s[0] as int) + Utf8(s[1..])
  }

  function Utf8Char(c: int): (bytes: seq<byte>)
    requires 0 <= c < 0x11_0000
  {
    if c < 0x80 then [c]
    else if c < 0x800 then [0xC0 + c / 0x40, 0x80 + c % 0x40]
    else if c < 0x1_0000 then [0xE0 + c / 0x1000, 0x80 + c / 0x40 % 0x40, 0x80 + c % 0x40]
    else [0xF0 + c / 0x4_0000, 0x80 + c / 0x1000 % 0x40, 0x80 + c / 0x40 % 0x40, 0x80 + c % 0x40]
  }

  /** The bytes of a character give it back: their number is told by the first, and each other one holds six bits. */
  lemma Utf8Reads(c: int)
    requires 0 <= c < 0x11_0000
    ensures var b: seq<int> := Utf8Char(c);
            if c < 0x80 then b == [c]
            else if c < 0x800 then
              |b| == 2 && 0xC2 <= b[0] < 0xE0 && 0x80 <= b[1] < 0xC0 && c == (b[0] - 0xC0) * 0x40 + (b[1] - 0x80)
            else if c < 0x1_0000 then
              && |b| == 3 && 0xE0 <= b[0] < 0xF0 && 0x80 <= b[1] < 0xC0 && 0x80 <= b[2] < 0xC0
              && c == (b[0] - 0xE0) * 0x1000 + (b[1] - 0x80) * 0x40 + (b[2] - 0x80)
            else
              && |b| == 4 && 0xF0 <= b[0] < 0xF5 && 0x80 <= b[1] < 0xC0 && 0x80 <= b[2] < 0xC0 && 0x80 <= b[3] < 0xC0
              && c == (b[0] - 0xF0) * 0x4_0000 + (b[1] - 0x80) * 0x1000 + (b[2] - 0x80) * 0x40 + (b[3] - 0x80)
  {
    assert c == c / 0x40 * 0x40 + c % 0x40;
    assert c / 0x40 == c / 0x1000 * 0x40 + c / 0x40 % 0x40;
    assert c / 0x1000 == c / 0x4_0000 * 0x40 + c / 0x1000 % 0x40;
  }

  function Codes(s: string): seq<int> {
    seq(|s|, i requires 0 <= i < |s| => s[i] as int)
  }

  predicate IsDigit(c: int) { '0' as int <= c <= '9' as int }

  predicate IsAlpha(c: int) { 'A' as int <= c <= 'Z' as int || 'a' as int <= c <= 'z' as int }

  predicate IsAlnum(c: int) { IsDigit(c) || IsAlpha(c) }

  /** How many leading elements satisfy `p`. */
  function Leading(s: seq<byte>, p: byte -> bool): (n: nat)
    ensures n <= |s|
    ensures forall i :: 0 <= i < n ==> p(s[i])
    ensures n < |s| ==> !p(s[n])
  {
    if s != [] && p(s[0]) then 1 + Leading(s[1..], p) else 0
  }

  /** Index of the first `c` in `s`, or the length when there is none. */
  function IndexOf(s: seq<int>, c: int): (i: nat)
    ensures i <= |s|
    ensures i < |s| ==> s[i] == c
    ensures forall k :: 0 <= k < i ==> s[k] != c
  {
    if s == [] || s[0] == c then 0 else 1 + IndexOf(s[1..], c)
  }

  lemma IndexIs(s: seq<int>, c: int, i: nat)
    requires i <= |s| && (i < |s| ==> s[i] == c)
    requires forall k :: 0 <= k < i ==> s[k] != c
    ensures IndexOf(s, c) == i
  {}

  /** Index of the last `c` in `s`, or none. */
  function LastIndexOf(s: seq<int>, c: int): (i: Option<nat>)
    ensures i.None? <==> c !in s
    ensures i.Some? ==> i.value < |s| && s[i.value] == c
    ensures i.Some? ==> forall k :: i.value < k < |s| ==> s[k] != c
  {
    if s == [] then None
    else if s[|s| - 1] == c then Some(|s| - 1)
    else LastIndexOf(s[..|s| - 1], c)
  }

  lemma LastIndexIs(s: seq<int>, c: int, i: nat)
    requires i < |s| && s[i] == c
    requires forall k :: i < k < |s| ==> s[k] != c
    ensures LastIndexOf(s, c) == Some(i)
  {
    assert s[i] in s;
  }

  /** The elements that satisfy `f`, in order. */
  function Filter<T(!new)>(s: seq<T>, f: T -> bool): (r: seq<T>)
    ensures forall x :: x in r <==> x in s && f(x)
  {
    if s == [] then []
    else if f(s[|s| - 1]) then Filter(s[..|s| - 1], f) + [s[|s| - 1]]
    else Filter(s[..|s| - 1], f)
  }

  lemma {:induction false} FilterNone<T(!new)>(s: seq<T>, f: T -> bool)
    requires forall x :: x in s ==> !f(x)
    ensures Filter(s, f) == []
  {
    if s != [] { FilterNone(s[..|s| - 1], f); }
  }
}
