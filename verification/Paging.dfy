/**
 * Reading a release in pages (`worker/src/db.ts`, `worker/src/routes/releases.ts`, and
 * the client's loop): each page continues after the last row of the one before.
 */
module Paging {
  import opened Common
  import opened Dependency

  /** What the rows of a release are ordered by, as bytes. */
  datatype Key = Key(name: seq<byte>, arch: seq<byte>, source: seq<byte>)

  datatype Row = Row(key: Key, package: nat)

  /** Where a page starts; the older form does not say which source it stopped at. */
  datatype Cursor = Full(key: Key) | Sourceless(name: seq<byte>, arch: seq<byte>)

  function CompareNameArch(a: seq<byte>, aArch: seq<byte>, b: seq<byte>, bArch: seq<byte>): Ordering {
    CompareSeq(a, b).Then(CompareSeq(aArch, bArch))
  }

  function CompareKey(a: Key, b: Key): Ordering {
    CompareNameArch(a.name, a.arch, b.name, b.arch).Then(CompareSeq(a.source, b.source))
  }

  predicate Beyond(after: Option<Cursor>, r: Row) {
    match after
    case None => true
    case Some(Full(key)) => CompareKey(r.key, key) == Greater
    case Some(Sourceless(name, arch)) => CompareNameArch(r.key.name, r.key.arch, name, arch) == Greater
  }

  /** The rows of the release that the query of a page runs over. */
  function Rest(rows: seq<Row>, after: Option<Cursor>): seq<Row> {
    Filter(rows, (r: Row) => Beyond(after, r))
  }

  function Take(rows: seq<Row>, limit: nat): seq<Row> { if |rows| <= limit then rows else rows[..limit] }

  /** A page and where the next one starts: a full page always names one. */
  function Page(rows: seq<Row>, after: Option<Cursor>, limit: nat): (seq<Row>, Option<Cursor>) {
    var page := Take(Rest(rows, after), limit);
    (page, if page != [] && |page| == limit then Some(Full(page[|page| - 1].key)) else None)
  }

  /** In order, each key once. */
  ghost predicate Ordered(rows: seq<Row>) {
    forall i, j :: 0 <= i < j < |rows| ==> CompareKey(rows[i].key, rows[j].key) == Less
  }

  // ---------- the order ----------

  lemma NameArchReverses(a: Key, b: Key)
    ensures CompareNameArch(b.name, b.arch, a.name, a.arch) == CompareNameArch(a.name, a.arch, b.name, b.arch).Reverse()
    ensures CompareNameArch(a.name, a.arch, b.name, b.arch) == Equal <==> a.name == b.name && a.arch == b.arch
  {
    CompareSeqReverses(a.name, b.name);
    CompareSeqReverses(a.arch, b.arch);
  }

  lemma KeyReverses(a: Key, b: Key)
    ensures CompareKey(b, a) == CompareKey(a, b).Reverse()
    ensures CompareKey(a, b) == Equal <==> a == b
  {
    NameArchReverses(a, b);
    CompareSeqReverses(a.source, b.source);
  }

  /** Rows are ordered by the bytes of the name, then of the architecture, then of the source. */
  lemma KeyOrder(a: Key, b: Key)
    ensures CompareKey(a, b) == Less <==>
      || Precedes(a.name, b.name)
      || (a.name == b.name && Precedes(a.arch, b.arch))
      || (a.name == b.name && a.arch == b.arch && Precedes(a.source, b.source))
    ensures CompareNameArch(a.name, a.arch, b.name, b.arch) == Less <==>
      Precedes(a.name, b.name) || (a.name == b.name && Precedes(a.arch, b.arch))
  {
    BytesOrder(a.name, b.name);
    BytesOrder(a.arch, b.arch);
    BytesOrder(a.source, b.source);
    CompareSeqReverses(a.name, b.name);
    CompareSeqReverses(a.arch, b.arch);
    hide CompareSeq, Precedes;
  }

  lemma {:induction false} FilterSplit<T(!new)>(s: seq<T>, k: nat, f: T -> bool)
    requires k <= |s| && (forall i :: 0 <= i < k ==> !f(s[i])) && (forall i :: k <= i < |s| ==> f(s[i]))
    ensures Filter(s, f) == s[k..]
  {
    if k == |s| {
      FilterNone(s, f);
    } else {
      FilterSplit(s[..|s| - 1], k, f);
      assert s[k..] == s[..|s| - 1][k..] + [s[|s| - 1]];
    }
  }

  /** After the `k`-th row's key come exactly the rows after it. */
  lemma RestAfter(rows: seq<Row>, k: nat)
    requires Ordered(rows) && k < |rows|
    ensures Rest(rows, Some(Full(rows[k].key))) == rows[k + 1..]
  {
    var after := Some(Full(rows[k].key));
    forall i | 0 <= i < |rows| ensures Beyond(after, rows[i]) <==> i > k {
      KeyReverses(rows[i].key, rows[k].key);
    }
    RestSplits(rows, after, k + 1);
  }

  lemma RestSplits(rows: seq<Row>, after: Option<Cursor>, k: nat)
    requires k <= |rows| && forall i :: 0 <= i < |rows| ==> (Beyond(after, rows[i]) <==> i >= k)
    ensures Rest(rows, after) == rows[k..]
  {
    hide Beyond;
    FilterSplit(rows, k, (r: Row) => Beyond(after, r));
  }

  lemma RestFromStart(rows: seq<Row>)
    ensures Rest(rows, None) == rows
  {
    RestSplits(rows, None, 0);
  }

  // ---------- following the cursors ----------

  /**
   * The client's loop. Rows with distinct (name, architecture, source) come in order,
   * each exactly once, whatever the size of a page; it ends because fewer rows remain.
   */
  method FetchRelease(rows: seq<Row>, limit: nat) returns (view: seq<Row>)
    requires Ordered(rows) && limit >= 1
    ensures view == rows
  {
    hide *;
    view := [];
    var after: Option<Cursor> := None;
    RestFromStart(rows);
    var more := true;
    while more
      invariant |view| <= |rows| && view == rows[..|view|]
      invariant more ==> Rest(rows, after) == rows[|view|..]
      invariant !more ==> view == rows
      decreases |rows| - |view|, more
    {
      var (page, next) := Page(rows, after, limit);
      PageIs(rows, after, limit, |view|);
      ghost var before := |view|;
      view := view + page;
      assert view == rows[..before + |page|];
      if next.Some? {
        assert page[|page| - 1] == rows[|view| - 1];
        RestAfter(rows, |view| - 1);
        after := next;
      } else {
        more := false;
      }
    }
  }

  /** A page is what comes next, as far as it goes; without a next cursor it goes to the end. */
  lemma PageIs(rows: seq<Row>, after: Option<Cursor>, limit: nat, before: nat)
    requires limit >= 1 && before <= |rows| && Rest(rows, after) == rows[before..]
    ensures var (page, next) := Page(rows, after, limit);
            && before + |page| <= |rows| && page == rows[before..before + |page|]
            && (next.Some? ==> page != [] && next == Some(Full(page[|page| - 1].key)))
            && (next.None? ==> before + |page| == |rows|)
  {
    hide Rest;
    assert Page(rows, after, limit).0 == Take(rows[before..], limit);
  }

  /** The page after the first `k` rows: the next ones, `limit` at most, and a cursor exactly when it is full. */
  lemma PageMeans(rows: seq<Row>, k: nat, limit: nat)
    requires Ordered(rows) && k <= |rows| && limit >= 1
    ensures var (page, next) := Page(rows, if k == 0 then None else Some(Full(rows[k - 1].key)), limit);
            if k + limit <= |rows| then page == rows[k..k + limit] && next == Some(Full(rows[k + limit - 1].key))
            else page == rows[k..] && next == None
  {
    hide *;
    RestFromStart(rows);
    if k > 0 { RestAfter(rows, k - 1); }
    PageOf(rows, if k == 0 then None else Some(Full(rows[k - 1].key)), k, limit);
  }

  lemma PageOf(rows: seq<Row>, after: Option<Cursor>, k: nat, limit: nat)
    requires k <= |rows| && limit >= 1 && Rest(rows, after) == (if k == 0 then rows else rows[k..])
    ensures var (page, next) := Page(rows, after, limit);
            if k + limit <= |rows| then page == rows[k..k + limit] && next == Some(Full(rows[k + limit - 1].key))
            else page == rows[k..] && next == None
  {
    var rest := rows[k..];
    assert Rest(rows, after) == rest;
    assert k + limit <= |rows| ==> rest[..limit] == rows[k..k + limit];
    hide Rest;
  }

  /** Were two rows to share a key, the one after a page boundary would never be returned: keys must be unique. */
  lemma EqualKeysAreLost(rows: seq<Row>, last: Row, x: Row)
    requires x.key == last.key
    ensures x !in Rest(rows, Some(Full(last.key)))
  {
    KeyReverses(x.key, last.key);
  }

  /** Both rows are builds of one name for one architecture. */
  predicate SameName(a: Row, b: Row) { a.key.name == b.key.name && a.key.arch == b.key.arch }

  /** A cursor without the source loses exactly the rows of the same name and architecture from later sources. */
  lemma SourcelessLoses(rows: seq<Row>, k: nat, x: Row)
    requires Ordered(rows) && k < |rows| && x in rows[k + 1..]
    ensures x in Rest(rows, Some(Full(rows[k].key)))
    ensures x in Rest(rows, Some(Sourceless(rows[k].key.name, rows[k].key.arch))) <==> !SameName(x, rows[k])
    ensures SameName(x, rows[k]) ==> CompareSeq(rows[k].key.source, x.key.source) == Less
  {
    RestAfter(rows, k);
    var i :| k < i < |rows| && rows[i] == x;
    NameArchReverses(rows[k].key, x.key);
    CompareSeqReverses(rows[k].key.source, x.key.source);
    assert CompareKey(rows[k].key, x.key) == Less;
    hide CompareSeq, Ordered;
    assert x in rows;
  }

  /** It never repeats a row: what it returns comes after the last one. */
  lemma SourcelessKeepsOrder(rows: seq<Row>, k: nat, x: Row)
    requires Ordered(rows) && k < |rows| && x in Rest(rows, Some(Sourceless(rows[k].key.name, rows[k].key.arch)))
    ensures x in rows[k + 1..]
  {
    var i :| 0 <= i < |rows| && rows[i] == x;
    NameArchReverses(rows[k].key, x.key);
    assert i < k ==> CompareKey(x.key, rows[k].key) == Less;
    hide CompareSeq;
    assert i > k;
    assert rows[k + 1..][i - k - 1] == x;
  }

  // ---------- the cursor as text ----------

  predicate IsArch(s: string) { s == "x86_64" || s == "aarch64" }

  /** A cursor in text: `<name>/<arch>/<source>`. */
  datatype TextCursor = TextCursor(name: string, arch: string, source: Option<string>)

  function CursorText(name: string, arch: string, source: string): string { name + "/" + arch + "/" + source }

  function SplitLast(s: string): Option<(string, string)> {
    match FindLastChar(s, '/')
    case Some(i) => Some((s[..i], s[i + 1..]))
    case None => None
  }

  /** Three parts from the right, or the older two; a name may hold slashes. */
  function ParseCursor(text: string): Option<TextCursor> {
    match SplitLast(text)
    case None => None
    case Some((front, last)) =>
      var three := SplitLast(front);
      if three.Some? && IsArch(three.value.1) && last != "" then
        if three.value.0 == "" then None else Some(TextCursor(three.value.0, three.value.1, Some(last)))
      else if IsArch(last) then if front == "" then None else Some(TextCursor(front, last, None))
      else None
  }

  lemma SplitsLast(front: string, last: string)
    requires '/' !in last
    ensures SplitLast(front + "/" + last) == Some((front, last))
  {
    var s := front + "/" + last;
    assert s[|front|] == '/' && forall k :: |front| < k < |s| ==> s[k] == last[k - |front| - 1];
    var i := FindLastChar(s, '/');
    assert i == Some(|front|);
    assert s[..|front|] == front && s[|front| + 1..] == last;
  }

  /** What the service prints as the next cursor it reads back as the same row's, whatever the name. */
  lemma CursorRoundTrip(name: string, arch: string, source: string)
    requires name != "" && (arch == "x86_64" || arch == "aarch64") && source != "" && '/' !in source
    ensures CursorText(name, arch, source) == name + "/" + arch + "/" + source
    ensures ParseCursor(CursorText(name, arch, source)) == Some(TextCursor(name, arch, Some(source)))
  {
    assert CursorText(name, arch, source) == (name + "/" + arch) + "/" + source;
    SplitsLast(name + "/" + arch, source);
    SplitsLast(name, arch);
    hide SplitLast;
  }
}
