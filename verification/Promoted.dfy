/** The walk from a ring's head to its last promotion, over the history rows the service returns. */
module Promoted {
  import opened Common
  import opened Releases
  import opened Creation

  datatype HistoryEntry = HistoryEntry(id: nat, isHead: bool, parent: Option<nat>, source: Option<nat>)

  predicate ParentsSmaller(history: seq<HistoryEntry>) {
    forall e :: e in history && e.parent.Some? ==> e.parent.value < e.id
  }

  function FindEntry(history: seq<HistoryEntry>, id: nat): (e: Option<HistoryEntry>)
    ensures e.Some? ==> e.value in history && e.value.id == id
    ensures e.None? ==> forall x :: x in history ==> x.id != id
  {
    if history == [] then None else if history[0].id == id then Some(history[0]) else FindEntry(history[1..], id)
  }

  function FindHead(history: seq<HistoryEntry>): (e: Option<HistoryEntry>)
    ensures e.Some? ==> e.value in history && e.value.isHead
    ensures e.None? ==> forall x :: x in history ==> !x.isHead
  {
    if history == [] then None else if history[0].isHead then Some(history[0]) else FindHead(history[1..])
  }

  /** The row of an entry's parent, if the history has it. */
  function ParentRow(history: seq<HistoryEntry>, e: HistoryEntry): Option<HistoryEntry> {
    if e.parent.Some? then FindEntry(history, e.parent.value) else None
  }

  /** From an entry towards its ancestors, to the first that was copied from another release. */
  function Walk(history: seq<HistoryEntry>, cur: Option<HistoryEntry>): Option<HistoryEntry>
    requires ParentsSmaller(history) && (cur.Some? ==> cur.value in history)
    decreases if cur.Some? then cur.value.id + 1 else 0
  {
    if cur.None? then None
    else if cur.value.source.Some? then cur
    else Walk(history, ParentRow(history, cur.value))
  }

  function LastPromotion(history: seq<HistoryEntry>): Option<HistoryEntry>
    requires ParentsSmaller(history)
  {
    Walk(history, FindHead(history))
  }

  /** The loop; it ends because parents have smaller ids. */
  method FindLastPromotion(history: seq<HistoryEntry>) returns (r: Option<HistoryEntry>)
    requires ParentsSmaller(history)
    ensures r == LastPromotion(history)
  {
    var cur := FindHead(history);
    while cur.Some?
      invariant cur.Some? ==> cur.value in history
      invariant LastPromotion(history) == Walk(history, cur)
      decreases if cur.Some? then cur.value.id + 1 else 0
    {
      var e := cur.value;
      if e.source.Some? {
        return Some(e);
      }
      cur := if e.parent.Some? then FindEntry(history, e.parent.value) else None;
    }
    r := None;
  }

  /** `k` parents back from an entry. */
  function Ancestor(history: seq<HistoryEntry>, e: Option<HistoryEntry>, k: nat): Option<HistoryEntry>
    decreases k
  {
    if k == 0 || e.None? then e else Ancestor(history, ParentRow(history, e.value), k - 1)
  }

  /** The walk stops at the nearest copied release on the chain, after passing only releases that were not. */
  lemma {:induction false} WalkFindsNearest(history: seq<HistoryEntry>, cur: Option<HistoryEntry>) returns (k: nat)
    requires ParentsSmaller(history) && (cur.Some? ==> cur.value in history)
    ensures Ancestor(history, cur, k) == Walk(history, cur)
    ensures Walk(history, cur).Some? ==> Walk(history, cur).value.source.Some?
    ensures forall j :: 0 <= j < k ==> Ancestor(history, cur, j).Some? && Ancestor(history, cur, j).value.source.None?
    decreases if cur.Some? then cur.value.id + 1 else 0
  {
    if cur.None? || cur.value.source.Some? {
      k := 0;
    } else {
      var n := WalkFindsNearest(history, ParentRow(history, cur.value));
      k := n + 1;
      forall j | 0 <= j < k ensures Ancestor(history, cur, j).Some? && Ancestor(history, cur, j).value.source.None? {
        if j > 0 { assert Ancestor(history, cur, j) == Ancestor(history, ParentRow(history, cur.value), j - 1); }
      }
    }
  }

  // ---------- on the histories the service keeps ----------

  /** A release and its ancestors, newest first. */
  function Lineage(rs: seq<Release>, id: nat): (ids: seq<nat>)
    requires WellParented(rs) && id < |rs|
    ensures ids != [] && ids[0] == id
    ensures forall k :: 0 <= k < |ids| ==> ids[k] < |rs| && rs[ids[k]].ring == rs[id].ring
    decreases id
  {
    [id] + if rs[id].parent.Some? then Lineage(rs, rs[id].parent.value) else []
  }

  /** Each release is followed by its parent, down to the first of the ring. */
  ghost predicate Linking(rs: seq<Release>, ids: seq<nat>) {
    && ids != [] && (forall k :: 0 <= k < |ids| ==> ids[k] < |rs|)
    && (forall k :: 0 <= k < |ids| - 1 ==> rs[ids[k]].parent == Some(ids[k + 1]))
    && rs[ids[|ids| - 1]].parent == None
    && (forall j, k :: 0 <= j < k < |ids| ==> ids[k] < ids[j])
  }

  lemma OneMoreLink(rs: seq<Release>, id: nat, rest: seq<nat>)
    requires Linking(rs, rest) && id < |rs| && rs[id].parent == Some(rest[0]) && rest[0] < id
    ensures Linking(rs, [id] + rest)
  {
    var ids := [id] + rest;
    assert ids[|ids| - 1] == rest[|rest| - 1];
    forall k | 0 <= k < |ids| - 1 ensures rs[ids[k]].parent == Some(ids[k + 1]) {
      if k > 0 { assert ids[k] == rest[k - 1] && ids[k + 1] == rest[k]; }
    }
  }

  lemma {:induction false} LineageLinks(rs: seq<Release>, id: nat)
    requires WellParented(rs) && id < |rs|
    ensures Linking(rs, Lineage(rs, id))
    decreases id
  {
    if rs[id].parent.Some? {
      LineageLinks(rs, rs[id].parent.value);
      OneMoreLink(rs, id, Lineage(rs, rs[id].parent.value));
      hide Linking;
    } else {
      assert Lineage(rs, id) == [id];
    }
  }

  lemma {:induction false} LineageHasNumber(rs: seq<Release>, id: nat, number: nat)
    requires WellParented(rs) && Numbered(rs) && id < |rs| && 1 <= number <= rs[id].number
    ensures exists k :: 0 <= k < |Lineage(rs, id)| && rs[Lineage(rs, id)[k]].number == number
    decreases id
  {
    var ids := Lineage(rs, id);
    assert rs[id].parent == rs[id].parent;
    if number < rs[id].number {
      LineageHasNumber(rs, rs[id].parent.value, number);
      var rest := Lineage(rs, rs[id].parent.value);
      var k :| 0 <= k < |rest| && rs[rest[k]].number == number;
      assert ids[k + 1] == rest[k];
    } else {
      assert ids[0] == id;
    }
  }

  /** A ring's history is the lineage of its head: every release of the ring is in it. */
  lemma LineageIsHistory(db: Db, ring: Ring, i: nat)
    requires Inv(db) && ring in db.heads && i < |db.releases| && db.releases[i].ring == ring
    ensures db.heads[ring] < |db.releases| && i in Lineage(db.releases, db.heads[ring])
  {
    var head := db.heads[ring];
    assert AtMostHead(db, i);
    FirstIsOne(db.releases, i);
    LineageHasNumber(db.releases, head, db.releases[i].number);
    var ids := Lineage(db.releases, head);
    var k :| 0 <= k < |ids| && db.releases[ids[k]].number == db.releases[i].number;
    assert ids[k] == i;
  }

  function EntryOf(db: Db, id: nat): HistoryEntry
    requires id < |db.releases|
  {
    HistoryEntry(id, db.IsHead(id), db.releases[id].parent, db.releases[id].source)
  }

  function Rows(db: Db, ids: seq<nat>): seq<HistoryEntry>
    requires forall k :: 0 <= k < |ids| ==> ids[k] < |db.releases|
  {
    seq(|ids|, k requires 0 <= k < |ids| => EntryOf(db, ids[k]))
  }

  function Newest(ids: seq<nat>, limit: nat): seq<nat> { if |ids| <= limit then ids else ids[..limit] }

  /** The newest rows of a ring's history; the service returns fifty. */
  function History(db: Db, ring: Ring, limit: nat): seq<HistoryEntry>
    requires Inv(db) && ring in db.heads
  {
    HeadExists(db, ring);
    Rows(db, Newest(Lineage(db.releases, db.heads[ring]), limit))
  }

  const HISTORY_ROWS := 50

  lemma HeadExists(db: Db, ring: Ring)
    requires Inv(db) && ring in db.heads
    ensures WellParented(db.releases) && db.heads[ring] < |db.releases|
  {}

  lemma {:induction false} FindAt(rows: seq<HistoryEntry>, k: nat)
    requires k < |rows| && forall i, j :: 0 <= i < j < |rows| ==> rows[i].id != rows[j].id
    ensures FindEntry(rows, rows[k].id) == Some(rows[k])
  {
    var e := FindEntry(rows, rows[k].id);
    var i :| 0 <= i < |rows| && rows[i] == e.value;
  }

  /** The first release of a lineage that was copied from another. */
  function FirstSourced(db: Db, ids: seq<nat>): (k: Option<nat>)
    requires forall k :: 0 <= k < |ids| ==> ids[k] < |db.releases|
    ensures k.Some? ==> k.value < |ids| && db.releases[ids[k.value]].source.Some? && forall j :: 0 <= j < k.value ==>
      db.releases[ids[j]].source.None?
    ensures k.None? ==> forall j :: 0 <= j < |ids| ==> db.releases[ids[j]].source.None?
  {
    if ids == [] then None
    else if db.releases[ids[0]].source.Some? then Some(0)
    else match FirstSourced(db, ids[1..])
      case Some(k) => Some(k + 1)
      case None => None
  }

  /** The rows of the newest part of a lineage: linked, with decreasing ids. */
  ghost predicate Linked(rows: seq<HistoryEntry>) {
    && (forall i, j :: 0 <= i < j < |rows| ==> rows[j].id < rows[i].id)
    && (forall k :: 0 <= k < |rows| - 1 ==> rows[k].parent == Some(rows[k + 1].id))
    && (rows != [] && rows[|rows| - 1].parent.Some? ==> forall e :: e in rows ==> e.id != rows[|rows| - 1].parent.value)
  }

  lemma RowsLinked(db: Db, ids: seq<nat>, limit: nat)
    requires Linking(db.releases, ids)
    ensures Linked(Rows(db, Newest(ids, limit))) && ParentsSmaller(Rows(db, Newest(ids, limit)))
  {
    var rows := Rows(db, Newest(ids, limit));
    forall k | 0 <= k < |rows| ensures rows[k].id == ids[k] && rows[k].parent == db.releases[ids[k]].parent {}
    hide Rows, Newest;
    FollowingRows(db.releases, ids, rows);
  }

  /** Rows that follow a linked list of releases from its start are linked themselves. */
  lemma FollowingRows(rs: seq<Release>, ids: seq<nat>, rows: seq<HistoryEntry>)
    requires Linking(rs, ids) && |rows| <= |ids|
    requires forall k :: 0 <= k < |rows| ==> rows[k].id == ids[k] && rows[k].parent == rs[ids[k]].parent
    ensures Linked(rows) && ParentsSmaller(rows)
  {
    var n := |rows|;
    forall e | e in rows ensures e.parent.Some? ==> e.parent.value < e.id {
      var k :| 0 <= k < n && rows[k] == e;
      if e.parent.Some? { assert k < |ids| - 1 && ids[k + 1] < ids[k]; }
    }
    if n > 0 && rows[n - 1].parent.Some? {
      assert n < |ids| && rows[n - 1].parent.value == ids[n];
      forall e | e in rows ensures e.id != ids[n] {
        var k :| 0 <= k < n && rows[k] == e;
        assert ids[n] < ids[k];
      }
    }
  }

  /** Walking linked rows from the `k`-th finds the first copied one from there. */
  lemma {:induction false} WalkLinked(rows: seq<HistoryEntry>, k: nat)
    requires Linked(rows) && ParentsSmaller(rows) && k < |rows|
    ensures var r := Walk(rows, Some(rows[k]));
            if r.None? then forall j :: k <= j < |rows| ==> rows[j].source.None?
            else exists m :: k <= m < |rows| && r == Some(rows[m]) && rows[m].source.Some? && forall j :: k <= j < m ==>
              rows[j].source.None?
    decreases |rows| - k
  {
    if rows[k].source.None? {
      if k + 1 < |rows| {
        FindAt(rows, k + 1);
        WalkLinked(rows, k + 1);
      }
    }
  }

  lemma HeadComesFirst(db: Db, ring: Ring, limit: nat)
    requires Inv(db) && ring in db.heads && limit > 0
    ensures History(db, ring, limit) != [] && FindHead(History(db, ring, limit)) == Some(History(db, ring, limit)[0])
  {
    HeadExists(db, ring);
    var rows := History(db, ring, limit);
    var ids := Lineage(db.releases, db.heads[ring]);
    assert rows[0] == EntryOf(db, ids[0]) && db.releases[ids[0]].ring == ring;
    assert db.releases[db.heads[ring]].ring == ring by { HeadsRightHere(db, ring); }
    assert rows[0].isHead;
  }

  lemma HeadsRightHere(db: Db, ring: Ring)
    requires Inv(db) && ring in db.heads
    ensures db.heads[ring] < |db.releases| && db.releases[db.heads[ring]].ring == ring
  {}

  /** The walk over the rows of the newest part of a lineage. */
  lemma WalkIs(db: Db, ids: seq<nat>, limit: nat)
    requires Linking(db.releases, ids) && limit > 0
    ensures var rows := Rows(db, Newest(ids, limit));
            var k := FirstSourced(db, ids);
            rows != [] && ParentsSmaller(rows)
            && Walk(rows, Some(rows[0])) == if k.Some? && k.value < limit then Some(EntryOf(db, ids[k.value])) else None
  {
    NewestRows(db, ids, limit);
    RowsLinked(db, ids, limit);
    hide *;
    var rows := Rows(db, Newest(ids, limit));
    var k := FirstSourced(db, ids);
    WalkFinds(rows, if k.Some? && k.value < limit then k else None);
  }

  /** The rows of the newest releases, up to the first that was copied. */
  lemma NewestRows(db: Db, ids: seq<nat>, limit: nat)
    requires Linking(db.releases, ids) && limit > 0
    ensures forall k :: 0 <= k < |ids| ==> ids[k] < |db.releases|
    ensures var rows := Rows(db, Newest(ids, limit));
            var k := FirstSourced(db, ids);
            && rows != []
            && if k.Some? && k.value < limit then k.value < |ids| && k.value < |rows|
               && rows[k.value] == EntryOf(db, ids[k.value])
                 && rows[k.value].source.Some? && forall j :: 0 <= j < k.value ==> rows[j].source.None?
               else forall j :: 0 <= j < |rows| ==> rows[j].source.None?
  {
    var rows := Rows(db, Newest(ids, limit));
    forall j | 0 <= j < |rows| ensures j < limit && rows[j] == EntryOf(db, ids[j])
      && rows[j].source == db.releases[ids[j]].source {}
    hide FirstSourced, EntryOf;
  }

  lemma WalkFinds(rows: seq<HistoryEntry>, k: Option<nat>)
    requires Linked(rows) && ParentsSmaller(rows) && rows != []
    requires if k.Some? then k.value < |rows| && rows[k.value].source.Some? && forall j :: 0 <= j < k.value ==>
      rows[j].source.None?
             else forall j :: 0 <= j < |rows| ==> rows[j].source.None?
    ensures Walk(rows, Some(rows[0])) == if k.Some? then Some(rows[k.value]) else None
  {
    WalkLinked(rows, 0);
    hide Linked, ParentsSmaller, Walk;
    assert k.Some? ==> rows[k.value].source.Some?;
  }

  /** Over the newest rows the walk finds the last promotion exactly when it is among them. */
  lemma WindowFindsPromotion(db: Db, ring: Ring, limit: nat)
    requires Inv(db) && ring in db.heads && limit > 0
    ensures WellParented(db.releases) && db.heads[ring] < |db.releases| && ParentsSmaller(History(db, ring, limit))
    ensures var ids := Lineage(db.releases, db.heads[ring]);
            var k := FirstSourced(db, ids);
            LastPromotion(History(db, ring, limit)) == if k.Some?
              && k.value < limit then Some(EntryOf(db, ids[k.value])) else None
  {
    HeadExists(db, ring);
    HeadComesFirst(db, ring, limit);
    LineageLinks(db.releases, db.heads[ring]);
    hide Inv, Lineage, Walk, FirstSourced, Rows, Newest, EntryOf;
    WalkIs(db, Lineage(db.releases, db.heads[ring]), limit);
  }

  /**
   * With fifty rows the gate sees the last promotion unless fifty or more releases
   * were made since; then it sees none, as for a ring never promoted into.
   */
  lemma FiftyRowsSuffice(db: Db, ring: Ring)
    requires Inv(db) && ring in db.heads
    ensures WellParented(db.releases) && db.heads[ring] < |db.releases|
    ensures var ids := Lineage(db.releases, db.heads[ring]);
            var k := FirstSourced(db, ids);
            ParentsSmaller(History(db, ring, HISTORY_ROWS)) && ParentsSmaller(History(db, ring, |ids|))
            && (LastPromotion(History(db, ring, HISTORY_ROWS)) == LastPromotion(History(db, ring, |ids|))
                <==> (k.Some? ==> k.value < HISTORY_ROWS))
            && (k.Some? && k.value >= HISTORY_ROWS ==> LastPromotion(History(db, ring, HISTORY_ROWS)).None?)
  {
    HeadExists(db, ring);
    var ids := Lineage(db.releases, db.heads[ring]);
    WindowFindsPromotion(db, ring, HISTORY_ROWS);
    WindowFindsPromotion(db, ring, |ids|);
    hide Inv, Lineage, History, LastPromotion;
  }
}
