/** The gate over the releases, in plain terms: which it takes for the last promotion into a ring. */
module HistoryLaws {
  import opened Common
  import opened Calendar
  import opened Releases
  import opened Promoted
  import opened Gate
  import opened GateRun
  import GateLaws

  /** The ring's releases since the `r`-th. */
  function Since(db: Db, ring: Ring, r: nat): set<nat> {
    set j | r < j < |db.releases| && db.releases[j].ring == ring
  }

  /** The ring's last release that was copied from another, with fewer than fifty since. */
  predicate RecentCopy(db: Db, ring: Ring, r: nat) {
    && r < |db.releases| && db.releases[r].ring == ring && db.releases[r].source.Some?
    && (forall j :: j in Since(db, ring, r) ==> db.releases[j].source == None) && |Since(db, ring, r)| < 50
  }

  // ---------- positions in the history ----------

  lemma {:induction false} DistinctCount(ids: seq<nat>, k: nat)
    requires k <= |ids| && forall i, j :: 0 <= i < j < |ids| ==> ids[j] < ids[i]
    ensures |set i | 0 <= i < k :: ids[i]| == k
  {
    if k > 0 {
      DistinctCount(ids, k - 1);
      var less, all := set i | 0 <= i < k - 1 :: ids[i], set i | 0 <= i < k :: ids[i];
      assert all == less + {ids[k - 1]};
    }
  }

  /** Every release of the ring once, newest first. */
  ghost predicate Complete(db: Db, ring: Ring, ids: seq<nat>) {
    && (forall i, j :: 0 <= i < j < |ids| ==> ids[j] < ids[i])
    && (forall i :: 0 <= i < |ids| ==> ids[i] < |db.releases| && db.releases[ids[i]].ring == ring)
    && (forall j :: 0 <= j < |db.releases| && db.releases[j].ring == ring ==> j in ids)
  }

  lemma HistoryComplete(db: Db, ring: Ring)
    requires Inv(db) && ring in db.heads
    ensures WellParented(db.releases) && db.heads[ring] < |db.releases|
    ensures Complete(db, ring, Lineage(db.releases, db.heads[ring]))
  {
    HeadExists(db, ring);
    HeadsRightHere(db, ring);
    LineageLinks(db.releases, db.heads[ring]);
    hide Inv, Lineage;
    var ids := Lineage(db.releases, db.heads[ring]);
    forall j: nat | j < |db.releases| && db.releases[j].ring == ring ensures j in ids { LineageIsHistory(db, ring, j); }
  }

  /** As many releases follow the `k`-th of the history as stand before it. */
  lemma SinceCount(db: Db, ring: Ring, ids: seq<nat>, k: nat)
    requires Complete(db, ring, ids) && k < |ids|
    ensures Since(db, ring, ids[k]) == set i | 0 <= i < k :: ids[i]
    ensures |Since(db, ring, ids[k])| == k
  {
    DistinctCount(ids, k);
    forall j | j in Since(db, ring, ids[k]) ensures exists i :: 0 <= i < k && ids[i] == j {
      var i :| 0 <= i < |ids| && ids[i] == j;
      assert i < k;
    }
  }

  /** Of a complete history the first copied release is the last copy, if it is among the newest fifty. */
  lemma FirstIsLast(db: Db, ring: Ring, ids: seq<nat>, k: Option<nat>, r: nat)
    requires Complete(db, ring, ids)
    requires if k.Some? then k.value < |ids| && db.releases[ids[k.value]].source.Some?
               && forall j :: 0 <= j < k.value ==> db.releases[ids[j]].source == None
             else forall j :: 0 <= j < |ids| ==> db.releases[ids[j]].source == None
    ensures RecentCopy(db, ring, r) <==> k.Some? && k.value < 50 && ids[k.value] == r
  {
    if k.Some? { SinceCount(db, ring, ids, k.value); }
    if RecentCopy(db, ring, r) {
      var p :| 0 <= p < |ids| && ids[p] == r;
      SinceCount(db, ring, ids, p);
      forall j | 0 <= j < p ensures db.releases[ids[j]].source == None { assert ids[j] in Since(db, ring, r); }
    }
  }

  // ---------- the last promotion ----------

  /** Fifty rows of the history show exactly that release as the last promotion into the ring. */
  lemma LastCopyFound(db: Db, ring: Ring, r: nat)
    requires Inv(db)
    ensures LastPromoted(db, ring, 50).Some? && LastPromoted(db, ring, 50).value.id == r <==> RecentCopy(db, ring, r)
    ensures RecentCopy(db, ring, r) ==>
      r < |db.releases| && LastPromoted(db, ring, 50).value.source == db.releases[r].source
  {
    if ring in db.heads {
      var k := Found(db, ring);
      HistoryComplete(db, ring);
      hide Inv, Lineage, FirstSourced, LastPromoted, RecentCopy, Complete;
      FirstIsLast(db, ring, Lineage(db.releases, db.heads[ring]), k, r);
    } else {
      NoReleases(db, ring);
    }
  }

  lemma NoReleases(db: Db, ring: Ring)
    requires Inv(db) && ring !in db.heads
    ensures forall j :: 0 <= j < |db.releases| ==> db.releases[j].ring != ring
  {
    forall j | 0 <= j < |db.releases| ensures db.releases[j].ring != ring { assert AtMostHead(db, j); }
  }

  lemma Found(db: Db, ring: Ring) returns (k: Option<nat>)
    requires Inv(db) && ring in db.heads
    ensures WellParented(db.releases) && db.heads[ring] < |db.releases|
    ensures var ids := Lineage(db.releases, db.heads[ring]);
            && k == FirstSourced(db, ids)
            && (if k.Some? && k.value < 50 then
                  && LastPromoted(db, ring, 50).Some? && LastPromoted(db, ring, 50).value.id == ids[k.value]
                  && LastPromoted(db, ring, 50).value.source == db.releases[ids[k.value]].source
                else LastPromoted(db, ring, 50).None?)
  {
    WindowFindsPromotion(db, ring, 50);
    k := FirstSourced(db, Lineage(db.releases, db.heads[ring]));
    hide Inv, Lineage, FirstSourced, LastPromotion, History;
  }

  /** What the soak is counted from: when that release was recorded, if the time can be read. */
  predicate ArrivedAt(db: Db, ring: Ring, stamps: nat -> seq<byte>, t: int) {
    exists r :: 0 <= r < |db.releases| && RecentCopy(db, ring, r) && ParseIso(stamps(r)) == Some(t)
  }

  predicate CopiedFrom(db: Db, ring: Ring, source: nat) {
    exists r :: 0 <= r < |db.releases| && RecentCopy(db, ring, r) && db.releases[r].source == Some(source)
  }

  lemma ArrivalIs(db: Db, ring: Ring, stamps: nat -> seq<byte>)
    requires Inv(db)
    ensures forall t :: PromotedAt(db, ring, stamps, 50) == Some(t) <==> ArrivedAt(db, ring, stamps, t)
  {
    forall r ensures (LastPromoted(db, ring, 50).Some? && LastPromoted(db, ring, 50).value.id == r)
      <==> r >= 0 && RecentCopy(db, ring, r)
    {
      if r >= 0 { LastCopyFound(db, ring, r); }
    }
    hide Inv, RecentCopy, LastPromoted, ParseIso;
    assert LastPromoted(db, ring, 50).Some? ==> RecentCopy(db, ring, LastPromoted(db, ring, 50).value.id);
    RecentExists(db, ring);
  }

  lemma RecentExists(db: Db, ring: Ring)
    ensures forall r: nat :: RecentCopy(db, ring, r) ==> r < |db.releases|
  {}

  lemma CopyIs(db: Db, ring: Ring)
    requires Inv(db)
    ensures forall s :: ToSource(db, ring, 50) == Some(s) <==> s >= 0 && CopiedFrom(db, ring, s)
  {
    forall r: nat ensures (LastPromoted(db, ring, 50).Some? && LastPromoted(db, ring, 50).value.id == r)
      <==> RecentCopy(db, ring, r)
    ensures RecentCopy(db, ring, r) ==>
      r < |db.releases| && LastPromoted(db, ring, 50).value.source == db.releases[r].source
    {
      LastCopyFound(db, ring, r);
    }
    hide Inv, RecentCopy, LastPromoted;
    assert LastPromoted(db, ring, 50).Some? ==> RecentCopy(db, ring, LastPromoted(db, ring, 50).value.id);
  }

  /**
   * A promotion as it asks the gate: blocked exactly when the last promotion into `from` that
   * fifty rows show is younger than the soak, `from` has no release, or an architecture is
   * refused; skipped exactly when it is not and the last one into `to` copied the head.
   */
  lemma PromotionAsks(db: Db, from: Ring, to: Ring, stamps: nat -> seq<byte>, events: seq<Event>, now: int,
      security: seq<nat>, o: Options)
    requires Inv(db) && DistinctIds(events)
    ensures var answer := AnswerOver(db, from, to, stamps, 50, events, now, security, o);
            && (answer == Blocks <==>
                  || (o.soakDays > 0 && exists t :: ArrivedAt(db, from, stamps, t) && now - t < o.soakDays * 86400)
                  || from !in db.heads
                  || exists i :: 0 <= i < |o.arches|
                       && GateLaws.Refused(events, o.from, o.arches[i], now, o.soakDays, o.maxAgeHours,
                            if i < |security| then security[i] else 0))
            && (answer == Skips <==> answer != Blocks && from in db.heads && CopiedFrom(db, to, db.heads[from]))
  {
    hide *;
    ArrivalIs(db, from, stamps);
    CopyIs(db, to);
    AsksGate(db, from, to, stamps, events, now, security, o);
    var arrived := PromotedAt(db, from, stamps, 50);
    GateLaws.PlainVerdict(events, now, db.Parent(from), ToSource(db, to, 50), arrived, security, o);
    HeadIs(db, from);
    assert arrived.Some? ==> ArrivedAt(db, from, stamps, arrived.value);
  }

  lemma AsksGate(db: Db, from: Ring, to: Ring, stamps: nat -> seq<byte>, events: seq<Event>, now: int,
      security: seq<nat>, o: Options)
    requires Inv(db)
    ensures AnswerOver(db, from, to, stamps, 50, events, now, security, o)
         == Ask(events, now, db.Parent(from), ToSource(db, to, 50), PromotedAt(db, from, stamps, 50), security, o)
  {
    hide Inv, Ask, ToSource, PromotedAt;
  }

  lemma HeadIs(db: Db, ring: Ring)
    ensures db.Parent(ring) == if ring in db.heads then Some(db.heads[ring]) else None
  {}
}
