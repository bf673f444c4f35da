/** A history in which the gate's fifty rows hide a promotion: what is served already is promoted again. */
module GateWitness {
  import opened Common
  import opened Releases
  import opened Sync
  import opened Work
  import opened PoolRuns
  import opened GateRun
  import opened Witnesses
  import Calendar
  import G = Gate
  import H = Promoted
  import V = Verify

  // ---------- releases since a promotion ----------

  /** The newest copied release of the ring is `k` releases back, and was copied from `source`. */
  ghost predicate Since(db: Db, ring: Ring, k: nat, source: nat) {
    && Inv(db) && ring in db.heads && WellParented(db.releases) && db.heads[ring] < |db.releases|
    && SinceIn(db, H.Lineage(db.releases, db.heads[ring]), k, source)
  }

  predicate SinceIn(db: Db, ids: seq<nat>, k: nat, source: nat)
    requires forall i :: 0 <= i < |ids| ==> ids[i] < |db.releases|
  {
    H.FirstSourced(db, ids) == Some(k) && db.releases[ids[k]].source == Some(source)
  }

  /** No release of the past changes its ancestors. */
  lemma {:induction false} LineageContinues(rs: seq<Release>, rs': seq<Release>, id: nat)
    requires WellParented(rs) && WellParented(rs') && Continues(rs, rs') && id < |rs|
    ensures H.Lineage(rs', id) == H.Lineage(rs, id)
    decreases id
  {
    assert Fixed(rs'[id]) == Fixed(rs[id]);
    if rs[id].parent.Some? { LineageContinues(rs, rs', rs[id].parent.value); }
  }

  lemma {:induction false} SourcesContinue(db: Db, db': Db, ids: seq<nat>)
    requires Continues(db.releases, db'.releases) && forall i :: 0 <= i < |ids| ==> ids[i] < |db.releases|
    ensures H.FirstSourced(db', ids) == H.FirstSourced(db, ids)
  {
    if ids != [] {
      assert Fixed(db'.releases[ids[0]]) == Fixed(db.releases[ids[0]]);
      SourcesContinue(db, db', ids[1..]);
    }
  }

  lemma InvParents(db: Db, ring: Ring)
    requires Inv(db) && ring in db.heads
    ensures WellParented(db.releases) && db.heads[ring] < |db.releases|
  {}

  /** A copied release is the newest promotion. */
  lemma CopyIsNewest(db: Db, db': Db, ring: Ring, source: nat)
    requires Inv(db') && OneRelease(db, db', ring, Some(source))
    ensures Since(db', ring, 0, source)
  {
    InvParents(db', ring);
    hide Inv;
    assert H.Lineage(db'.releases, db'.heads[ring])[0] == |db.releases|;
  }

  /** A release that is no copy puts the promotion one further back. */
  lemma OneFurtherBack(db: Db, db': Db, ring: Ring, k: nat, source: nat)
    requires Since(db, ring, k, source) && Inv(db') && OneRelease(db, db', ring, None)
    ensures Since(db', ring, k + 1, source)
  {
    InvParents(db', ring);
    hide *;
    var ids := H.Lineage(db.releases, db.heads[ring]);
    SinceIs(db, ring, k, source);
    NewLineage(db, db', ring);
    SourcesContinue(db, db', ids);
    OneMoreSince(db, db', ids, k, source, |db.releases|);
    IsSince(db', ring, k + 1, source);
  }

  lemma SinceIs(db: Db, ring: Ring, k: nat, source: nat)
    requires Since(db, ring, k, source)
    ensures ring in db.heads && WellParented(db.releases) && db.heads[ring] < |db.releases|
    ensures SinceIn(db, H.Lineage(db.releases, db.heads[ring]), k, source)
  {
    hide Inv, SinceIn;
  }

  lemma IsSince(db: Db, ring: Ring, k: nat, source: nat)
    requires Inv(db) && ring in db.heads && WellParented(db.releases) && db.heads[ring] < |db.releases|
    requires SinceIn(db, H.Lineage(db.releases, db.heads[ring]), k, source)
    ensures Since(db, ring, k, source)
  {
    hide Inv, SinceIn;
  }

  lemma NewLineage(db: Db, db': Db, ring: Ring)
    requires OneRelease(db, db', ring, None) && ring in db.heads && db.heads[ring] < |db.releases|
    requires WellParented(db.releases) && WellParented(db'.releases)
    ensures Continues(db.releases, db'.releases) && ring in db'.heads && db'.heads[ring] == |db.releases|
    ensures |db'.releases| == |db.releases| + 1 && db'.releases[|db.releases|].source.None?
    ensures H.Lineage(db'.releases, |db.releases|) == [|db.releases|] + H.Lineage(db.releases, db.heads[ring])
  {
    LineageContinues(db.releases, db'.releases, db.heads[ring]);
    hide Continues, WellParented;
  }

  lemma OneMoreSince(db: Db, db': Db, ids: seq<nat>, k: nat, source: nat, head: nat)
    requires Continues(db.releases, db'.releases) && (forall i :: 0 <= i < |ids| ==> ids[i] < |db.releases|)
    requires SinceIn(db, ids, k, source) && H.FirstSourced(db', ids) == H.FirstSourced(db, ids)
    requires head < |db'.releases| && db'.releases[head].source.None?
    ensures SinceIn(db', [head] + ids, k + 1, source)
  {
    assert ([head] + ids)[1..] == ids;
    assert H.FirstSourced(db', [head] + ids) == Some(k + 1);
    assert Fixed(db'.releases[ids[k]]) == Fixed(db.releases[ids[k]]);
  }

  // ---------- fifty syncs after a promotion ----------

  /** Syncing foreign bytes again and again makes one release a time. */
  lemma {:induction false} ManySyncs(w: World, o: Options, p: Upstream, d: Download, n: nat, source: nat)
    returns (w': World)
    requires Reached(w) && Good(w) && Ready(w) && ForeignBytes(w, o, p) && Since(w.db, o.ring, 0, source)
    ensures Reached(w') && Good(w') && Ready(w') && Since(w'.db, o.ring, n, source)
    ensures ForeignBytes(w', o, p) && forall r :: r != o.ring ==> w'.db.Parent(r) == w.db.Parent(r)
  {
    hide *;
    if n == 0 {
      w' := w;
    } else {
      var w1 := ManySyncs(w, o, p, d, n - 1, source);
      w' := ForeignRepeats(w1, o, p, d);
      V.GoodInv(w');
      OneFurtherBack(w1.db, w'.db, o.ring, n - 1, source);
      OtherHeads(w1.db, w'.db, o.ring);
    }
  }

  lemma OtherHeads(db: Db, db': Db, ring: Ring)
    requires OneRelease(db, db', ring, None)
    ensures forall r :: r != ring ==> db'.Parent(r) == db.Parent(r)
  {
    hide Continues;
  }

  /** The pool: a package of edge promoted into rc, and fifty syncs of its bytes by another source there. */
  lemma FiftyReleases() returns (w: World, source: nat)
    ensures Reached(w) && Good(w) && Since(w.db, Rc, 50, source) && w.db.Parent(Edge) == Some(source)
      && w.db.Parent(Stable) == None && Rc in w.db.heads
  {
    hide *;
    var foo := Upstream("foo", "1-1", X86_FILE, "a", 1);
    var core, extra := Options("core", X86_64, Edge, 0, {}), Options("extra", X86_64, Rc, 0, {});
    FilesAreAccepted();
    KeysDiffer(core, foo, extra, foo);
    var w1 := FirstPackage(core, foo);
    SingleHead(w1, core, foo);
    var w2 := Promoting(w1, Edge, Rc);
    SecondIsFree(w1, core, foo, extra, foo);
    IsForeign(w1, core, foo, extra);
    SamePoolForeign(w1, w2, extra, foo);
    HeadIs(w1.db, Edge);
    source := w1.db.heads[Edge];
    V.GoodInv(w2);
    CopyIsNewest(w1.db, w2.db, Rc, source);
    EdgeStays(w1.db, w2.db, Some(source));
    w := ManySyncs(w2, extra, foo, Signed, 50, source);
    SinceIs(w.db, Rc, 50, source);
  }

  lemma SingleHead(w: World, o: Options, p: Upstream)
    requires Single(w, o, p)
    ensures o.ring in w.db.heads && (o.ring != Stable ==> w.db.Parent(Stable) == None)
  {}

  lemma SamePoolForeign(w: World, w': World, o: Options, p: Upstream)
    requires ForeignBytes(w, o, p) && SamePool(w, w')
    ensures ForeignBytes(w', o, p)
  {}

  lemma EdgeStays(db: Db, db': Db, source: Option<nat>)
    requires OneRelease(db, db', Rc, source)
    ensures db'.Parent(Edge) == db.Parent(Edge) && db'.Parent(Stable) == db.Parent(Stable)
  {
    hide Continues;
  }

  // ---------- the gate there ----------

  /** A health check of the ring that passed just now. */
  function Passed(ring: string, now: nat): G.Event {
    G.Event(1, "health", Some(ring), Some("x86_64"), "ok", Calendar.Format(now))
  }

  function Soaking(ring: string, soakDays: nat): G.Options { G.Options(ring, ["x86_64"], soakDays, 24) }

  lemma PassedIs(ring: string, soakDays: nat, now: nat)
    requires now < Calendar.END_OF_9999
    ensures var e, o := Passed(ring, now), Soaking(ring, soakDays);
            && G.Within(e, now, G.MaxAge(o)) && e.status == "ok" && e.kind == "health"
            && G.Health(e, o, "x86_64") && o.arches == ["x86_64"]
  {
    Calendar.TimestampRoundTrip(now);
    hide Calendar.ParseIso, Calendar.Format;
  }

  lemma NoFailure(e: G.Event, now: int, o: G.Options, arch: string)
    requires e.status == "ok" && e.kind == "health"
    ensures e.status != "error" && !G.Failure(e, now, o, arch) && !G.FreshAbi(e, now, o, arch)
  {
    assert "ok"[0] != "error"[0] && "health"[0] != "abi"[0];
    hide G.Within;
  }

  lemma NewestOfOne(e: G.Event)
    ensures G.FirstNewest([e]) == Some(e) && G.LastNewest([]) == None
  {
    assert [e][..0] == [];
    assert G.FirstNewest([]) == None;
  }

  /** A log of one fresh, passed health check. */
  lemma OneCheck(e: G.Event, now: int, arch: string, o: G.Options)
    requires G.Within(e, now, G.MaxAge(o)) && e.status == "ok" && e.kind == "health" && G.Health(e, o, arch)
    ensures G.ArchReasons([e], now, arch, 0, o) == []
  {
    NoFailure(e, now, o, arch);
    FilterOne(e, (f: G.Event) => G.Health(f, o, arch));
    FilterOne(e, (f: G.Event) => G.Failure(f, now, o, arch));
    FilterOne(e, (f: G.Event) => G.FreshAbi(f, now, o, arch));
    NewestOfOne(e);
    hide G.Within, G.Health, G.Failure, G.FreshAbi, G.FirstNewest, G.LastNewest, Filter;
    assert G.Healths([e], arch, o) == [e];
    assert G.Failures([e], now, arch, o) == [] && G.FreshAbis([e], now, arch, o) == [];
    hide G.Healths, G.Failures, G.FreshAbis;
  }

  lemma OneArch(events: seq<G.Event>, now: int, arch: string, o: G.Options)
    requires o.arches == [arch] && G.ArchReasons(events, now, arch, 0, o) == []
    ensures G.ReasonsUpto(events, now, [], o, 1) == []
  {
    hide G.ArchReasons;
    assert G.ReasonsUpto(events, now, [], o, 0) == [];
    assert o.arches[0] == arch && G.RegressionsAt([], 0) == 0;
  }

  /** One fresh, passed health check is all the evidence there is: nothing blocks. */
  lemma NothingBlocks(ring: string, soakDays: nat, now: nat)
    requires now < Calendar.END_OF_9999
    ensures var o := Soaking(ring, soakDays);
            |o.arches| == 1 && G.ReasonsUpto([Passed(ring, now)], now, [], o, 1) == []
  {
    PassedIs(ring, soakDays, now);
    hide *;
    OneCheck(Passed(ring, now), now, "x86_64", Soaking(ring, soakDays));
    OneArch([Passed(ring, now)], now, "x86_64", Soaking(ring, soakDays));
  }

  /**
   * After fifty releases the promotion is out of sight: the gate promotes again what it
   * would skip, as served already, had it read the whole history.
   */
  lemma PromotedAgain(now: nat) returns (w: World)
    requires now < Calendar.END_OF_9999
    ensures Reached(w) && Inv(w.db) && !SeesPromotion(w.db, Rc)
    ensures var events, o := [Passed("edge", now)], Soaking("edge", 0);
            forall stamps ::
              && AnswerOver(w.db, Edge, Rc, stamps, H.HISTORY_ROWS, events, now, [], o) == G.Promotes
              && AnswerOver(w.db, Edge, Rc, stamps, Whole(w.db), events, now, [], o) == G.Skips
  {
    hide *;
    var source: nat;
    w, source := FiftyReleases();
    V.GoodInv(w);
    Unseen(w.db, Rc, 50, source);
    SeenWhole(w.db, Rc, 50, source);
    NothingBlocks("edge", 0, now);
    NoSoakAsked("edge", now);
    WholeIs(w.db);
    NoSource(w.db, Rc);
    var events, o := [Passed("edge", now)], Soaking("edge", 0);
    forall stamps
      ensures AnswerOver(w.db, Edge, Rc, stamps, H.HISTORY_ROWS, events, now, [], o) == G.Promotes
      ensures AnswerOver(w.db, Edge, Rc, stamps, Whole(w.db), events, now, [], o) == G.Skips
    {
      AnswerIs(w.db, Edge, Rc, stamps, H.HISTORY_ROWS, events, now, [], o);
      AnswerIs(w.db, Edge, Rc, stamps, Whole(w.db), events, now, [], o);
    }
  }

  /** ... and promotes from the ring at once what the soak of a day would hold back. */
  lemma SoakForgotten(now: nat) returns (w: World)
    requires now < Calendar.END_OF_9999
    ensures Reached(w) && Inv(w.db) && !SeesPromotion(w.db, Rc)
    ensures var stamps, events, o := (id: nat) => Calendar.Format(now), [Passed("rc", now)], Soaking("rc", 1);
            && AnswerOver(w.db, Rc, Stable, stamps, H.HISTORY_ROWS, events, now, [], o) == G.Promotes
            && AnswerOver(w.db, Rc, Stable, stamps, Whole(w.db), events, now, [], o) == G.Blocks
  {
    hide *;
    var source: nat;
    w, source := FiftyReleases();
    V.GoodInv(w);
    Unseen(w.db, Rc, 50, source);
    NothingBlocks("rc", 1, now);
    WholeIs(w.db);
    HeadIs(w.db, Rc);
    var stamps, events, o := (id: nat) => Calendar.Format(now), [Passed("rc", now)], Soaking("rc", 1);
    PromotedNow(w.db, Rc, 50, source, stamps, now);
    FiftyRowsTellBoth(w.db, Rc, Stable, stamps);
    NoSoak(now, o);
    SoakAsked("rc", now);
    NeverPromoted(w.db, Stable, H.HISTORY_ROWS);
    AnswerIs(w.db, Rc, Stable, stamps, H.HISTORY_ROWS, events, now, [], o);
    AnswerIs(w.db, Rc, Stable, stamps, Whole(w.db), events, now, [], o);
  }

  lemma PromotedNow(db: Db, ring: Ring, k: nat, source: nat, stamps: nat -> seq<byte>, now: nat)
    requires Since(db, ring, k, source) && now < Calendar.END_OF_9999
    requires forall id :: stamps(id) == Calendar.Format(now)
    ensures PromotedAt(db, ring, stamps, Whole(db)) == Some(now)
  {
    LineageLength(db.releases, db.heads[ring]);
    H.WindowFindsPromotion(db, ring, Whole(db));
    Calendar.TimestampRoundTrip(now);
    hide Inv, H.Lineage, H.FirstSourced, H.History, H.LastPromotion, Calendar.ParseIso, Calendar.Format;
  }

  lemma NeverPromoted(db: Db, ring: Ring, limit: nat)
    requires Inv(db) && limit > 0 && db.Parent(ring) == None
    ensures ToSource(db, ring, limit) == None
  {
    hide Inv;
  }

  lemma SoakAsked(ring: string, now: int)
    ensures G.SoakTooShort(now, Some(now), Soaking(ring, 1))
  {}

  lemma WholeIs(db: Db)
    ensures H.HISTORY_ROWS == 50 && Whole(db) == |db.releases| + 50
  {}

  lemma NoSoakAsked(ring: string, now: int)
    ensures forall at :: !G.SoakTooShort(now, at, Soaking(ring, 0))
  {}

  lemma Unseen(db: Db, ring: Ring, k: nat, source: nat)
    requires Since(db, ring, k, source) && k >= 50
    ensures !SeesPromotion(db, ring)
  {
    hide Inv, H.Lineage, H.FirstSourced;
  }

  lemma NoSource(db: Db, ring: Ring)
    requires Inv(db) && !SeesPromotion(db, ring)
    ensures ToSource(db, ring, H.HISTORY_ROWS) == None
  {
    FiftyRowsTell(db, ring);
    hide Inv, LastPromoted, SeesPromotion;
  }

  lemma SeenWhole(db: Db, ring: Ring, k: nat, source: nat)
    requires Since(db, ring, k, source)
    ensures ToSource(db, ring, Whole(db)) == Some(source)
  {
    LineageLength(db.releases, db.heads[ring]);
    H.WindowFindsPromotion(db, ring, Whole(db));
    hide Inv, H.Lineage, H.FirstSourced, H.History, H.LastPromotion;
  }
}
