/** What the jobs guarantee: rollbacks are exact, history only grows, databases follow the heads. */
module WorkLaws {
  import opened Common
  import opened Releases
  import opened Creation
  import opened Selections
  import opened Sync
  import opened SyncLaws
  import opened Work

  lemma GoodIsReady(w: World)
    requires Good(w)
    ensures Ready(w)
  {}

  /** The ring's rows of one architecture. */
  function RowsOf(w: World, ring: Ring, arch: Arch): set<Sha> {
    In(w.db, w.db.Live(ring), arch)
  }

  /** A job confined to one ring: history grows, no other ring's selection or rendering suffers. */
  ghost predicate Confined(w: World, w': World, ring: Ring) {
    && Good(w') && Continues(w.db.releases, w'.db.releases)
    && (forall r :: r != ring ==> w'.db.Live(r) == w.db.Live(r))
    && (forall r, a :: r != ring && RenderedAt(w, r, a) ==> RenderedAt(w', r, a))
    && (forall r :: r in w.db.heads ==> r in w'.db.heads)
    && (forall r :: r in w'.db.heads ==> r in w.db.heads || r == ring)
    && (forall p :: p in w.db.index ==> p in w'.db.index && w'.db.index[p] == w.db.index[p])
  }

  lemma ConfinedChains(a: World, b: World, c: World, ring: Ring)
    requires Confined(a, b, ring) && Confined(b, c, ring)
    ensures Confined(a, c, ring)
  {
    hide Good, RenderedAt;
    ContinuesTransitive(a.db.releases, b.db.releases, c.db.releases);
  }

  lemma PostConfined(w: World, q: Request)
    requires Good(w) && Post(w, q).Some?
    ensures Confined(w, Post(w, q).value.0, q.ring)
  {
    PostEffect(w, q);
    hide Good, RenderedAt, Post, Asked, SourceOf;
  }

  lemma RenderAllConfined(w: World, ring: Ring, arches: seq<Arch>)
    requires Good(w) && RenderAll(w, ring, arches).Some?
    ensures var w' := RenderAll(w, ring, arches).value;
            Confined(w, w', ring) && w'.db == w.db && (forall a :: a in arches ==> RenderedAt(w', ring, a))
            && (forall r, a :: RenderedAt(w, r, a) ==> RenderedAt(w', r, a))
  {
    RenderAllFixes(w, ring, arches);
    hide Good, RenderedAt, RenderAll;
  }

  // ---------- promotions and rollbacks ----------

  /** A copy of an existing release is always accepted. */
  lemma CopySucceeds(w: World, q: Request, source: nat)
    requires Good(w) && Ready(w) && SourceOf(w.db, q) == Ok(Some(source)) && CopiesOnly(q)
    ensures Post(w, q).Some? && source < |w.db.releases|
  {
    CreateErrors(w.db, q);
    SourceExists(w.db, q);
    hide Inv, Foreign, Reconstructable;
  }

  /** Copying a release for both architectures, or into a ring without a release: the ring serves all of it. */
  lemma CopyWhole(w: World, q: Request, source: nat)
    requires Good(w) && Ready(w) && SourceOf(w.db, q) == Ok(Some(source)) && CopiesOnly(q)
    requires q.arch.None? || q.ring !in w.db.heads
    ensures Post(w, q).Some? && source < |w.db.releases|
    ensures var w' := Post(w, q).value.0;
            Confined(w, w', q.ring) && q.ring in w'.db.heads && w'.db.Live(q.ring) == Members(w.db.releases, source)
  {
    CopySucceeds(w, q, source);
    PostEffect(w, q);
    PostConfined(w, q);
    WholeCopyIsExact(w.db, q, source);
    hide Good, Asked, Members, RenderedAt, Confined, Post, SourceOf;
  }

  /** Copying one architecture into a ring with a release: the other keeps its rows and its databases. */
  lemma CopyOneArch(w: World, q: Request, source: nat)
    requires Good(w) && Ready(w) && SourceOf(w.db, q) == Ok(Some(source)) && CopiesOnly(q)
    requires q.arch.Some? && q.ring in w.db.heads
    ensures Post(w, q).Some? && source < |w.db.releases|
    ensures var w' := Post(w, q).value.0;
            var a := q.arch.value;
            && Confined(w, w', q.ring) && q.ring in w'.db.heads
            && RowsOf(w', q.ring, a) == In(w.db, Members(w.db.releases, source), a)
            && RowsOf(w', q.ring, a.Other()) == RowsOf(w, q.ring, a.Other())
            && (RenderedAt(w, q.ring, a.Other()) ==> RenderedAt(w', q.ring, a.Other()))
  {
    CopySucceeds(w, q, source);
    PostEffect(w, q);
    PostConfined(w, q);
    OneArchCopyIsExact(w.db, q, source);
    var w' := Post(w, q).value.0;
    hide Good, Asked, Members, RenderedAt, Confined, Post, SourceOf;
    SameIn(w.db, w'.db, w'.db.Live(q.ring));
  }

  lemma SameIn(db: Db, db': Db, rows: set<Sha>)
    requires db'.index == db.index
    ensures forall a :: In(db', rows, a) == In(db, rows, a)
  {}

  lemma ConfinedIsGood(w: World, w': World, ring: Ring)
    requires Confined(w, w', ring)
    ensures Good(w')
  {}

  /** Rendering after a confined step: what it renders is right, what was right stays right. */
  lemma ThenRender(w: World, w1: World, ring: Ring, arches: seq<Arch>)
    requires Confined(w, w1, ring) && ring in w1.db.heads
    ensures RenderAll(w1, ring, arches).Some?
    ensures var w' := RenderAll(w1, ring, arches).value;
            && Confined(w, w', ring) && w'.db == w1.db && (forall a :: a in arches ==> RenderedAt(w', ring, a))
            && (forall a :: RenderedAt(w1, ring, a) ==> RenderedAt(w', ring, a))
  {
    hide RenderAll, RenderedAt, Inv;
    ConfinedIsGood(w, w1, ring);
    RenderAllFixes(w1, ring, arches);
    RenderAllConfined(w1, ring, arches);
    hide Confined;
    ConfinedChains(w, w1, RenderAll(w1, ring, arches).value, ring);
  }

  lemma RendersAll(arch: Arch)
    ensures forall a :: a in ToRender(arch, {})
  {
    forall a ensures a in ToRender(arch, {}) {
      assert a == arch || a == arch.Other();
    }
  }

  /** `rollback_job` of both architectures: exactly the old release again, rendered. */
  lemma RollbackJobWhole(w: World, ring: Ring, to: nat, worker: Arch)
    requires Good(w) && Ready(w) && to < |w.db.releases|
    ensures RollbackJob(w, ring, to, None, worker).Some?
    ensures var w' := RollbackJob(w, ring, to, None, worker).value;
            && Confined(w, w', ring) && w'.db.Live(ring) == Members(w.db.releases, to)
            && (forall a :: RenderedAt(w', ring, a))
  {
    var q := RollbackRequest(ring, to, None);
    CopyWhole(w, q, to);
    hide Good, Members, RenderedAt, Confined, Post, RenderAll, Filter, Ready, SourceOf;
    ThenRender(w, Post(w, q).value.0, ring, ToRender(worker, {}));
    assert forall a :: a in ToRender(worker, {}) by { RendersAll(worker); }
  }

  /** `rollback_job` of one architecture: the other keeps its rows and its databases. */
  lemma RollbackJobOneArch(w: World, ring: Ring, to: nat, only: Arch, worker: Arch)
    requires Good(w) && Ready(w) && to < |w.db.releases| && ring in w.db.heads
    ensures RollbackJob(w, ring, to, Some(only), worker).Some?
    ensures var w' := RollbackJob(w, ring, to, Some(only), worker).value;
            && Confined(w, w', ring)
            && RowsOf(w', ring, only) == In(w.db, Members(w.db.releases, to), only)
            && RowsOf(w', ring, only.Other()) == RowsOf(w, ring, only.Other())
            && RenderedAt(w', ring, only) && (RenderedAt(w, ring, only.Other()) ==> RenderedAt(w', ring, only.Other()))
  {
    var q := RollbackRequest(ring, to, Some(only));
    CopyOneArch(w, q, to);
    RollbackJobIs(w, ring, to, Some(only), worker);
    hide *;
    ThenRender(w, Post(w, q).value.0, ring, ToRender(worker, {only.Other()}));
    RendersOnly(worker, only);
    SameRows(Post(w, q).value.0, RollbackJob(w, ring, to, Some(only), worker).value, ring);
  }

  lemma RollbackJobIs(w: World, ring: Ring, to: nat, only: Option<Arch>, worker: Arch)
    requires Ready(w) && Post(w, RollbackRequest(ring, to, only)).Some?
    ensures RollbackJob(w, ring, to, only, worker)
      == RenderAll(Post(w, RollbackRequest(ring, to, only)).value.0, ring,
        ToRender(worker, if only.Some? then {only.value.Other()} else {}))
  {
    hide Post, RenderAll, Ready, ToRender;
  }

  lemma RendersOnly(worker: Arch, only: Arch)
    ensures only in ToRender(worker, {only.Other()})
  {}

  lemma SameRows(w: World, w': World, ring: Ring)
    requires w'.db == w.db
    ensures forall a :: RowsOf(w', ring, a) == RowsOf(w, ring, a)
  {}

  /** `rollback_job` fails exactly for a release that does not exist. */
  lemma RollbackJobFails(w: World, ring: Ring, to: nat, only: Option<Arch>, worker: Arch)
    requires Good(w) && Ready(w)
    ensures RollbackJob(w, ring, to, only, worker).None? <==> to >= |w.db.releases|
  {
    var q := RollbackRequest(ring, to, only);
    if to < |w.db.releases| {
      if only.Some? && ring in w.db.heads { CopyOneArch(w, q, to); } else { CopyWhole(w, q, to); }
      hide Good, Members, RenderedAt, Confined, Post, In;
      ThenRender(w, Post(w, q).value.0, ring, ToRender(worker, if only.Some? then {only.value.Other()} else {}));
    }
  }

  // ---------- aligning the OPR channel ----------

  /** Pinning for one architecture leaves the other's rows alone, whosever they are. */
  lemma RepinnedOtherArch(db: Db, live: set<Sha>, source: string, arch: Arch, add: set<Sha>, remove: set<string>)
    requires add <= db.index.Keys && forall p :: p in add ==> db.index[p].arch == arch
    ensures In(db, Repinned(db, live, source, arch, add, remove), arch.Other()) == In(db, live, arch.Other())
  {}

  /** A sync of one architecture - complete, refused or unreachable - is confined to it in its ring. */
  lemma AlignEffect(w: World, o: Options, f: Fetch)
    requires Good(w)
    ensures var w' := Align(w, o, f);
            && Confined(w, w', o.ring) && RowsOf(w', o.ring, o.arch.Other()) == RowsOf(w, o.ring, o.arch.Other())
            && (RenderedAt(w, o.ring, o.arch.Other()) ==> RenderedAt(w', o.ring, o.arch.Other()))
  {
    if f.Fetched? {
      var out := Run(w, o, f.ups, f.downloads);
      PinsAreKnown(w, o, f.ups, f.downloads);
      GrowthEffect(w, out.world);
      GrowthConfined(w, out.world, o.ring);
      GoodIsReady(out.world);
      if out.changed {
        hide Run, Inv;
        AlignPost(out.world, o, out.add, out.remove);
        hide Confined, RenderedAt, Grows, Good;
        ConfinedChains(w, out.world, Post(out.world, PinRequest(o, out.add, out.remove)).value.0, o.ring);
      }
    }
  }

  lemma GrowthConfined(w: World, w': World, ring: Ring)
    requires Good(w) && Grows(w, w')
    ensures Confined(w, w', ring)
  {
    GrowthEffect(w, w');
    hide Good, RenderedAt;
  }

  lemma AlignPost(w: World, o: Options, add: set<Sha>, remove: set<string>)
    requires Good(w) && Ready(w) && forall p :: p in add ==> Known(w.db, o.arch, p)
    ensures Post(w, PinRequest(o, add, remove)).Some?
    ensures var w' := Post(w, PinRequest(o, add, remove)).value.0;
            && Confined(w, w', o.ring) && RowsOf(w', o.ring, o.arch.Other()) == RowsOf(w, o.ring, o.arch.Other())
            && w'.db.Live(o.ring) == Repinned(w.db, w.db.Live(o.ring), o.source, o.arch, add, remove)
            && (RenderedAt(w, o.ring, o.arch.Other()) ==> RenderedAt(w', o.ring, o.arch.Other()))
  {
    var q := PinRequest(o, add, remove);
    PinRequestRepins(w.db, o, add, remove);
    PostEffect(w, q);
    PostConfined(w, q);
    RepinnedOtherArch(w.db, w.db.Live(o.ring), o.source, o.arch, add, remove);
    SameIn(w.db, Post(w, q).value.0.db, Post(w, q).value.0.db.Live(o.ring));
    hide Good, Asked, RenderedAt, Confined, Repinned;
  }

  lemma {:induction false} AlignAllConfined(w: World, ring: Ring, arches: seq<Arch>, fetch: Arch -> Fetch)
    requires Good(w)
    ensures Confined(w, AlignAll(w, ring, arches, fetch), ring)
    decreases |arches|
  {
    if arches != [] {
      var w1 := Align(w, OprOptions(ring, arches[0]), fetch(arches[0]));
      assert AlignAll(w, ring, arches, fetch) == AlignAll(w1, ring, arches[1..], fetch);
      assert OprOptions(ring, arches[0]).ring == ring;
      hide *;
      AlignEffect(w, OprOptions(ring, arches[0]), fetch(arches[0]));
      ConfinedIsGood(w, w1, ring);
      AlignAllConfined(w1, ring, arches[1..], fetch);
      ConfinedChains(w, w1, AlignAll(w1, ring, arches[1..], fetch), ring);
    } else {
      hide Inv, RenderedAt;
    }
  }

  /** One architecture's channel aligned: the other architecture is left as it was. */
  lemma AlignOneArch(w: World, ring: Ring, only: Arch, fetch: Arch -> Fetch)
    requires Good(w)
    ensures var w' := AlignAll(w, ring, [only], fetch);
            && RowsOf(w', ring, only.Other()) == RowsOf(w, ring, only.Other())
            && (RenderedAt(w, ring, only.Other()) ==> RenderedAt(w', ring, only.Other()))
  {
    assert AlignAll(w, ring, [only], fetch) == Align(w, OprOptions(ring, only), fetch(only)) by {
      hide Align;
      assert [only][1..] == [];
    }
    var o := OprOptions(ring, only);
    assert o.ring == ring && o.arch == only;
    hide *;
    AlignEffect(w, o, fetch(only));
  }

  // ---------- render, verify, roll back ----------

  /** Rolling back both architectures to the release that was the head restores its selection. */
  lemma RestoreWhole(w0: World, w: World, ring: Ring)
    requires Good(w0) && Confined(w0, w, ring) && Ready(w) && ring in w0.db.heads
    ensures var q := RollbackRequest(ring, w0.db.heads[ring], None);
            Post(w, q).Some? && Confined(w0, Post(w, q).value.0, ring) && ring in Post(w, q).value.0.db.heads
            && Post(w, q).value.0.db.Live(ring) == w0.db.Live(ring)
  {
    hide *;
    var prev := w0.db.heads[ring];
    var q := RollbackRequest(ring, prev, None);
    SameMembers(w0, w, ring);
    ConfinedIsGood(w0, w, ring);
    IsCopy(w, ring, prev, None);
    CopyWhole(w, q, prev);
    ConfinedChains(w0, w, Post(w, q).value.0, ring);
  }

  /** Rolling back the one architecture that moved restores the selection of both. */
  lemma RestoreOneArch(w0: World, w: World, ring: Ring, only: Arch)
    requires Good(w0) && Confined(w0, w, ring) && Ready(w) && ring in w0.db.heads && ring in w.db.heads
    requires RowsOf(w, ring, only.Other()) == RowsOf(w0, ring, only.Other())
    ensures var q := RollbackRequest(ring, w0.db.heads[ring], Some(only));
            Post(w, q).Some? && Confined(w0, Post(w, q).value.0, ring) && ring in Post(w, q).value.0.db.heads
            && Post(w, q).value.0.db.Live(ring) == w0.db.Live(ring)
            && (RenderedAt(w, ring, only.Other()) ==> RenderedAt(Post(w, q).value.0, ring, only.Other()))
  {
    hide *;
    var prev := w0.db.heads[ring];
    var q := RollbackRequest(ring, prev, Some(only));
    SameMembers(w0, w, ring);
    ConfinedIsGood(w0, w, ring);
    IsCopy(w, ring, prev, Some(only));
    CopyOneArch(w, q, prev);
    var w' := Post(w, q).value.0;
    ConfinedChains(w0, w, w', ring);
    SameRowsEverywhere(w0, w, w', ring, only);
  }

  lemma IsCopy(w: World, ring: Ring, to: nat, only: Option<Arch>)
    requires to < |w.db.releases|
    ensures var q := RollbackRequest(ring, to, only);
            SourceOf(w.db, q) == Ok(Some(to)) && CopiesOnly(q) && q.arch == only && q.ring == ring
  {}

  lemma SameMembers(w0: World, w: World, ring: Ring)
    requires Good(w0) && Confined(w0, w, ring) && Ready(w) && ring in w0.db.heads
    ensures w0.db.heads[ring] < |w.db.releases| && Members(w.db.releases, w0.db.heads[ring]) == w0.db.Live(ring)
    ensures w0.db.Live(ring) <= w0.db.index.Keys
  {
    HeadMembers(w0.db, ring);
    LiveIndexedInv(w0.db, ring);
    MembersContinue(w0.db.releases, w.db.releases, w0.db.heads[ring]);
  }

  lemma SameRowsEverywhere(w0: World, w: World, w': World, ring: Ring, only: Arch)
    requires Good(w0) && Confined(w0, w, ring) && Confined(w, w', ring)
    requires RowsOf(w', ring, only) == In(w.db, w0.db.Live(ring), only)
    requires RowsOf(w', ring, only.Other()) == RowsOf(w0, ring, only.Other())
    ensures w'.db.Live(ring) == w0.db.Live(ring)
  {
    LiveIndexedInv(w0.db, ring);
    ConfinedIsGood(w, w', ring);
    LiveIndexedInv(w'.db, ring);
    assert RowsOf(w', ring, only) == In(w'.db, w'.db.Live(ring), only);
    assert RowsOf(w', ring, only.Other()) == In(w'.db, w'.db.Live(ring), only.Other());
    assert RowsOf(w0, ring, only.Other()) == In(w0.db, w0.db.Live(ring), only.Other());
    assert forall p :: p in w0.db.index ==> p in w.db.index && w.db.index[p] == w0.db.index[p];
    assert forall p :: p in w.db.index ==> p in w'.db.index && w'.db.index[p] == w.db.index[p];
    hide *;
    SameAcross(w0.db, w.db, w'.db, w0.db.Live(ring), w'.db.Live(ring), only);
  }

  lemma SameAcross(d0: Db, d1: Db, d2: Db, live: set<Sha>, live': set<Sha>, only: Arch)
    requires forall p :: p in d0.index ==> p in d1.index && d1.index[p] == d0.index[p]
    requires forall p :: p in d1.index ==> p in d2.index && d2.index[p] == d1.index[p]
    requires live <= d0.index.Keys && live' <= d2.index.Keys
    requires In(d2, live', only) == In(d1, live, only) && In(d2, live', only.Other()) == In(d0, live, only.Other())
    ensures live' == live
  {
    assert In(d2, live, only) == In(d1, live, only);
    assert In(d2, live, only.Other()) == In(d0, live, only.Other());
    BothArches(d2, live', live, only);
  }

  /** What `RenderAndVerify` comes to, step by step. */
  lemma VerifySteps(w: World, ring: Ring, only: Option<Arch>, previous: Option<nat>, healthy: Arch -> bool)
    requires Ready(w) && RenderAll(w, ring, OnlyOrBoth(only)).Some?
    ensures var w1 := RenderAll(w, ring, OnlyOrBoth(only)).value;
            var r := RenderAndVerify(w, ring, only, previous, healthy);
            && (Healthy(OnlyOrBoth(only), healthy) ==> r == Some(w1))
            && (!Healthy(OnlyOrBoth(only), healthy) && previous.None? ==> r == None)
            && (!Healthy(OnlyOrBoth(only), healthy) && previous.Some? && Ready(w1)
                && Post(w1, RollbackRequest(ring, previous.value, only)).Some? ==>
                  r == RenderAll(Post(w1, RollbackRequest(ring, previous.value, only)).value.0, ring, OnlyOrBoth(only)))
  {
    hide Ready, RenderAll, Post, Healthy, OnlyOrBoth;
  }

  /** Both architectures moved: rendering and health keep the release, or bring back what the ring served. */
  lemma VerifyWhole(w0: World, w: World, ring: Ring, healthy: Arch -> bool)
    requires Good(w0) && Confined(w0, w, ring) && Ready(w) && ring in w.db.heads
    ensures var r := RenderAndVerify(w, ring, None, w0.db.Parent(ring), healthy);
            && (r.None? <==> !Healthy(BOTH, healthy) && ring !in w0.db.heads)
            && (r.Some? ==> Confined(w0, r.value, ring) && (forall a :: RenderedAt(r.value, ring, a)))
            && (r.Some? && Healthy(BOTH, healthy) ==> r.value.db == w.db)
            && (r.Some? && !Healthy(BOTH, healthy) ==> r.value.db.Live(ring) == w0.db.Live(ring))
  {
    assert OnlyOrBoth(None) == BOTH;
    ThenRender(w0, w, ring, BOTH);
    var w1 := RenderAll(w, ring, BOTH).value;
    ConfinedIsGood(w0, w1, ring);
    GoodIsReady(w1);
    AllInBoth();
    VerifySteps(w, ring, None, w0.db.Parent(ring), healthy);
    assert w0.db.Parent(ring) == if ring in w0.db.heads then Some(w0.db.heads[ring]) else None;
    hide *;
    if ring in w0.db.heads {
      RestoreWhole(w0, w1, ring);
      var w2 := Post(w1, RollbackRequest(ring, w0.db.heads[ring], None)).value.0;
      ThenRender(w0, w2, ring, BOTH);
      SameLive(w2.db, RenderAll(w2, ring, BOTH).value.db, ring);
    }
  }

  lemma SameLive(db: Db, db': Db, ring: Ring)
    requires db == db'
    ensures db.Live(ring) == db'.Live(ring)
  {}

  lemma AllInBoth()
    ensures forall a :: a in BOTH
  {
    forall a ensures a in BOTH {
      assert a == BOTH[0] || a == BOTH[1];
    }
  }

  /** One architecture moved into a ring with a release: likewise, and the other's databases stay right. */
  lemma VerifyOneArch(w0: World, w: World, ring: Ring, only: Arch, healthy: Arch -> bool)
    requires Good(w0) && Confined(w0, w, ring) && Ready(w) && ring in w.db.heads && ring in w0.db.heads
    requires RowsOf(w, ring, only.Other()) == RowsOf(w0, ring, only.Other())
    ensures var r := RenderAndVerify(w, ring, Some(only), w0.db.Parent(ring), healthy);
            && r.Some? && Confined(w0, r.value, ring) && RenderedAt(r.value, ring, only)
            && (RenderedAt(w, ring, only.Other()) ==> RenderedAt(r.value, ring, only.Other()))
            && (Healthy([only], healthy) ==> r.value.db == w.db)
            && (!Healthy([only], healthy) ==> r.value.db.Live(ring) == w0.db.Live(ring))
  {
    assert OnlyOrBoth(Some(only)) == [only];
    ThenRender(w0, w, ring, [only]);
    var w1 := RenderAll(w, ring, [only]).value;
    ConfinedIsGood(w0, w1, ring);
    GoodIsReady(w1);
    SameRows(w, w1, ring);
    VerifySteps(w, ring, Some(only), w0.db.Parent(ring), healthy);
    assert w0.db.Parent(ring) == Some(w0.db.heads[ring]);
    assert only in [only];
    assert only.Other() in [only.Other()];
    hide *;
    RestoreOneArch(w0, w1, ring, only);
    var w2 := Post(w1, RollbackRequest(ring, w0.db.heads[ring], Some(only))).value.0;
    ThenRender(w0, w2, ring, [only]);
    SameLive(w2.db, RenderAll(w2, ring, [only]).value.db, ring);
  }
}
