/**
 * Promotions and fast-tracks: for every gate verdict, every upstream and every
 * health outcome, what the target ring serves when the job completes.
 */
module Promotions {
  import opened Common
  import opened Releases
  import opened Creation
  import opened Selections
  import opened Sync
  import opened Work
  import opened WorkLaws

  lemma PromoteSource(w: World, from: Ring, to: Ring, only: Option<Arch>)
    requires Good(w) && Ready(w)
    ensures var q := PromoteRequest(from, to, only);
            && (from in w.db.heads ==> SourceOf(w.db, q) == Ok(Some(w.db.heads[from]))
                                       && w.db.heads[from] < |w.db.releases|
                                       && Members(w.db.releases, w.db.heads[from]) == w.db.Live(from))
            && (from !in w.db.heads ==> Post(w, q).None?)
            && CopiesOnly(q) && q.arch == only && q.ring == to
  {
    if from in w.db.heads { HeadMembers(w.db, from); }
  }

  /** What `PromoteJob` comes to once the gate has let it pass. */
  lemma PromoteSteps(w: World, from: Ring, to: Ring, only: Option<Arch>, fetch: Arch -> Fetch, healthy: Arch -> bool)
    requires Ready(w)
    ensures var p := Post(w, PromoteRequest(from, to, only));
            var r := PromoteJob(w, from, to, only, true, fetch, healthy);
            && (p.None? ==> r.None?)
            && (p.Some? && Ready(AlignAll(p.value.0, to, OnlyOrBoth(only), fetch)) ==>
                  r == RenderAndVerify(AlignAll(p.value.0, to, OnlyOrBoth(only), fetch), to, only, w.db.Parent(to),
                    healthy))
  {
    hide Ready, Post, AlignAll, RenderAndVerify, OnlyOrBoth;
  }

  /** The ring just after a promotion and the alignment of its OPR channel. */
  ghost function Aligned(w: World, from: Ring, to: Ring, only: Option<Arch>, fetch: Arch -> Fetch): World
    requires Ready(w) && Post(w, PromoteRequest(from, to, only)).Some?
  {
    AlignAll(Post(w, PromoteRequest(from, to, only)).value.0, to, OnlyOrBoth(only), fetch)
  }

  lemma ConfinedHead(w: World, w': World, ring: Ring)
    requires Confined(w, w', ring) && ring in w.db.heads
    ensures ring in w'.db.heads
  {}

  /**
   * A promotion of both architectures: the promoted and aligned selection when it is
   * healthy, exactly what the ring served before when it is not; it fails only
   * without anything to promote, or without a release to go back to.
   */
  lemma PromoteWhole(w: World, from: Ring, to: Ring, fetch: Arch -> Fetch, healthy: Arch -> bool)
    requires Good(w) && Ready(w)
    ensures var r := PromoteJob(w, from, to, None, true, fetch, healthy);
            && (r.None? <==> from !in w.db.heads || (!Healthy(BOTH, healthy) && to !in w.db.heads))
            && (r.Some? ==> Confined(w, r.value, to) && (forall a :: RenderedAt(r.value, to, a)))
            && (r.Some? && Healthy(BOTH, healthy) ==>
                  && Post(w, PromoteRequest(from, to, None)).Some?
                  && Post(w, PromoteRequest(from, to, None)).value.0.db.Live(to) == w.db.Live(from)
                  && r.value.db == Aligned(w, from, to, None, fetch).db)
            && (r.Some? && !Healthy(BOTH, healthy) ==> r.value.db.Live(to) == w.db.Live(to))
  {
    assert OnlyOrBoth(None) == BOTH;
    var q := PromoteRequest(from, to, None);
    if Post(w, q).Some? {
      assert Aligned(w, from, to, None, fetch) == AlignAll(Post(w, q).value.0, to, BOTH, fetch);
    }
    hide *;
    PromoteSource(w, from, to, None);
    PromoteSteps(w, from, to, None, fetch, healthy);
    if from in w.db.heads {
      CopyWhole(w, q, w.db.heads[from]);
      var w1 := Post(w, q).value.0;
      ConfinedIsGood(w, w1, to);
      var w2 := AlignAll(w1, to, BOTH, fetch);
      AlignAllConfined(w1, to, BOTH, fetch);
      ConfinedHead(w1, w2, to);
      ConfinedChains(w, w1, w2, to);
      ConfinedIsGood(w, w2, to);
      GoodIsReady(w2);
      VerifyWhole(w, w2, to, healthy);
    }
  }

  /** A promotion of one architecture into a ring with a release: likewise, and the other architecture is left alone. */
  lemma PromoteOneArch(w: World, from: Ring, to: Ring, only: Arch, fetch: Arch -> Fetch, healthy: Arch -> bool)
    requires Good(w) && Ready(w) && to in w.db.heads
    ensures var r := PromoteJob(w, from, to, Some(only), true, fetch, healthy);
            && (r.None? <==> from !in w.db.heads)
            && (r.Some? ==>
                  && Confined(w, r.value, to) && RenderedAt(r.value, to, only)
                  && (RenderedAt(w, to, only.Other()) ==> RenderedAt(r.value, to, only.Other()))
                  && RowsOf(r.value, to, only.Other()) == RowsOf(w, to, only.Other()))
            && (r.Some? && Healthy([only], healthy) ==>
                  && Post(w, PromoteRequest(from, to, Some(only))).Some?
                  && RowsOf(Post(w, PromoteRequest(from, to, Some(only))).value.0, to, only) == RowsOf(w, from, only)
                  && r.value.db == Aligned(w, from, to, Some(only), fetch).db)
            && (r.Some? && !Healthy([only], healthy) ==> r.value.db.Live(to) == w.db.Live(to))
  {
    hide *;
    var q := PromoteRequest(from, to, Some(only));
    PromoteSource(w, from, to, Some(only));
    PromoteSteps(w, from, to, Some(only), fetch, healthy);
    OnlyIs(only);
    if from in w.db.heads {
      AlignedOneArch(w, from, to, only, fetch);
      AlignedIs(w, from, to, Some(only), fetch);
      var w2 := AlignAll(Post(w, q).value.0, to, [only], fetch);
      VerifyOneArch(w, w2, to, only, healthy);
      var w' := RenderAndVerify(w2, to, Some(only), w.db.Parent(to), healthy).value;
      OtherRows(w, w2, w', to, only, healthy);
      RowsAre(w, from, only);
    }
  }

  lemma OnlyIs(only: Arch)
    ensures OnlyOrBoth(Some(only)) == [only]
  {}

  lemma RowsAre(w: World, ring: Ring, arch: Arch)
    ensures RowsOf(w, ring, arch) == In(w.db, w.db.Live(ring), arch)
  {}

  lemma AlignedIs(w: World, from: Ring, to: Ring, only: Option<Arch>, fetch: Arch -> Fetch)
    requires Ready(w) && Post(w, PromoteRequest(from, to, only)).Some?
    ensures Aligned(w, from, to, only, fetch)
      == AlignAll(Post(w, PromoteRequest(from, to, only)).value.0, to, OnlyOrBoth(only), fetch)
  {
    hide Ready, Post, AlignAll;
  }

  /** One architecture promoted and aligned: it comes from the source, the other is as it was. */
  lemma AlignedOneArch(w: World, from: Ring, to: Ring, only: Arch, fetch: Arch -> Fetch)
    requires Good(w) && Ready(w) && to in w.db.heads && from in w.db.heads
    ensures Post(w, PromoteRequest(from, to, Some(only))).Some?
    ensures var w1 := Post(w, PromoteRequest(from, to, Some(only))).value.0;
            var w2 := AlignAll(w1, to, [only], fetch);
            && Confined(w, w2, to) && Ready(w2) && to in w2.db.heads
            && RowsOf(w1, to, only) == In(w.db, w.db.Live(from), only)
            && RowsOf(w2, to, only.Other()) == RowsOf(w, to, only.Other())
            && (RenderedAt(w, to, only.Other()) ==> RenderedAt(w2, to, only.Other()))
  {
    hide *;
    var q := PromoteRequest(from, to, Some(only));
    PromoteSource(w, from, to, Some(only));
    CopyOneArch(w, q, w.db.heads[from]);
    var w1 := Post(w, q).value.0;
    ConfinedIsGood(w, w1, to);
    var w2 := AlignAll(w1, to, [only], fetch);
    AlignAllConfined(w1, to, [only], fetch);
    AlignOneArch(w1, to, only, fetch);
    ConfinedHead(w1, w2, to);
    ConfinedChains(w, w1, w2, to);
    ConfinedIsGood(w, w2, to);
    GoodIsReady(w2);
  }

  lemma OtherRows(w: World, w2: World, w': World, ring: Ring, only: Arch, healthy: Arch -> bool)
    requires Good(w) && Confined(w, w', ring)
    requires RowsOf(w2, ring, only.Other()) == RowsOf(w, ring, only.Other())
    requires w'.db == w2.db || w'.db.Live(ring) == w.db.Live(ring)
    ensures RowsOf(w', ring, only.Other()) == RowsOf(w, ring, only.Other())
  {
    if w'.db == w2.db {
      SameRows(w2, w', ring);
    } else {
      KeptRows(w, w', ring, only.Other());
    }
  }

  lemma KeptRows(w: World, w': World, ring: Ring, arch: Arch)
    requires Good(w) && Confined(w, w', ring) && w'.db.Live(ring) == w.db.Live(ring)
    ensures RowsOf(w', ring, arch) == RowsOf(w, ring, arch)
  {
    LiveIndexedInv(w.db, ring);
    ConfinedIndex(w, w', ring);
    hide Confined, Good;
  }

  lemma ConfinedIndex(w: World, w': World, ring: Ring)
    requires Confined(w, w', ring)
    ensures forall p :: p in w.db.index ==> p in w'.db.index && w'.db.index[p] == w.db.index[p]
  {
    hide Good, RenderedAt;
  }

  /** Nothing but a rendering changes a database. */
  lemma {:induction false} AlignAllPublishes(w: World, ring: Ring, arches: seq<Arch>, fetch: Arch -> Fetch)
    requires Good(w)
    ensures AlignAll(w, ring, arches, fetch).published == w.published
    decreases |arches|
  {
    if arches != [] {
      var o := OprOptions(ring, arches[0]);
      var w1 := Align(w, o, fetch(arches[0]));
      assert AlignAll(w, ring, arches, fetch) == AlignAll(w1, ring, arches[1..], fetch);
      AlignPublishes(w, o, fetch(arches[0]));
      hide *;
      AlignEffect(w, o, fetch(arches[0]));
      ConfinedIsGood(w, w1, o.ring);
      AlignAllPublishes(w1, ring, arches[1..], fetch);
    }
  }

  lemma AlignPublishes(w: World, o: Options, f: Fetch)
    requires Good(w)
    ensures Align(w, o, f).published == w.published
  {
    if f.Fetched? {
      SyncLaws.PinsAreKnown(w, o, f.ups, f.downloads);
    }
    hide Run, Inv, Create;
  }

  /** A ring without a release has nothing to render: a rendering of one architecture leaves the other empty. */
  lemma RenderOneArch(w: World, ring: Ring, only: Arch)
    requires ring in w.db.heads && forall k :: k in w.published ==> k.0 != ring
    ensures RenderAll(w, ring, [only]).Some?
    ensures RenderedAt(RenderAll(w, ring, [only]).value, ring, only.Other()) <==> RowsOf(w, ring, only.Other()) == {}
  {
    RenderOnce(w, ring, only);
    var w' := Render(w, ring, only).value;
    var other := only.Other();
    assert w'.db == w.db && forall k :: k in w'.published && k.0 == ring ==> k.1 == only;
    hide RenderAll, Render;
    assert SourcesIn(w.db, ring, other) == {} <==> RowsOf(w, ring, other) == {} by {
      if p :| p in RowsOf(w, ring, other) {
        assert w.db.index[p].source in SourcesIn(w.db, ring, other);
      }
    }
    hide RowsOf;
    assert RenderedAt(w', ring, other) <==> SourcesIn(w.db, ring, other) == {};
  }

  lemma RenderOnce(w: World, ring: Ring, only: Arch)
    ensures RenderAll(w, ring, [only]) == Render(w, ring, only)
  {
    hide Render;
    assert [only][1..] == [];
  }

  /**
   * A promotion of one architecture into a ring without a release copies both, and
   * renders one: the other's databases are right exactly when it has no rows.
   */
  lemma PromoteIntoEmptyRing(w: World, from: Ring, to: Ring, only: Arch, fetch: Arch -> Fetch, healthy: Arch -> bool)
    requires Good(w) && Ready(w) && to !in w.db.heads
    ensures var r := PromoteJob(w, from, to, Some(only), true, fetch, healthy);
            && (r.None? <==> from !in w.db.heads || !healthy(only))
            && (r.Some? ==>
                  && Confined(w, r.value, to) && RenderedAt(r.value, to, only)
                  && RowsOf(r.value, to, only.Other()) == RowsOf(w, from, only.Other())
                  && (RenderedAt(r.value, to, only.Other()) <==> RowsOf(w, from, only.Other()) == {}))
  {
    hide *;
    var q := PromoteRequest(from, to, Some(only));
    OnlyIs(only);
    OnlyHealthy(only, healthy);
    NothingPublished(w, to);
    PromoteSource(w, from, to, Some(only));
    PromoteSteps(w, from, to, Some(only), fetch, healthy);
    if from in w.db.heads {
      CopyWhole(w, q, w.db.heads[from]);
      var w1 := Post(w, q).value.0;
      ConfinedIsGood(w, w1, to);
      var w2 := AlignAll(w1, to, [only], fetch);
      AlignAllConfined(w1, to, [only], fetch);
      AlignOneArch(w1, to, only, fetch);
      AlignAllPublishes(w1, to, [only], fetch);
      PostPublishes(w, q);
      ConfinedHead(w1, w2, to);
      ConfinedChains(w, w1, w2, to);
      ConfinedIsGood(w, w2, to);
      GoodIsReady(w2);
      ThenRender(w, w2, to, [only]);
      RenderOneArch(w2, to, only);
      VerifySteps(w2, to, Some(only), None, healthy);
      SameRows(w2, RenderAll(w2, to, [only]).value, to);
      CopiedRows(w, w1, from, to, only.Other());
    }
  }

  lemma OnlyHealthy(only: Arch, healthy: Arch -> bool)
    ensures Healthy([only], healthy) <==> healthy(only)
  {
    assert only in [only];
  }

  lemma NothingPublished(w: World, ring: Ring)
    requires Good(w) && ring !in w.db.heads
    ensures w.db.Parent(ring) == None && forall k :: k in w.published ==> k.0 != ring
  {}

  lemma PostPublishes(w: World, q: Request)
    requires Ready(w) && Post(w, q).Some?
    ensures Post(w, q).value.0.published == w.published
  {
    hide Create;
  }

  lemma CopiedRows(w: World, w1: World, from: Ring, to: Ring, a: Arch)
    requires Good(w) && Confined(w, w1, to) && w1.db.Live(to) == w.db.Live(from)
    ensures RowsOf(w1, to, a) == RowsOf(w, from, a)
  {
    LiveIndexedInv(w.db, from);
    hide Good, RenderedAt;
  }
}
