/** Syncs and promotions in plain terms: what a ring serves once a channel has been pinned to it. */
module ChannelLaws {
  import opened Common
  import opened Releases
  import opened Creation
  import opened Selections
  import opened Sync
  import opened SyncLaws
  import opened Work
  import opened WorkLaws
  import opened Promotions
  import opened Jobs
  import SyncTwice

  /** Listed bytes the index has for the architecture are the source's own. */
  predicate OwnBytes(w: World, source: string, arch: Arch, ups: seq<Upstream>) {
    forall p :: p in ups && p.sha in w.db.index && w.db.index[p.sha].arch == arch ==> w.db.index[p.sha].source == source
  }

  predicate Lists(ups: seq<Upstream>, name: string) { exists p :: p in ups && p.name == name }

  // ---------- one sync ----------

  /**
   * What the ring serves after a sync pinned `add`: of the source's rows those pinned, and
   * the earlier ones whose name is still listed and not pinned again; of all others what
   * it served before.
   */
  ghost predicate Serves(v: World, w': World, o: Options, listed: seq<Upstream>, add: set<Sha>) {
    add <= w'.db.index.Keys &&
    forall x :: x in w'.db.index ==>
      var row := w'.db.index[x];
      x in w'.db.Live(o.ring) <==>
      if row.source == o.source && row.arch == o.arch then
        || x in add
        || (x in v.db.Live(o.ring) && Lists(listed, row.name)
            && forall y :: y in add ==> w'.db.index[y].name != row.name)
      else x in v.db.Live(o.ring)
  }

  lemma OwnPins(w: World, o: Options, ups: seq<Upstream>, downloads: map<string, Download>)
    requires OwnBytes(w, o.source, o.arch, ups)
    ensures var out := Run(w, o, ups, downloads);
            forall x :: x in out.add ==> x in out.world.db.index && out.world.db.index[x].source == o.source
                                         && out.world.db.index[x].arch == o.arch
  {
    PinsAreOwn(w, o, ups, downloads);
    PinsAreKnown(w, o, ups, downloads);
    assert forall p :: PinnedKnown(w, o, Wanted(w, o, ups), p) ==>
      p in ups && p.sha in w.db.index && w.db.index[p.sha].arch == o.arch;
    hide Run, Wanted, PinnedKnown;
  }

  lemma DroppedAre(w: World, o: Options, ups: seq<Upstream>, downloads: map<string, Download>)
    ensures var out := Run(w, o, ups, downloads);
            && (out.changed <==> out.remove != {} || Current(w, o) != out.add)
            && forall x :: x in Current(w, o) ==>
                 x in w.db.index
                 && (w.db.index[x].name in out.remove <==> !Lists(Wanted(w, o, ups), w.db.index[x].name))
  {
    hide Wanted, ImportAll, Pins, Missing, Limited;
  }

  lemma IsCurrent(w: World, o: Options, x: Sha)
    ensures x in Current(w, o) <==>
      x in w.db.Live(o.ring) && x in w.db.index && w.db.index[x].arch == o.arch && w.db.index[x].source == o.source
  {}

  /** A settled run serves what it says. */
  lemma SettledServes(w: World, o: Options, ups: seq<Upstream>, downloads: map<string, Download>, w1: World)
    requires OwnBytes(w, o.source, o.arch, ups) && w.db.Live(o.ring) <= w.db.index.Keys
    requires var out := Run(w, o, ups, downloads);
             out.add <= out.world.db.index.Keys && Settles(w, o, out, w1)
    ensures Serves(w, w1, o, Wanted(w, o, ups), Run(w, o, ups, downloads).add)
  {
    var out := Run(w, o, ups, downloads);
    OwnPins(w, o, ups, downloads);
    PinsAreKnown(w, o, ups, downloads);
    DroppedAre(w, o, ups, downloads);
    forall x | x in w1.db.index
      ensures var row := w1.db.index[x];
              x in w1.db.Live(o.ring) <==>
              if row.source == o.source && row.arch == o.arch then
                || x in out.add
                || (x in w.db.Live(o.ring) && Lists(Wanted(w, o, ups), row.name)
                    && forall y :: y in out.add ==> w1.db.index[y].name != row.name)
              else x in w.db.Live(o.ring)
    {
      OneRow(w, o, out, Wanted(w, o, ups), w1, x);
    }
    hide Run, Wanted, OwnBytes, Lists;
  }

  lemma OneRow(w: World, o: Options, out: Outcome, listed: seq<Upstream>, w1: World, x: Sha)
    requires w.db.Live(o.ring) <= w.db.index.Keys && Grows(w, out.world) && x in w1.db.index
    requires out.add <= out.world.db.index.Keys && Settles(w, o, out, w1)
    requires forall y :: y in out.add ==> y in out.world.db.index && out.world.db.index[y].source == o.source
                                          && out.world.db.index[y].arch == o.arch
    requires out.changed <==> out.remove != {} || Current(w, o) != out.add
    requires forall y :: y in Current(w, o) ==>
               y in w.db.index && (w.db.index[y].name in out.remove <==> !Lists(listed, w.db.index[y].name))
    ensures var row := w1.db.index[x];
            x in w1.db.Live(o.ring) <==>
            if row.source == o.source && row.arch == o.arch then
              || x in out.add
              || (x in w.db.Live(o.ring) && Lists(listed, row.name)
                  && forall y :: y in out.add ==> w1.db.index[y].name != row.name)
            else x in w.db.Live(o.ring)
  {
    IsCurrent(w, o, x);
    SyncTwice.RepinnedHolds(out.world.db, w.db.Live(o.ring), o.source, o.arch, out.add, out.remove, x);
    assert x in w.db.Live(o.ring) ==> w1.db.index[x] == w.db.index[x];
    hide Repinned, Current, Lists;
  }

  /** A sync job that completes: so the ring serves it. */
  lemma SyncServes(w: World, o: Options, f: Fetch)
    requires Good(w) && Ready(w) && SyncJob(w, o, f).Some? && f.Fetched? && OwnBytes(w, o.source, o.arch, f.ups)
    ensures Serves(w, SyncJob(w, o, f).value, o, Wanted(w, o, f.ups), Run(w, o, f.ups, f.downloads).add)
  {
    hide *;
    SyncSettles(w, o, f);
    GoodLive(w, o.ring);
    SettledServes(w, o, f.ups, f.downloads, SyncJob(w, o, f).value);
  }

  lemma GoodLive(w: World, ring: Ring)
    requires Good(w)
    ensures w.db.Live(ring) <= w.db.index.Keys
  {
    LiveIndexedInv(w.db, ring);
    hide Inv;
  }

  /** So does the sync of a channel inside a promotion. */
  lemma AlignSettles(w: World, o: Options, f: Fetch)
    requires Good(w) && f.Fetched?
    ensures var out := Run(w, o, f.ups, f.downloads);
            out.add <= out.world.db.index.Keys && Settles(w, o, out, Align(w, o, f))
  {
    var out := Run(w, o, f.ups, f.downloads);
    PinsAreKnown(w, o, f.ups, f.downloads);
    AllKnownKeys(out.world.db, o.arch, out.add);
    GrowthEffect(w, out.world);
    GoodIsReady(out.world);
    if out.changed {
      AlignPost(out.world, o, out.add, out.remove);
      PostEffect(out.world, PinRequest(o, out.add, out.remove));
    }
    hide Run, Post, Good, Ready, Repinned, RenderedAt, Confined;
  }

  lemma AlignServes(w: World, o: Options, f: Fetch)
    requires Good(w) && f.Fetched? && OwnBytes(w, o.source, o.arch, f.ups)
    ensures Serves(w, Align(w, o, f), o, Wanted(w, o, f.ups), Run(w, o, f.ups, f.downloads).add)
  {
    hide *;
    AlignSettles(w, o, f);
    GoodLive(w, o.ring);
    SettledServes(w, o, f.ups, f.downloads, Align(w, o, f));
  }

  // ---------- a promotion ----------

  /**
   * The architecture's rows after a promotion: of every source but the channel's exactly
   * the promoted ones; of the channel's the promoted ones if it could not be reached, else
   * what its sync pins, and the promoted ones still listed and not pinned again.
   */
  ghost predicate ChannelRows(promoted: set<Sha>, v: World, w': World, to: Ring, a: Arch, f: Fetch) {
    forall x :: x in RowsOf(w', to, a) <==>
      && x in w'.db.index && w'.db.index[x].arch == a
      && if w'.db.index[x].source != "packages" || f.Unreachable? then x in promoted
         else
           var add := Run(v, Options("packages", a, to, 0, {}), f.ups, f.downloads).add;
           || x in add
           || (x in promoted && Lists(f.ups, w'.db.index[x].name)
               && forall y :: y in add && y in w'.db.index ==> w'.db.index[y].name != w'.db.index[x].name)
  }

  lemma NothingYields(w: World, o: Options, ups: seq<Upstream>)
    requires o.deferTo == {}
    ensures Wanted(w, o, ups) == ups
  {
    var owned := OwnedElsewhere(w, o);
    assert owned == {};
    FilterEvery(ups, (p: Upstream) => p.name !in owned);
  }

  lemma {:induction false} FilterEvery<T(!new)>(xs: seq<T>, f: T -> bool)
    requires forall x :: x in xs ==> f(x)
    ensures Filter(xs, f) == xs
  {
    if xs != [] {
      var n := |xs| - 1;
      FilterEvery(xs[..n], f);
      assert xs == xs[..n] + [xs[n]];
    }
  }

  lemma OneAligned(v: World, to: Ring, a: Arch, f: Fetch)
    requires Good(v) && (f.Fetched? ==> OwnBytes(v, "packages", a, f.ups))
    ensures ChannelRows(RowsOf(v, to, a), v, Align(v, Options("packages", a, to, 0, {}), f), to, a, f)
  {
    var o := Options("packages", a, to, 0, {});
    var w' := Align(v, o, f);
    GoodLive(v, to);
    if f.Fetched? {
      AlignServes(v, o, f);
      NothingYields(v, o, f.ups);
      AlignEffect(v, o, f);
      hide Align, Run, Wanted, Good;
      ServedRows(v, w', to, a, f);
    } else {
      assert w' == v;
      hide Run, Good;
    }
  }

  lemma ServedRows(v: World, w': World, to: Ring, a: Arch, f: Fetch)
    requires f.Fetched? && v.db.Live(to) <= v.db.index.Keys && Confined(v, w', to)
    requires var o := Options("packages", a, to, 0, {});
             Serves(v, w', o, f.ups, Run(v, o, f.ups, f.downloads).add)
    ensures ChannelRows(RowsOf(v, to, a), v, w', to, a, f)
  {
    ConfinedIndex(v, w', to);
    ConfinedIsGood(v, w', to);
    GoodLive(w', to);
    hide Run, Confined, Lists, Good;
  }

  // ---------- carrying it over ----------

  /** Later imports and renderings, and the other architecture's sync, change nothing for these rows. */
  lemma RowsCarry(promoted: set<Sha>, v: World, w1: World, w2: World, to: Ring, a: Arch, f: Fetch)
    requires ChannelRows(promoted, v, w1, to, a, f) && RowsOf(w2, to, a) == RowsOf(w1, to, a)
    requires forall x :: x in w1.db.index ==> x in w2.db.index && w2.db.index[x] == w1.db.index[x]
    requires forall x :: x in promoted ==> x in w1.db.index
    requires f.Fetched? ==>
      forall y :: y in Run(v, Options("packages", a, to, 0, {}), f.ups, f.downloads).add ==> y in w1.db.index
    ensures ChannelRows(promoted, v, w2, to, a, f)
  {
    hide Run, RowsOf, Lists;
  }

  lemma PinsIndexed(v: World, to: Ring, a: Arch, f: Fetch)
    requires Good(v) && f.Fetched?
    ensures forall y :: y in Run(v, Options("packages", a, to, 0, {}), f.ups, f.downloads).add ==>
      y in Align(v, Options("packages", a, to, 0, {}), f).db.index
  {
    AlignSettles(v, Options("packages", a, to, 0, {}), f);
    hide Run, Align, Good;
  }

  /** Rows of the architecture only come from its own channel, so the others' syncs change none of its bytes. */
  lemma OwnBytesStay(w: World, v: World, a: Arch, ups: seq<Upstream>)
    requires OwnBytes(w, "packages", a, ups)
    requires forall x :: x in v.db.index && x !in w.db.index ==> v.db.index[x].arch != a
    requires forall x :: x in w.db.index && x in v.db.index ==> v.db.index[x] == w.db.index[x]
    ensures OwnBytes(v, "packages", a, ups)
  {}

  lemma AlignIndexes(w: World, o: Options, f: Fetch)
    requires Good(w)
    ensures var w' := Align(w, o, f);
            forall x :: x in w'.db.index && x !in w.db.index ==> w'.db.index[x].arch == o.arch
  {
    if f.Fetched? {
      AlignSettles(w, o, f);
      ImportAllRows(w, o, Limited(o, Missing(w, o, Wanted(w, o, f.ups))), f.downloads);
      assert Run(w, o, f.ups, f.downloads).world
        == ImportAll(w, o, Limited(o, Missing(w, o, Wanted(w, o, f.ups))), f.downloads).0;
      hide Run, ImportAll, Missing, Limited, Wanted, Align, Good;
    }
  }

  // ---------- the whole job ----------

  /** Right after the copy the ring serves what was promoted. */
  lemma Copied(w: World, from: Ring, to: Ring, only: Option<Arch>)
    requires Good(w) && Ready(w) && from in w.db.heads
    ensures Post(w, PromoteRequest(from, to, only)).Some?
    ensures var w1 := Post(w, PromoteRequest(from, to, only)).value.0;
            && Good(w1) && Confined(w, w1, to) && w1.db.index == w.db.index && w1.objects == w.objects
            && to in w1.db.heads
            && forall a :: only.None? || only == Some(a) ==> RowsOf(w1, to, a) == RowsOf(w, from, a)
  {
    hide *;
    var q := PromoteRequest(from, to, only);
    PromoteSource(w, from, to, only);
    if only.Some? && to in w.db.heads {
      CopyOneArch(w, q, w.db.heads[from]);
    } else {
      CopyWhole(w, q, w.db.heads[from]);
    }
    var w1 := Post(w, q).value.0;
    ConfinedIsGood(w, w1, to);
    PostEffect(w, q);
    SameIndexRows(w, w1, from, to);
    forall a ensures RowsOf(w, from, a) == In(w.db, w.db.Live(from), a) { RowsAre(w, from, a); }
  }

  lemma SameIndexRows(w: World, w1: World, from: Ring, to: Ring)
    requires w1.db.index == w.db.index
    ensures w1.db.Live(to) == w.db.Live(from) ==> forall a :: RowsOf(w1, to, a) == RowsOf(w, from, a)
  {}

  /** The pool a channel's sync meets: the one promoted in, but for what the other channel's imported. */
  ghost predicate Meets(w: World, v: World, a: Arch, first: bool) {
    && (first ==> v.db.index == w.db.index && v.objects == w.objects)
    && (forall x :: x in w.db.index ==> x in v.db.index && v.db.index[x] == w.db.index[x])
    && (forall x :: x in v.db.index && x !in w.db.index ==> v.db.index[x].arch != a)
  }

  /** One architecture aligned, and perhaps the other after it. */
  lemma AlignedRows(w: World, from: Ring, to: Ring, only: Option<Arch>, fetch: Arch -> Fetch,
      a: Arch) returns (v: World)
    requires Good(w) && Ready(w) && from in w.db.heads && (only.None? || only == Some(a))
    requires fetch(a).Fetched? ==> OwnBytes(w, "packages", a, fetch(a).ups)
    ensures Post(w, PromoteRequest(from, to, only)).Some?
    ensures Meets(w, v, a, only.Some? || a == X86_64)
    ensures var w2 := AlignAll(Post(w, PromoteRequest(from, to, only)).value.0, to, OnlyOrBoth(only), fetch);
            ChannelRows(RowsOf(w, from, a), v, w2, to, a, fetch(a))
  {
    hide *;
    Copied(w, from, to, only);
    var w1 := Post(w, PromoteRequest(from, to, only)).value.0;
    if only.Some? {
      v := w1;
      SameOwn(w, v, a, fetch(a));
      OneAligned(v, to, a, fetch(a));
      AlignOnly(w1, to, a, fetch);
      IsMet(w, v, a, true);
    } else {
      var x86, arm := Options("packages", X86_64, to, 0, {}), Options("packages", Aarch64, to, 0, {});
      var w2 := Align(w1, x86, fetch(X86_64));
      AlignBoth(w1, to, fetch);
      AlignEffect(w1, x86, fetch(X86_64));
      ConfinedIsGood(w1, w2, to);
      ConfinedIndex(w1, w2, to);
      var w3 := Align(w2, arm, fetch(Aarch64));
      AlignEffect(w2, arm, fetch(Aarch64));
      ConfinedIndex(w2, w3, to);
      BothArches(a);
      if a == X86_64 {
        v := w1;
        SameOwn(w, v, a, fetch(a));
        OneAligned(v, to, a, fetch(a));
        if fetch(a).Fetched? { PinsIndexed(v, to, a, fetch(a)); }
        RowsAreIndexed(w, from, a);
        RowsCarry(RowsOf(w, from, a), v, w2, w3, to, a, fetch(a));
        IsMet(w, v, a, true);
      } else {
        v := w2;
        AlignIndexes(w1, x86, fetch(X86_64));
        if fetch(a).Fetched? { OwnBytesStay(w, v, a, fetch(a).ups); }
        OneAligned(v, to, a, fetch(a));
        IsMet(w, v, a, false);
      }
    }
  }

  lemma BothArches(a: Arch)
    ensures a == X86_64 || a == Aarch64
    ensures X86_64.Other() == Aarch64 && Aarch64.Other() == X86_64
  {}

  lemma SameOwn(w: World, v: World, a: Arch, f: Fetch)
    requires v.db.index == w.db.index && (f.Fetched? ==> OwnBytes(w, "packages", a, f.ups))
    ensures f.Fetched? ==> OwnBytes(v, "packages", a, f.ups)
  {}

  lemma IsMet(w: World, v: World, a: Arch, first: bool)
    requires first ==> v.db.index == w.db.index && v.objects == w.objects
    requires forall x :: x in w.db.index ==> x in v.db.index && v.db.index[x] == w.db.index[x]
    requires !first ==> forall x :: x in v.db.index && x !in w.db.index ==> v.db.index[x].arch != a
    ensures Meets(w, v, a, first)
  {}

  lemma RowsAreIndexed(w: World, ring: Ring, a: Arch)
    ensures forall x :: x in RowsOf(w, ring, a) ==> x in w.db.index
  {}

  lemma AlignOnly(w: World, ring: Ring, a: Arch, fetch: Arch -> Fetch)
    ensures AlignAll(w, ring, OnlyOrBoth(Some(a)), fetch) == Align(w, Options("packages", a, ring, 0, {}), fetch(a))
  {
    hide Align;
    assert OnlyOrBoth(Some(a)) == [a] && [a][1..] == [];
  }

  lemma AlignBoth(w: World, ring: Ring, fetch: Arch -> Fetch)
    ensures AlignAll(w, ring, OnlyOrBoth(None), fetch)
      == Align(Align(w, Options("packages", X86_64, ring, 0, {}), fetch(X86_64)),
               Options("packages", Aarch64, ring, 0, {}), fetch(Aarch64))
  {
    hide Align;
    assert OnlyOrBoth(None) == [X86_64, Aarch64] && [X86_64, Aarch64][1..] == [Aarch64] && [Aarch64][1..] == [];
  }

  lemma HealthyKeeps(w: World, from: Ring, to: Ring, only: Option<Arch>, fetch: Arch -> Fetch, healthy: Arch -> bool)
    requires Good(w) && Ready(w) && from in w.db.heads && forall b :: only.None? || only == Some(b) ==> healthy(b)
    ensures Post(w, PromoteRequest(from, to, only)).Some?
    ensures var w2 := AlignAll(Post(w, PromoteRequest(from, to, only)).value.0, to, OnlyOrBoth(only), fetch);
            var r := PromoteJob(w, from, to, only, true, fetch, healthy);
            r.Some? && r.value.db == w2.db
  {
    hide *;
    Copied(w, from, to, only);
    var w1 := Post(w, PromoteRequest(from, to, only)).value.0;
    var w2 := AlignAll(w1, to, OnlyOrBoth(only), fetch);
    AlignAllConfined(w1, to, OnlyOrBoth(only), fetch);
    ConfinedIsGood(w1, w2, to);
    ConfinedHead(w1, w2, to);
    GoodIsReady(w2);
    ConfinedSelf(w2, to);
    ThenRender(w2, w2, to, OnlyOrBoth(only));
    AllAreHealthy(only, healthy);
    PromoteSteps(w, from, to, only, fetch, healthy);
    VerifySteps(w2, to, only, w.db.Parent(to), healthy);
  }

  lemma AllAreHealthy(only: Option<Arch>, healthy: Arch -> bool)
    requires forall b :: only.None? || only == Some(b) ==> healthy(b)
    ensures Healthy(OnlyOrBoth(only), healthy)
  {}

  lemma ConfinedSelf(w: World, ring: Ring)
    requires Good(w)
    ensures Confined(w, w, ring)
  {
    hide Good, RenderedAt;
  }

  /**
   * A healthy promotion: each architecture it was asked for serves, of every source but
   * "packages", exactly what the source ring served; of "packages" what its channel pins
   * - the promoted rows when it could not be reached - as long as the listed bytes the
   * index has are that source's own.
   */
  lemma PromotionServes(w: World, from: Ring, to: Ring, only: Option<Arch>, fetch: Arch -> Fetch,
      healthy: Arch -> bool, a: Arch) returns (v: World)
    requires Good(w) && Ready(w) && from in w.db.heads && (only.None? || only == Some(a))
    requires forall b :: only.None? || only == Some(b) ==> healthy(b)
    requires fetch(a).Fetched? ==> OwnBytes(w, "packages", a, fetch(a).ups)
    ensures Meets(w, v, a, only.Some? || a == X86_64)
    ensures var r := PromoteJob(w, from, to, only, true, fetch, healthy);
            r.Some? && ChannelRows(RowsOf(w, from, a), v, r.value, to, a, fetch(a))
  {
    hide *;
    v := AlignedRows(w, from, to, only, fetch, a);
    HealthyKeeps(w, from, to, only, fetch, healthy);
    var w2 := AlignAll(Post(w, PromoteRequest(from, to, only)).value.0, to, OnlyOrBoth(only), fetch);
    var w' := PromoteJob(w, from, to, only, true, fetch, healthy).value;
    SameChannelRows(RowsOf(w, from, a), v, w2, w', to, a, fetch(a));
  }

  lemma SameChannelRows(promoted: set<Sha>, v: World, w1: World, w2: World, to: Ring, a: Arch, f: Fetch)
    requires ChannelRows(promoted, v, w1, to, a, f) && w2.db == w1.db
    ensures ChannelRows(promoted, v, w2, to, a, f)
  {
    SameRows(w1, w2, to);
    hide Run, RowsOf;
  }
}
