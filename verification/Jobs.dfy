/**
 * The worker's jobs over whole runs: whatever completes, history only grows and the
 * databases pacman reads follow the rings' heads - but for one gap.
 */
module Jobs {
  import opened Common
  import opened Releases
  import opened Creation
  import opened Selections
  import opened Sync
  import opened SyncLaws
  import SyncPool
  import SyncTwice
  import opened Batch
  import opened Work
  import opened WorkLaws
  import opened Promotions
  import V = Verify

  // ---------- the sync job ----------

  datatype Source = Source(o: Options, fetch: Fetch)

  /** The pipeline's failure rule: imports failed and nothing of the source is indexed. */
  predicate Bails(out: Outcome) {
    out.failed > 0 && out.uploaded == 0 && out.known == {}
  }

  /** A batch runs its sources in turn; what each leaves to pin waits, by ring. */
  ghost function Collect(w: World, sources: seq<Source>): (World, seq<(Ring, Pending)>) {
    if sources == [] then (w, [])
    else
      var (w1, waiting) := Collect(w, sources[..|sources| - 1]);
      var s := sources[|sources| - 1];
      if s.fetch.Unreachable? then (w1, waiting)
      else
        var out := Run(w1, s.o, s.fetch.ups, s.fetch.downloads);
        if !Bails(out) && out.changed && (out.add != {} || out.remove != {})
        then (out.world, waiting + [(s.o.ring, Pending(s.o.source, out.add, out.remove))])
        else (out.world, waiting)
  }

  function OfRing(waiting: seq<(Ring, Pending)>, ring: Ring): (r: seq<Pending>)
    ensures forall p :: p in r <==> (ring, p) in waiting
  {
    if waiting == [] then []
    else
      var rest := OfRing(waiting[..|waiting| - 1], ring);
      var last := waiting[|waiting| - 1];
      if last.0 == ring then rest + [last.1] else rest
  }

  /** One release for all that waits for a ring, and the databases it did not keep. */
  function ReleaseRing(w: World, ring: Ring, arch: Arch, ps: seq<Pending>): Option<World> {
    if ps == [] then Some(w)
    else if !Ready(w) then None
    else match Post(w, BatchRequest(ring, arch, ps))
      case None => None
      case Some((w1, kept)) => RenderAll(w1, ring, ToRender(arch, kept))
  }

  function ReleaseRings(w: World, rings: seq<Ring>, arch: Arch, waiting: seq<(Ring, Pending)>): Option<World>
    decreases |rings|
  {
    if rings == [] then Some(w)
    else match ReleaseRing(w, rings[0], arch, OfRing(waiting, rings[0]))
      case None => None
      case Some(w1) => ReleaseRings(w1, rings[1..], arch, waiting)
  }

  const RINGS: seq<Ring> := [Edge, Rc, Stable]

  /** `sync_job` with a list of sources, all of the architecture `arch`. */
  ghost function BatchJob(w: World, arch: Arch, sources: seq<Source>): Option<World> {
    var collected := Collect(w, sources);
    ReleaseRings(collected.0, RINGS, arch, collected.1)
  }

  /** `sync_job` with a single source: it pins its own release. */
  ghost function SyncJob(w: World, o: Options, f: Fetch): Option<World> {
    if f.Unreachable? then None
    else
      var out := Run(w, o, f.ups, f.downloads);
      if Bails(out) then None
      else if !out.changed then Some(out.world)
      else if !Ready(out.world) then None
      else match Post(out.world, PinRequest(o, out.add, out.remove))
        case None => None
        case Some((w1, kept)) => RenderAll(w1, o.ring, ToRender(o.arch, kept))
  }

  // ---------- any job ----------

  datatype Job =
    | Sync(o: Options, upstream: Fetch)
    | Batched(arch: Arch, sources: seq<Source>)
    | Promote(from: Ring, to: Ring, only: Option<Arch>, promote: bool, fetch: Arch -> Fetch, healthy: Arch -> bool)
    | Rollback(ring: Ring, release: nat, only: Option<Arch>, worker: Arch)
    | FastTrack(ring: Ring, add: set<Sha>, healthy: Arch -> bool)
    | Publish(arch: Arch, archives: seq<Upstream>, downloads: map<string, Download>)
    | Verification(rings: seq<Ring>, arches: seq<Arch>)
    | Rerender(ring: Ring, arch: Arch)

  function RenderPlaces(w: World, places: seq<(Ring, Arch)>): Option<World>
    decreases |places|
  {
    if places == [] then Some(w)
    else match Render(w, places[0].0, places[0].1)
      case None => None
      case Some(w1) => RenderPlaces(w1, places[1..])
  }

  /**
   * A verification that completed: each of its places pinned again to what the pool
   * stores, but for the rows whose bytes the index refused, and the pinned ones rendered.
   */
  ghost predicate Verified(w: World, rings: seq<Ring>, arches: seq<Arch>, pinned: map<V.Place, set<Sha>>,
      refused: set<Sha>, w': World)
  {
    && (V.NoObjectPkg(w) ==> !V.Twice(w, V.Places(rings, arches)))
    && exists w1 :: V.SameStore(w, w1) && V.PinnedOver(w, w1, pinned)
                    && V.Repaired(w, V.Places(rings, arches), pinned, refused) && RendersPinned(w1, pinned, w')
  }

  /** Exactly the pinned places are rendered. */
  ghost predicate RendersPinned(w: World, pinned: map<V.Place, set<Sha>>, w': World) {
    exists places: seq<V.Place> :: (forall v :: v in places <==> v in pinned) && RenderPlaces(w, places) == Some(w')
  }

  /** The job completes and leaves `w'`. */
  ghost predicate Step(w: World, job: Job, w': World) {
    Ready(w) &&
    match job
    case Sync(o, f) => SyncJob(w, o, f) == Some(w')
    case Batched(arch, sources) => BatchJob(w, arch, sources) == Some(w')
    case Promote(from, to, only, promote, fetch, healthy) => PromoteJob(w, from, to, only, promote, fetch, healthy)
      == Some(w')
    case Rollback(ring, to, only, worker) => RollbackJob(w, ring, to, only, worker) == Some(w')
    case FastTrack(ring, add, healthy) => FastTrackJob(w, ring, add, healthy) == Some(w')
    case Publish(arch, archives, downloads) => PublishJob(w, arch, archives, downloads) == Some(w')
    case Verification(rings, arches) => exists pinned, refused :: Verified(w, rings, arches, pinned, refused, w')
    case Rerender(ring, arch) => Render(w, ring, arch) == Some(w')
  }

  /**
   * The place a promotion or rollback of one architecture leaves with packages and without
   * databases: into a ring without a release it copies both architectures and renders one.
   */
  function Gap(w: World, job: Job): Option<V.Place>
    requires Ready(w)
  {
    match job
    case Promote(from, to, only, promote, _, _) =>
      if promote && only.Some? && to !in w.db.heads && RowsOf(w, from, only.value.Other()) != {}
      then Some((to, only.value.Other())) else None
    case Rollback(ring, release, only, _) =>
      if only.Some? && ring !in w.db.heads && release < |w.db.releases|
         && In(w.db, Members(w.db.releases, release), only.value.Other()) != {}
      then Some((ring, only.value.Other())) else None
    case _ => None
  }

  /** A one-architecture promotion or rollback into a ring without a release. */
  predicate Opens(w: World, job: Job) {
    match job
    case Promote(_, to, only, promote, _, _) => promote && only.Some? && to !in w.db.heads
    case Rollback(ring, _, only, _) => only.Some? && ring !in w.db.heads
    case _ => false
  }

  /** What a completed step may do: history grows, and what was rendered right still is. */
  ghost predicate Keeps(w: World, w': World) {
    Good(w') && Continues(w.db.releases, w'.db.releases) && forall r, a :: RenderedAt(w, r, a) ==> RenderedAt(w', r, a)
  }

  lemma KeepsChains(a: World, b: World, c: World)
    requires Keeps(a, b) && Keeps(b, c)
    ensures Keeps(a, c)
  {
    hide Good, RenderedAt;
    ContinuesTransitive(a.db.releases, b.db.releases, c.db.releases);
  }

  lemma KeepsGood(w: World, w': World)
    requires Keeps(w, w')
    ensures Good(w')
  {}

  lemma GrowthKeeps(w: World, w': World)
    requires Good(w) && Grows(w, w')
    ensures Keeps(w, w')
  {
    GrowthEffect(w, w');
    hide Good, RenderedAt;
  }

  /** A release on a ring, then every database it did not keep. */
  lemma PostAndRender(w: World, q: Request, arch: Arch)
    requires Good(w) && Ready(w) && Post(w, q).Some?
    ensures var (w1, kept) := Post(w, q).value;
            RenderAll(w1, q.ring, ToRender(arch, kept)).Some?
            && Keeps(w, RenderAll(w1, q.ring, ToRender(arch, kept)).value)
            && RenderAll(w1, q.ring, ToRender(arch, kept)).value.db == w1.db
  {
    var (w1, kept) := Post(w, q).value;
    var arches := ToRender(arch, kept);
    PostEffect(w, q);
    RenderAllFixes(w1, q.ring, arches);
    assert q.ring in w1.db.heads;
    var w' := RenderAll(w1, q.ring, arches).value;
    forall a ensures a in arches || a in kept {
      assert a == arch || a == arch.Other();
    }
    hide Good, RenderedAt, Post, RenderAll, ToRender, SourceOf, Asked;
    forall r, a | RenderedAt(w, r, a) ensures RenderedAt(w', r, a) {
      if r == q.ring && a in arches {
        assert RenderedAt(w', r, a);
      } else {
        assert RenderedAt(w1, r, a);
      }
    }
  }

  // ---------- syncs ----------

  lemma SyncSteps(w: World, o: Options, f: Fetch)
    requires f.Fetched?
    ensures var out := Run(w, o, f.ups, f.downloads);
            var r := SyncJob(w, o, f);
            && (Bails(out) ==> r == None) && (!Bails(out) && !out.changed ==> r == Some(out.world))
            && (!Bails(out) && out.changed && Ready(out.world)
                && Post(out.world, PinRequest(o, out.add, out.remove)).Some? ==>
                  r == RenderAll(Post(out.world, PinRequest(o, out.add, out.remove)).value.0, o.ring,
                                 ToRender(o.arch, Post(out.world, PinRequest(o, out.add, out.remove)).value.1)))
  {
    hide Run, Bails, Post, RenderAll, ToRender, Ready;
  }

  /** A sync fails only without its upstream or by the pipeline's failure rule; otherwise it keeps everything right. */
  lemma SyncKeeps(w: World, o: Options, f: Fetch)
    requires Good(w) && Ready(w)
    ensures SyncJob(w, o, f).None? <==> f.Unreachable? || Bails(Run(w, o, f.ups, f.downloads))
    ensures SyncJob(w, o, f).Some? ==> Keeps(w, SyncJob(w, o, f).value)
  {
    if f.Fetched? {
      hide *;
      var out := Run(w, o, f.ups, f.downloads);
      var q := PinRequest(o, out.add, out.remove);
      SyncSteps(w, o, f);
      PinsAreKnown(w, o, f.ups, f.downloads);
      GrowthKeeps(w, out.world);
      GoodGrows(w, out.world);
      AlignPost(out.world, o, out.add, out.remove);
      PinRing(o, out.add, out.remove);
      PostAndRender(out.world, q, o.arch);
      var (w1, kept) := Post(out.world, q).value;
      KeepsChains(w, out.world, RenderAll(w1, o.ring, ToRender(o.arch, kept)).value);
    }
  }

  /** A sync leaves what the laws of a second run start from: the imports, and the ring pinned again if it changed. */
  lemma SyncSettles(w: World, o: Options, f: Fetch)
    requires Good(w) && Ready(w) && SyncJob(w, o, f).Some?
    ensures f.Fetched? && var out := Run(w, o, f.ups, f.downloads);
            out.add <= out.world.db.index.Keys && Settles(w, o, out, SyncJob(w, o, f).value)
  {
    SyncKeeps(w, o, f);
    var out := Run(w, o, f.ups, f.downloads);
    var q := PinRequest(o, out.add, out.remove);
    SyncSteps(w, o, f);
    PinsAreKnown(w, o, f.ups, f.downloads);
    AllKnownKeys(out.world.db, o.arch, out.add);
    GoodGrows(w, out.world);
    SameSelections(w, out.world);
    assert q.ring == o.ring;
    hide Run, Post, RenderAll, ToRender, Good, Ready, Keeps, Repinned;
    if out.changed {
      AlignPost(out.world, o, out.add, out.remove);
      PostEffect(out.world, q);
      PostAndRender(out.world, q, o.arch);
      var (w1, kept) := Post(out.world, q).value;
      RenderAllFixes(w1, o.ring, ToRender(o.arch, kept));
    }
  }

  /**
   * Syncing the same upstream again after a complete sync leaves the whole pool exactly
   * as it was, without a release, exactly when the pool was steady before the first.
   */
  lemma SecondSyncMakesNoRelease(w: World, o: Options, ups: seq<Upstream>, downloads: map<string, Download>,
      again: map<string, Download>)
    requires Good(w) && Ready(w) && SyncJob(w, o, Fetched(ups, downloads)).Some?
    requires Apart(ups) && SyncPool.RowsOrdered(w.db.index)
    requires o.limit == 0 && o.source !in o.deferTo && Run(w, o, ups, downloads).failed == 0
    ensures var w1 := SyncJob(w, o, Fetched(ups, downloads)).value;
            SyncTwice.Steady(w, o, Wanted(w, o, ups))
            <==> (Ready(w1) && SyncJob(w1, o, Fetched(ups, again)) == Some(w1))
  {
    hide *;
    var f, g := Fetched(ups, downloads), Fetched(ups, again);
    SyncKeeps(w, o, f);
    SyncSettles(w, o, f);
    var w1 := SyncJob(w, o, f).value;
    KeepsGood(w, w1);
    GoodIsReady(w1);
    IsFirstRun(w, o, ups, downloads, w1);
    SyncTwice.SecondRunIsQuiet(w, o, ups, downloads, w1, again);
    SyncTwice.SecondPins(w, o, ups, downloads, w1, again);
    SecondSync(w1, o, g);
  }

  lemma IsFirstRun(w: World, o: Options, ups: seq<Upstream>, downloads: map<string, Download>, w1: World)
    requires Good(w) && Apart(ups) && SyncPool.RowsOrdered(w.db.index)
    requires o.limit == 0 && o.source !in o.deferTo && Run(w, o, ups, downloads).failed == 0
    requires var out := Run(w, o, ups, downloads);
             out.add <= out.world.db.index.Keys && Settles(w, o, out, w1)
    ensures SyncTwice.FirstRun(w, o, ups, downloads, w1)
  {
    LiveIndexedInv(w.db, o.ring);
    hide Run, Inv, Settles;
  }

  /** A sync without failures makes a release, and so changes the index, exactly when the selection changed. */
  lemma SecondSync(w: World, o: Options, f: Fetch)
    requires Good(w) && Ready(w) && f.Fetched?
    requires var out := Run(w, o, f.ups, f.downloads);
             out.failed == 0 && out.uploaded == 0 && out.world == w
    ensures !Run(w, o, f.ups, f.downloads).changed <==> SyncJob(w, o, f) == Some(w)
  {
    var out := Run(w, o, f.ups, f.downloads);
    var q := PinRequest(o, out.add, out.remove);
    SyncSteps(w, o, f);
    assert !Bails(out);
    PinsAreKnown(w, o, f.ups, f.downloads);
    AlignPost(w, o, out.add, out.remove);
    PostEffect(w, q);
    PostAndRender(w, q, o.arch);
    assert q.ring == o.ring;
    hide Run, Post, RenderAll, ToRender, Good, Ready, Keeps, Repinned;
  }

  lemma AllKnownKeys(db: Db, arch: Arch, add: set<Sha>)
    requires forall p :: p in add ==> Known(db, arch, p)
    ensures add <= db.index.Keys
  {}

  lemma PinRing(o: Options, add: set<Sha>, remove: set<string>)
    ensures PinRequest(o, add, remove).ring == o.ring
  {}

  lemma GoodGrows(w: World, w': World)
    requires Good(w) && Grows(w, w')
    ensures Good(w') && Ready(w')
  {
    GrowthEffect(w, w');
    GoodIsReady(w');
  }

  lemma IndexedGrows(w: World, w': World, arch: Arch, p: Pending)
    requires Grows(w, w') && Indexed(w.db, arch, p)
    ensures Indexed(w'.db, arch, p)
  {}

  /** Collecting imports only: no selection changes before all sources are done. */
  lemma {:induction false} CollectGrows(w: World, sources: seq<Source>, arch: Arch)
    ensures Grows(w, Collect(w, sources).0)
    ensures (forall s :: s in sources ==> s.o.arch == arch) ==>
      forall x :: x in Collect(w, sources).1 ==> Indexed(Collect(w, sources).0.db, arch, x.1)
  {
    if sources == [] {
      V.GrowsSame(w);
    } else {
      hide *;
      var front, s := sources[..|sources| - 1], sources[|sources| - 1];
      assert s in sources;
      CollectGrows(w, front, arch);
      var (w1, waiting) := Collect(w, front);
      CollectLast(w, sources);
      if s.fetch.Fetched? {
        var out := Run(w1, s.o, s.fetch.ups, s.fetch.downloads);
        PinsAreKnown(w1, s.o, s.fetch.ups, s.fetch.downloads);
        GrowsTransitive(w, w1, out.world);
        KnownIsIndexed(out.world.db, s.o.arch, s.o.source, out.add, out.remove);
        forall x | x in waiting && Indexed(w1.db, arch, x.1) ensures Indexed(out.world.db, arch, x.1) {
          IndexedGrows(w1, out.world, arch, x.1);
        }
      }
    }
  }

  lemma KnownIsIndexed(db: Db, arch: Arch, source: string, add: set<Sha>, remove: set<string>)
    requires forall p :: p in add ==> Known(db, arch, p)
    ensures Indexed(db, arch, Pending(source, add, remove))
  {}

  /** What the last source of a batch adds to what waits. */
  lemma CollectLast(w: World, sources: seq<Source>)
    requires sources != []
    ensures var (w1, waiting) := Collect(w, sources[..|sources| - 1]);
            var s := sources[|sources| - 1];
            var (w2, waiting2) := Collect(w, sources);
            if s.fetch.Unreachable? then w2 == w1 && waiting2 == waiting
            else
              var out := Run(w1, s.o, s.fetch.ups, s.fetch.downloads);
              && w2 == out.world
              && forall x :: x in waiting2 ==> x in waiting || x == (s.o.ring, Pending(s.o.source, out.add, out.remove))
  {
    hide Run, Bails;
  }

  /** What waits for a ring becomes one release with the selection of the whole batch at once. */
  lemma ReleaseRingServes(w: World, ring: Ring, arch: Arch, ps: seq<Pending>)
    requires Good(w) && Ready(w) && forall p :: p in ps ==> Indexed(w.db, arch, p)
    ensures forall x :: x in Adds(ps) ==> x in w.db.index
    ensures ReleaseRing(w, ring, arch, ps).Some?
    ensures var w' := ReleaseRing(w, ring, arch, ps).value;
            && Keeps(w, w') && Ready(w') && w'.db.index == w.db.index
            && w'.db.Live(ring) == AtOnce(w.db, w.db.Live(ring), arch, ps)
               && (forall r :: r != ring ==> w'.db.Live(r) == w.db.Live(r))
  {
    AddsIndexed(w.db, arch, ps);
    LiveIndexedInv(w.db, ring);
    hide *;
    ReleaseSteps(w, ring, arch, ps);
    if ps == [] {
      NothingAtOnce(w.db, w.db.Live(ring), arch);
      V.GrowsSame(w);
      GrowthKeeps(w, w);
    } else {
      var q := BatchRequest(ring, arch, ps);
      BatchRequestIsAtOnce(w.db, ring, arch, ps);
      BatchPosts(w, ring, arch, ps);
      PostEffect(w, q);
      PostAndRender(w, q, arch);
      var (w1, kept) := Post(w, q).value;
      var w' := RenderAll(w1, ring, ToRender(arch, kept)).value;
      KeepsGood(w, w');
      GoodIsReady(w');
    }
  }

  lemma ReleaseSteps(w: World, ring: Ring, arch: Arch, ps: seq<Pending>)
    requires Ready(w)
    ensures ps == [] ==> ReleaseRing(w, ring, arch, ps) == Some(w)
    ensures var p := Post(w, BatchRequest(ring, arch, ps));
            ps != [] && p.Some? ==> ReleaseRing(w, ring, arch, ps)
                                    == RenderAll(p.value.0, ring, ToRender(arch, p.value.1))
  {
    hide Post, RenderAll, ToRender, Ready;
  }

  lemma BatchPosts(w: World, ring: Ring, arch: Arch, ps: seq<Pending>)
    requires Ready(w) && Create(w.db, BatchRequest(ring, arch, ps)).Ok?
    ensures Post(w, BatchRequest(ring, arch, ps)).Some? && BatchRequest(ring, arch, ps).ring == ring
  {
    hide Create;
  }

  /** The ring serves all that waited for it, at once over what it served. */
  ghost predicate ServesBatch(db: Db, live: set<Sha>, live': set<Sha>, arch: Arch, ps: seq<Pending>) {
    (forall x :: x in Adds(ps) ==> x in db.index) && live' == AtOnce(db, live, arch, ps)
  }

  lemma ServesBatchIs(w: World, ring: Ring, arch: Arch, ps: seq<Pending>, live': set<Sha>)
    requires (forall x :: x in Adds(ps) ==> x in w.db.index) && live' == AtOnce(w.db, w.db.Live(ring), arch, ps)
    ensures ServesBatch(w.db, w.db.Live(ring), live', arch, ps)
  {}

  lemma ServesBatchAt(db: Db, db': Db, live: set<Sha>, live': set<Sha>, arch: Arch, ps: seq<Pending>)
    requires ServesBatch(db, live, live', arch, ps) && db'.index == db.index
    ensures ServesBatch(db', live, live', arch, ps)
  {}

  lemma {:induction false} ReleaseRingsServe(w: World, rings: seq<Ring>, arch: Arch, waiting: seq<(Ring, Pending)>)
    requires Good(w) && Ready(w) && (forall x :: x in waiting ==> Indexed(w.db, arch, x.1))
    requires forall i, j :: 0 <= i < j < |rings| ==> rings[i] != rings[j]
    ensures ReleaseRings(w, rings, arch, waiting).Some?
    ensures var w' := ReleaseRings(w, rings, arch, waiting).value;
            && Keeps(w, w') && w'.db.index == w.db.index
            && (forall r :: r in rings ==> ServesBatch(w.db, w.db.Live(r), w'.db.Live(r), arch, OfRing(waiting, r)))
            && (forall r :: r !in rings ==> w'.db.Live(r) == w.db.Live(r))
    decreases |rings|
  {
    hide Good, Ready, Keeps, Indexed, ServesBatch, ReleaseRing;
    if rings == [] {
      V.GrowsSame(w);
      GrowthKeeps(w, w);
    } else {
      var ps := OfRing(waiting, rings[0]);
      ReleaseRingServes(w, rings[0], arch, ps);
      var w1 := ReleaseRing(w, rings[0], arch, ps).value;
      ServesBatchIs(w, rings[0], arch, ps, w1.db.Live(rings[0]));
      KeepsGood(w, w1);
      forall x | x in waiting ensures Indexed(w1.db, arch, x.1) { IndexedSame(w, w1, arch, x.1); }
      ReleaseRingsServe(w1, rings[1..], arch, waiting);
      var w' := ReleaseRings(w1, rings[1..], arch, waiting).value;
      KeepsChains(w, w1, w');
      forall r | r in rings[1..] ensures ServesBatch(w.db, w.db.Live(r), w'.db.Live(r), arch, OfRing(waiting, r)) {
        ServesBatchAt(w1.db, w.db, w1.db.Live(r), w'.db.Live(r), arch, OfRing(waiting, r));
      }
    }
  }

  lemma IndexedSame(w: World, w': World, arch: Arch, p: Pending)
    requires w'.db.index == w.db.index && Indexed(w.db, arch, p)
    ensures Indexed(w'.db, arch, p)
  {}

  /**
   * A batched sync always completes. Every ring serves, at once, what all its sources
   * left to pin - by the laws of batches the same as one release per source, in
   * whatever order, when each pins its own rows.
   */
  lemma BatchServes(w: World, arch: Arch, sources: seq<Source>)
    requires Good(w) && Ready(w) && forall s :: s in sources ==> s.o.arch == arch
    ensures BatchJob(w, arch, sources).Some?
    ensures var (w1, waiting) := Collect(w, sources);
            var w' := BatchJob(w, arch, sources).value;
            && Keeps(w, w') && w'.db.index == w1.db.index
            && forall r :: ServesBatch(w1.db, w.db.Live(r), w'.db.Live(r), arch, OfRing(waiting, r))
  {
    hide *;
    var (w1, waiting) := Collect(w, sources);
    CollectGrows(w, sources, arch);
    AllRings();
    SameSelections(w, w1);
    GoodGrows(w, w1);
    GrowthKeeps(w, w1);
    ReleaseRingsServe(w1, RINGS, arch, waiting);
    KeepsChains(w, w1, ReleaseRings(w1, RINGS, arch, waiting).value);
    BatchSteps(w, arch, sources);
  }

  /**
   * What a batched sync leaves a ring serving is what one release per source would leave,
   * in whatever order, exactly when no source disturbs what another pins.
   */
  lemma BatchIsItsParts(w: World, arch: Arch, sources: seq<Source>, ring: Ring)
    requires Good(w) && Ready(w) && forall s :: s in sources ==> s.o.arch == arch
    ensures BatchJob(w, arch, sources).Some?
    ensures var (w1, waiting) := Collect(w, sources);
            var ps := OfRing(waiting, ring);
            && (forall p :: p in ps ==> Indexed(w1.db, arch, p)) && (forall x :: x in Adds(ps) ==> x in w1.db.index)
            && BatchJob(w, arch, sources).value.db.Live(ring) == AtOnce(w1.db, w.db.Live(ring), arch, ps)
            && (EveryOrderAgrees(w1.db, w.db.Live(ring), arch, ps) <==> NoneDisturbs(w1.db, arch, ps))
  {
    hide *;
    var (w1, waiting) := Collect(w, sources);
    var ps := OfRing(waiting, ring);
    BatchServes(w, arch, sources);
    CollectGrows(w, sources, arch);
    GoodGrows(w, w1);
    V.GoodInv(w1);
    LiveIndexedInv(w1.db, ring);
    SameSelections(w, w1);
    ServesBatchMeans(w1.db, w.db.Live(ring), BatchJob(w, arch, sources).value.db.Live(ring), arch, ps);
    AnyOrderAgrees(w1.db, w.db.Live(ring), arch, ps);
  }

  lemma ServesBatchMeans(db: Db, live: set<Sha>, live': set<Sha>, arch: Arch, ps: seq<Pending>)
    requires ServesBatch(db, live, live', arch, ps)
    ensures (forall x :: x in Adds(ps) ==> x in db.index) && live' == AtOnce(db, live, arch, ps)
  {}

  lemma AllRings()
    ensures (forall r :: r in RINGS) && forall i, j :: 0 <= i < j < |RINGS| ==> RINGS[i] != RINGS[j]
  {
    assert RINGS[0] == Edge && RINGS[1] == Rc && RINGS[2] == Stable;
    forall r ensures r in RINGS {
      assert r == Edge || r == Rc || r == Stable;
    }
  }

  lemma SameSelections(w: World, w': World)
    requires Grows(w, w')
    ensures forall r :: w'.db.Live(r) == w.db.Live(r)
  {}

  lemma BatchSteps(w: World, arch: Arch, sources: seq<Source>)
    ensures BatchJob(w, arch, sources) == ReleaseRings(Collect(w, sources).0, RINGS, arch, Collect(w, sources).1)
  {
    var c := Collect(w, sources);
    var r := ReleaseRings(c.0, RINGS, arch, c.1);
    assert BatchJob(w, arch, sources) == r;
  }

  lemma ReleaseRingKeeps(w: World, ring: Ring, arch: Arch, ps: seq<Pending>)
    requires Good(w) && ReleaseRing(w, ring, arch, ps).Some?
    ensures Keeps(w, ReleaseRing(w, ring, arch, ps).value)
  {
    hide Good, Post, RenderAll, ToRender, Keeps;
    if ps == [] {
      V.GrowsSame(w);
      GrowthKeeps(w, w);
    } else {
      PostAndRender(w, BatchRequest(ring, arch, ps), arch);
    }
  }

  lemma {:induction false} ReleaseRingsKeep(w: World, rings: seq<Ring>, arch: Arch, waiting: seq<(Ring, Pending)>)
    requires Good(w) && ReleaseRings(w, rings, arch, waiting).Some?
    ensures Keeps(w, ReleaseRings(w, rings, arch, waiting).value)
    decreases |rings|
  {
    hide Good, Keeps, ReleaseRing;
    if rings == [] {
      V.GrowsSame(w);
      GrowthKeeps(w, w);
    } else {
      var ps := OfRing(waiting, rings[0]);
      ReleaseRingKeeps(w, rings[0], arch, ps);
      var w1 := ReleaseRing(w, rings[0], arch, ps).value;
      KeepsGood(w, w1);
      ReleaseRingsKeep(w1, rings[1..], arch, waiting);
      KeepsChains(w, w1, ReleaseRings(w1, rings[1..], arch, waiting).value);
    }
  }

  /** Even a batch that mixes architectures keeps everything right when it completes. */
  lemma BatchKeeps(w: World, arch: Arch, sources: seq<Source>)
    requires Good(w) && BatchJob(w, arch, sources).Some?
    ensures Keeps(w, BatchJob(w, arch, sources).value)
  {
    hide *;
    CollectGrows(w, sources, arch);
    var (w1, waiting) := Collect(w, sources);
    GoodGrows(w, w1);
    GrowthKeeps(w, w1);
    BatchSteps(w, arch, sources);
    ReleaseRingsKeep(w1, RINGS, arch, waiting);
    KeepsChains(w, w1, ReleaseRings(w1, RINGS, arch, waiting).value);
  }

  // ---------- the other jobs ----------

  lemma ConfinedKeeps(w: World, w': World, ring: Ring)
    requires Confined(w, w', ring) && forall a :: RenderedAt(w, ring, a) ==> RenderedAt(w', ring, a)
    ensures Keeps(w, w')
  {
    hide Good, RenderedAt;
  }

  /** A rollback of one architecture into a ring without a release copies both and renders one. */
  lemma RollbackIntoEmptyRing(w: World, ring: Ring, to: nat, only: Arch, worker: Arch)
    requires Good(w) && Ready(w) && ring !in w.db.heads && to < |w.db.releases|
    ensures RollbackJob(w, ring, to, Some(only), worker).Some?
    ensures var w' := RollbackJob(w, ring, to, Some(only), worker).value;
            && Confined(w, w', ring) && w'.db.Live(ring) == Members(w.db.releases, to) && RenderedAt(w', ring, only)
            && (RenderedAt(w', ring, only.Other()) <==> In(w.db, Members(w.db.releases, to), only.Other()) == {})
  {
    hide *;
    var q := RollbackRequest(ring, to, Some(only));
    IsCopy(w, ring, to, Some(only));
    CopyWhole(w, q, to);
    RollbackJobIs(w, ring, to, Some(only), worker);
    RendersJust(worker, only);
    var w1 := Post(w, q).value.0;
    NothingPublished(w, ring);
    PostPublishes(w, q);
    ThenRender(w, w1, ring, [only]);
    RenderOneArch(w1, ring, only);
    var w' := RenderAll(w1, ring, [only]).value;
    SameLive(w1.db, w'.db, ring);
    SameRows(w1, w', ring);
    InOnly(only);
    MemberRows(w, w', ring, to, only.Other());
  }

  lemma MemberRows(w: World, w': World, ring: Ring, id: nat, arch: Arch)
    requires Good(w) && Ready(w) && id < |w.db.releases| && Confined(w, w', ring)
      && w'.db.Live(ring) == Members(w.db.releases, id)
    ensures RowsOf(w', ring, arch) == In(w.db, Members(w.db.releases, id), arch)
  {
    MembersIndexed(w.db, id);
    assert forall p :: p in w.db.index ==> p in w'.db.index && w'.db.index[p] == w.db.index[p];
    hide Good, Members, Confined;
  }

  lemma InOnly(only: Arch)
    ensures only in [only]
  {}

  lemma RendersJust(worker: Arch, only: Arch)
    ensures ToRender(worker, {only.Other()}) == [only]
  {}

  /** A fast-track: the fixes when it is healthy, exactly the selection before when it is not. */
  lemma FastTrackServes(w: World, ring: Ring, add: set<Sha>, healthy: Arch -> bool)
    requires Good(w) && Ready(w) && add != {}
    ensures var r := FastTrackJob(w, ring, add, healthy);
            && (r.None? <==> !(add <= w.db.index.Keys) || (!Healthy(BOTH, healthy) && ring !in w.db.heads))
            && (r.Some? ==> Confined(w, r.value, ring) && (forall a :: RenderedAt(r.value, ring, a)))
            && (r.Some? && Healthy(BOTH, healthy) ==> r.value.db.Live(ring) == V.Overlay(w.db, w.db.Live(ring), add))
            && (r.Some? && !Healthy(BOTH, healthy) ==> r.value.db.Live(ring) == w.db.Live(ring))
  {
    hide *;
    var q := AddRequest(ring, add, None);
    AddPosts(w, ring, add, None);
    FastTrackSteps(w, ring, add, healthy);
    if add <= w.db.index.Keys {
      var w1 := Post(w, q).value.0;
      PostConfined(w, q);
      AddedServes(w, ring, add, None);
      ConfinedIsGood(w, w1, ring);
      GoodIsReady(w1);
      VerifyWhole(w, w1, ring, healthy);
      var r := RenderAndVerify(w1, ring, None, w.db.Parent(ring), healthy);
      if r.Some? && Healthy(BOTH, healthy) { SameLive(w1.db, r.value.db, ring); }
    }
  }

  lemma AddPosts(w: World, ring: Ring, add: set<Sha>, arch: Option<Arch>)
    requires Good(w) && Ready(w)
    ensures Post(w, AddRequest(ring, add, arch)).Some? <==>
      add <= w.db.index.Keys && (arch.Some? ==> forall p :: p in add ==> Known(w.db, arch.value, p))
    ensures AddRequest(ring, add, arch).ring == ring
  {
    var q := AddRequest(ring, add, arch);
    CreateErrors(w.db, q);
    assert AllIndexed(w.db, q)
      <==> add <= w.db.index.Keys && (arch.Some? ==> forall p :: p in add ==> Known(w.db, arch.value, p));
    hide Inv, Create, AllIndexed;
  }

  lemma AddedServes(w: World, ring: Ring, add: set<Sha>, arch: Option<Arch>)
    requires Good(w) && Ready(w) && add <= w.db.index.Keys && Post(w, AddRequest(ring, add, arch)).Some?
    ensures var w' := Post(w, AddRequest(ring, add, arch)).value.0;
            w'.db.Live(ring) == V.Overlay(w.db, w.db.Live(ring), add) && ring in w'.db.heads
  {
    var q := AddRequest(ring, add, arch);
    PostEffect(w, q);
    AskedOver(w.db, ring, add, arch);
    hide Inv, Post, RenderedAt, Asked, V.Overlay, SourceOf, AllIndexed;
  }

  lemma AskedOver(db: Db, ring: Ring, add: set<Sha>, arch: Option<Arch>)
    requires Inv(db) && add <= db.index.Keys
    requires SourceOf(db, AddRequest(ring, add, arch)).Ok? && AllIndexed(db, AddRequest(ring, add, arch))
    ensures Asked(db, AddRequest(ring, add, arch)) == V.Overlay(db, db.Live(ring), add)
  {
    LiveIndexedInv(db, ring);
    hide Inv;
    assert Base(db, AddRequest(ring, add, arch), None) == db.Live(ring);
  }

  lemma FastTrackSteps(w: World, ring: Ring, add: set<Sha>, healthy: Arch -> bool)
    requires Ready(w) && add != {}
    ensures var p := Post(w, AddRequest(ring, add, None));
            && (p.None? ==> FastTrackJob(w, ring, add, healthy) == None)
            && (p.Some? && Ready(p.value.0) ==>
                  FastTrackJob(w, ring, add, healthy)
                    == RenderAndVerify(p.value.0, ring, None, w.db.Parent(ring), healthy))
  {
    hide Ready, Post, RenderAndVerify;
  }

  lemma PublishOneGrows(w: World, o: Options, p: Upstream, d: Download)
    requires PublishOne(w, o, p, d).Some?
    ensures Grows(w, PublishOne(w, o, p, d).value.0)
      && PublishOne(w, o, p, d).value.1 in PublishOne(w, o, p, d).value.0.db.index
  {
    ImportOneGrows(w, o, p, d);
    V.GrowsSame(w);
    hide ImportOne, Grows;
  }

  lemma {:induction false} PublishAllGrows(w: World, o: Options, archives: seq<Upstream>, downloads: map<string,
    Download>)
    requires PublishAll(w, o, archives, downloads).Some?
    ensures var (w1, add) := PublishAll(w, o, archives, downloads).value;
            Grows(w, w1) && add <= w1.db.index.Keys
  {
    if archives == [] {
      V.GrowsSame(w);
    } else {
      var n := |archives| - 1;
      var (w1, add) := PublishAll(w, o, archives[..n], downloads).value;
      var p, d := archives[n], FetchOf(downloads, archives[n]);
      PublishAllGrows(w, o, archives[..n], downloads);
      PublishOneGrows(w1, o, p, d);
      GrowsTransitive(w, w1, PublishOne(w1, o, p, d).value.0);
      hide PublishOne, FetchOf, Grows;
    }
  }

  lemma PinSteps(w: World, arch: Arch, add: set<Sha>)
    requires Ready(w)
    ensures var p := Post(w, AddRequest(Edge, add, Some(arch)));
            PinPublished(w, arch, add) == if p.None? then None else RenderAll(p.value.0, Edge, [arch, arch.Other()])
  {
    hide Ready, Post, RenderAll;
  }

  lemma PinServes(w: World, arch: Arch, add: set<Sha>)
    requires Good(w) && Ready(w) && add <= w.db.index.Keys
    ensures var r := PinPublished(w, arch, add);
            && (r.Some? <==> forall p :: p in add ==> Known(w.db, arch, p))
            && (r.Some? ==> Confined(w, r.value, Edge) && (forall a :: RenderedAt(r.value, Edge, a))
                            && r.value.db.Live(Edge) == V.Overlay(w.db, w.db.Live(Edge), add))
  {
    hide *;
    AddPosts(w, Edge, add, Some(arch));
    PinSteps(w, arch, add);
    var q := AddRequest(Edge, add, Some(arch));
    if Post(w, q).Some? {
      var w1 := Post(w, q).value.0;
      PostConfined(w, q);
      AddedServes(w, Edge, add, Some(arch));
      ThenRender(w, w1, Edge, [arch, arch.Other()]);
      SameLive(w1.db, RenderAll(w1, Edge, [arch, arch.Other()]).value.db, Edge);
      BothOf(arch);
    }
  }

  lemma PublishSteps(w: World, arch: Arch, archives: seq<Upstream>, downloads: map<string, Download>)
    ensures var u := PublishAll(w, FactoryOptions(arch), archives, downloads);
            PublishJob(w, arch, archives, downloads)
            == if archives == [] || u.None? || !Ready(u.value.0) then None else PinPublished(u.value.0, arch, u.value.1)
  {
    hide Ready, PublishAll, PinPublished;
  }

  /**
   * A publication completes exactly when every archive is taken and all their bytes are
   * indexed for its architecture; then edge serves them over what it served, on both
   * architectures' databases.
   */
  lemma PublishServes(w: World, arch: Arch, archives: seq<Upstream>, downloads: map<string, Download>)
    requires Good(w)
    ensures var u := PublishAll(w, FactoryOptions(arch), archives, downloads);
            var r := PublishJob(w, arch, archives, downloads);
            && (r.Some? <==> archives != [] && u.Some? && forall p :: p in u.value.1 ==> Known(u.value.0.db, arch, p))
            && (r.Some? ==>
                  && u.value.1 <= u.value.0.db.index.Keys
                  && Confined(w, r.value, Edge) && (forall a :: RenderedAt(r.value, Edge, a))
                  && r.value.db.index == u.value.0.db.index && r.value.objects == u.value.0.objects
                  && r.value.db.Live(Edge) == V.Overlay(u.value.0.db, w.db.Live(Edge), u.value.1))
  {
    hide *;
    var u := PublishAll(w, FactoryOptions(arch), archives, downloads);
    PublishSteps(w, arch, archives, downloads);
    if u.Some? {
      var (w1, add) := u.value;
      PublishAllGrows(w, FactoryOptions(arch), archives, downloads);
      GoodGrows(w, w1);
      GrowthConfined(w, w1, Edge);
      SameSelections(w, w1);
      PinServes(w1, arch, add);
      if PinPublished(w1, arch, add).Some? {
        PinStores(w1, arch, add);
        ConfinedChains(w, w1, PinPublished(w1, arch, add).value, Edge);
      }
    }
  }

  /** Pinning and rendering touch neither rows nor objects. */
  lemma PinStores(w: World, arch: Arch, add: set<Sha>)
    requires Good(w) && Ready(w) && PinPublished(w, arch, add).Some?
    ensures var w' := PinPublished(w, arch, add).value;
            w'.db.index == w.db.index && w'.objects == w.objects
  {
    hide *;
    PinSteps(w, arch, add);
    PostEffect(w, AddRequest(Edge, add, Some(arch)));
    var w1 := Post(w, AddRequest(Edge, add, Some(arch))).value.0;
    RenderAllFixes(w1, Edge, [arch, arch.Other()]);
  }

  lemma BothOf(arch: Arch)
    ensures forall a :: a in [arch, arch.Other()]
  {
    forall a ensures a in [arch, arch.Other()] {
      assert a == arch || a == arch.Other();
    }
  }

  lemma {:induction false} RenderPlacesKeeps(w: World, places: seq<(Ring, Arch)>)
    requires Good(w) && RenderPlaces(w, places).Some?
    ensures var w' := RenderPlaces(w, places).value;
            && Good(w') && w'.db == w.db && w'.objects == w.objects
            && (forall r, a :: RenderedAt(w, r, a) ==> RenderedAt(w', r, a))
            && (forall v :: v in places ==> RenderedAt(w', v.0, v.1))
    decreases |places|
  {
    hide Good, RenderedAt, Render;
    if places != [] {
      RenderFixes(w, places[0].0, places[0].1);
      RenderPlacesKeeps(Render(w, places[0].0, places[0].1).value, places[1..]);
    }
  }

  /** After a verification every place it pinned again is rendered, and the others serve what they did. */
  lemma VerifiedKeeps(w: World, rings: seq<Ring>, arches: seq<Arch>, pinned: map<V.Place, set<Sha>>, refused: set<Sha>,
      w': World)
    requires Good(w) && Verified(w, rings, arches, pinned, refused, w')
    ensures Keeps(w, w')
    ensures forall v :: v in pinned ==> RenderedAt(w', v.0, v.1)
    ensures forall v: V.Place :: v !in pinned ==> RowsOf(w', v.0, v.1) == RowsOf(w, v.0, v.1)
  {
    var w1 :| V.SameStore(w, w1) && V.PinnedOver(w, w1, pinned)
      && V.Repaired(w, V.Places(rings, arches), pinned, refused) && RendersPinned(w1, pinned, w');
    var places: seq<V.Place> :| (forall v :: v in places <==> v in pinned) && RenderPlaces(w1, places) == Some(w');
    assert Good(w1) && Continues(w.db.releases, w1.db.releases) && w1.published == w.published;
    RenderPlacesKeeps(w1, places);
    forall v: V.Place | v !in pinned ensures RowsOf(w', v.0, v.1) == RowsOf(w, v.0, v.1) {
      assert RowsOf(w1, v.0, v.1) == RowsOf(w, v.0, v.1);
      assert w'.db == w1.db;
    }
    forall r, a | RenderedAt(w, r, a) ensures RenderedAt(w', r, a) {
      if (r, a) in places {
        assert RenderedAt(w', (r, a).0, (r, a).1);
      } else {
        assert RowsOf(w1, (r, a).0, (r, a).1) == RowsOf(w, (r, a).0, (r, a).1);
        assert V.IndexGrows(w.db, w1.db);
        UnpinnedRendered(w, w1, r, a);
      }
    }
    hide Good, RenderedAt, RenderPlaces, RowsOf;
  }

  /**
   * A verification right after one that refused nothing, where the stored bytes are
   * indexed as the packages they are stored for: it pins nothing and finds no mismatch.
   */
  lemma SecondVerificationPinsNothing(w0: World, rings: seq<Ring>, arches: seq<Arch>, pinned: map<V.Place, set<Sha>>,
      w: World, again: map<V.Place, set<Sha>>, refused: set<Sha>, w': World)
    requires Verified(w0, rings, arches, pinned, {}, w) && Verified(w, rings, arches, again, refused, w')
    requires forall v, q :: v in V.Places(rings, arches) && q in V.OprRows(w0, v.0, v.1) ==> V.Fits(w0, q)
    ensures again == map[] && forall v :: v in V.Places(rings, arches) ==> V.Clean(w, v)
  {
    VerifiedParts(w0, rings, arches, pinned, {}, w);
    VerifiedParts(w, rings, arches, again, refused, w');
    hide *;
    V.SecondRunPinsNothing(w0, w, V.Places(rings, arches), pinned, again, refused);
  }

  /**
   * In general, in a pool without an object of the download's name: after a verification
   * that refused nothing no place has a mismatch exactly when the pins it was to make replace
   * all that was wrong and are right themselves; then the next one pins nothing, and one that
   * refuses nothing pins nothing only then.
   */
  lemma SecondVerificationIsQuiet(w0: World, rings: seq<Ring>, arches: seq<Arch>, pinned: map<V.Place, set<Sha>>,
      w: World, again: map<V.Place, set<Sha>>, refused: set<Sha>, w': World)
    requires Verified(w0, rings, arches, pinned, {}, w) && Verified(w, rings, arches, again, refused, w')
    requires V.NoObjectPkg(w0)
    ensures (forall v :: v in V.Places(rings, arches) ==> V.Clean(w, v)) <==> V.AllReplaced(w0, V.Places(rings, arches))
    ensures V.AllReplaced(w0, V.Places(rings, arches)) ==> again == map[]
    ensures refused == {} && again == map[] ==> V.AllReplaced(w0, V.Places(rings, arches))
  {
    VerifiedParts(w0, rings, arches, pinned, {}, w);
    VerifiedParts(w, rings, arches, again, refused, w');
    hide *;
    V.SecondRunIsQuiet(w0, w, V.Places(rings, arches), pinned, again, refused);
  }

  lemma VerifiedParts(w: World, rings: seq<Ring>, arches: seq<Arch>, pinned: map<V.Place, set<Sha>>, refused: set<Sha>,
      w': World)
    requires Verified(w, rings, arches, pinned, refused, w')
    ensures V.IndexGrows(w.db, w'.db) && w'.objects == w.objects && V.PinnedOver(w, w', pinned)
    ensures V.NoObjectPkg(w) ==> w'.db.index == w.db.index
    ensures V.Repaired(w, V.Places(rings, arches), pinned, refused)
  {
    hide V.Repaired, V.NoObjectPkg, V.Twice, V.Places;
    var w1 :| V.SameStore(w, w1) && V.PinnedOver(w, w1, pinned)
      && V.Repaired(w, V.Places(rings, arches), pinned, refused) && RendersPinned(w1, pinned, w');
    var places: seq<V.Place> :| (forall v :: v in places <==> v in pinned) && RenderPlaces(w1, places) == Some(w');
    V.StoreIs(w, w1);
    RenderPlacesKeeps(w1, places);
    SamePlaces(w, w1, w', pinned);
  }

  lemma SamePlaces(w: World, w1: World, w': World, pinned: map<V.Place, set<Sha>>)
    requires V.PinnedOver(w, w1, pinned) && w'.db == w1.db
    ensures V.PinnedOver(w, w', pinned)
  {
    forall v: V.Place ensures RowsOf(w', v.0, v.1) == RowsOf(w1, v.0, v.1) { SameRows(w1, w', v.0); }
    hide RowsOf, V.Overlay;
  }

  lemma UnpinnedRendered(w: World, w1: World, r: Ring, a: Arch)
    requires RenderedAt(w, r, a) && RowsOf(w1, r, a) == RowsOf(w, r, a) && V.IndexGrows(w.db, w1.db)
      && w1.published == w.published
    ensures RenderedAt(w1, r, a)
  {
    RenderedSame(w, w1, r, a);
  }

  lemma FastTrackKeeps(w: World, ring: Ring, add: set<Sha>, healthy: Arch -> bool)
    requires Good(w) && Ready(w) && FastTrackJob(w, ring, add, healthy).Some?
    ensures Keeps(w, FastTrackJob(w, ring, add, healthy).value)
  {
    if add == {} {
      V.GrowsSame(w);
      GrowthKeeps(w, w);
    } else {
      hide *;
      FastTrackServes(w, ring, add, healthy);
      ConfinedKeeps(w, FastTrackJob(w, ring, add, healthy).value, ring);
    }
  }

  // ---------- runs ----------

  lemma PromoteKeeps(w: World, from: Ring, to: Ring, only: Option<Arch>, promote: bool, fetch: Arch -> Fetch,
      healthy: Arch -> bool)
    requires Good(w) && Ready(w) && PromoteJob(w, from, to, only, promote, fetch, healthy).Some?
    requires !(promote && only.Some? && to !in w.db.heads)
    ensures Keeps(w, PromoteJob(w, from, to, only, promote, fetch, healthy).value)
  {
    hide *;
    PromoteSkips(w, from, to, only, fetch, healthy);
    if !promote {
      V.GrowsSame(w);
      GrowthKeeps(w, w);
    } else {
      var w' := PromoteJob(w, from, to, only, true, fetch, healthy).value;
      if only.None? {
        PromoteWhole(w, from, to, fetch, healthy);
      } else {
        PromoteOneArch(w, from, to, only.value, fetch, healthy);
        forall a | RenderedAt(w, to, a) ensures RenderedAt(w', to, a) { EitherArch(only.value, a); }
      }
      ConfinedKeeps(w, w', to);
    }
  }

  lemma EitherArch(only: Arch, a: Arch)
    ensures a == only || a == only.Other()
  {}

  lemma PromoteSkips(w: World, from: Ring, to: Ring, only: Option<Arch>, fetch: Arch -> Fetch, healthy: Arch -> bool)
    requires Ready(w)
    ensures PromoteJob(w, from, to, only, false, fetch, healthy) == Some(w)
  {}

  lemma RollbackKeeps(w: World, ring: Ring, to: nat, only: Option<Arch>, worker: Arch)
    requires Good(w) && Ready(w) && RollbackJob(w, ring, to, only, worker).Some?
    requires !(only.Some? && ring !in w.db.heads)
    ensures Keeps(w, RollbackJob(w, ring, to, only, worker).value)
  {
    hide *;
    RollbackJobFails(w, ring, to, only, worker);
    var w' := RollbackJob(w, ring, to, only, worker).value;
    if only.None? {
      RollbackJobWhole(w, ring, to, worker);
    } else {
      RollbackJobOneArch(w, ring, to, only.value, worker);
      forall a | RenderedAt(w, ring, a) ensures RenderedAt(w', ring, a) { EitherArch(only.value, a); }
    }
    ConfinedKeeps(w, w', ring);
  }

  /** A job that opens nothing keeps every database right. */
  lemma ClosedKeeps(w: World, job: Job, w': World)
    requires Good(w) && Step(w, job, w') && !Opens(w, job)
    ensures Keeps(w, w')
  {
    assert Ready(w);
    match job
    case Sync(o, f) =>
      SyncKeeps(w, o, f);
    case Batched(arch, sources) =>
      BatchKeeps(w, arch, sources);
    case Promote(from, to, only, promote, fetch, healthy) =>
      assert !(promote && only.Some? && to !in w.db.heads);
      hide *;
      PromoteKeeps(w, from, to, only, promote, fetch, healthy);
    case Rollback(ring, to, only, worker) =>
      RollbackKeeps(w, ring, to, only, worker);
    case FastTrack(ring, add, healthy) =>
      FastTrackKeeps(w, ring, add, healthy);
    case Publish(arch, archives, downloads) =>
      hide *;
      PublishServes(w, arch, archives, downloads);
      ConfinedKeeps(w, w', Edge);
    case Verification(rings, arches) =>
      var pinned, refused :| Verified(w, rings, arches, pinned, refused, w');
      hide *;
      VerifiedKeeps(w, rings, arches, pinned, refused, w');
    case Rerender(ring, arch) =>
      RenderFixes(w, ring, arch);
      V.GrowsSame(w);
      GrowthKeeps(w, w);
  }

  lemma OpensOnly(w: World, w': World, ring: Ring, only: Arch, fills: bool)
    requires Confined(w, w', ring) && RenderedAt(w', ring, only) && (RenderedAt(w', ring, only.Other()) <==> !fills)
    ensures Good(w') && Continues(w.db.releases, w'.db.releases)
    ensures forall r, a :: RenderedAt(w, r, a) ==>
      (RenderedAt(w', r, a) <==> !(fills && (r, a) == (ring, only.Other())))
  {
    hide Good, RenderedAt;
    forall r, a | RenderedAt(w, r, a) ensures RenderedAt(w', r, a) <==> !(fills && (r, a) == (ring, only.Other())) {
      EitherArch(only, a);
    }
  }

  /**
   * Whatever job completes, in whatever state: the index stays sound, history only
   * grows, and a database that was right stays right - except exactly at the gap, which
   * can be told before the job.
   */
  lemma StepKeeps(w: World, job: Job, w': World)
    requires Good(w) && Step(w, job, w')
    ensures Ready(w) && Good(w') && Continues(w.db.releases, w'.db.releases)
    ensures forall r, a :: RenderedAt(w, r, a) ==> (RenderedAt(w', r, a) <==> Gap(w, job) != Some((r, a)))
  {
    assert Ready(w);
    if !Opens(w, job) {
      assert Gap(w, job).None?;
      hide *;
      ClosedKeeps(w, job, w');
      KeepsIs(w, w');
    } else if job.Promote? {
      var only := job.only.value;
      var fills := RowsOf(w, job.from, only.Other()) != {};
      assert job.promote && job.to !in w.db.heads
        && PromoteJob(w, job.from, job.to, Some(only), true, job.fetch, job.healthy) == Some(w');
      assert Gap(w, job) == if fills then Some((job.to, only.Other())) else None;
      hide *;
      PromoteIntoEmptyRing(w, job.from, job.to, only, job.fetch, job.healthy);
      OpensOnly(w, w', job.to, only, fills);
    } else {
      var only := job.only.value;
      assert job.ring !in w.db.heads && RollbackJob(w, job.ring, job.release, Some(only), job.worker) == Some(w');
      RollbackJobFails(w, job.ring, job.release, Some(only), job.worker);
      var fills := In(w.db, Members(w.db.releases, job.release), only.Other()) != {};
      assert Gap(w, job) == if fills then Some((job.ring, only.Other())) else None;
      hide *;
      RollbackIntoEmptyRing(w, job.ring, job.release, only, job.worker);
      OpensOnly(w, w', job.ring, only, fills);
    }
  }

  lemma KeepsIs(w: World, w': World)
    requires Keeps(w, w')
    ensures Good(w') && Continues(w.db.releases, w'.db.releases)
    ensures forall r, a :: RenderedAt(w, r, a) ==> RenderedAt(w', r, a)
  {
    hide Good, RenderedAt;
  }

  /** An empty pool: no release, no object, no database. */
  const START := World(EMPTY, map[], map[])

  lemma StartIsGood()
    ensures Good(START) && Rendered(START)
  {}

  /** The states a run of completed jobs goes through. */
  ghost predicate Trace(states: seq<World>, jobs: seq<Job>) {
    |states| == |jobs| + 1 && states[0] == START && forall i :: 0 <= i < |jobs| ==>
      Step(states[i], jobs[i], states[i + 1])
  }

  lemma StepRendered(w: World, job: Job, w': World)
    requires Good(w) && Step(w, job, w')
    ensures Ready(w) && Good(w') && Continues(w.db.releases, w'.db.releases)
    ensures Rendered(w) ==> (Rendered(w') <==> Gap(w, job).None?)
  {
    StepKeeps(w, job, w');
    hide Good, Step, RenderedAt, Gap, Ready;
    if Rendered(w) && Gap(w, job).Some? {
      var v := Gap(w, job).value;
      assert Some((v.0, v.1)) == Some(v);
      assert !RenderedAt(w', v.0, v.1);
    }
  }

  /** Over any run: every state is sound and continues the earlier ones; the first wrong database is a gap's, if any. */
  lemma {:induction false} RunKeeps(states: seq<World>, jobs: seq<Job>, n: nat)
    requires Trace(states, jobs) && n < |states|
    ensures forall i :: 0 <= i <= n ==> Good(states[i])
    ensures forall i, j :: 0 <= i <= j <= n ==> Continues(states[i].db.releases, states[j].db.releases)
    ensures forall i :: 0 <= i < n ==> Ready(states[i])
    ensures (forall i :: 0 <= i <= n ==> Rendered(states[i]))
      <==> (forall i :: 0 <= i < n ==> Gap(states[i], jobs[i]).None?)
  {
    hide Good, Rendered, Gap, Step, Ready;
    if n == 0 {
      StartIsGood();
    } else {
      RunKeeps(states, jobs, n - 1);
      assert Step(states[n - 1], jobs[n - 1], states[n - 1 + 1]);
      StepRendered(states[n - 1], jobs[n - 1], states[n]);
      forall i | 0 <= i <= n ensures Continues(states[i].db.releases, states[n].db.releases) {
        if i < n { ContinuesTransitive(states[i].db.releases, states[n - 1].db.releases, states[n].db.releases); }
      }
      hide Continues;
      if forall i :: 0 <= i <= n ==> Rendered(states[i]) {
        assert Rendered(states[n - 1]) && Rendered(states[n]);
      }
    }
  }
}
