/**
 * The pool over whole runs: rows are numbered in order, the index answers for what the
 * pool stores, and every row's bytes lie under its filename - exactly as long as no
 * import is accepted over a leftover.
 */
module PoolRuns {
  import opened Common
  import opened Releases
  import opened Creation
  import opened Selections
  import opened Sync
  import opened SyncLaws
  import opened SyncPool
  import opened Leftovers
  import opened Batch
  import opened Work
  import opened Jobs
  import V = Verify

  // ---------- what an import does to the pool ----------

  /** What every pool keeps that starts empty. */
  ghost predicate Tidy(w: World) {
    RowsOrdered(w.db.index) && V.NoObjectPkg(w) && RowsHeld(w)
  }

  /** From `w` to `w'` the pool stays right exactly when none of the attempts was accepted over a leftover. */
  ghost predicate Accounts(w: World, w': World, attempts: seq<Attempt>) {
    Tidy(w) ==>
      && Tidy(w')
      && (AnswersStored(w') <==> AnswersStored(w) && NoneSpoils(attempts))
      && (AllStored(w') <==> AllStored(w) && NoneOverLeftover(attempts))
  }

  lemma AccountsChain(a: World, b: World, c: World, s: seq<Attempt>, t: seq<Attempt>)
    requires Accounts(a, b, s) && Accounts(b, c, t)
    ensures Accounts(a, c, s + t)
  {
    hide Tidy, AnswersStored, AllStored, Spoils, OverLeftover;
  }

  /** The rows and the objects are as they were. */
  predicate SamePool(w: World, w': World) {
    w'.db.index == w.db.index && w'.objects == w.objects
  }

  lemma SameAccounts(w: World, w': World)
    requires SamePool(w, w')
    ensures Accounts(w, w', [])
  {
    AnswersAre(w);
    AnswersAre(w');
    hide ByFilename, RowsOrdered;
  }

  lemma ChainSame(a: World, b: World, c: World, s: seq<Attempt>)
    requires Accounts(a, b, s) && SamePool(b, c)
    ensures Accounts(a, c, s)
  {
    hide *;
    SameAccounts(b, c);
    AccountsChain(a, b, c, s, []);
    assert s + [] == s;
  }

  lemma ObjectPkgIsRefused(p: Upstream, d: Download)
    requires p.filename == V.OBJECT_PKG
    ensures Refused(p, d)
  {}

  lemma TidyIs(w: World)
    requires Tidy(w)
    ensures RowsOrdered(w.db.index) && V.NoObjectPkg(w) && RowsHeld(w)
  {
    hide RowsOrdered, V.NoObjectPkg, RowsHeld;
  }

  lemma IsTidy(w: World)
    requires RowsOrdered(w.db.index) && V.NoObjectPkg(w) && RowsHeld(w)
    ensures Tidy(w)
  {
    hide RowsOrdered, V.NoObjectPkg, RowsHeld;
  }

  lemma ImportOneNames(w: World, o: Options, p: Upstream, d: Download)
    requires V.NoObjectPkg(w)
    ensures V.NoObjectPkg(ImportOne(w, o, p, d).0)
  {
    ImportOneObjects(w, o, p, d);
    if p.filename == V.OBJECT_PKG {
      ObjectPkgIsRefused(p, d);
      assert ImportOne(w, o, p, d).0 == w;
    }
    hide ImportOne, Refused;
  }

  lemma {:induction false} ImportAllNames(w: World, o: Options, ps: seq<Upstream>, downloads: map<string, Download>)
    requires V.NoObjectPkg(w)
    ensures V.NoObjectPkg(ImportAll(w, o, ps, downloads).0)
  {
    if ps != [] {
      var n := |ps| - 1;
      ImportAllNames(w, o, ps[..n], downloads);
      ImportOneNames(ImportAll(w, o, ps[..n], downloads).0, o, ps[n], FetchOf(downloads, ps[n]));
      hide ImportOne, FetchOf, V.NoObjectPkg;
    }
  }

  lemma ImportsAccount(w: World, o: Options, ps: seq<Upstream>, downloads: map<string, Download>)
    ensures Accounts(w, ImportAll(w, o, ps, downloads).0, Imports(w, o, ps, downloads))
  {
    if Tidy(w) {
      TidyIs(w);
      ImportAllNames(w, o, ps, downloads);
      ImportAllNumbers(w, o, ps, downloads);
      ImportAllHolds(w, o, ps, downloads);
      ImportAllStored(w, o, ps, downloads);
      ImportAllAnswers(w, o, ps, downloads);
      hide *;
      IsTidy(ImportAll(w, o, ps, downloads).0);
    }
    hide ImportAll, Imports, Tidy, AnswersStored, AllStored, NoneSpoils, NoneOverLeftover;
  }

  lemma ImportOneAccounts(w: World, o: Options, p: Upstream, d: Download)
    ensures Accounts(w, ImportOne(w, o, p, d).0, [Attempt(w, o, p, d)])
  {
    hide *;
    var w' := ImportOne(w, o, p, d).0;
    var a := Attempt(w, o, p, d);
    if Tidy(w) {
      TidyIs(w);
      ImportOneNumbers(w, o, p, d);
      ImportOneNames(w, o, p, d);
      ImportOneHolds(w, o, p, d);
      IsTidy(w');
      ImportOneAnswers(w, o, p, d);
      StoredAfter(w, o, p, d);
    }
    OneAccounts(w, w', a);
  }

  lemma OneAccounts(w: World, w': World, a: Attempt)
    requires Tidy(w) ==>
      && Tidy(w')
      && (AnswersStored(w') <==> AnswersStored(w) && !Spoils(a))
      && (AllStored(w') <==> AllStored(w) && !OverLeftover(a))
    ensures Accounts(w, w', [a])
  {
    hide Tidy, AnswersStored, AllStored, Spoils, OverLeftover;
    assert a in [a];
  }

  lemma StoredAfter(w: World, o: Options, p: Upstream, d: Download)
    requires RowsHeld(w)
    ensures AllStored(ImportOne(w, o, p, d).0) <==> AllStored(w) && !OverLeftover(Attempt(w, o, p, d))
  {
    var w' := ImportOne(w, o, p, d).0;
    ImportOneStored(w, o, p, d);
    ImportOneGrows(w, o, p, d);
    assert OverLeftover(Attempt(w, o, p, d)) == AcceptsLeftover(w, o, p, d);
    hide ImportOne, AcceptsLeftover, OverLeftover, StoredAsIndexed, RowsHeld;
    assert forall x :: x in w.db.index ==> x in w'.db.index;
  }

  // ---------- what a job imports ----------

  ghost function RunImports(w: World, o: Options, ups: seq<Upstream>, downloads: map<string, Download>): seq<Attempt> {
    Imports(w, o, Limited(o, Missing(w, o, Wanted(w, o, ups))), downloads)
  }

  lemma RunAccounts(w: World, o: Options, ups: seq<Upstream>, downloads: map<string, Download>)
    ensures Accounts(w, Run(w, o, ups, downloads).world, RunImports(w, o, ups, downloads))
  {
    ImportsAccount(w, o, Limited(o, Missing(w, o, Wanted(w, o, ups))), downloads);
    hide Accounts, ImportAll, Imports, Missing, Wanted, Limited, Pins, Dropped, Current;
  }

  ghost function FetchImports(w: World, o: Options, f: Fetch): seq<Attempt> {
    if f.Unreachable? then [] else RunImports(w, o, f.ups, f.downloads)
  }

  ghost function CollectImports(w: World, sources: seq<Source>): seq<Attempt> {
    if sources == [] then []
    else
      var front, s := sources[..|sources| - 1], sources[|sources| - 1];
      CollectImports(w, front) + FetchImports(Collect(w, front).0, s.o, s.fetch)
  }

  lemma {:induction false} CollectAccounts(w: World, sources: seq<Source>)
    ensures Accounts(w, Collect(w, sources).0, CollectImports(w, sources))
  {
    hide Run, RunImports, Accounts, Bails;
    if sources == [] {
      SameAccounts(w, w);
    } else {
      var front, s := sources[..|sources| - 1], sources[|sources| - 1];
      var w1 := Collect(w, front).0;
      CollectAccounts(w, front);
      if s.fetch.Unreachable? {
        SameAccounts(w1, w1);
        AccountsChain(w, w1, w1, CollectImports(w, front), []);
      } else {
        RunAccounts(w1, s.o, s.fetch.ups, s.fetch.downloads);
        AccountsChain(w, w1, Run(w1, s.o, s.fetch.ups, s.fetch.downloads).world, CollectImports(w, front),
                      RunImports(w1, s.o, s.fetch.ups, s.fetch.downloads));
      }
    }
  }

  ghost function AlignImports(w: World, ring: Ring, arches: seq<Arch>, fetch: Arch -> Fetch): seq<Attempt>
    decreases |arches|
  {
    if arches == [] then []
    else
      var o := OprOptions(ring, arches[0]);
      FetchImports(w, o, fetch(arches[0])) + AlignImports(Align(w, o, fetch(arches[0])), ring, arches[1..], fetch)
  }

  lemma PostSame(w: World, q: Request)
    requires Ready(w) && Post(w, q).Some?
    ensures SamePool(w, Post(w, q).value.0)
  {
    hide Target, Base, Kept, AllIndexed;
  }

  lemma {:induction false} RenderAllSame(w: World, ring: Ring, arches: seq<Arch>)
    requires RenderAll(w, ring, arches).Some?
    ensures SamePool(w, RenderAll(w, ring, arches).value) && RenderAll(w, ring, arches).value.db == w.db
    decreases |arches|
  {
    if arches != [] {
      RenderAllSame(Render(w, ring, arches[0]).value, ring, arches[1..]);
    }
  }

  lemma AlignAccounts(w: World, o: Options, f: Fetch)
    ensures Accounts(w, Align(w, o, f), FetchImports(w, o, f))
  {
    if f.Unreachable? {
      SameAccounts(w, w);
    } else {
      var out := Run(w, o, f.ups, f.downloads);
      RunAccounts(w, o, f.ups, f.downloads);
      var q := PinRequest(o, out.add, out.remove);
      if Ready(out.world) && Post(out.world, q).Some? { PostSame(out.world, q); }
      hide Run, RunImports, Accounts, Ready, Post, SamePool;
      AlignIs(w, o, f);
      SameAccounts(out.world, out.world);
      ChainSame(w, out.world, Align(w, o, f), FetchImports(w, o, f));
    }
  }

  lemma AlignIs(w: World, o: Options, f: Fetch)
    requires f.Fetched?
    ensures SamePool(Run(w, o, f.ups, f.downloads).world, Align(w, o, f))
  {
    var out := Run(w, o, f.ups, f.downloads);
    var q := PinRequest(o, out.add, out.remove);
    if Ready(out.world) && Post(out.world, q).Some? { PostSame(out.world, q); }
    hide Run, Ready, Post;
  }

  lemma {:induction false} AlignAllAccounts(w: World, ring: Ring, arches: seq<Arch>, fetch: Arch -> Fetch)
    ensures Accounts(w, AlignAll(w, ring, arches, fetch), AlignImports(w, ring, arches, fetch))
    decreases |arches|
  {
    hide Accounts, Align, FetchImports;
    if arches == [] {
      SameAccounts(w, w);
    } else {
      var o := OprOptions(ring, arches[0]);
      var w1 := Align(w, o, fetch(arches[0]));
      AlignAccounts(w, o, fetch(arches[0]));
      AlignAllAccounts(w1, ring, arches[1..], fetch);
      AccountsChain(w, w1, AlignAll(w1, ring, arches[1..], fetch), FetchImports(w, o, fetch(arches[0])),
        AlignImports(w1, ring, arches[1..], fetch));
    }
  }

  ghost function PublishImports(w: World, o: Options, archives: seq<Upstream>,
      downloads: map<string, Download>): seq<Attempt>
  {
    if archives == [] then []
    else
      var front, p := archives[..|archives| - 1], archives[|archives| - 1];
      PublishImports(w, o, front, downloads)
      + match PublishAll(w, o, front, downloads)
        case Some((w1, _)) => if Uploads(w1, o, p) then [Attempt(w1, o, p, FetchOf(downloads, p))] else []
        case None => []
  }

  /** The archive has to be uploaded: neither its bytes nor its filename are taken. */
  ghost predicate Uploads(w: World, o: Options, p: Upstream) {
    ByFilename(w.db.index, KeyFor(o, p)).None? && p.sha !in w.db.index
  }

  lemma PublishOneAccounts(w: World, o: Options, p: Upstream, d: Download)
    requires PublishOne(w, o, p, d).Some?
    ensures Accounts(w, PublishOne(w, o, p, d).value.0, if Uploads(w, o, p) then [Attempt(w, o, p, d)] else [])
  {
    ImportOneAccounts(w, o, p, d);
    SameAccounts(w, w);
    hide ImportOne, Accounts;
  }

  lemma {:induction false} PublishAllAccounts(w: World, o: Options, archives: seq<Upstream>,
      downloads: map<string, Download>)
    requires PublishAll(w, o, archives, downloads).Some?
    ensures Accounts(w, PublishAll(w, o, archives, downloads).value.0, PublishImports(w, o, archives, downloads))
  {
    hide Accounts, PublishOne, FetchOf, Uploads;
    if archives == [] {
      SameAccounts(w, w);
    } else {
      var front, p := archives[..|archives| - 1], archives[|archives| - 1];
      PublishAllAccounts(w, o, front, downloads);
      var w1 := PublishAll(w, o, front, downloads).value.0;
      PublishOneAccounts(w1, o, p, FetchOf(downloads, p));
      AccountsChain(w, w1, PublishOne(w1, o, p, FetchOf(downloads, p)).value.0, PublishImports(w, o, front, downloads),
                    if Uploads(w1, o, p) then [Attempt(w1, o, p, FetchOf(downloads, p))] else []);
    }
  }

  /** Every import a job attempts, in order. */
  ghost function ImportsOf(w: World, job: Job): seq<Attempt>
    requires Ready(w)
  {
    match job
    case Sync(o, f) => FetchImports(w, o, f)
    case Batched(_, sources) => CollectImports(w, sources)
    case Promote(from, to, only, promote, fetch, _) =>
      if !promote || Post(w, PromoteRequest(from, to, only)).None? then []
      else AlignImports(Post(w, PromoteRequest(from, to, only)).value.0, to, OnlyOrBoth(only), fetch)
    case Publish(arch, archives, downloads) => PublishImports(w, FactoryOptions(arch), archives, downloads)
    case _ => []
  }

  // ---------- every job ----------

  lemma SyncAccounts(w: World, o: Options, f: Fetch)
    requires SyncJob(w, o, f).Some?
    ensures Accounts(w, SyncJob(w, o, f).value, FetchImports(w, o, f))
  {
    var out := Run(w, o, f.ups, f.downloads);
    RunAccounts(w, o, f.ups, f.downloads);
    var q := PinRequest(o, out.add, out.remove);
    if out.changed {
      PostSame(out.world, q);
      var (w1, kept) := Post(out.world, q).value;
      RenderAllSame(w1, o.ring, ToRender(o.arch, kept));
    }
    assert SamePool(out.world, SyncJob(w, o, f).value) by { hide Run, Post, RenderAll, Ready, Bails, ToRender; }
    hide *;
    ChainSame(w, out.world, SyncJob(w, o, f).value, RunImports(w, o, f.ups, f.downloads));
    FetchedImports(w, o, f);
  }

  lemma FetchedImports(w: World, o: Options, f: Fetch)
    ensures f.Fetched? ==> FetchImports(w, o, f) == RunImports(w, o, f.ups, f.downloads)
  {}

  lemma ReleaseRingSame(w: World, ring: Ring, arch: Arch, ps: seq<Pending>)
    requires ReleaseRing(w, ring, arch, ps).Some?
    ensures SamePool(w, ReleaseRing(w, ring, arch, ps).value)
  {
    if ps != [] {
      PostSame(w, BatchRequest(ring, arch, ps));
      var (w1, kept) := Post(w, BatchRequest(ring, arch, ps)).value;
      RenderAllSame(w1, ring, ToRender(arch, kept));
    }
    hide Post, RenderAll, Ready, ToRender;
  }

  lemma {:induction false} ReleaseRingsSame(w: World, rings: seq<Ring>, arch: Arch, waiting: seq<(Ring, Pending)>)
    requires ReleaseRings(w, rings, arch, waiting).Some?
    ensures SamePool(w, ReleaseRings(w, rings, arch, waiting).value)
    decreases |rings|
  {
    hide ReleaseRing;
    if rings != [] {
      var ps := OfRing(waiting, rings[0]);
      ReleaseRingSame(w, rings[0], arch, ps);
      ReleaseRingsSame(ReleaseRing(w, rings[0], arch, ps).value, rings[1..], arch, waiting);
    }
  }

  lemma BatchAccounts(w: World, arch: Arch, sources: seq<Source>)
    requires BatchJob(w, arch, sources).Some?
    ensures Accounts(w, BatchJob(w, arch, sources).value, CollectImports(w, sources))
  {
    hide *;
    var (w1, waiting) := Collect(w, sources);
    BatchSteps(w, arch, sources);
    CollectAccounts(w, sources);
    ReleaseRingsSame(w1, RINGS, arch, waiting);
    ChainSame(w, w1, BatchJob(w, arch, sources).value, CollectImports(w, sources));
  }

  lemma RenderVerifySame(w: World, ring: Ring, only: Option<Arch>, previous: Option<nat>, healthy: Arch -> bool)
    requires Ready(w) && RenderAndVerify(w, ring, only, previous, healthy).Some?
    ensures SamePool(w, RenderAndVerify(w, ring, only, previous, healthy).value)
  {
    var arches := OnlyOrBoth(only);
    RenderAllSame(w, ring, arches);
    var w1 := RenderAll(w, ring, arches).value;
    if !Healthy(arches, healthy) {
      var q := RollbackRequest(ring, previous.value, only);
      PostSame(w1, q);
      RenderAllSame(Post(w1, q).value.0, ring, arches);
    }
    hide Post, RenderAll, Ready, Healthy, OnlyOrBoth;
  }

  lemma PromoteAccounts(w: World, from: Ring, to: Ring, only: Option<Arch>, fetch: Arch -> Fetch, healthy: Arch -> bool)
    requires Ready(w) && PromoteJob(w, from, to, only, true, fetch, healthy).Some?
    ensures Post(w, PromoteRequest(from, to, only)).Some?
    ensures Accounts(w, PromoteJob(w, from, to, only, true, fetch, healthy).value,
                     AlignImports(Post(w, PromoteRequest(from, to, only)).value.0, to, OnlyOrBoth(only), fetch))
  {
    PromoteIs(w, from, to, only, fetch, healthy);
    hide *;
    var w1 := Post(w, PromoteRequest(from, to, only)).value.0;
    var w2 := AlignAll(w1, to, OnlyOrBoth(only), fetch);
    var w' := PromoteJob(w, from, to, only, true, fetch, healthy).value;
    var attempts := AlignImports(w1, to, OnlyOrBoth(only), fetch);
    PostSame(w, PromoteRequest(from, to, only));
    SameAccounts(w, w1);
    AlignAllAccounts(w1, to, OnlyOrBoth(only), fetch);
    RenderVerifySame(w2, to, only, w.db.Parent(to), healthy);
    ChainSame(w1, w2, w', attempts);
    AccountsChain(w, w1, w', [], attempts);
    assert [] + attempts == attempts;
  }

  lemma PromoteIs(w: World, from: Ring, to: Ring, only: Option<Arch>, fetch: Arch -> Fetch, healthy: Arch -> bool)
    requires Ready(w) && PromoteJob(w, from, to, only, true, fetch, healthy).Some?
    ensures Post(w, PromoteRequest(from, to, only)).Some?
    ensures var w2 := AlignAll(Post(w, PromoteRequest(from, to, only)).value.0, to, OnlyOrBoth(only), fetch);
            Ready(w2) && PromoteJob(w, from, to, only, true, fetch, healthy)
              == RenderAndVerify(w2, to, only, w.db.Parent(to), healthy)
  {
    hide Ready, Post, AlignAll, RenderAndVerify, OnlyOrBoth;
  }

  lemma RollbackSame(w: World, ring: Ring, to: nat, only: Option<Arch>, worker: Arch)
    requires Ready(w) && RollbackJob(w, ring, to, only, worker).Some?
    ensures SamePool(w, RollbackJob(w, ring, to, only, worker).value)
  {
    var q := RollbackRequest(ring, to, only);
    PostSame(w, q);
    RenderAllSame(Post(w, q).value.0, ring, ToRender(worker, if only.Some? then {only.value.Other()} else {}));
    hide Post, RenderAll, Ready, ToRender;
  }

  lemma FastTrackSame(w: World, ring: Ring, add: set<Sha>, healthy: Arch -> bool)
    requires Ready(w) && FastTrackJob(w, ring, add, healthy).Some?
    ensures SamePool(w, FastTrackJob(w, ring, add, healthy).value)
  {
    if add != {} {
      var q := AddRequest(ring, add, None);
      PostSame(w, q);
      RenderVerifySame(Post(w, q).value.0, ring, None, w.db.Parent(ring), healthy);
    }
    hide Post, RenderAndVerify, Ready;
  }

  lemma PublishAccounts(w: World, arch: Arch, archives: seq<Upstream>, downloads: map<string, Download>)
    requires Good(w) && PublishJob(w, arch, archives, downloads).Some?
    ensures Accounts(w, PublishJob(w, arch, archives, downloads).value,
      PublishImports(w, FactoryOptions(arch), archives, downloads))
  {
    hide *;
    var o := FactoryOptions(arch);
    PublishServes(w, arch, archives, downloads);
    PublishAllAccounts(w, o, archives, downloads);
    var w1 := PublishAll(w, o, archives, downloads).value.0;
    var w' := PublishJob(w, arch, archives, downloads).value;
    IsSamePool(w1, w');
    ChainSame(w, w1, w', PublishImports(w, o, archives, downloads));
  }

  lemma IsSamePool(w: World, w': World)
    requires w'.db.index == w.db.index && w'.objects == w.objects
    ensures SamePool(w, w')
  {}

  lemma {:induction false} RenderPlacesSame(w: World, places: seq<V.Place>)
    requires RenderPlaces(w, places).Some?
    ensures SamePool(w, RenderPlaces(w, places).value)
    decreases |places|
  {
    if places != [] {
      RenderPlacesSame(Render(w, places[0].0, places[0].1).value, places[1..]);
    }
  }

  /** A verification indexes something only where an object of the download's own name is stored. */
  lemma VerifiedAccounts(w: World, rings: seq<Ring>, arches: seq<Arch>, pinned: map<V.Place, set<Sha>>,
      refused: set<Sha>, w': World)
    requires Verified(w, rings, arches, pinned, refused, w')
    ensures Accounts(w, w', [])
  {
    if Tidy(w) {
      var w1 :| V.SameStore(w, w1) && V.PinnedOver(w, w1, pinned)
        && V.Repaired(w, V.Places(rings, arches), pinned, refused) && RendersPinned(w1, pinned, w');
      var places: seq<V.Place> :| (forall v :: v in places <==> v in pinned) && RenderPlaces(w1, places) == Some(w');
      RenderPlacesSame(w1, places);
      assert SamePool(w, w');
      SameAccounts(w, w');
    }
  }

  /** A job that attempts no import and leaves rows and objects as they were. */
  lemma SameStepAccounts(w: World, job: Job, w': World)
    requires Ready(w) && ImportsOf(w, job) == [] && SamePool(w, w')
    ensures Accounts(w, w', ImportsOf(w, job))
  {
    hide *;
    SameAccounts(w, w');
  }

  lemma PromoteStepAccounts(w: World, job: Job, w': World)
    requires Good(w) && job.Promote? && Step(w, job, w')
    ensures Ready(w) && Accounts(w, w', ImportsOf(w, job))
  {
    assert Ready(w);
    hide Good, Ready, Post, AlignImports, Accounts;
    if job.promote {
      PromoteAccounts(w, job.from, job.to, job.only, job.fetch, job.healthy);
      hide PromoteJob;
    } else {
      assert w' == w;
      SameAccounts(w, w);
    }
  }

  lemma SameStep(w: World, job: Job, w': World)
    requires Good(w) && Step(w, job, w') && (job.Rollback? || job.FastTrack? || job.Rerender?)
    ensures Ready(w) && ImportsOf(w, job) == [] && SamePool(w, w')
  {
    assert Ready(w);
    hide Good, Ready;
    match job
    case Rollback(ring, to, only, worker) =>
      RollbackSame(w, ring, to, only, worker);
      hide RollbackJob;
    case FastTrack(ring, add, healthy) =>
      FastTrackSame(w, ring, add, healthy);
      hide FastTrackJob;
    case Rerender(ring, arch) =>
  }

  lemma VerificationAccounts(w: World, job: Job, w': World)
    requires Good(w) && job.Verification? && Step(w, job, w')
    ensures Ready(w) && Accounts(w, w', ImportsOf(w, job))
  {
    assert Ready(w) && ImportsOf(w, job) == [];
    var pinned, refused :| Verified(w, job.rings, job.arches, pinned, refused, w');
    hide *;
    VerifiedAccounts(w, job.rings, job.arches, pinned, refused, w');
  }

  lemma ImportStepIs(w: World, job: Job, w': World)
    requires Good(w) && Step(w, job, w')
    ensures Ready(w)
    ensures job.Sync? ==>
      SyncJob(w, job.o, job.upstream) == Some(w') && ImportsOf(w, job) == FetchImports(w, job.o, job.upstream)
    ensures job.Batched? ==>
      BatchJob(w, job.arch, job.sources) == Some(w') && ImportsOf(w, job) == CollectImports(w, job.sources)
    ensures job.Publish? ==>
      && PublishJob(w, job.arch, job.archives, job.downloads) == Some(w')
      && ImportsOf(w, job) == PublishImports(w, FactoryOptions(job.arch), job.archives, job.downloads)
  {
    assert Ready(w);
    hide Good, Ready, SyncJob, BatchJob, PublishJob, FetchImports, CollectImports, PublishImports;
  }

  /** What the job imports decides whether the pool stays right. */
  lemma StepAccounts(w: World, job: Job, w': World)
    requires Good(w) && Step(w, job, w')
    ensures Ready(w) && Accounts(w, w', ImportsOf(w, job))
  {
    hide *;
    ImportStepIs(w, job, w');
    match job
    case Sync(o, f) => SyncAccounts(w, o, f);
    case Batched(arch, sources) => BatchAccounts(w, arch, sources);
    case Promote(_, _, _, _, _, _) => PromoteStepAccounts(w, job, w');
    case Publish(arch, archives, downloads) => PublishAccounts(w, arch, archives, downloads);
    case Verification(_, _) => VerificationAccounts(w, job, w');
    case _ =>
      SameStep(w, job, w');
      SameStepAccounts(w, job, w');
  }

  // ---------- runs ----------

  lemma StartIsTidy()
    ensures Tidy(START) && AnswersStored(START) && AllStored(START)
  {
    AnswersAre(START);
  }

  /** None of the first `n` jobs spoils an answer. */
  ghost predicate Unspoiled(states: seq<World>, jobs: seq<Job>, n: nat)
    requires n <= |jobs| && n <= |states|
  {
    forall i :: 0 <= i < n ==> Ready(states[i]) && NoneSpoils(ImportsOf(states[i], jobs[i]))
  }

  /** None of the first `n` jobs imports over a leftover. */
  ghost predicate NoLeftovers(states: seq<World>, jobs: seq<Job>, n: nat)
    requires n <= |jobs| && n <= |states|
  {
    forall i :: 0 <= i < n ==> Ready(states[i]) && NoneOverLeftover(ImportsOf(states[i], jobs[i]))
  }

  lemma OneMoreJob(states: seq<World>, jobs: seq<Job>, n: nat)
    requires n < |jobs| && n < |states| && Ready(states[n])
    ensures Unspoiled(states, jobs, n + 1) <==> Unspoiled(states, jobs, n) && NoneSpoils(ImportsOf(states[n], jobs[n]))
    ensures NoLeftovers(states, jobs, n + 1)
      <==> NoLeftovers(states, jobs, n) && NoneOverLeftover(ImportsOf(states[n], jobs[n]))
  {
    hide Ready, NoneSpoils, NoneOverLeftover, ImportsOf;
  }

  /**
   * Over any run of completed jobs from the empty pool: rows stay numbered in order and
   * no object has the download's own name; the index answers for what the pool stores as
   * long as no import spoils an answer, and every row's bytes are stored under its
   * filename as long as none is accepted over a leftover - and no longer.
   */
  lemma {:induction false} RunStores(states: seq<World>, jobs: seq<Job>, n: nat)
    requires Trace(states, jobs) && n < |states|
    ensures n <= |jobs| && Tidy(states[n])
    ensures AnswersStored(states[n]) <==> Unspoiled(states, jobs, n)
    ensures AllStored(states[n]) <==> NoLeftovers(states, jobs, n)
  {
    hide *;
    TraceStarts(states, jobs);
    if n == 0 {
      StartIsTidy();
      NoJobs(states, jobs);
    } else {
      RunKeeps(states, jobs, n);
      RunStores(states, jobs, n - 1);
      TraceSteps(states, jobs, n - 1);
      StepAccounts(states[n - 1], jobs[n - 1], states[n]);
      AccountsIs(states[n - 1], states[n], ImportsOf(states[n - 1], jobs[n - 1]));
      OneMoreJob(states, jobs, n - 1);
    }
  }

  lemma NoJobs(states: seq<World>, jobs: seq<Job>)
    ensures Unspoiled(states, jobs, 0) && NoLeftovers(states, jobs, 0)
  {}

  lemma TraceStarts(states: seq<World>, jobs: seq<Job>)
    requires Trace(states, jobs)
    ensures |states| == |jobs| + 1 && states[0] == START
  {}

  lemma TraceSteps(states: seq<World>, jobs: seq<Job>, i: nat)
    requires Trace(states, jobs) && i + 1 < |states|
    ensures i < |jobs| && Step(states[i], jobs[i], states[i + 1])
  {}

  lemma AccountsIs(w: World, w': World, attempts: seq<Attempt>)
    requires Accounts(w, w', attempts) && Tidy(w)
    ensures Tidy(w') && (AnswersStored(w') <==> AnswersStored(w) && NoneSpoils(attempts))
    ensures AllStored(w') <==> AllStored(w) && NoneOverLeftover(attempts)
  {
    hide Tidy, AnswersStored, AllStored, NoneSpoils, NoneOverLeftover;
  }

  /** Then whatever any ring serves is stored under its filename. */
  lemma ServedIsStored(states: seq<World>, jobs: seq<Job>, n: nat)
    requires Trace(states, jobs) && n < |states| && NoLeftovers(states, jobs, n)
    ensures forall r, x :: x in states[n].db.Live(r) ==> StoredAsIndexed(states[n], x)
  {
    RunKeeps(states, jobs, n);
    RunStores(states, jobs, n);
    hide Trace, NoLeftovers, Unspoiled, StoredAsIndexed, Tidy, AnswersStored;
    forall r ensures states[n].db.Live(r) <= states[n].db.index.Keys { LiveIndexedInv(states[n].db, r); }
    hide Good;
  }
}
