/** Pools that show where the jobs' guarantees end, reached by jobs from the empty pool unless said otherwise. */
module Witnesses {
  import opened Common
  import opened Releases
  import opened Creation
  import opened Selections
  import opened Sync
  import opened SyncLaws
  import opened Leftovers
  import opened Batch
  import opened Work
  import opened WorkLaws
  import opened Promotions
  import opened Jobs
  import opened PoolRuns
  import opened Dependency
  import opened Security
  import A = ArchVersion
  import V = Verify

  // ---------- reaching a pool ----------

  /** The pool is the last of a run of completed jobs. */
  ghost predicate Reached(w: World) {
    exists states, jobs :: Trace(states, jobs) && |states| > 0 && states[|states| - 1] == w
  }

  lemma StartReached()
    ensures Reached(START) && Good(START) && Ready(START) && Rendered(START)
  {
    StartIsGood();
    GoodIsReady(START);
    var states: seq<World>, jobs: seq<Job> := [START], [];
    assert Trace(states, jobs);
  }

  lemma StepReached(w: World, job: Job, w': World)
    requires Reached(w) && Step(w, job, w')
    ensures Reached(w')
  {
    hide Trace, Step;
    var states, jobs :| Trace(states, jobs) && |states| > 0 && states[|states| - 1] == w;
    OneMoreStep(states, jobs, job, w');
    assert (states + [w'])[|states + [w']| - 1] == w';
  }

  lemma OneMoreStep(states: seq<World>, jobs: seq<Job>, job: Job, w': World)
    requires Trace(states, jobs) && |states| > 0 && Step(states[|states| - 1], job, w')
    ensures Trace(states + [w'], jobs + [job])
  {
    hide Step;
    var n := |jobs|;
    assert forall i :: 0 <= i < n ==> Step(states[i], jobs[i], states[i + 1]);
    assert (states + [w'])[0] == states[0];
  }

  lemma ReachedIsTidy(w: World)
    requires Reached(w)
    ensures Good(w) && Tidy(w)
  {
    hide *;
    var states, jobs, n := ReachedBy(w);
    RunKeeps(states, jobs, n);
    RunStores(states, jobs, n);
  }

  lemma ReachedBy(w: World) returns (states: seq<World>, jobs: seq<Job>, n: nat)
    requires Reached(w)
    ensures Trace(states, jobs) && n < |states| && states[n] == w
  {
    hide Trace;
    states, jobs :| Trace(states, jobs) && |states| > 0 && states[|states| - 1] == w;
    n := |states| - 1;
  }

  // ---------- syncs of one package ----------

  function Only(p: Upstream, d: Download): Fetch { Fetched([p], map[p.filename := d]) }

  lemma FilterOne<T(!new)>(x: T, f: T -> bool)
    ensures Filter([x], f) == if f(x) then [x] else []
  {
    assert [x][..0] == [];
    assert [] + [x] == [x];
  }

  /** The run of one package no source takes precedence over. */
  lemma RunWants(w: World, o: Options, p: Upstream)
    requires o.deferTo == {} && ByFilename(w.db.index, KeyFor(o, p)).None?
    ensures Wanted(w, o, [p]) == [p] && Colliding(w, o, [p]) == {} && Reuse(w, o, [p]) == {}
    ensures Missing(w, o, [p]) == if Known(w.db, o.arch, p.sha) then [] else [p]
  {
    var owned := OwnedElsewhere(w, o);
    assert owned == {};
    FilterOne(p, (r: Upstream) => r.name !in owned);
    assert Wanted(w, o, [p]) == Filter([p], (r: Upstream) => r.name !in owned);
    assert !Collides(w, o, p);
    assert Colliding(w, o, [p]) == {} && Reuse(w, o, [p]) == {};
    var colliding := Colliding(w, o, [p]);
    FilterOne(p, (r: Upstream) => !Known(w.db, o.arch, r.sha) && r.filename !in colliding);
    assert Missing(w, o, [p]) == Filter([p], (r: Upstream) => !Known(w.db, o.arch, r.sha) && r.filename !in colliding);
  }

  /** The sync of one new package: its import decides. */
  lemma RunOfOne(w: World, o: Options, p: Upstream, d: Download)
    requires o.deferTo == {} && o.limit == 0
    requires ByFilename(w.db.index, KeyFor(o, p)).None? && !Known(w.db, o.arch, p.sha)
    ensures var (w', ok) := ImportOne(w, o, p, d);
            var add: set<Sha> := if ok then {p.sha} else {};
            var remove := Dropped(w, o, [p]);
            var changed := remove != {} || Current(w, o) != add;
            Run(w, o, [p], map[p.filename := d])
            == Outcome(w', add, remove, changed, if ok then 1 else 0, {}, if ok then 0 else 1)
  {
    var ups, downloads := [p], map[p.filename := d];
    RunWants(w, o, p);
    assert FetchOf(downloads, p) == d;
    ImportOfOne(w, o, p, downloads);
    PinsOfOne(w, o, p, ImportOne(w, o, p, d).1);
    hide ImportAll, ImportOne, Missing, Wanted, Dropped, Current, Colliding, Reuse, Pins, Shas, Known, FetchOf;
    assert Limited(o, [p]) == [p];
    NoneKnown(w, o, p);
  }

  lemma PinsOfOne(w: World, o: Options, p: Upstream, ok: bool)
    requires Colliding(w, o, [p]) == {} && Reuse(w, o, [p]) == {} && !Known(w.db, o.arch, p.sha)
    ensures Pins(w, o, [p], if ok then [p] else []) == if ok then {p.sha} else {}
  {
    hide Colliding, Reuse, Known;
    var done := if ok then [p] else [];
    assert Shas(done) == if ok then {p.sha} else {};
  }

  lemma NoneKnown(w: World, o: Options, p: Upstream)
    requires !Known(w.db, o.arch, p.sha)
    ensures (set q | q in [p] && Known(w.db, o.arch, q.sha) :: q.sha) == {}
  {
    hide Known;
  }

  lemma ImportOfOne(w: World, o: Options, p: Upstream, downloads: map<string, Download>)
    ensures var (w', ok) := ImportOne(w, o, p, FetchOf(downloads, p));
            ImportAll(w, o, [p], downloads) == (w', if ok then [p] else [], if ok then [] else [p])
  {
    assert [p][..0] == [];
    assert ImportAll(w, o, [], downloads) == (w, [], []);
    assert [] + [p] == [p];
    hide ImportOne, FetchOf;
  }

  /** A completed sync touches its own ring and no other. */
  lemma SyncRings(w: World, o: Options, f: Fetch)
    requires Good(w) && Ready(w) && SyncJob(w, o, f).Some?
    ensures var w' := SyncJob(w, o, f).value;
            && f.Fetched? && (forall r :: r != o.ring ==> w'.db.Live(r) == w.db.Live(r))
            && w'.db.heads.Keys == w.db.heads.Keys + (if Run(w, o, f.ups, f.downloads).changed then {o.ring} else {})
            && |w'.db.releases| == |w.db.releases| + (if Run(w, o, f.ups, f.downloads).changed then 1 else 0)
  {
    hide *;
    SyncKeeps(w, o, f);
    var out := Run(w, o, f.ups, f.downloads);
    SyncSteps(w, o, f);
    PinsAreKnown(w, o, f.ups, f.downloads);
    GoodGrows(w, out.world);
    SameSelections(w, out.world);
    GrowsParts(w, out.world);
    if out.changed {
      var q := PinRequest(o, out.add, out.remove);
      AlignPost(out.world, o, out.add, out.remove);
      PostEffect(out.world, q);
      PinRing(o, out.add, out.remove);
      PostAndRender(out.world, q, o.arch);
      var (w1, kept) := Post(out.world, q).value;
      SameRings(w1, RenderAll(w1, o.ring, ToRender(o.arch, kept)).value);
    }
  }

  /** One more release of the ring, copied from `source` if any, and nothing else new in the history. */
  predicate OneRelease(db: Db, db': Db, ring: Ring, source: Option<nat>) {
    && Continues(db.releases, db'.releases) && |db'.releases| == |db.releases| + 1
    && db'.heads == db.heads[ring := |db.releases|]
    && db'.releases[|db.releases|].parent == db.Parent(ring) && db'.releases[|db.releases|].source == source
  }

  lemma PostReleases(w: World, q: Request)
    requires Good(w) && Ready(w) && Post(w, q).Some?
    ensures SourceOf(w.db, q).Ok? && OneRelease(w.db, Post(w, q).value.0.db, q.ring, SourceOf(w.db, q).value)
  {
    V.GoodInv(w);
    CreateKeeps(w.db, q);
    hide Good, Inv, Create, Asked, AllIndexed, SourceOf, Continues;
    PostDb(w, q);
  }

  lemma PostDb(w: World, q: Request)
    requires Ready(w) && Post(w, q).Some?
    ensures Create(w.db, q).Ok? && Post(w, q).value.0.db == Create(w.db, q).value.db
  {
    hide Create;
  }

  /** A sync that changes the ring makes one release that is no copy. */
  lemma SyncReleases(w: World, o: Options, f: Fetch)
    requires Good(w) && Ready(w) && SyncJob(w, o, f).Some? && f.Fetched? && Run(w, o, f.ups, f.downloads).changed
    ensures OneRelease(w.db, SyncJob(w, o, f).value.db, o.ring, None)
  {
    hide *;
    SyncKeeps(w, o, f);
    var out := Run(w, o, f.ups, f.downloads);
    SyncSteps(w, o, f);
    PinsAreKnown(w, o, f.ups, f.downloads);
    GoodGrows(w, out.world);
    GrowsParts(w, out.world);
    var q := PinRequest(o, out.add, out.remove);
    AlignPost(out.world, o, out.add, out.remove);
    PinRing(o, out.add, out.remove);
    PostAndRender(out.world, q, o.arch);
    PostReleases(out.world, q);
    PinIsNoCopy(out.world.db, o, out.add, out.remove);
    SameHistory(w.db, out.world.db, SyncJob(w, o, f).value.db, o.ring);
  }

  lemma PinIsNoCopy(db: Db, o: Options, add: set<Sha>, remove: set<string>)
    ensures SourceOf(db, PinRequest(o, add, remove)) == Ok(None)
  {}

  lemma SameHistory(db: Db, db1: Db, db2: Db, ring: Ring)
    requires db1.releases == db.releases && db1.heads == db.heads && OneRelease(db1, db2, ring, None)
    ensures OneRelease(db, db2, ring, None)
  {
    hide Continues;
  }

  lemma GrowsParts(w: World, w': World)
    requires Grows(w, w')
    ensures w'.db.heads == w.db.heads && w'.db.releases == w.db.releases
  {}

  lemma SameRings(w: World, w': World)
    requires w'.db == w.db
    ensures forall r :: w'.db.Live(r) == w.db.Live(r)
  {}

  /** No row of the source is served there. */
  ghost predicate Unserved(w: World, o: Options) { Current(w, o) == {} }

  /** A sync that pins one package over what the ring served. */
  lemma OnePinned(w: World, o: Options, f: Fetch, out: Outcome, x: Sha) returns (w': World)
    requires Reached(w) && Good(w) && Ready(w) && Rendered(w)
    requires f.Fetched? && Run(w, o, f.ups, f.downloads) == out && !Bails(out)
    requires out.changed && out.add == {x} && out.remove == {}
    ensures Reached(w') && Good(w') && Ready(w') && Rendered(w')
    ensures w'.db.index == out.world.db.index && w'.objects == out.world.objects && x in w'.db.index
    ensures w'.db.Live(o.ring) == V.Overlay(w'.db, w.db.Live(o.ring), {x})
    ensures (forall r :: r != o.ring ==> w'.db.Live(r) == w.db.Live(r))
      && w'.db.heads.Keys == w.db.heads.Keys + {o.ring}
  {
    hide *;
    SyncKeeps(w, o, f);
    w' := SyncJob(w, o, f).value;
    SyncSettles(w, o, f);
    SyncRings(w, o, f);
    SettlesAs(w, o, out, w');
    KeepsGood(w, w');
    GoodIsReady(w');
    IsSync(w, o, f, w');
    StepReached(w, Job.Sync(o, f), w');
    StepRendered(w, Job.Sync(o, f), w');
    NoGap(w, o, f);
    RepinnedIsOverlay(w'.db, w.db.Live(o.ring), o, x);
  }

  /** A source's first package into a ring: it is served beside what the ring served. */
  lemma FirstSync(w: World, o: Options, p: Upstream, d: Download) returns (w': World)
    requires Reached(w) && Good(w) && Ready(w) && Rendered(w)
    requires o.deferTo == {} && o.limit == 0 && Unserved(w, o)
    requires ByFilename(w.db.index, KeyFor(o, p)).None? && p.sha !in w.db.index && ImportOne(w, o, p, d).1
    ensures Reached(w') && Good(w') && Ready(w') && Rendered(w')
    ensures w'.db.index == w.db.index[p.sha := NewRow(w, o, p)] && w'.objects == ImportOne(w, o, p, d).0.objects
    ensures w'.db.Live(o.ring) == V.Overlay(w'.db, w.db.Live(o.ring), {p.sha})
    ensures (forall r :: r != o.ring ==> w'.db.Live(r) == w.db.Live(r))
      && w'.db.heads.Keys == w.db.heads.Keys + {o.ring}
  {
    RunOfOne(w, o, p, d);
    NothingDropped(w, o, p);
    ImportIndexes(w, o, p, d);
    var out := Run(w, o, [p], map[p.filename := d]);
    assert out.changed && out.add == {p.sha} && out.remove == {} && out.failed == 0;
    assert !Bails(out);
    hide *;
    OnlyIs(p, d);
    w' := OnePinned(w, o, Only(p, d), out, p.sha);
  }

  lemma OnlyIs(p: Upstream, d: Download)
    ensures Only(p, d) == Fetched([p], map[p.filename := d])
  {}

  lemma NothingDropped(w: World, o: Options, p: Upstream)
    requires Unserved(w, o)
    ensures Current(w, o) == {} && Dropped(w, o, [p]) == {}
  {}

  lemma ImportIndexes(w: World, o: Options, p: Upstream, d: Download)
    requires p.sha !in w.db.index && ImportOne(w, o, p, d).1
    ensures ImportOne(w, o, p, d).0.db.index == w.db.index[p.sha := NewRow(w, o, p)]
    ensures !Known(w.db, o.arch, p.sha)
  {
    hide Refused;
  }

  lemma SettlesAs(w: World, o: Options, out: Outcome, w': World)
    requires out.add <= out.world.db.index.Keys && Settles(w, o, out, w') && out.changed && out.remove == {}
    ensures out.add <= w'.db.index.Keys && w'.objects == out.world.objects && w'.db.index == out.world.db.index
    ensures w'.db.Live(o.ring) == Repinned(w'.db, w.db.Live(o.ring), o.source, o.arch, out.add, {})
  {}

  lemma IsSync(w: World, o: Options, f: Fetch, w': World)
    requires Ready(w) && SyncJob(w, o, f) == Some(w')
    ensures Step(w, Job.Sync(o, f), w')
  {
    hide SyncJob;
  }

  lemma NoGap(w: World, o: Options, f: Fetch)
    requires Ready(w)
    ensures Gap(w, Job.Sync(o, f)).None?
  {}

  lemma RepinnedIsOverlay(db: Db, live: set<Sha>, o: Options, x: Sha)
    requires x in db.index
    ensures Repinned(db, live, o.source, o.arch, {x}, {}) == V.Overlay(db, live, {x})
  {}

  // ---------- packages ----------

  /** A name the pool accepts. */
  lemma AcceptedName(prefix: string, ending: string)
    requires ending in PACKAGE_ENDINGS && prefix != "" && forall c :: c in prefix ==> NameChar(c)
    ensures PackageFilename(prefix + ending)
  {
    var f := prefix + ending;
    assert f[|f| - |ending|..] == ending;
    assert forall i :: 0 <= i < |prefix| ==> f[i] == prefix[i] && prefix[i] in prefix;
    assert EndsIn(f, ending);
  }

  const X86_FILE := "foo-1-1" + "-x86_64.pkg.tar.zst"
  const ARM_FILE := "foo-1-1" + "-aarch64.pkg.tar.zst"
  const ANY_FILE := "foo-1-1" + "-any.pkg.tar.zst"

  lemma FilesAreAccepted()
    ensures PackageFilename(X86_FILE) && PackageFilename(ARM_FILE) && PackageFilename(ANY_FILE)
  {
    assert PACKAGE_ENDINGS[0] == "-x86_64.pkg.tar.zst" && PACKAGE_ENDINGS[1] == "-aarch64.pkg.tar.zst"
        && PACKAGE_ENDINGS[2] == "-any.pkg.tar.zst";
    assert forall c :: c in "foo-1-1" ==> c == 'f' || c == 'o' || c == '-' || c == '1';
    assert NameChar('f') && NameChar('o') && NameChar('-') && NameChar('1');
    AcceptedName("foo-1-1", PACKAGE_ENDINGS[0]);
    AcceptedName("foo-1-1", PACKAGE_ENDINGS[1]);
    AcceptedName("foo-1-1", PACKAGE_ENDINGS[2]);
  }

  /** A free key takes the package. */
  lemma FreshImport(w: World, o: Options, p: Upstream, d: Download)
    requires PackageFilename(p.filename) && !d.Broken? && p.sha !in w.db.index && KeyFor(o, p) !in w.objects
    ensures ImportOne(w, o, p, d).1
    ensures ImportOne(w, o, p, d).0.objects
      == w.objects[KeyFor(o, p) := Object(p.sha, p.size, p.size <= SINGLE_PUT_MAX)]
  {
    hide PackageFilename;
  }

  lemma NoAnswer(index: map<Sha, Row>, key: ObjectKey)
    requires forall x :: x in index ==> KeyOf(index[x]) != key
    ensures ByFilename(index, key).None?
  {}

  // ---------- the gap of a promotion ----------

  /** Promoting one architecture into a ring without a release leaves the other's packages without a database. */
  lemma PromotionOpensGap() returns (w: World, job: Job, w': World)
    ensures Reached(w) && Good(w) && Ready(w) && Rendered(w) && AllStored(w)
    ensures job.Promote? && Step(w, job, w') && Gap(w, job).Some? && !Rendered(w')
  {
    hide *;
    var foo := Upstream("foo", "1-1", X86_FILE, "a", 1);
    var bar := Upstream("foo", "1-1", ARM_FILE, "b", 1);
    var o1, o2 := Options("core", X86_64, Edge, 0, {}), Options("core", Aarch64, Edge, 0, {});
    FilesAreAccepted();
    KeysDiffer(o1, foo, o2, bar);
    var w1 := FirstPackage(o1, foo);
    SecondIsFree(w1, o1, foo, o2, bar);
    FreshImport(w1, o2, bar, Signed);
    w := FirstSync(w1, o2, bar, Signed);
    BothAreStored(w1, w, o1, foo, o2, bar);
    OtherArchRows(w1, w, o1, foo, o2, bar);
    OnlyEdge(w1, w, o1, foo);
    var fetch, healthy := (a: Arch) => Unreachable, (a: Arch) => true;
    job := Promote(Edge, Rc, Some(X86_64), true, fetch, healthy);
    PromoteIntoEmptyRing(w, Edge, Rc, X86_64, fetch, healthy);
    w' := PromoteJob(w, Edge, Rc, Some(X86_64), true, fetch, healthy).value;
    IsPromotion(w, Edge, Rc, Some(X86_64), fetch, healthy, w');
    assert X86_64.Other() == Aarch64 by { TheOther(); }
    GapIs(w, Edge, Rc, X86_64, fetch, healthy);
    StepRendered(w, job, w');
  }

  lemma EmptyStart(o: Options, p: Upstream)
    ensures Unserved(START, o) && ByFilename(START.db.index, KeyFor(o, p)).None? && START.db.index == map[]
      && START.objects == map[]
    ensures START.db.heads == map[] && forall r :: START.db.Live(r) == {}
  {}

  /** A pool with one package, served by one ring. */
  ghost predicate Single(w: World, o: Options, p: Upstream) {
    && w.db.index == map[p.sha := NewRow(START, o, p)]
       && w.objects == map[KeyFor(o, p) := Object(p.sha, p.size, p.size <= SINGLE_PUT_MAX)]
    && w.db.Live(o.ring) == {p.sha} && (forall r :: r != o.ring ==> w.db.Live(r) == {}) && w.db.heads.Keys == {o.ring}
  }

  lemma FirstPackage(o: Options, p: Upstream) returns (w: World)
    requires o.deferTo == {} && o.limit == 0 && PackageFilename(p.filename)
    ensures Reached(w) && Good(w) && Ready(w) && Rendered(w) && Single(w, o, p)
  {
    hide *;
    StartReached();
    EmptyStart(o, p);
    FreshImport(START, o, p, Signed);
    w := FirstSync(START, o, p, Signed);
    IsSingle(w, o, p);
  }

  lemma IsSingle(w: World, o: Options, p: Upstream)
    requires w.db.index == START.db.index[p.sha := NewRow(START, o, p)]
    requires w.objects == START.objects[KeyFor(o, p) := Object(p.sha, p.size, p.size <= SINGLE_PUT_MAX)]
    requires w.db.Live(o.ring) == V.Overlay(w.db, START.db.Live(o.ring), {p.sha})
    requires (forall r :: r != o.ring ==> w.db.Live(r) == START.db.Live(r))
      && w.db.heads.Keys == START.db.heads.Keys + {o.ring}
    ensures Single(w, o, p)
  {
    assert V.Overlay(w.db, {}, {p.sha}) == {p.sha};
  }

  /** Another source or architecture has nothing there yet. */
  lemma SecondIsFree(w: World, o1: Options, p1: Upstream, o2: Options, p2: Upstream)
    requires Single(w, o1, p1) && KeyFor(o1, p1) != KeyFor(o2, p2)
    requires o1.arch != o2.arch || o1.source != o2.source
    ensures Unserved(w, o2) && ByFilename(w.db.index, KeyFor(o2, p2)).None?
    ensures KeyFor(o2, p2) !in w.objects && (p1.sha != p2.sha ==> p2.sha !in w.db.index)
  {
    NoAnswer(w.db.index, KeyFor(o2, p2));
    hide ByFilename;
  }

  lemma OtherArchRows(w1: World, w: World, o1: Options, p1: Upstream, o2: Options, p2: Upstream)
    requires Single(w1, o1, p1) && w.db.index == w1.db.index[p2.sha := NewRow(w1, o2, p2)] && p1.sha != p2.sha
      && o1.ring == o2.ring
    requires w.db.Live(o2.ring) == V.Overlay(w.db, w1.db.Live(o2.ring), {p2.sha})
    ensures p2.sha in RowsOf(w, o2.ring, o2.arch)
  {}

  lemma BothAreStored(w1: World, w: World, o1: Options, p1: Upstream, o2: Options, p2: Upstream)
    requires Single(w1, o1, p1) && w.db.index == w1.db.index[p2.sha := NewRow(w1, o2, p2)]
      && KeyFor(o1, p1) != KeyFor(o2, p2)
    requires w.objects == w1.objects[KeyFor(o2, p2) := Object(p2.sha, p2.size, p2.size <= SINGLE_PUT_MAX)]
    requires p1.sha != p2.sha
    ensures AllStored(w)
  {}

  lemma TheOther()
    ensures X86_64.Other() == Aarch64
  {}

  lemma OnlyEdge(w1: World, w: World, o: Options, p: Upstream)
    requires Single(w1, o, p) && o.ring == Edge && w.db.heads.Keys == w1.db.heads.Keys + {Edge}
    ensures Rc !in w.db.heads && Edge in w.db.heads
  {}

  lemma IsPromotion(w: World, from: Ring, to: Ring, only: Option<Arch>, fetch: Arch -> Fetch, healthy: Arch -> bool,
      w': World)
    requires Ready(w) && PromoteJob(w, from, to, only, true, fetch, healthy) == Some(w')
    ensures Step(w, Promote(from, to, only, true, fetch, healthy), w')
  {
    hide PromoteJob;
  }

  lemma GapIs(w: World, from: Ring, to: Ring, only: Arch, fetch: Arch -> Fetch, healthy: Arch -> bool)
    requires Ready(w) && to !in w.db.heads && RowsOf(w, from, only.Other()) != {}
    ensures Gap(w, Promote(from, to, Some(only), true, fetch, healthy)) == Some((to, only.Other()))
  {
    hide RowsOf;
  }

  // ---------- a verification that cannot complete ----------

  lemma NothingReleased(w: World, rings: seq<Ring>, arch: Arch)
    ensures ReleaseRings(w, rings, arch, []) == Some(w)
    decreases |rings|
  {
    if rings != [] { NothingReleased(w, rings[1..], arch); }
  }

  /** A batch whose one import fails completes all the same, and what was uploaded stays. */
  lemma FailedBatch(w: World, o: Options, p: Upstream, d: Download) returns (w': World)
    requires Reached(w) && Good(w) && Ready(w) && Rendered(w) && o.deferTo == {} && o.limit == 0
    requires ByFilename(w.db.index, KeyFor(o, p)).None? && !Known(w.db, o.arch, p.sha) && !ImportOne(w, o, p, d).1
    ensures w' == ImportOne(w, o, p, d).0
    ensures Reached(w') && Good(w') && Ready(w') && Rendered(w')
  {
    RunOfOne(w, o, p, d);
    OnlyIs(p, d);
    w' := ImportOne(w, o, p, d).0;
    var job := Batched(o.arch, [Source(o, Only(p, d))]);
    assert Bails(Run(w, o, [p], map[p.filename := d]));
    CollectOne(w, Source(o, Only(p, d)));
    NothingReleased(w', RINGS, o.arch);
    BatchSteps(w, o.arch, [Source(o, Only(p, d))]);
    hide *;
    IsBatch(w, o.arch, [Source(o, Only(p, d))], w');
    StepReached(w, job, w');
    StepRendered(w, job, w');
    NoBatchGap(w, o.arch, [Source(o, Only(p, d))]);
    GoodIsReady(w');
  }

  lemma CollectOne(w: World, s: Source)
    requires s.fetch.Fetched? && Bails(Run(w, s.o, s.fetch.ups, s.fetch.downloads))
    ensures Collect(w, [s]) == (Run(w, s.o, s.fetch.ups, s.fetch.downloads).world, [])
  {
    assert [s][..0] == [];
    hide Run, Bails;
  }

  lemma IsBatch(w: World, arch: Arch, sources: seq<Source>, w': World)
    requires Ready(w) && BatchJob(w, arch, sources) == Some(w')
    ensures Step(w, Batched(arch, sources), w')
  {
    hide BatchJob;
  }

  lemma NoBatchGap(w: World, arch: Arch, sources: seq<Source>)
    requires Ready(w)
    ensures Gap(w, Batched(arch, sources)).None?
  {}

  /** The bytes are indexed for the other architecture: the upload stays behind without a row. */
  lemma LeftBehind(w: World, o: Options, p: Upstream)
    requires PackageFilename(p.filename) && p.sha in w.db.index && w.db.index[p.sha].arch != o.arch
      && KeyFor(o, p) !in w.objects
    ensures !Known(w.db, o.arch, p.sha) && !ImportOne(w, o, p, Signed).1
    ensures ImportOne(w, o, p, Signed).0
            == w.(objects := w.objects[KeyFor(o, p) := Object(p.sha, p.size, p.size <= SINGLE_PUT_MAX)])
  {
    hide PackageFilename;
  }

  /** Other bytes of the same size are then registered over it, signed as they are: it has no checksum. */
  lemma RegisteredOver(w: World, o: Options, p: Upstream)
    requires PackageFilename(p.filename) && p.sha !in w.db.index
    requires KeyFor(o, p) in w.objects && w.objects[KeyFor(o, p)].size == p.size && !w.objects[KeyFor(o, p)].hashed
    ensures ImportOne(w, o, p, Signed).1 && ImportOne(w, o, p, Signed).0.objects == w.objects
  {
    hide PackageFilename;
  }

  lemma UnreachableAligns(w: World, ring: Ring, fetch: Arch -> Fetch)
    requires forall a :: fetch(a) == Unreachable
    ensures AlignAll(w, ring, BOTH, fetch) == w
  {
    assert BOTH == [X86_64, Aarch64] && BOTH[1..] == [Aarch64] && [Aarch64][1..] == [];
    assert AlignAll(w, ring, [], fetch) == w;
    assert AlignAll(w, ring, [Aarch64], fetch) == w;
  }

  /** A healthy promotion with no channel to align: the ring serves what the other does. */
  lemma Promoting(w: World, from: Ring, to: Ring) returns (w': World)
    requires Reached(w) && Good(w) && Ready(w) && Rendered(w) && from in w.db.heads && from != to
    ensures Reached(w') && Good(w') && Ready(w') && Rendered(w')
    ensures SamePool(w, w') && w'.db.Live(to) == w.db.Live(from) && w'.db.Live(from) == w.db.Live(from)
    ensures OneRelease(w.db, w'.db, to, w.db.Parent(from))
  {
    hide *;
    var fetch, healthy := (a: Arch) => Unreachable, (a: Arch) => true;
    var q := PromoteRequest(from, to, None);
    AllHealthy(healthy);
    PromoteWhole(w, from, to, fetch, healthy);
    w' := PromoteJob(w, from, to, None, true, fetch, healthy).value;
    AlignedIs(w, from, to, None, fetch);
    BothOnly();
    UnreachableAligns(Post(w, q).value.0, to, fetch);
    PromoteIs(w, from, to, None, fetch, healthy);
    PostSame(w, q);
    RenderVerifySame(Post(w, q).value.0, to, None, w.db.Parent(to), healthy);
    SamePoolChain(w, Post(w, q).value.0, w');
    SameRings(Post(w, q).value.0, w');
    ConfinedOthers(w, w', to);
    IsPromotion(w, from, to, None, fetch, healthy, w');
    StepReached(w, Promote(from, to, None, true, fetch, healthy), w');
    StepRendered(w, Promote(from, to, None, true, fetch, healthy), w');
    NoWholeGap(w, from, to, fetch, healthy);
    GoodIsReady(w');
    PostReleases(w, q);
    PromoteSource(w, from, to, None);
    HeadIs(w.db, from);
  }

  lemma HeadIs(db: Db, ring: Ring)
    requires ring in db.heads
    ensures db.Parent(ring) == Some(db.heads[ring])
  {}

  lemma AllHealthy(healthy: Arch -> bool)
    requires forall a :: healthy(a)
    ensures Healthy(BOTH, healthy)
  {}

  lemma BothOnly()
    ensures OnlyOrBoth(None) == BOTH
  {}

  lemma SamePoolChain(a: World, b: World, c: World)
    requires SamePool(a, b) && SamePool(b, c)
    ensures SamePool(a, c)
  {}

  lemma ConfinedOthers(w: World, w': World, ring: Ring)
    requires Confined(w, w', ring)
    ensures forall r :: r != ring ==> w'.db.Live(r) == w.db.Live(r)
  {
    hide Good, RenderedAt;
  }

  lemma NoWholeGap(w: World, from: Ring, to: Ring, fetch: Arch -> Fetch, healthy: Arch -> bool)
    requires Ready(w)
    ensures Gap(w, Promote(from, to, None, true, fetch, healthy)).None?
  {}

  /**
   * Bytes indexed for one architecture, too large for one upload, left behind under the
   * other's key by a failed import, registered over by a signed rebuild of the same size,
   * and promoted: two rings pin the rebuild, the index refuses what is stored, and no
   * verification completes.
   */
  lemma VerificationStops() returns (w: World)
    ensures Reached(w) && !AllStored(w)
    ensures V.NoObjectPkg(w) && V.Twice(w, V.Places(RINGS, BOTH))
    ensures forall w' :: !Step(w, Verification(RINGS, BOTH), w')
  {
    hide *;
    var size := TooLarge();
    var foo, rebuilt := Upstream("foo", "1-1", ANY_FILE, "a", size), Upstream("foo", "1-1", ANY_FILE, "b", size);
    var o1, o2 := Options(V.OPR, Aarch64, Edge, 0, {}), Options(V.OPR, X86_64, Edge, 0, {});
    FilesAreAccepted();
    KeysDiffer(o1, foo, o2, foo);
    var w1 := FirstPackage(o1, foo);
    SecondIsFree(w1, o1, foo, o2, foo);
    SingleRow(w1, o1, foo);
    LeftBehind(w1, o2, foo);
    var w2 := FailedBatch(w1, o2, foo, Signed);
    OnlyObjectsDiffer(w1, w2, o1, foo, o2, rebuilt);
    RegisteredOver(w2, o2, rebuilt);
    var w3 := FirstSync(w2, o2, rebuilt, Signed);
    EdgeHasHead(w2, w3);
    w := Promoting(w3, Edge, Rc);
    ReachedIsTidy(w);
    TidyParts(w);
    BothRingsPin(w1, w2, w3, w, o1, foo, o2, rebuilt);
    forall w' ensures !Step(w, Verification(RINGS, BOTH), w') {
      NoVerification(w, w');
    }
  }

  lemma TooLarge() returns (size: nat)
    ensures size > SINGLE_PUT_MAX
  {
    size := SINGLE_PUT_MAX + 1;
  }

  lemma KeysDiffer(o1: Options, p1: Upstream, o2: Options, p2: Upstream)
    requires o1.arch != o2.arch || o1.source != o2.source
    ensures KeyFor(o1, p1) != KeyFor(o2, p2)
  {}

  lemma SingleRow(w: World, o: Options, p: Upstream)
    requires Single(w, o, p)
    ensures p.sha in w.db.index && w.db.index[p.sha].arch == o.arch
  {}

  lemma OnlyObjectsDiffer(w1: World, w2: World, o1: Options, p: Upstream, o2: Options, q: Upstream)
    requires Single(w1, o1, p) && o1.arch != o2.arch && q.filename == p.filename && q.size == p.size && q.sha != p.sha
      && p.size > SINGLE_PUT_MAX
    requires w2 == w1.(objects := w1.objects[KeyFor(o2, p) := Object(p.sha, p.size, p.size <= SINGLE_PUT_MAX)])
    ensures Unserved(w2, o2) && ByFilename(w2.db.index, KeyFor(o2, q)).None? && q.sha !in w2.db.index
    ensures KeyFor(o2, q) in w2.objects && w2.objects[KeyFor(o2, q)].size == q.size
      && !w2.objects[KeyFor(o2, q)].hashed
  {
    NoAnswer(w2.db.index, KeyFor(o2, q));
    hide ByFilename;
  }

  lemma EdgeHasHead(w: World, w': World)
    requires w'.db.heads.Keys == w.db.heads.Keys + {Edge}
    ensures Edge in w'.db.heads
  {}

  lemma TidyParts(w: World)
    requires Tidy(w)
    ensures V.NoObjectPkg(w)
  {
    hide RowsHeld;
  }

  lemma BothRingsPin(w1: World, w2: World, w3: World, w: World, o1: Options, p: Upstream, o2: Options, q: Upstream)
    requires Single(w1, o1, p) && o1 == Options(V.OPR, Aarch64, Edge, 0, {})
      && o2 == Options(V.OPR, X86_64, Edge, 0, {})
    requires q.filename == p.filename && q.sha != p.sha
    requires w2 == w1.(objects := w1.objects[KeyFor(o2, p) := Object(p.sha, p.size, p.size <= SINGLE_PUT_MAX)])
    requires w3.db.index == w2.db.index[q.sha := NewRow(w2, o2, q)] && w3.objects == w2.objects
    requires w3.db.Live(Edge) == V.Overlay(w3.db, w2.db.Live(Edge), {q.sha})
    requires SamePool(w3, w) && w.db.Live(Edge) == w3.db.Live(Edge) && w.db.Live(Rc) == w3.db.Live(Edge)
    ensures V.Twice(w, V.Places(RINGS, BOTH)) && !AllStored(w)
  {
    var x := q.sha;
    assert w.db.index[x] == NewRow(w2, o2, q) && KeyOf(w.db.index[x]) == KeyFor(o2, p);
    assert w.objects[KeyFor(o2, p)].sha == p.sha && w.db.index[p.sha].arch == Aarch64;
    assert x in V.OprRows(w, Edge, X86_64) && x in V.OprRows(w, Rc, X86_64);
    assert V.Refusable(w, x) && !StoredAsIndexed(w, x);
    assert RINGS[0] == Edge && RINGS[1] == Rc && BOTH[0] == X86_64;
    hide V.OprRows, V.Refusable;
    var e: V.Place, r: V.Place := (Edge, X86_64), (Rc, X86_64);
    assert e in V.Places(RINGS, BOTH) && r in V.Places(RINGS, BOTH);
    assert x in V.OprRows(w, e.0, e.1) && x in V.OprRows(w, r.0, r.1);
  }

  lemma NoVerification(w: World, w': World)
    requires V.NoObjectPkg(w) && V.Twice(w, V.Places(RINGS, BOTH))
    ensures !Step(w, Verification(RINGS, BOTH), w')
  {
    hide V.NoObjectPkg, V.Twice, V.Places;
  }

  // ---------- a sync that never settles ----------

  /** Listed bytes that are indexed under another source: whatever the pool, every run wants to pin them again. */
  lemma ForeignPinNeverSettles(w: World, o: Options, ups: seq<Upstream>, downloads: map<string, Download>, p: Upstream)
    requires PinnedKnown(w, o, Wanted(w, o, ups), p) && w.db.index[p.sha].source != o.source
    ensures Run(w, o, ups, downloads).changed
  {
    var out := Run(w, o, ups, downloads);
    assert p.sha in out.add && p.sha !in Current(w, o);
  }

  /** The bytes are known under another source, and their filename has no answer under this one. */
  ghost predicate ForeignBytes(w: World, o: Options, p: Upstream) {
    && o.deferTo == {} && o.limit == 0
    && Known(w.db, o.arch, p.sha) && w.db.index[p.sha].source != o.source && ByFilename(w.db.index, KeyFor(o, p)).None?
  }

  lemma RunOfForeign(w: World, o: Options, p: Upstream, d: Download)
    requires ForeignBytes(w, o, p)
    ensures var out := Run(w, o, [p], map[p.filename := d]);
            out.changed && out.world == w && !Bails(out)
  {
    var ups, downloads := [p], map[p.filename := d];
    RunWants(w, o, p);
    assert p in ups;
    assert PinnedKnown(w, o, Wanted(w, o, ups), p);
    ForeignPinNeverSettles(w, o, ups, downloads, p);
    assert ImportAll(w, o, [], downloads) == (w, [], []);
    hide Wanted, Missing, ImportAll, Pins, Dropped, Current;
    assert p.sha in Run(w, o, ups, downloads).known;
  }

  /** Syncing it makes one more release, and leaves the pool where the next sync does the same. */
  lemma ForeignRepeats(w: World, o: Options, p: Upstream, d: Download) returns (w': World)
    requires Reached(w) && Good(w) && Ready(w) && ForeignBytes(w, o, p)
    ensures Step(w, Job.Sync(o, Only(p, d)), w') && |w'.db.releases| == |w.db.releases| + 1
    ensures Reached(w') && Good(w') && Ready(w') && ForeignBytes(w', o, p) && OneRelease(w.db, w'.db, o.ring, None)
  {
    hide *;
    var f := Only(p, d);
    RunOfForeign(w, o, p, d);
    OnlyIs(p, d);
    SyncKeeps(w, o, f);
    w' := SyncJob(w, o, f).value;
    SyncSettles(w, o, f);
    SyncRings(w, o, f);
    SyncReleases(w, o, f);
    KeepsGood(w, w');
    GoodIsReady(w');
    IsSync(w, o, f, w');
    StepReached(w, Job.Sync(o, f), w');
    StillForeign(w, o, p, Run(w, o, [p], map[p.filename := d]), w');
  }

  lemma StillForeign(w: World, o: Options, p: Upstream, out: Outcome, w': World)
    requires ForeignBytes(w, o, p) && out.world == w && out.add <= out.world.db.index.Keys && Settles(w, o, out, w')
    ensures ForeignBytes(w', o, p)
  {}

  /** Two sources that list the same bytes: after the first is synced, the second never settles. */
  lemma TwoSourcesOfOnePackage() returns (w: World, o: Options, p: Upstream)
    ensures Reached(w) && Good(w) && Ready(w) && ForeignBytes(w, o, p)
  {
    hide *;
    p := Upstream("foo", "1-1", X86_FILE, "a", 1);
    o := Options("extra", X86_64, Edge, 0, {});
    FilesAreAccepted();
    KeysDiffer(Options("core", X86_64, Edge, 0, {}), p, o, p);
    w := FirstPackage(Options("core", X86_64, Edge, 0, {}), p);
    SecondIsFree(w, Options("core", X86_64, Edge, 0, {}), p, o, p);
    IsForeign(w, Options("core", X86_64, Edge, 0, {}), p, o);
  }

  lemma IsForeign(w: World, o1: Options, p: Upstream, o2: Options)
    requires Single(w, o1, p) && o1.source != o2.source && o1.arch == o2.arch && o2.deferTo == {} && o2.limit == 0
    requires ByFilename(w.db.index, KeyFor(o2, p)).None?
    ensures ForeignBytes(w, o2, p)
  {
    hide ByFilename;
  }

  // ---------- a batch that is not its parts ----------

  /** The run of a source that lists nothing any more: it drops what the ring serves of it. */
  lemma RunOfNothing(w: World, o: Options)
    ensures var remove := Dropped(w, o, []);
            Run(w, o, [], map[]) == Outcome(w, {}, remove, remove != {} || Current(w, o) != {}, 0, {}, 0)
  {
    hide Current, OwnedElsewhere, Known, Dropped;
    assert Wanted(w, o, []) == [] && Missing(w, o, []) == [] && ImportAll(w, o, [], map[]) == (w, [], []);
    assert Pins(w, o, [], []) == {};
  }

  /** The run of bytes known under another source pins them. */
  lemma ForeignPart(w: World, o: Options, p: Upstream, d: Download)
    requires ForeignBytes(w, o, p) && Unserved(w, o)
    ensures var out := Run(w, o, [p], map[p.filename := d]);
            out.changed && out.world == w && out.failed == 0 && out.add == {p.sha} && out.remove == {}
  {
    RunOfForeign(w, o, p, d);
    RunWants(w, o, p);
    NothingDropped(w, o, p);
    PinsKnown(w, o, p);
    assert ImportAll(w, o, [], map[p.filename := d]) == (w, [], []);
    hide Wanted, Missing, ImportAll, Pins, Dropped, Current;
  }

  lemma PinsKnown(w: World, o: Options, p: Upstream)
    requires Known(w.db, o.arch, p.sha) && Colliding(w, o, [p]) == {} && Reuse(w, o, [p]) == {}
    ensures Pins(w, o, [p], []) == {p.sha}
  {
    hide Known, Colliding, Reuse;
    assert p in [p];
  }

  /** A source that leaves something to pin, and no new object. */
  ghost predicate Waits(w: World, s: Source, add: set<Sha>, remove: set<string>) {
    s.fetch.Fetched? &&
    var out := Run(w, s.o, s.fetch.ups, s.fetch.downloads);
    && out.world == w && !Bails(out) && out.changed
    && out.add == add && out.remove == remove && (add != {} || remove != {})
  }

  lemma CollectMore(w: World, sources: seq<Source>, s: Source, add: set<Sha>, remove: set<string>)
    requires Waits(w, s, add, remove) && Collect(w, sources).0 == w
    ensures Collect(w, sources + [s]).0 == w
    ensures Collect(w, sources + [s]).1 == Collect(w, sources).1 + [(s.o.ring, Pending(s.o.source, add, remove))]
  {
    assert (sources + [s])[..|sources|] == sources;
    hide Run, Bails;
  }

  lemma CollectNone(w: World)
    ensures Collect(w, []) == (w, [])
  {}

  lemma OfRingTwo(p: Pending, q: Pending)
    ensures OfRing([(Edge, p), (Edge, q)], Edge) == [p, q]
  {
    var waiting := [(Edge, p), (Edge, q)];
    assert waiting[..1] == [(Edge, p)] && waiting[..1][..0] == [];
    assert OfRing(waiting[..1], Edge) == [p];
  }

  /**
   * One source no longer lists a package and another lists its bytes: the batch serves it,
   * and one release per source, the first one's last, does not.
   */
  lemma BatchIsNotItsParts() returns (w: World, sources: seq<Source>)
    ensures Reached(w) && Good(w) && Ready(w) && (forall s :: s in sources ==> s.o.arch == X86_64)
    ensures BatchJob(w, X86_64, sources).Some?
    ensures var (w1, waiting) := Collect(w, sources);
            var ps := OfRing(waiting, Edge);
            && (forall x :: x in Adds(ps) ==> x in w1.db.index)
            && !EveryOrderAgrees(w1.db, w.db.Live(Edge), X86_64, ps)
  {
    hide *;
    var foo := Upstream("foo", "1-1", X86_FILE, "a", 1);
    var core, extra := Options("core", X86_64, Edge, 0, {}), Options("extra", X86_64, Edge, 0, {});
    FilesAreAccepted();
    KeysDiffer(core, foo, extra, foo);
    w := FirstPackage(core, foo);
    SecondIsFree(w, core, foo, extra, foo);
    IsForeign(w, core, foo, extra);
    sources := [Source(core, Fetched([], map[])), Source(extra, Only(foo, Signed))];
    assert forall s :: s in sources ==> s.o.arch == X86_64;
    OnlyIs(foo, Signed);
    RunOfNothing(w, core);
    SingleCurrent(w, core, foo);
    Waiting(w, sources[0], {}, {"foo"});
    ForeignPart(w, extra, foo, Signed);
    Waiting(w, sources[1], {"a"}, {});
    CollectNone(w);
    CollectMore(w, [], sources[0], {}, {"foo"});
    CollectMore(w, [] + [sources[0]], sources[1], {"a"}, {});
    assert sources == [] + [sources[0]] + [sources[1]];
    var waiting := [(Edge, Pending("core", {}, {"foo"})), (Edge, Pending("extra", {"a"}, {}))];
    assert [] + [waiting[0]] + [waiting[1]] == waiting;
    OfRingTwo(Pending("core", {}, {"foo"}), Pending("extra", {"a"}, {}));
    BatchIsItsParts(w, X86_64, sources, Edge);
    FirstDisturbs(w.db, Pending("core", {}, {"foo"}), Pending("extra", {"a"}, {}));
  }

  lemma SingleCurrent(w: World, o: Options, p: Upstream)
    requires Single(w, o, p)
    ensures Current(w, o) == {p.sha} && p.sha in w.db.index && w.db.index[p.sha].name == p.name
    ensures w.db.index[p.sha].source == o.source && w.db.index[p.sha].arch == o.arch
    ensures Dropped(w, o, []) == {p.name}
  {}

  lemma Waiting(w: World, s: Source, add: set<Sha>, remove: set<string>)
    requires s.fetch.Fetched? && (add != {} || remove != {})
    requires var out := Run(w, s.o, s.fetch.ups, s.fetch.downloads);
             out.world == w && out.failed == 0 && out.changed && out.add == add && out.remove == remove
    ensures Waits(w, s, add, remove)
  {
    hide Run;
  }

  lemma FirstDisturbs(db: Db, p: Pending, q: Pending)
    requires p == Pending("core", {}, {"foo"}) && q == Pending("extra", {"a"}, {})
    requires "a" in db.index && db.index["a"].source == "core" && db.index["a"].name == "foo"
      && db.index["a"].arch == X86_64
    requires forall r :: r in [p, q] ==> Indexed(db, X86_64, r)
    ensures !NoneDisturbs(db, X86_64, [p, q])
  {
    assert p in [p, q] && q in [p, q];
    assert "a" in q.add;
    assert !LeavesAlone(db, X86_64, q, p);
  }

  // ---------- a fix beside the vulnerable build ----------

  const FIX_FILE := "foo-2-1" + "-x86_64.pkg.tar.zst"

  const ADVISED := Vulnerable("foo", "1-1", "high", false, ["confirmed"], [(Edge, "2-1")])

  lemma FixIsAccepted()
    ensures PackageFilename(FIX_FILE)
  {
    assert PACKAGE_ENDINGS[0] == "-x86_64.pkg.tar.zst";
    assert forall c :: c in "foo-2-1" ==> c == 'f' || c == 'o' || c == '-' || c == '1' || c == '2';
    assert NameChar('f') && NameChar('o') && NameChar('-') && NameChar('1') && NameChar('2');
    AcceptedName("foo-2-1", PACKAGE_ENDINGS[0]);
  }

  lemma FixIsNewer()
    ensures VersionOrder("2-1", "1-1") == Greater
  {
    BytesOf();
    A.ParseAssembled([], A.TWO, A.ONE);
    A.ParseAssembled([], A.ONE, A.ONE);
    A.OneBelowTwo();
    A.RpmOrderReverses(A.ONE, A.TWO);
    hide A.Parse, Utf8;
  }

  lemma BytesOf()
    ensures Utf8("2-1") == [] + A.TWO + [A.DASH] + A.ONE && Utf8("1-1") == [] + A.ONE + [A.DASH] + A.ONE
    ensures A.SplitEpoch([]) == (0, [])
  {
    assert "2-1"[1..] == "-1" && "1-1"[1..] == "-1" && "-1"[1..] == "1" && "1"[1..] == "";
    assert Utf8("1") == A.ONE && Utf8("-1") == [A.DASH] + A.ONE;
  }

  /** The clean build another source has in edge is found, and is no build of the vulnerable row's source. */
  lemma FixFound(w: World, x: Sha)
    requires x in w.db.index && w.db.index[x].name == "foo" && w.db.index[x].version == "2-1"
      && w.db.index[x].arch == X86_64
    ensures Fix(w.db, [x], X86_64, ADVISED, Edge, "medium") == Some(x)
  {
    hide *;
    AdvisedIs();
    FindsOne(w.db, x, "foo", X86_64, "2-1");
    IsFix(w.db, [x], X86_64, ADVISED, Edge, "medium", "2-1");
  }

  lemma AdvisedIs()
    ensures Candidate(ADVISED, Edge, "medium") && CleanIn(ADVISED.fixedIn, Edge) == Some("2-1") && ADVISED.name == "foo"
  {
    FixIsNewer();
    Confident();
    hide VersionOrder;
    assert SeverityRank("high") <= SeverityRank("medium");
  }

  lemma Confident()
    ensures "confirmed" in ADVISED.matches && "confirmed" != "name-only"
  {
    assert ADVISED.matches[0] == "confirmed" && "confirmed"[0] != "name-only"[0];
  }

  lemma FindsOne(db: Db, x: Sha, name: string, arch: Arch, version: string)
    requires x in db.index && db.index[x].name == name && db.index[x].arch == arch && db.index[x].version == version
    ensures FindFix(db, [x], name, arch, version) == Some(x)
  {}

  lemma IsFix(db: Db, listing: seq<Sha>, arch: Arch, v: Vulnerable, from: Ring, minSeverity: string, version: string)
    requires Candidate(v, from, minSeverity) && CleanIn(v.fixedIn, from) == Some(version)
    ensures Fix(db, listing, arch, v, from, minSeverity) == FindFix(db, listing, v.name, arch, version)
  {
    hide Candidate, FindFix, CleanIn;
  }

  /** The fix comes from another source than the vulnerable build: after a healthy fast-track the ring serves both. */
  lemma VulnerableStays() returns (w: World, ring: Ring, listing: seq<Sha>, views: Arch -> seq<Vulnerable>,
      healthy: Arch -> bool, p: Sha)
    ensures Reached(w) && Good(w) && Ready(w) && Lists(w, Edge, listing) && Healthy(BOTH, healthy)
    ensures p in w.db.Live(ring) && p in w.db.index && w.db.index[p].name == "foo" && w.db.index[p].version == "1-1"
    ensures exists v :: v in views(w.db.index[p].arch) && v.name == "foo" && v.version == "1-1"
                        && Fix(w.db, listing, w.db.index[p].arch, v, Edge, "medium").Some?
    ensures var r := FastTrackJob(w, ring, FastTracked(w, listing, views, Edge, "medium"), healthy);
            r.Some? && p in r.value.db.Live(ring)
  {
    hide *;
    ring := Stable;
    var foo, fixed := Upstream("foo", "1-1", X86_FILE, "a", 1), Upstream("foo", "2-1", FIX_FILE, "b", 1);
    var o1, o2 := Options("core", X86_64, Stable, 0, {}), Options("factory", X86_64, Edge, 0, {});
    FilesAreAccepted();
    FixIsAccepted();
    KeysDiffer(o1, foo, o2, fixed);
    var w1 := FirstPackage(o1, foo);
    SecondIsFree(w1, o1, foo, o2, fixed);
    FreshImport(w1, o2, fixed, Signed);
    w := FirstSync(w1, o2, fixed, Signed);
    TwoRows(w1, w, o1, foo, o2, fixed);
    listing, views, healthy, p := ["b"], (a: Arch) => [ADVISED], (a: Arch) => true, "a";
    AllHealthy(healthy);
    FixFound(w, "b");
    assert ADVISED in views(X86_64);
    Pulled(w, listing, views);
    FixReplaces(w, Stable, Edge, "medium", listing, views, healthy, p);
    NotOwn(w, listing, views);
    TheAdvised();
  }

  lemma TheAdvised()
    ensures ADVISED.name == "foo" && ADVISED.version == "1-1"
  {}

  lemma TwoRows(w1: World, w: World, o1: Options, p1: Upstream, o2: Options, p2: Upstream)
    requires Single(w1, o1, p1) && o1 == Options("core", X86_64, Stable, 0, {})
      && o2 == Options("factory", X86_64, Edge, 0, {})
    requires p1 == Upstream("foo", "1-1", X86_FILE, "a", 1) && p2 == Upstream("foo", "2-1", FIX_FILE, "b", 1)
    requires w.db.index == w1.db.index[p2.sha := NewRow(w1, o2, p2)]
    requires w.db.Live(Edge) == V.Overlay(w.db, w1.db.Live(Edge), {p2.sha}) && w.db.Live(Stable) == w1.db.Live(Stable)
    ensures Lists(w, Edge, ["b"]) && "a" in w.db.Live(Stable)
    ensures w.db.index.Keys == {"a", "b"}
    ensures w.db.index["a"] == NewRow(START, o1, p1) && w.db.index["b"] == NewRow(w1, o2, p2)
    ensures w.db.index["a"].source == "core" && w.db.index["a"].arch == X86_64 && w.db.index["a"].name == "foo"
    ensures w.db.index["a"].version == "1-1" && w.db.index["b"].version == "2-1" && w.db.index["b"].source == "factory"
    ensures w.db.index["b"].arch == X86_64 && w.db.index["b"].name == "foo"
  {
    assert V.Overlay(w.db, {}, {"b"}) == {"b"};
  }

  lemma Pulled(w: World, listing: seq<Sha>, views: Arch -> seq<Vulnerable>)
    requires Lists(w, Edge, listing) && listing == ["b"] && (forall a :: views(a) == [ADVISED])
    requires Fix(w.db, listing, X86_64, ADVISED, Edge, "medium") == Some("b")
    ensures FastTracked(w, listing, views, Edge, "medium") == {"b"}
  {
    FastTrackedAre(w, listing, views, Edge, "medium");
    assert ADVISED in views(X86_64);
    hide FastTracked, Fix;
    forall x | x in FastTracked(w, listing, views, Edge, "medium") ensures x == "b" {
      var a, v :| v in views(a) && Fix(w.db, listing, a, v, Edge, "medium") == Some(x);
      FixComesFrom(w, listing, a, v);
    }
  }

  lemma FixComesFrom(w: World, listing: seq<Sha>, a: Arch, v: Vulnerable)
    ensures Fix(w.db, listing, a, v, Edge, "medium").Some? ==> Fix(w.db, listing, a, v, Edge, "medium").value in listing
  {
    hide VersionOrder;
  }

  lemma NotOwn(w: World, listing: seq<Sha>, views: Arch -> seq<Vulnerable>)
    requires "a" in w.db.index && "b" in w.db.index && w.db.index["b"].source != w.db.index["a"].source
      && listing == ["b"]
    ensures !exists v :: v in views(w.db.index["a"].arch) && OwnFix(w, listing, v, Edge, "medium", w.db.index["a"])
  {
    forall v ensures !OwnFix(w, listing, v, Edge, "medium", w.db.index["a"]) {
      FixComesFrom(w, listing, w.db.index["a"].arch, v);
    }
    hide Fix;
  }

  // ---------- a row without its object ----------

  /**
   * A row marked as naming no stored object, as the move of the objects into their
   * sources' directories leaves them, is pinned like any known one.
   */
  lemma StaleRowIsPinned() returns (w: World, o: Options, p: Upstream)
    ensures Good(w) && RowsDistinct(w.db.index) && AnswersStored(w)
    ensures p.sha in Run(w, o, [p], map[p.filename := Signed]).add
    ensures !StoredAsIndexed(Run(w, o, [p], map[p.filename := Signed]).world, p.sha)
  {
    p := Upstream("foo", "1-1", X86_FILE, "a", 1);
    o := Options("core", X86_64, Edge, 0, {});
    var index: map<Sha, Row> := map["a" := Row(0, "core", "foo", "1-1", X86_64, X86_FILE, true)];
    w := START.(db := EMPTY.(index := index));
    StartIsGood();
    GrowthEffect(START, w);
    assert AnswersStored(w);
    KnownIsPinned(w, o, p);
    PinsAreKnown(w, o, [p], map[p.filename := Signed]);
  }

  lemma KnownIsPinned(w: World, o: Options, p: Upstream)
    requires o.deferTo == {} && o.limit == 0 && Known(w.db, o.arch, p.sha) && ByFilename(w.db.index, KeyFor(o, p)).None?
    ensures p.sha in Run(w, o, [p], map[p.filename := Signed]).add
  {
    var ups := [p];
    RunWants(w, o, p);
    assert p in ups;
    hide Wanted, Missing, ImportAll, Reuse, Dropped, Current, Colliding;
  }
}
