/**
 * The jobs as they are written: loops that step the pool through a release, its
 * databases and its checks, each proved to leave what the job's specification says.
 */
module Worker {
  import opened Common
  import opened Releases
  import opened Creation
  import opened Selections
  import opened Sync
  import opened SyncLaws
  import opened SyncPool
  import opened SyncRun
  import opened Batch
  import opened Work
  import opened WorkLaws
  import opened Promotions
  import opened Jobs
  import V = Verify

  // ---------- which object sits under each filename ----------

  /** The rows visited so far, in order of indexing, answer as far as they go. */
  ghost predicate AnswersSoFar(index: map<Sha, Row>, source: string, arch: Arch, rest: set<Sha>,
      byFilename: map<string, Sha>) {
    && rest <= index.Keys
    && (forall p, r :: p in index && p !in rest && r in rest ==> index[p].id <= index[r].id)
    && (forall f :: f in byFilename ==> FirstNamed(index, byFilename[f], (source, arch, f)))
    && (forall f, p :: p in index && p !in rest && Names(index, p, (source, arch, f)) ==> f in byFilename)
  }

  lemma NextAnswer(index: map<Sha, Row>, source: string, arch: Arch, rest: set<Sha>, byFilename: map<string, Sha>,
      p: Sha)
    requires AnswersSoFar(index, source, arch, rest, byFilename)
    requires p in rest && forall r :: r in rest ==> index[p].id <= index[r].id
    ensures var row := index[p];
            var new_ := row.source == source && row.arch == arch && !row.stale && row.filename !in byFilename;
            AnswersSoFar(index, source, arch, rest - {p}, if new_ then byFilename[row.filename := p] else byFilename)
  {
    var row := index[p];
    if row.source == source && row.arch == arch && !row.stale && row.filename !in byFilename {
      forall r | r in index && Names(index, r, (source, arch, row.filename)) ensures index[p].id <= index[r].id {
        assert r in rest;
      }
      assert FirstNamed(index, p, (source, arch, row.filename));
    }
  }

  /** The answer for one filename. */
  ghost predicate AnswerIs(index: map<Sha, Row>, key: ObjectKey, byFilename: map<string, Sha>) {
    && (key.2 in byFilename <==> ByFilename(index, key).Some?)
    && (key.2 in byFilename ==> byFilename[key.2] == ByFilename(index, key).value)
  }

  lemma AnsweredAll(index: map<Sha, Row>, source: string, arch: Arch, byFilename: map<string, Sha>, f: string)
    requires RowsOrdered(index) && AnswersSoFar(index, source, arch, {}, byFilename)
    ensures AnswerIs(index, (source, arch, f), byFilename)
  {
    if f in byFilename {
      ByFilenameUnique(index, byFilename[f], (source, arch, f));
    }
  }

  /** The index's answers for the filenames of one source: rows in order of indexing, the first wins. */
  method KnownFilenames(index: map<Sha, Row>, source: string, arch: Arch) returns (byFilename: map<string, Sha>)
    requires RowsOrdered(index)
    ensures forall f :: AnswerIs(index, (source, arch, f), byFilename)
  {
    byFilename := map[];
    var rest := index.Keys;
    while rest != {}
      invariant AnswersSoFar(index, source, arch, rest, byFilename)
      decreases |rest|
    {
      LowestExists(index, rest);
      var p :| p in rest && forall r :: r in rest ==> index[p].id <= index[r].id;
      NextAnswer(index, source, arch, rest, byFilename, p);
      hide AnswersSoFar;
      var row := index[p];
      if row.source == source && row.arch == arch && !row.stale && row.filename !in byFilename {
        byFilename := byFilename[row.filename := p];
      }
      rest := rest - {p};
    }
    hide AnswersSoFar, RowsOrdered;
    forall f ensures AnswerIs(index, (source, arch, f), byFilename) {
      AnsweredAll(index, source, arch, byFilename, f);
    }
  }

  lemma {:induction false} LowestExists(index: map<Sha, Row>, rest: set<Sha>)
    requires rest != {} && rest <= index.Keys
    ensures exists p :: p in rest && forall r :: r in rest ==> index[p].id <= index[r].id
    decreases |rest|
  {
    var p :| p in rest;
    if exists r :: r in rest && index[r].id < index[p].id {
      var rest' := rest - {p};
      LowestExists(index, rest');
      var q :| q in rest' && forall r :: r in rest' ==> index[q].id <= index[r].id;
      assert index[q].id <= index[p].id;
    }
  }

  // ---------- grouping by source ----------

  function SourcesAmong(db: Db, rows: set<Sha>): set<string> {
    set p | p in rows && p in db.index :: db.index[p].source
  }

  function OfSource(db: Db, rows: set<Sha>, source: string): set<Sha> {
    set p | p in rows && p in db.index && db.index[p].source == source
  }

  function Grouped(db: Db, rows: set<Sha>): map<string, set<Sha>> {
    map s | s in SourcesAmong(db, rows) :: OfSource(db, rows, s)
  }

  lemma OneMoreGrouped(db: Db, rows: set<Sha>, p: Sha)
    requires p in db.index && p !in rows
    ensures var m := Grouped(db, rows);
            var s := db.index[p].source;
            Grouped(db, rows + {p}) == m[s := (if s in m then m[s] else {}) + {p}]
  {
    var m := Grouped(db, rows);
    var s := db.index[p].source;
    var m' := m[s := (if s in m then m[s] else {}) + {p}];
    var g := Grouped(db, rows + {p});
    assert p in rows + {p};
    forall t | t in m ensures t in g {
      var q :| q in rows && q in db.index && db.index[q].source == t;
      assert q in rows + {p};
    }
    assert g.Keys == m'.Keys;
    forall t | t in g ensures g[t] == m'[t] {}
  }

  /** Files each row under its source. */
  method GroupBySource(db: Db, rows: set<Sha>) returns (bySource: map<string, set<Sha>>)
    requires rows <= db.index.Keys
    ensures bySource == Grouped(db, rows)
  {
    bySource := map[];
    var rest := rows;
    assert Grouped(db, {}) == map[];
    assert rows - rest == {};
    while rest != {}
      invariant rest <= rows && bySource == Grouped(db, rows - rest)
      decreases |rest|
    {
      var p :| p in rest;
      OneMoreGrouped(db, rows - rest, p);
      hide Grouped;
      assert rows - rest + {p} == rows - (rest - {p});
      var s := db.index[p].source;
      bySource := bySource[s := (if s in bySource then bySource[s] else {}) + {p}];
      rest := rest - {p};
    }
    assert rows - rest == rows;
  }

  lemma GroupedIs(db: Db, ring: Ring, arch: Arch)
    ensures Grouped(db, In(db, db.Live(ring), arch)) == BySource(db, ring, arch)
  {
    var rows := In(db, db.Live(ring), arch);
    assert SourcesAmong(db, rows) == SourcesIn(db, ring, arch);
    forall s ensures OfSource(db, rows, s) == Selection(db, ring, arch, s) {}
  }

  /** The databases of some of the sources are written, and nothing else. */
  ghost predicate Written(before: Published, after: Published, ring: Ring, arch: Arch,
      bySource: map<string, set<Sha>>, sources: set<string>)
    requires sources <= bySource.Keys
  {
    && (forall k: (Ring, Arch, string) :: k in after <==> k in before || (k.0 == ring && k.1 == arch && k.2 in sources))
    && (forall k: (Ring, Arch, string) :: k in after ==>
          after[k] == if k.0 == ring && k.1 == arch && k.2 in sources then bySource[k.2] else before[k])
  }

  lemma OneMoreWritten(before: Published, after: Published, ring: Ring, arch: Arch, bySource: map<string, set<Sha>>,
      sources: set<string>, s: string)
    requires sources <= bySource.Keys && s in bySource && Written(before, after, ring, arch, bySource, sources)
    ensures Written(before, after[(ring, arch, s) := bySource[s]], ring, arch, bySource, sources + {s})
  {
    forall k: (Ring, Arch, string) | k.0 == ring && k.1 == arch && k.2 == s ensures k == (ring, arch, s) {}
  }

  lemma OneFewer(all: set<string>, left: set<string>, s: string)
    requires s in left && left <= all
    ensures all - (left - {s}) == all - left + {s} && s in all && left - {s} <= all && |left - {s}| < |left|
  {}

  lemma NoneLeft(all: set<string>)
    ensures all - {} == all
  {}

  lemma AllWritten(before: Published, after: Published, ring: Ring, arch: Arch, bySource: map<string, set<Sha>>)
    requires Written(before, after, ring, arch, bySource, bySource.Keys)
    ensures after == before + Databases(ring, arch, bySource)
  {
    DatabasesOf(ring, arch, bySource);
    var d := Databases(ring, arch, bySource);
    forall k: (Ring, Arch, string) | k in d ensures d[k] == bySource[k.2] {
      assert k == (ring, arch, k.2);
    }
    hide Databases;
  }

  lemma AnswersGiven(w: World, o: Options, ups: seq<Upstream>, byFilename: map<string, Sha>)
    requires forall f :: AnswerIs(w.db.index, (o.source, o.arch, f), byFilename)
    ensures Answers(w, o, Wanted(w, o, ups), byFilename)
  {
    forall p: Upstream ensures AnswerIs(w.db.index, KeyFor(o, p), byFilename) {
      assert AnswerIs(w.db.index, (o.source, o.arch, p.filename), byFilename);
    }
  }

  /** A run keeps the pool valid. */
  lemma RunStays(w: World, o: Options, ups: seq<Upstream>, downloads: map<string, Download>)
    requires Good(w) && RowsOrdered(w.db.index)
    ensures var w' := Run(w, o, ups, downloads).world;
            Good(w') && Ready(w') && RowsOrdered(w'.db.index)
  {
    PinsAreKnown(w, o, ups, downloads);
    GoodGrows(w, Run(w, o, ups, downloads).world);
    ImportAllNumbers(w, o, Limited(o, Missing(w, o, Wanted(w, o, ups))), downloads);
    hide Good, Ready, ImportAll, Missing, Wanted, Limited, Pins, Dropped, Current, RowsOrdered;
  }

  lemma AlignSteps(w: World, o: Options, f: Fetch)
    ensures f.Unreachable? ==> Align(w, o, f) == w
    ensures f.Fetched? ==>
      var out := Run(w, o, f.ups, f.downloads);
      && (!out.changed ==> Align(w, o, f) == out.world)
      && (out.changed && Ready(out.world) ==>
            Align(w, o, f) == match Post(out.world, PinRequest(o, out.add, out.remove))
                              case Some((w', _)) => w'
                              case None => out.world)
  {
    hide Run, Post, Ready;
  }

  lemma AlignAllSteps(w: World, ring: Ring, arches: seq<Arch>, fetch: Arch -> Fetch)
    ensures AlignAll(w, ring, arches, fetch) ==
      if arches == [] then w else AlignAll(Align(w, OprOptions(ring, arches[0]), fetch(arches[0])), ring, arches[1..],
        fetch)
  {
    hide Align;
  }

  /** What one ring accumulates across the sources of a batch. */
  datatype Accumulated = Accumulated(add: set<Sha>, remove: set<(string, string)>)

  ghost predicate Accumulates(pending: map<Ring, Accumulated>, waiting: seq<(Ring, Pending)>) {
    forall r :: AccumulatesAt(pending, OfRing(waiting, r), r)
  }

  ghost predicate AccumulatesAt(pending: map<Ring, Accumulated>, ps: seq<Pending>, r: Ring) {
    && (r in pending <==> ps != [])
    && (r in pending ==> pending[r] == Accumulated(Adds(ps), Removes(ps)))
  }

  function Extended(pending: map<Ring, Accumulated>, ring: Ring, p: Pending): Accumulated {
    var before := if ring in pending then pending[ring] else Accumulated({}, {});
    Accumulated(before.add + p.add, before.remove + set n | n in p.remove :: (p.source, n))
  }

  lemma OneMoreWaits(pending: map<Ring, Accumulated>, waiting: seq<(Ring, Pending)>, ring: Ring, p: Pending)
    requires Accumulates(pending, waiting)
    ensures Accumulates(pending[ring := Extended(pending, ring, p)], waiting + [(ring, p)])
  {
    hide *;
    forall r ensures AccumulatesAt(pending[ring := Extended(pending, ring, p)], OfRing(waiting + [(ring, p)], r), r) {
      WaitsAt(pending, waiting, r);
      OneMoreOfRing(waiting, ring, p, r);
      OneMoreAt(pending, OfRing(waiting, r), ring, p, r);
    }
    AllWait(pending[ring := Extended(pending, ring, p)], waiting + [(ring, p)]);
  }

  lemma WaitsAt(pending: map<Ring, Accumulated>, waiting: seq<(Ring, Pending)>, r: Ring)
    requires Accumulates(pending, waiting)
    ensures AccumulatesAt(pending, OfRing(waiting, r), r)
  {}

  lemma AllWait(pending: map<Ring, Accumulated>, waiting: seq<(Ring, Pending)>)
    requires forall r :: AccumulatesAt(pending, OfRing(waiting, r), r)
    ensures Accumulates(pending, waiting)
  {}

  lemma OneMoreAt(pending: map<Ring, Accumulated>, ps: seq<Pending>, ring: Ring, p: Pending, r: Ring)
    requires AccumulatesAt(pending, ps, r)
    ensures AccumulatesAt(pending[ring := Extended(pending, ring, p)], if r == ring then ps + [p] else ps, r)
  {
    OneMoreAdded(ps, p);
    hide Adds, Removes;
  }

  lemma OneMoreOfRing(waiting: seq<(Ring, Pending)>, ring: Ring, p: Pending, r: Ring)
    ensures OfRing(waiting + [(ring, p)], r) == if r == ring then OfRing(waiting, ring) + [p] else OfRing(waiting, r)
  {
    assert (waiting + [(ring, p)])[..|waiting|] == waiting;
  }

  lemma OneMoreAdded(ps: seq<Pending>, p: Pending)
    ensures Adds(ps + [p]) == Adds(ps) + p.add
      && Removes(ps + [p]) == Removes(ps) + set n | n in p.remove :: (p.source, n)
    ensures Adds([]) == {} && Removes([]) == {}
  {
    assert (ps + [p])[..|ps|] == ps;
    RemovesStep(ps, p);
  }

  lemma NothingWaits(w: World)
    ensures Collect(w, []) == (w, []) && Accumulates(map[], [])
  {
    forall r ensures AccumulatesAt(map[], OfRing([], r), r) {}
  }

  lemma CollectSteps(w: World, sources: seq<Source>, s: Source)
    ensures s.fetch.Unreachable? ==> Collect(w, sources + [s]) == Collect(w, sources)
    ensures s.fetch.Fetched? ==>
      var (w1, waiting) := Collect(w, sources);
      var out := Run(w1, s.o, s.fetch.ups, s.fetch.downloads);
      && (Bails(out) <==> out.failed > 0 && out.uploaded == 0 && |out.known| == 0)
      && Collect(w, sources + [s]) ==
         (out.world, if !Bails(out) && out.changed && (out.add != {} || out.remove != {})
                     then waiting + [(s.o.ring, Pending(s.o.source, out.add, out.remove))] else waiting)
  {
    assert (sources + [s])[..|sources|] == sources;
    hide Run;
  }

  lemma ReleaseRingsSteps(w: World, rings: seq<Ring>, arch: Arch, waiting: seq<(Ring, Pending)>)
    requires rings != []
    ensures ReleaseRings(w, rings, arch, waiting) == match ReleaseRing(w, rings[0], arch, OfRing(waiting, rings[0]))
                                                     case None => None
                                                     case Some(w1) => ReleaseRings(w1, rings[1..], arch, waiting)
  {
    hide ReleaseRing, OfRing;
  }

  lemma AllReleased(w: World, arch: Arch, waiting: seq<(Ring, Pending)>)
    ensures ReleaseRings(w, RINGS[|RINGS|..], arch, waiting) == Some(w)
  {}

  lemma NoPlacesRendered(w: World)
    ensures RenderPlaces(w, []) == Some(w)
  {}

  lemma RenderSame(w: World, ring: Ring, arch: Arch)
    ensures Render(w, ring, arch).Some? <==> ring in w.db.heads
    ensures Render(w, ring, arch).Some? ==> Render(w, ring, arch).value.db == w.db
  {}

  lemma {:induction false} OneMoreRendered(w: World, places: seq<(Ring, Arch)>, v: (Ring, Arch), before: World,
      after: World)
    requires RenderPlaces(w, places) == Some(before) && Render(before, v.0, v.1) == Some(after)
    ensures RenderPlaces(w, places + [v]) == Some(after)
    decreases |places|
  {
    hide Render;
    if places != [] {
      assert (places + [v])[1..] == places[1..] + [v];
      OneMoreRendered(Render(w, places[0].0, places[0].1).value, places[1..], v, before, after);
    } else {
      assert ([v])[1..] == [];
      assert places + [v] == [v];
    }
  }

  lemma IsVerified(w: World, w1: World, w': World, rings: seq<Ring>, arches: seq<Arch>, pinned: map<V.Place, set<Sha>>,
      refused: set<Sha>, places: seq<V.Place>)
    requires V.NoObjectPkg(w) ==> !V.Twice(w, V.Places(rings, arches))
    requires V.SameStore(w, w1) && V.PinnedOver(w, w1, pinned)
      && V.Repaired(w, V.Places(rings, arches), pinned, refused)
    requires (forall v :: v in places <==> v in pinned) && RenderPlaces(w1, places) == Some(w')
    ensures Verified(w, rings, arches, pinned, refused, w')
  {
    hide *;
    assert RendersPinned(w1, pinned, w') by { IsRenderedPinned(w1, w', pinned, places); }
    VerifiedBy(w, w1, w', rings, arches, pinned, refused);
  }

  lemma IsRenderedPinned(w: World, w': World, pinned: map<V.Place, set<Sha>>, places: seq<V.Place>)
    requires (forall v :: v in places <==> v in pinned) && RenderPlaces(w, places) == Some(w')
    ensures RendersPinned(w, pinned, w')
  {
    hide RenderPlaces;
  }

  lemma VerifiedBy(w: World, w1: World, w': World, rings: seq<Ring>, arches: seq<Arch>, pinned: map<V.Place, set<Sha>>,
      refused: set<Sha>)
    requires V.NoObjectPkg(w) ==> !V.Twice(w, V.Places(rings, arches))
    requires V.SameStore(w, w1) && V.PinnedOver(w, w1, pinned)
      && V.Repaired(w, V.Places(rings, arches), pinned, refused)
    requires RendersPinned(w1, pinned, w')
    ensures Verified(w, rings, arches, pinned, refused, w')
  {
    hide RendersPinned, V.NoObjectPkg, V.Twice, V.Places, V.SameStore, V.PinnedOver, V.Repaired;
  }

  /** A place that was pinned again serves something, so it has a release to render. */
  lemma PinnedHasHead(w0: World, w: World, places: set<V.Place>, pinned: map<V.Place, set<Sha>>, refused: set<Sha>,
      v: V.Place)
    requires V.SameStore(w0, w) && V.PinnedOver(w0, w, pinned) && V.Repaired(w0, places, pinned, refused) && v in pinned
    ensures v.0 in w.db.heads
  {
    LiveIndexedInv(w.db, v.0);
    assert pinned[v] != {} && RowsOf(w, v.0, v.1) == V.Overlay(w.db, RowsOf(w0, v.0, v.1), pinned[v]);
    var x :| x in pinned[v];
    assert x in RowsOf(w, v.0, v.1);
  }

  lemma AnswerGiven(index: map<Sha, Row>, o: Options, p: Upstream, byFilename: map<string, Sha>)
    requires RowsOrdered(index) && forall f :: AnswerIs(index, (o.source, o.arch, f), byFilename)
    ensures var a := ByFilename(index, KeyFor(o, p));
            (p.filename in byFilename <==> a.Some?) && (a.Some? ==> byFilename[p.filename] == a.value)
  {
    assert AnswerIs(index, (o.source, o.arch, p.filename), byFilename);
    hide ByFilename;
  }

  lemma ArchiveStays(w: World, o: Options, p: Upstream, d: Download)
    requires Good(w) && RowsOrdered(w.db.index)
    ensures var w' := ImportOne(w, o, p, d).0;
            Good(w') && Ready(w') && RowsOrdered(w'.db.index)
  {
    ImportOneGrows(w, o, p, d);
    GrowthEffect(w, ImportOne(w, o, p, d).0);
    GoodIsReady(ImportOne(w, o, p, d).0);
    ImportOneNumbers(w, o, p, d);
  }

  lemma NothingPublishedYet(w: World, o: Options, archives: seq<Upstream>, downloads: map<string, Download>)
    ensures PublishAll(w, o, archives[..0], downloads) == Some((w, {}))
    ensures forall i :: 0 <= i <= |archives| && PublishAll(w, o, archives[..i], downloads).None? ==>
      PublishAll(w, o, archives, downloads).None?
  {
    forall i | 0 <= i <= |archives| && PublishAll(w, o, archives[..i], downloads).None?
      ensures PublishAll(w, o, archives, downloads).None?
    {
      FailedStays(w, o, archives, downloads, i);
    }
  }

  lemma {:induction false} FailedStays(w: World, o: Options, archives: seq<Upstream>, downloads: map<string, Download>,
      i: nat)
    requires i <= |archives| && PublishAll(w, o, archives[..i], downloads).None?
    ensures PublishAll(w, o, archives, downloads).None?
  {
    hide PublishOne;
    if i == |archives| {
      assert archives[..i] == archives;
    } else {
      var front := archives[..|archives| - 1];
      assert front[..i] == archives[..i];
      FailedStays(w, o, front, downloads, i);
    }
  }

  lemma OneMoreArchive(w: World, o: Options, archives: seq<Upstream>, downloads: map<string, Download>, i: nat)
    requires i < |archives| && PublishAll(w, o, archives[..i], downloads).Some?
    ensures var (w1, add) := PublishAll(w, o, archives[..i], downloads).value;
            PublishAll(w, o, archives[..i + 1], downloads)
            == match PublishOne(w1, o, archives[i], FetchOf(downloads, archives[i]))
               case None => None
               case Some((w2, sha)) => Some((w2, add + {sha}))
  {
    assert archives[..i + 1][..i] == archives[..i];
    hide PublishOne, FetchOf;
  }

  class Pool {
    var world: World

    /** Everything the jobs rely on; the laws of single jobs and of runs apply to such a pool. */
    ghost predicate Valid()
      reads this
    {
      Good(world) && Ready(world) && RowsOrdered(world.db.index)
    }

    constructor ()
      ensures Valid() && world == START
    {
      world := START;
      StartIsGood();
    }

    /** Groups a ring's rows of one architecture by source and writes a database for each. */
    method RenderRing(ring: Ring, arch: Arch) returns (ok: bool)
      requires Valid()
      modifies this
      ensures Valid()
      ensures match Render(old(world), ring, arch)
              case Some(w') => ok && world == w'
              case None => !ok && world == old(world)
    {
      if ring !in world.db.heads {
        return false;
      }
      RenderFixes(world, ring, arch);
      GroupedIs(world.db, ring, arch);
      assert Render(world, ring, arch)
        == Some(world.(published := world.published + Databases(ring, arch, BySource(world.db, ring, arch))));
      var view := In(world.db, world.db.Live(ring), arch);
      var bySource := GroupBySource(world.db, view);
      hide *;
      WriteDatabases(ring, arch, bySource);
      ok := true;
    }

    /** `POST /releases`. */
    method Release(q: Request) returns (kept: Option<set<Arch>>)
      requires Valid()
      modifies this
      ensures Valid()
      ensures match Post(old(world), q)
              case Some((w', k)) => world == w' && kept == Some(k)
              case None => world == old(world) && kept == None
    {
      match Create(world.db, q)
      case Err(_) =>
        kept := None;
      case Ok(c) =>
        assert Post(world, q) == Some((world.(db := c.db), c.kept));
        hide Create;
        PostEffect(world, q);
        world := world.(db := c.db);
        GoodIsReady(world);
        kept := Some(c.kept);
    }

    /** Renders one architecture after another. */
    method RenderEach(ring: Ring, arches: seq<Arch>) returns (ok: bool)
      requires Valid()
      modifies this
      ensures Valid()
      ensures match RenderAll(old(world), ring, arches)
              case Some(w') => ok && world == w'
              case None => !ok
    {
      hide Good, Ready, RowsOrdered, Render;
      for i := 0 to |arches|
        invariant Valid() && RenderAll(old(world), ring, arches) == RenderAll(world, ring, arches[i..])
      {
        ok := RenderRing(ring, arches[i]);
        if !ok {
          return;
        }
        assert arches[i..][1..] == arches[i + 1..];
      }
      ok := true;
    }

    /** Renders `arch` and the other architecture, but for those a release left as they were. */
    method RenderBoth(ring: Ring, arch: Arch, kept: set<Arch>) returns (ok: bool)
      requires Valid()
      modifies this
      ensures Valid()
      ensures match RenderAll(old(world), ring, ToRender(arch, kept))
              case Some(w') => ok && world == w'
              case None => !ok
    {
      var arches: seq<Arch> := [];
      if arch !in kept {
        arches := arches + [arch];
      }
      if arch.Other() !in kept {
        arches := arches + [arch.Other()];
      }
      assert arches == ToRender(arch, kept);
      hide *;
      ok := RenderEach(ring, arches);
    }

    method RollbackJob(ring: Ring, to: nat, only: Option<Arch>, worker: Arch) returns (ok: bool)
      requires Valid()
      modifies this
      ensures Valid()
      ensures match Work.RollbackJob(old(world), ring, to, only, worker)
              case Some(w') => ok && world == w'
              case None => !ok
    {
      hide Good, Post, RenderAll, ToRender, RowsOrdered;
      var kept := Release(RollbackRequest(ring, to, only));
      if kept.None? {
        return false;
      }
      ok := RenderBoth(ring, worker, if only.Some? then {only.value.Other()} else {});
    }

    /** One source's sync, up to what it leaves to pin. */
    method SyncSource(o: Options, f: Fetch) returns (report: Option<Report>)
      requires Valid()
      modifies this
      ensures Valid()
      ensures f.Unreachable? ==> report == None && world == old(world)
      ensures f.Fetched? ==>
        var out := Run(old(world), o, f.ups, f.downloads);
        && report.Some? && world == out.world
        && (set x | x in report.value.add) == out.add && report.value.remove == out.remove
        && report.value.changed == out.changed && report.value.uploaded == out.uploaded
        && report.value.known == |out.known| && report.value.failed == out.failed
    {
      if f.Unreachable? {
        return None;
      }
      var byFilename := KnownFilenames(world.db.index, o.source, o.arch);
      AnswersGiven(world, o, f.ups, byFilename);
      RunStays(world, o, f.ups, f.downloads);
      hide *;
      var w', r := RunSync(world, o, f.ups, f.downloads, byFilename);
      world := w';
      report := Some(r);
    }

    /** A source that pins its own release; an upstream that cannot be reached is only warned about. */
    method AlignChannel(o: Options, f: Fetch)
      requires Valid()
      modifies this
      ensures Valid() && world == Align(old(world), o, f)
    {
      var report := SyncSource(o, f);
      AlignSteps(old(world), o, f);
      hide Good, Run, Align, Post, RowsOrdered;
      if report.Some? && report.value.changed {
        var _ := Release(PinRequest(o, (set x | x in report.value.add), report.value.remove));
      }
    }

    /** The checks after a release: unhealthy architectures roll the ring back. */
    method RenderVerify(ring: Ring, only: Option<Arch>, previous: Option<nat>, healthy: Arch -> bool) returns (ok: bool)
      requires Valid()
      modifies this
      ensures Valid()
      ensures match RenderAndVerify(old(world), ring, only, previous, healthy)
              case Some(w') => ok && world == w'
              case None => !ok
    {
      hide Good, Post, RenderAll, RowsOrdered, OnlyOrBoth;
      var arches := OnlyOrBoth(only);
      ok := RenderEach(ring, arches);
      if !ok {
        return;
      }
      var unhealthy: seq<Arch> := [];
      for i := 0 to |arches|
        invariant unhealthy == [] <==> forall k :: 0 <= k < i ==> healthy(arches[k])
      {
        if !healthy(arches[i]) {
          unhealthy := unhealthy + [arches[i]];
        }
      }
      assert unhealthy == [] <==> Healthy(arches, healthy);
      if unhealthy == [] {
        return true;
      }
      if previous.None? {
        return false;
      }
      var kept := Release(RollbackRequest(ring, previous.value, only));
      if kept.None? {
        return false;
      }
      ok := RenderEach(ring, arches);
    }

    method PromoteJob(from: Ring, to: Ring, only: Option<Arch>, promote: bool, fetch: Arch -> Fetch,
        healthy: Arch -> bool) returns (ok: bool)
      requires Valid()
      modifies this
      ensures Valid()
      ensures match Work.PromoteJob(old(world), from, to, only, promote, fetch, healthy)
              case Some(w') => ok && world == w'
              case None => !ok
    {
      if !promote {
        return true;
      }
      PromoteSteps(world, from, to, only, fetch, healthy);
      hide *;
      var previous := world.db.Parent(to);
      var kept := Release(PromoteRequest(from, to, only));
      if kept.None? {
        return false;
      }
      var arches := OnlyOrBoth(only);
      ghost var promoted := world;
      for i := 0 to |arches|
        invariant Valid() && AlignAll(promoted, to, arches, fetch) == AlignAll(world, to, arches[i..], fetch)
      {
        AlignAllSteps(world, to, arches[i..], fetch);
        assert arches[i..][1..] == arches[i + 1..];
        AlignChannel(OprOptions(to, arches[i]), fetch(arches[i]));
      }
      AlignAllSteps(world, to, arches[|arches|..], fetch);
      IsReady();
      ok := RenderVerify(to, only, previous, healthy);
    }

    lemma IsReady()
      requires Valid()
      ensures Ready(world)
    {}

    method FastTrackJob(ring: Ring, add: set<Sha>, healthy: Arch -> bool) returns (ok: bool)
      requires Valid()
      modifies this
      ensures Valid()
      ensures match Work.FastTrackJob(old(world), ring, add, healthy)
              case Some(w') => ok && world == w'
              case None => !ok
    {
      if add == {} {
        return true;
      }
      hide Good, Post, RenderAndVerify, RowsOrdered;
      var previous := world.db.Parent(ring);
      var kept := Release(AddRequest(ring, add, None));
      if kept.None? {
        return false;
      }
      ok := RenderVerify(ring, None, previous, healthy);
    }

    /** One archive of a publication: what is stored under its filename is pinned, what is not indexed is uploaded. */
    method PublishArchive(o: Options, p: Upstream, d: Download) returns (sha: Option<Sha>)
      requires Valid()
      modifies this
      ensures Valid()
      ensures match PublishOne(old(world), o, p, d)
              case Some((w', x)) => sha == Some(x) && world == w'
              case None => sha == None
    {
      var byFilename := KnownFilenames(world.db.index, o.source, o.arch);
      AnswerGiven(world.db.index, o, p, byFilename);
      ArchiveStays(world, o, p, d);
      hide Good, Ready, RowsOrdered, ImportOne, ByFilename;
      var x := if p.filename in byFilename && byFilename[p.filename] != p.sha then byFilename[p.filename] else p.sha;
      if x in world.db.index {
        return Some(x);
      }
      var (w', ok) := ImportOne(world, o, p, d);
      world := w';
      sha := if ok then Some(x) else None;
    }

    /** The archives of a build uploaded in turn, then edge pinned to them and rendered. */
    method PublishJob(arch: Arch, archives: seq<Upstream>, downloads: map<string, Download>) returns (ok: bool)
      requires Valid()
      modifies this
      ensures Valid()
      ensures match Work.PublishJob(old(world), arch, archives, downloads)
              case Some(w') => ok && world == w'
              case None => !ok
    {
      if archives == [] {
        return false;
      }
      PublishSteps(world, arch, archives, downloads);
      NothingPublishedYet(world, FactoryOptions(arch), archives, downloads);
      hide *;
      var added: set<Sha> := {};
      for i := 0 to |archives|
        invariant Valid()
        invariant PublishAll(old(world), FactoryOptions(arch), archives[..i], downloads) == Some((world, added))
      {
        OneMoreArchive(old(world), FactoryOptions(arch), archives, downloads, i);
        var sha := PublishArchive(FactoryOptions(arch), archives[i], FetchOf(downloads, archives[i]));
        if sha.None? {
          return false;
        }
        added := added + {sha.value};
      }
      assert archives[..|archives|] == archives;
      IsReady();
      PinSteps(world, arch, added);
      var kept := Release(AddRequest(Edge, added, Some(arch)));
      if kept.None? {
        return false;
      }
      ok := RenderEach(Edge, [arch, arch.Other()]);
    }

    /**
     * A batch: each source synced in turn, a failing one skipped; what they leave
     * accumulates by ring, and becomes one release and its databases per ring.
     */
    method BatchJob(arch: Arch, sources: seq<Source>) returns (ok: bool)
      requires Valid()
      modifies this
      ensures Valid()
      ensures match Jobs.BatchJob(old(world), arch, sources)
              case Some(w') => ok && world == w'
              case None => !ok
    {
      BatchSteps(world, arch, sources);
      hide *;
      var pending: map<Ring, Accumulated> := map[];
      ghost var waiting: seq<(Ring, Pending)> := [];
      NothingWaits(world);
      for i := 0 to |sources|
        invariant Valid() && Collect(old(world), sources[..i]) == (world, waiting) && Accumulates(pending, waiting)
      {
        assert sources[..i + 1] == sources[..i] + [sources[i]];
        CollectSteps(old(world), sources[..i], sources[i]);
        var s := sources[i];
        var report := SyncSource(s.o, s.fetch);
        if report.Some? {
          var add, remove := (set x | x in report.value.add), report.value.remove;
          var bails := report.value.failed > 0 && report.value.uploaded == 0 && report.value.known == 0;
          if !bails && report.value.changed && (add != {} || remove != {}) {
            var p := Pending(s.o.source, add, remove);
            OneMoreWaits(pending, waiting, s.o.ring, p);
            pending := pending[s.o.ring := Extended(pending, s.o.ring, p)];
            waiting := waiting + [(s.o.ring, p)];
          }
        }
      }
      assert sources[..|sources|] == sources;
      ghost var collected := world;
      for i := 0 to |RINGS|
        invariant Valid() && ReleaseRings(collected, RINGS, arch, waiting)
          == ReleaseRings(world, RINGS[i..], arch, waiting)
      {
        ReleaseRingsSteps(world, RINGS[i..], arch, waiting);
        assert RINGS[i..][1..] == RINGS[i + 1..] && RINGS[i..][0] == RINGS[i];
        ok := ReleasePending(RINGS[i], arch, pending, waiting);
        if !ok {
          return;
        }
      }
      AllReleased(world, arch, waiting);
      ok := true;
    }

    /** One ring's release of a batch, and the databases it did not keep. */
    method ReleasePending(ring: Ring, arch: Arch, pending: map<Ring, Accumulated>,
        ghost waiting: seq<(Ring, Pending)>) returns (ok: bool)
      requires Valid() && Accumulates(pending, waiting)
      modifies this
      ensures Valid()
      ensures match ReleaseRing(old(world), ring, arch, OfRing(waiting, ring))
              case Some(w') => ok && world == w'
              case None => !ok
    {
      hide Good, Post, RenderAll, ToRender, RowsOrdered, OfRing, Adds, Removes;
      if ring !in pending {
        return true;
      }
      var kept := Release(Request(ring, None, None, pending[ring].add, {}, pending[ring].remove, Some(arch), None));
      if kept.None? {
        return false;
      }
      ok := RenderBoth(ring, arch, kept.value);
    }

    /**
     * Verifies the rings, then renders the places it pinned again. Without an object of
     * the download's own name it fails exactly when two places pin the same row the index
     * refuses; when nothing is refused it completes with the pins of looking from scratch.
     */
    method VerifyJob(rings: seq<Ring>, arches: seq<Arch>, named: Sha -> (string, string))
      returns (ok: bool, pinned: map<V.Place, set<Sha>>, refused: set<Sha>)
      requires Valid()
      requires forall k, l :: 0 <= k < l < |rings| ==> rings[k] != rings[l]
      requires forall k, l :: 0 <= k < l < |arches| ==> arches[k] != arches[l]
      modifies this
      ensures Valid()
      ensures ok ==> Verified(old(world), rings, arches, pinned, refused, world)
      ensures V.NoObjectPkg(old(world)) ==> (ok <==> !V.Twice(old(world), V.Places(rings, arches)))
      ensures refused == {} ==>
        ok && forall v :: v in V.Places(rings, arches) ==> V.PinsAt(pinned, v) == V.Repins(old(world), v.0, v.1)
    {
      hide *;
      GoodAndOrdered();
      var w;
      ok, w, pinned, refused := V.VerifyRun(world, rings, arches, named);
      if !ok {
        return;
      }
      V.StoreIs(world, w);
      Become(w);
      var rest := pinned.Keys;
      ghost var places: seq<V.Place> := [];
      NoPlacesRendered(w);
      while rest != {}
        invariant Valid() && world.db == w.db && rest <= pinned.Keys && RenderPlaces(w, places) == Some(world)
        invariant forall v :: v in places <==> v in pinned && v !in rest
        decreases |rest|
      {
        var v :| v in rest;
        ghost var before := world;
        PinnedHasHead(old(world), w, V.Places(rings, arches), pinned, refused, v);
        RenderSame(world, v.0, v.1);
        var rendered := RenderRing(v.0, v.1);
        OneMoreRendered(w, places, v, before, world);
        places := places + [v];
        rest := rest - {v};
      }
      IsVerified(old(world), w, world, rings, arches, pinned, refused, places);
    }

    method Become(w: World)
      requires Good(w) && Ready(w) && RowsOrdered(w.db.index)
      modifies this
      ensures Valid() && world == w
    {
      world := w;
    }

    lemma GoodAndOrdered()
      requires Valid()
      ensures Good(world) && RowsOrdered(world.db.index)
    {}

    /** One database after another; a source without rows keeps the database it had. */
    method WriteDatabases(ring: Ring, arch: Arch, bySource: map<string, set<Sha>>)
      modifies this
      ensures world == old(world).(published := old(world).published + Databases(ring, arch, bySource))
    {
      var sources := bySource.Keys;
      ghost var before := world.published;
      assert bySource.Keys - sources == {};
      assert Written(before, world.published, ring, arch, bySource, {});
      hide *;
      while sources != {}
        invariant sources <= bySource.Keys && world == old(world).(published := world.published)
        invariant Written(before, world.published, ring, arch, bySource, bySource.Keys - sources)
        decreases |sources|
      {
        var s :| s in sources;
        OneMoreWritten(before, world.published, ring, arch, bySource, bySource.Keys - sources, s);
        OneFewer(bySource.Keys, sources, s);
        world := world.(published := world.published[(ring, arch, s) := bySource[s]]);
        sources := sources - {s};
      }
      NoneLeft(bySource.Keys);
      AllWritten(before, world.published, ring, arch, bySource);
    }
  }
}
