/** Syncs and publications as jobs, in plain terms: when they stop, and what edge serves after a publication. */
module PublishLaws {
  import opened Common
  import opened Releases
  import opened Sync
  import opened SyncLaws
  import opened Work
  import opened WorkLaws
  import opened Batch
  import opened Jobs
  import opened ImportLaws
  import V = Verify

  // ---------- when a sync stops ----------

  /** Some import failed, none succeeded, and the index has none of the listed bytes for the architecture. */
  ghost predicate Stops(w: World, o: Options, ups: seq<Upstream>, downloads: map<string, Download>) {
    var (_, done, failed) := ImportAll(w, o, Limited(o, Missing(w, o, Wanted(w, o, ups))), downloads);
    && failed != [] && done == []
    && forall p :: p in ups && NotYielded(w, o, p) ==> !(p.sha in w.db.index && w.db.index[p.sha].arch == o.arch)
  }

  /** A sync stops exactly then, or when its upstream cannot be reached. */
  lemma SyncStops(w: World, o: Options, f: Fetch)
    requires Good(w) && Ready(w)
    ensures SyncJob(w, o, f) == None <==> f.Unreachable? || Stops(w, o, f.ups, f.downloads)
  {
    SyncKeeps(w, o, f);
    hide Good, Ready, SyncJob, Keeps, Stops;
    if f.Fetched? { StopRule(w, o, f.ups, f.downloads); }
  }

  lemma StopRule(w: World, o: Options, ups: seq<Upstream>, downloads: map<string, Download>)
    ensures Bails(Run(w, o, ups, downloads)) <==> Stops(w, o, ups, downloads)
  {
    var known := Run(w, o, ups, downloads).known;
    forall p ensures p in Wanted(w, o, ups) <==> p in ups && NotYielded(w, o, p) { WantedIs(w, o, ups, p); }
    hide Wanted, NotYielded;
    assert forall p :: p in Wanted(w, o, ups) && Known(w.db, o.arch, p.sha) ==> p.sha in known;
    hide ImportAll, Missing, Limited, Pins, Dropped, Current;
  }

  // ---------- what a batch leaves to pin ----------

  /** The ring serves the row as one of the source's, for the architecture. */
  predicate ServesOwn(w: World, o: Options, x: Sha) {
    && x in w.db.Live(o.ring) && x in w.db.index
    && w.db.index[x].arch == o.arch && w.db.index[x].source == o.source
  }

  /** The source was reached, did not stop, and pins something else than its ring serves of it. */
  ghost predicate Leaves(w: World, s: Source, add: set<Sha>, remove: set<string>) {
    && s.fetch.Fetched? && !Stops(w, s.o, s.fetch.ups, s.fetch.downloads)
    && var out := Run(w, s.o, s.fetch.ups, s.fetch.downloads);
       && add == out.add && remove == out.remove && (add != {} || remove != {})
       && (remove != {} || exists x :: (x in add) != ServesOwn(w, s.o, x))
  }

  lemma ChangedIs(w: World, o: Options, ups: seq<Upstream>, downloads: map<string, Download>)
    ensures var out := Run(w, o, ups, downloads);
            out.changed <==> out.remove != {} || exists x :: (x in out.add) != ServesOwn(w, o, x)
  {
    forall x ensures x in Current(w, o) <==> ServesOwn(w, o, x) {}
    hide Wanted, ImportAll, Missing, Limited, Pins, Dropped, ServesOwn, Current;
    var out := Run(w, o, ups, downloads);
    assert out.changed <==> out.remove != {} || Current(w, o) != out.add;
    if Current(w, o) != out.add {
      assert exists x :: (x in out.add) != (x in Current(w, o));
    }
  }

  lemma LeavesIs(w: World, s: Source)
    requires s.fetch.Fetched?
    ensures var out := Run(w, s.o, s.fetch.ups, s.fetch.downloads);
            forall add, remove :: Leaves(w, s, add, remove) <==>
              && !Bails(out) && out.changed && (out.add != {} || out.remove != {})
              && add == out.add && remove == out.remove
  {
    StopRule(w, s.o, s.fetch.ups, s.fetch.downloads);
    ChangedIs(w, s.o, s.fetch.ups, s.fetch.downloads);
    hide Run, Bails, Stops, ServesOwn;
  }

  /** One more source: it meets the pool the earlier ones left. */
  lemma OneMoreSource(w: World, sources: seq<Source>, s: Source)
    ensures var v := Collect(w, sources).0;
            var more := Collect(w, sources + [s]);
            && more.0 == (if s.fetch.Unreachable? then v else Run(v, s.o, s.fetch.ups, s.fetch.downloads).world)
            && forall ring, p :: (ring, p) in more.1 <==>
                 || (ring, p) in Collect(w, sources).1
                 || (ring == s.o.ring && p.source == s.o.source && Leaves(v, s, p.add, p.remove))
  {
    assert (sources + [s])[..|sources|] == sources;
    var v := Collect(w, sources).0;
    if s.fetch.Fetched? { LeavesIs(v, s); }
    hide Run, Bails;
    assert s.fetch.Unreachable? ==> forall add, remove :: !Leaves(v, s, add, remove);
    hide Leaves;
  }

  /**
   * What a batch pins: for each source in turn that was reached and did not stop, its pins and
   * names to drop, if they change what its ring serves of it.
   */
  lemma {:induction false} BatchLeaves(w: World, sources: seq<Source>, ring: Ring, p: Pending)
    ensures (ring, p) in Collect(w, sources).1 <==>
      exists k :: 0 <= k < |sources| && sources[k].o.ring == ring && p.source == sources[k].o.source
                  && Leaves(Collect(w, sources[..k]).0, sources[k], p.add, p.remove)
  {
    hide Collect, Leaves;
    if sources == [] {
      NothingCollected(w);
    } else {
      var n := |sources| - 1;
      var front, s := sources[..n], sources[n];
      assert sources == front + [s];
      OneMoreSource(w, front, s);
      BatchLeaves(w, front, ring, p);
      assert forall k :: 0 <= k < n ==> front[..k] == sources[..k] && front[k] == sources[k];
    }
  }

  lemma NothingCollected(w: World)
    ensures Collect(w, []).1 == []
  {}

  // ---------- a publication of new archives ----------

  /** The first import of an archive the pool has nothing of takes it, unless it is refused. */
  lemma FreshOne(w: World, o: Options, p: Upstream, d: Download)
    requires NewTo(w, o, p)
    ensures PublishOne(w, o, p, d) ==
      if Refused(p, d) then None
      else Some((w.(db := w.db.(index := w.db.index[p.sha := NewRow(w, o, p)]),
                    objects := w.objects[KeyFor(o, p) := Object(p.sha, p.size, p.size <= SINGLE_PUT_MAX)]), p.sha))
  {
    assert ByFilename(w.db.index, KeyFor(o, p)) == None by {
      forall x ensures !FirstNamed(w.db.index, x, KeyFor(o, p)) {}
    }
    hide Refused, ByFilename;
  }

  /** An archive that has arrived is not imported again. */
  lemma AgainOne(w: World, o: Options, p: Upstream, d: Download)
    requires p.sha in w.db.index && forall x :: Names(w.db.index, x, KeyFor(o, p)) ==> x == p.sha
    ensures PublishOne(w, o, p, d) == Some((w, p.sha))
  {
    var stored := ByFilename(w.db.index, KeyFor(o, p));
    assert stored.Some? ==> FirstNamed(w.db.index, stored.value, KeyFor(o, p));
    hide Names, ImportOne, ByFilename;
  }

  /** What the archives so far have left: their rows and objects, and nothing else. */
  ghost predicate Arrived(w: World, w1: World, o: Options, ps: seq<Upstream>) {
    && (forall x :: x in w.db.index ==> x in w1.db.index && w1.db.index[x] == w.db.index[x])
    && (forall x :: x in w1.db.index && x !in w.db.index ==>
          exists p :: p in ps && p.sha == x && RowOf(w1.db.index[x], o, p))
    && (forall k :: k in w1.objects && k !in w.objects ==> exists p :: p in ps && k == KeyFor(o, p))
    && (forall p :: p in ps ==> p.sha in w1.db.index)
  }

  lemma StillNew(w: World, w1: World, o: Options, archives: seq<Upstream>, ps: seq<Upstream>, p: Upstream)
    requires Arrived(w, w1, o, ps) && Apart(archives) && p in archives && p !in ps && NewTo(w, o, p)
    requires forall r :: r in ps ==> r in archives
    ensures NewTo(w1, o, p)
  {
    forall x | x in w1.db.index && x !in w.db.index ensures x != p.sha && w1.db.index[x].filename != p.filename {
      var r :| r in ps && r.sha == x && RowOf(w1.db.index[x], o, r);
    }
    forall r | r in ps ensures KeyFor(o, r) != KeyFor(o, p) { assert r in archives; }
  }

  lemma IsThere(w: World, w1: World, o: Options, archives: seq<Upstream>, ps: seq<Upstream>, p: Upstream)
    requires Arrived(w, w1, o, ps) && Apart(archives) && p in archives && p in ps && NewTo(w, o, p)
    requires forall r :: r in ps ==> r in archives
    ensures p.sha in w1.db.index && forall x :: Names(w1.db.index, x, KeyFor(o, p)) ==> x == p.sha
  {
    forall x | Names(w1.db.index, x, KeyFor(o, p)) ensures x == p.sha {
      assert x !in w.db.index;
      var r :| r in ps && r.sha == x && RowOf(w1.db.index[x], o, r);
    }
  }

  lemma ArrivesToo(w: World, w1: World, o: Options, ps: seq<Upstream>, p: Upstream)
    requires Arrived(w, w1, o, ps) && NewTo(w1, o, p)
    ensures Arrived(w, w1.(db := w1.db.(index := w1.db.index[p.sha := NewRow(w1, o, p)]),
                           objects := w1.objects[KeyFor(o, p) := Object(p.sha, p.size, p.size <= SINGLE_PUT_MAX)]),
                    o, ps + [p])
  {
    assert p in ps + [p] && forall r :: r in ps ==> r in ps + [p];
    assert RowOf(NewRow(w1, o, p), o, p);
    hide NewTo;
  }

  lemma ArrivedAgain(w: World, w1: World, o: Options, ps: seq<Upstream>, p: Upstream)
    requires Arrived(w, w1, o, ps) && p in ps
    ensures Arrived(w, w1, o, ps + [p])
  {
    assert forall r :: r in ps + [p] <==> r in ps;
    hide RowOf;
  }

  lemma {:induction false} AllFresh(w: World, o: Options, archives: seq<Upstream>, ps: seq<Upstream>,
      downloads: map<string, Download>)
    requires Apart(archives) && (forall p :: p in archives ==> NewTo(w, o, p)) && forall p :: p in ps ==> p in archives
    ensures PublishAll(w, o, ps, downloads).Some? <==> forall p :: p in ps ==> !Refused(p, FetchOf(downloads, p))
    ensures PublishAll(w, o, ps, downloads).Some? ==>
      var (w1, add) := PublishAll(w, o, ps, downloads).value;
      Arrived(w, w1, o, ps) && add == Shas(ps)
    decreases |ps|
  {
    hide *;
    if ps != [] {
      var n := |ps| - 1;
      var front, p := ps[..n], ps[n];
      var d := FetchOf(downloads, p);
      assert ps == front + [p];
      PublishStep(w, o, ps, downloads);
      OneMoreSha(front, p);
      AllFresh(w, o, archives, front, downloads);
      if PublishAll(w, o, front, downloads).Some? {
        var (w1, add) := PublishAll(w, o, front, downloads).value;
        if p in front {
          IsThere(w, w1, o, archives, front, p);
          AgainOne(w1, o, p, d);
          ArrivedAgain(w, w1, o, front, p);
        } else {
          StillNew(w, w1, o, archives, front, p);
          FreshOne(w1, o, p, d);
          ArrivesToo(w, w1, o, front, p);
        }
      }
    } else {
      NothingPublished(w, o, downloads);
    }
  }

  lemma PublishStep(w: World, o: Options, ps: seq<Upstream>, downloads: map<string, Download>)
    requires ps != []
    ensures var n := |ps| - 1;
            var front := PublishAll(w, o, ps[..n], downloads);
            PublishAll(w, o, ps, downloads) ==
              if front.None? then None
              else match PublishOne(front.value.0, o, ps[n], FetchOf(downloads, ps[n]))
                case Some((w2, sha)) => Some((w2, front.value.1 + {sha}))
                case None => None
  {
    hide PublishOne, FetchOf;
  }

  lemma NothingPublished(w: World, o: Options, downloads: map<string, Download>)
    ensures PublishAll(w, o, [], downloads) == Some((w, {})) && Arrived(w, w, o, []) && Shas([]) == {}
  {}

  lemma OneMoreSha(front: seq<Upstream>, p: Upstream)
    ensures Shas(front + [p]) == Shas(front) + {p.sha}
  {}

  /** The archive is indexed as the source `factory`'s. */
  predicate FactoryRow(db: Db, arch: Arch, p: Upstream) {
    && p.sha in db.index
    && db.index[p.sha] == Row(db.index[p.sha].id, "factory", p.name, p.version, arch, p.filename, false)
  }

  /**
   * A publication of archives the pool has nothing of completes exactly when there are any,
   * and all are downloaded under names that can be stored; then each is indexed as the
   * source `factory`'s and edge serves them, and of what it served every row but those of
   * the same source, name and architecture.
   */
  lemma NewArchives(w: World, arch: Arch, archives: seq<Upstream>, downloads: map<string, Download>)
    requires Good(w) && Apart(archives)
    requires forall p :: p in archives ==> NewTo(w, Options("factory", arch, Edge, 0, {}), p)
    ensures var r := PublishJob(w, arch, archives, downloads);
            && (r.Some? <==> archives != [] && forall p :: p in archives ==>
                  ArchiveName(p.filename) && p.filename in downloads && downloads[p.filename] in {Unsigned, Signed})
            && (r.Some? ==>
                  && (forall p :: p in archives ==> FactoryRow(r.value.db, arch, p))
                  && forall x :: x in r.value.db.index ==>
                       (x in r.value.db.Live(Edge) <==>
                        || (exists p :: p in archives && p.sha == x)
                        || (x in w.db.Live(Edge) && forall p :: p in archives ==>
                              r.value.db.index[x].source != "factory" || r.value.db.index[x].name != p.name
                              || r.value.db.index[x].arch != arch)))
  {
    hide *;
    var o := Options("factory", arch, Edge, 0, {});
    IsFactory(arch);
    PublishServes(w, arch, archives, downloads);
    AllFresh(w, o, archives, archives, downloads);
    forall p ensures !Refused(p, FetchOf(downloads, p)) <==>
      ArchiveName(p.filename) && p.filename in downloads && downloads[p.filename] in {Unsigned, Signed}
    {
      RefusedIs(p, downloads);
    }
    var u := PublishAll(w, o, archives, downloads);
    if u.Some? {
      var (w1, add) := u.value;
      GoodLive(w, Edge);
      ArrivedRows(w, w1, arch, archives);
      var r := PublishJob(w, arch, archives, downloads);
      if r.Some? {
        SameRows(w1.db, r.value.db, arch, archives);
        forall x | x in r.value.db.index
          ensures x in r.value.db.Live(Edge) <==>
            || (exists p :: p in archives && p.sha == x)
            || (x in w.db.Live(Edge) && forall p :: p in archives ==>
                  r.value.db.index[x].source != "factory" || r.value.db.index[x].name != p.name
                  || r.value.db.index[x].arch != arch)
        {
          ServedOver(w1.db, w.db.Live(Edge), arch, archives, x);
        }
      }
    }
  }

  lemma SameRows(db: Db, db': Db, arch: Arch, archives: seq<Upstream>)
    requires db'.index == db.index && forall p :: p in archives ==> FactoryRow(db, arch, p)
    ensures forall p :: p in archives ==> FactoryRow(db', arch, p)
  {}

  lemma IsFactory(arch: Arch)
    ensures FactoryOptions(arch) == Options("factory", arch, Edge, 0, {})
  {}

  lemma GoodLive(w: World, ring: Ring)
    requires Good(w)
    ensures w.db.Live(ring) <= w.db.index.Keys
  {
    LiveIndexed(w.db, ring);
    hide Sound, Chained;
  }

  lemma ArrivedRows(w: World, w1: World, arch: Arch, archives: seq<Upstream>)
    requires var o := Options("factory", arch, Edge, 0, {});
             Arrived(w, w1, o, archives) && Apart(archives) && forall p :: p in archives ==> NewTo(w, o, p)
    ensures forall x :: x in w.db.index ==> x in w1.db.index && w1.db.index[x] == w.db.index[x]
    ensures forall p :: p in archives ==> FactoryRow(w1.db, arch, p)
    ensures forall x :: x in Shas(archives) ==> Known(w1.db, arch, x)
  {
    var o := Options("factory", arch, Edge, 0, {});
    forall p | p in archives ensures p.sha in w1.db.index && RowOf(w1.db.index[p.sha], o, p) {
      assert NewTo(w, o, p);
      var r :| r in archives && r.sha == p.sha && RowOf(w1.db.index[p.sha], o, r);
      assert r == p;
    }
    hide NewTo, Apart;
  }

  lemma ServedOver(db: Db, rows: set<Sha>, arch: Arch, archives: seq<Upstream>, x: Sha)
    requires x in db.index && Shas(archives) <= db.index.Keys
    requires forall p :: p in archives ==> FactoryRow(db, arch, p)
    ensures x in V.Overlay(db, rows, Shas(archives)) <==>
            || (exists p :: p in archives && p.sha == x)
            || (x in rows && forall p :: p in archives ==>
                  db.index[x].source != "factory" || db.index[x].name != p.name || db.index[x].arch != arch)
  {
    var row := db.index[x];
    forall p | p in archives
      ensures db.index[p.sha].Key() == row.Key() <==> row.source == "factory" && row.name == p.name && row.arch == arch
    {}
    assert forall p :: p in archives ==> p.sha in Shas(archives);
  }
}
