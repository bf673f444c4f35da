/** What a sync guarantees: what it pins is stored, whose rows it touches, and when a second run is quiet. */
module SyncLaws {
  import opened Common
  import opened Releases
  import opened Creation
  import opened Selections
  import opened Sync

  /** The release request a run ends with. */
  function PinRequest(o: Options, add: set<Sha>, remove: set<string>): Request {
    Request(o.ring, None, None, add, {}, set n | n in remove :: (o.source, n), Some(o.arch), None)
  }

  /** The selection after pinning `add` and dropping this source's rows named in `remove`. */
  function Repinned(db: Db, live: set<Sha>, source: string, arch: Arch, add: set<Sha>, remove: set<string>): set<Sha>
    requires add <= db.index.Keys
  {
    var keys := set p | p in add :: db.index[p].Key();
    (set p | p in live && p in db.index && db.index[p].Key() !in keys
             && !(db.index[p].source == source && db.index[p].arch == arch && db.index[p].name in remove))
    + add
  }

  lemma PinRequestRepins(db: Db, o: Options, add: set<Sha>, remove: set<string>)
    requires Inv(db) && AllIndexed(db, PinRequest(o, add, remove))
    ensures Create(db, PinRequest(o, add, remove)).Ok?
    ensures Asked(db, PinRequest(o, add, remove))
            == Repinned(db, db.Live(o.ring), o.source, o.arch, add, remove)
  {
    var q := PinRequest(o, add, remove);
    LiveIndexedInv(db, o.ring);
    hide Inv, Members, Distance;
    assert Base(db, q, None) == db.Live(o.ring);
    forall p | p in db.Live(o.ring) && p in db.index
      ensures Removed(q, db.index[p])
        <==> db.index[p].source == o.source && db.index[p].arch == o.arch && db.index[p].name in remove
    {
      var r := db.index[p];
      assert (r.source, r.name) in q.removeFrom <==> r.source == o.source && r.name in remove;
    }
  }

  /** What a run leaves: the pool after the imports, and the ring repinned when the selection changed. */
  ghost predicate Settles(w: World, o: Options, out: Outcome, w1: World)
    requires out.add <= out.world.db.index.Keys
  {
    && w1.objects == out.world.objects && w1.db.index == out.world.db.index
    && w1.db.Live(o.ring) ==
       if out.changed then Repinned(out.world.db, w.db.Live(o.ring), o.source, o.arch, out.add, out.remove)
       else w.db.Live(o.ring)
  }

  lemma ReuseIsKnown(w: World, o: Options, ps: seq<Upstream>)
    ensures forall p :: p in Reuse(w, o, ps) ==> Known(w.db, o.arch, p) && w.db.index[p].source == o.source
  {}

  /** Every pin is indexed for the architecture, so the release request is always accepted. */
  lemma PinsAreKnown(w: World, o: Options, ups: seq<Upstream>, downloads: map<string, Download>)
    ensures var out := Run(w, o, ups, downloads);
            Grows(w, out.world) && forall p :: p in out.add ==> Known(out.world.db, o.arch, p)
  {
    var wanted := Wanted(w, o, ups);
    ImportAllGrows(w, o, Limited(o, Missing(w, o, wanted)), downloads);
    ReuseIsKnown(w, o, wanted);
    hide ImportAll, Missing, Wanted, Limited, Reuse, Colliding, Dropped, Current;
  }

  // ---------- the filename answers ----------

  lemma ByFilenameUnique(index: map<Sha, Row>, p: Sha, key: ObjectKey)
    requires RowsDistinct(index) && FirstNamed(index, p, key)
    ensures ByFilename(index, key) == Some(p)
  {
    var q :| FirstNamed(index, q, key) && ByFilename(index, key) == Some(q);
  }

  /** Indexing more packages never changes the answer for a filename that has one. */
  lemma AnswersStay(w: World, w': World, key: ObjectKey)
    requires RowsNumbered(w.db.index) && RowsDistinct(w.db.index) && Grows(w, w')
    requires forall q :: q in w'.db.index && q !in w.db.index ==> w'.db.index[q].id >= |w.db.index|
    requires ByFilename(w.db.index, key).Some?
    ensures ByFilename(w'.db.index, key) == ByFilename(w.db.index, key)
  {
    var p :| FirstNamed(w.db.index, p, key) && ByFilename(w.db.index, key) == Some(p);
    forall r | r in w'.db.index && Names(w'.db.index, r, key) ensures w'.db.index[p].id <= w'.db.index[r].id {
      if r in w.db.index { assert Names(w.db.index, r, key); }
    }
    assert FirstNamed(w'.db.index, p, key);
    forall q | FirstNamed(w'.db.index, q, key) ensures q == p {
      assert q in w.db.index;
    }
  }

  // ---------- whose rows a sync touches ----------

  /** Pinned by its own bytes, which the index already had. */
  ghost predicate PinnedKnown(w: World, o: Options, wanted: seq<Upstream>, p: Upstream) {
    p in wanted && Known(w.db, o.arch, p.sha) && p.filename !in Colliding(w, o, wanted)
  }

  /** Packages that share a filename or their bytes are one and the same, listed again. */
  predicate Apart(ps: seq<Upstream>) {
    forall p, r :: p in ps && r in ps && (p.filename == r.filename || p.sha == r.sha) ==> p == r
  }

  /** A package the run imported is indexed as this source's, under its own name unless it shares its bytes. */
  lemma ImportedRow(w: World, o: Options, ups: seq<Upstream>, downloads: map<string, Download>, p: Upstream)
    requires p in ImportAll(w, o, Limited(o, Missing(w, o, Wanted(w, o, ups))), downloads).1
    ensures var out := Run(w, o, ups, downloads);
            && p in Wanted(w, o, ups) && p.filename !in Colliding(w, o, Wanted(w, o, ups))
            && p.sha in out.add && p.sha !in w.db.index
            && p.sha in out.world.db.index && out.world.db.index[p.sha].source == o.source
            && (Apart(ups) ==> RowOf(out.world.db.index[p.sha], o, p))
  {
    var missing := Missing(w, o, Wanted(w, o, ups));
    var ps := Limited(o, missing);
    ImportAllGrows(w, o, ps, downloads);
    ImportAllRows(w, o, ps, downloads);
    var (w', done, failed) := ImportAll(w, o, ps, downloads);
    assert p in multiset(done) + multiset(failed) && p in ps && p in missing && p in ups;
    assert Known(w'.db, o.arch, p.sha);
    assert p.sha in Shas(done);
    var r :| r in ps && r.sha == p.sha && RowOf(w'.db.index[p.sha], o, r);
    assert r in missing && r in ups;
  }

  /** Everything a run pins is this source's own, exactly when the known bytes it pins are. */
  lemma PinsAreOwn(w: World, o: Options, ups: seq<Upstream>, downloads: map<string, Download>)
    ensures var out := Run(w, o, ups, downloads);
            var wanted := Wanted(w, o, ups);
            (forall p :: p in out.add ==> p in out.world.db.index && out.world.db.index[p].source == o.source)
            <==> (forall p :: PinnedKnown(w, o, wanted, p) ==> w.db.index[p.sha].source == o.source)
  {
    var out := Run(w, o, ups, downloads);
    var wanted := Wanted(w, o, ups);
    var (w', done, failed) := ImportAll(w, o, Limited(o, Missing(w, o, wanted)), downloads);
    PinsAreKnown(w, o, ups, downloads);
    ReuseIsKnown(w, o, wanted);
    forall p | p in done ensures p.sha in out.world.db.index && out.world.db.index[p.sha].source == o.source {
      ImportedRow(w, o, ups, downloads, p);
    }
    hide ImportAll, Missing, Wanted, Limited, Reuse, Colliding, Dropped, Current;
    forall p | PinnedKnown(w, o, wanted, p) ensures p.sha in out.add {}
  }

  /** No row of another source or another architecture comes or goes. */
  ghost predicate TouchesOwnRowsOnly(db: Db, source: string, arch: Arch, live: set<Sha>, live': set<Sha>) {
    forall p :: p in db.index && (db.index[p].source != source || db.index[p].arch != arch) ==>
      (p in live' <==> p in live)
  }

  /** Pinning touches only the source's own rows, whatever the ring serves, exactly when the pins are its own. */
  lemma OwnPinsTouchOwnRows(db: Db, source: string, arch: Arch, add: set<Sha>, remove: set<string>)
    requires add <= db.index.Keys
    ensures (forall live :: live <= db.index.Keys ==>
      TouchesOwnRowsOnly(db, source, arch, live, Repinned(db, live, source, arch, add, remove)))
            <==> (forall p :: p in add ==> db.index[p].source == source && db.index[p].arch == arch)
  {
    if forall live :: live <= db.index.Keys ==>
      TouchesOwnRowsOnly(db, source, arch, live, Repinned(db, live, source, arch, add, remove)) {
      assert TouchesOwnRowsOnly(db, source, arch, {}, Repinned(db, {}, source, arch, add, remove));
    }
  }

  // ---------- what is pinned is stored ----------

  /** The index row of `p` stands for an object, and the pool stores these bytes under it. */
  predicate StoredAsIndexed(w: World, p: Sha) {
    && p in w.db.index && !w.db.index[p].stale
    && KeyOf(w.db.index[p]) in w.objects && w.objects[KeyOf(w.db.index[p])].sha == p
  }

  lemma StaysStored(w: World, w': World, x: Sha)
    requires Grows(w, w') && StoredAsIndexed(w, x)
    ensures StoredAsIndexed(w', x)
  {}

  /** An indexed row is, and stays, stored as it says exactly when it is the first to name its filename. */
  lemma RowIsStored(w: World, w': World, x: Sha)
    requires RowsDistinct(w.db.index) && AnswersStored(w) && x in w.db.index && Grows(w, w')
    ensures StoredAsIndexed(w', x) <==> FirstNamed(w.db.index, x, KeyOf(w.db.index[x]))
  {
    var key := KeyOf(w.db.index[x]);
    if Names(w.db.index, x, key) {
      FirstNamedExists(w.db.index, x, key);
      var m :| FirstNamed(w.db.index, m, key);
      ByFilenameUnique(w.db.index, m, key);
      assert FirstNamed(w.db.index, x, key) <==> x == m by {
        if FirstNamed(w.db.index, x, key) { ByFilenameUnique(w.db.index, x, key); }
      }
    }
  }

  lemma ReuseIsStored(w: World, o: Options, wanted: seq<Upstream>, x: Sha)
    requires AnswersStored(w) && x in Reuse(w, o, wanted)
    ensures StoredAsIndexed(w, x)
  {
    var p :| p in wanted && Collides(w, o, p) && ByFilename(w.db.index, KeyFor(o, p)).value == x;
    assert FirstNamed(w.db.index, x, KeyFor(o, p));
  }
}
