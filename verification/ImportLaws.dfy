/** A sync in plain terms: which listed packages it stores, indexes and pins. */
module ImportLaws {
  import opened Common
  import opened Releases
  import opened Sync
  import opened SyncLaws
  import opened Import
  import SyncPool

  // ---------- filenames ----------

  predicate InName(c: char) {
    || 'A' <= c <= 'Z' || 'a' <= c <= 'z' || '0' <= c <= '9'
    || c == '@' || c == '.' || c == '_' || c == '+' || c == ':' || c == '-'
  }

  predicate Ending(s: string) {
    || s == "-x86_64.pkg.tar.zst" || s == "-aarch64.pkg.tar.zst" || s == "-any.pkg.tar.zst"
    || s == "-x86_64.pkg.tar.xz" || s == "-aarch64.pkg.tar.xz" || s == "-any.pkg.tar.xz"
  }

  predicate Run1(s: string) { s != "" && forall i :: 0 <= i < |s| ==> InName(s[i]) }

  /** A name of letters, digits and `@._+:-`, the architecture, and one of two compressions. */
  ghost predicate ArchiveName(f: string) {
    exists name, ending :: Run1(name) && Ending(ending) && f == name + ending
  }

  lemma Same(c: char)
    ensures NameChar(c) <==> InName(c)
  {
    assert forall d :: d in "@._+:-" <==> d == '@' || d == '.' || d == '_' || d == '+' || d == ':' || d == '-' by {
      var s := "@._+:-";
      assert s[0] == '@' && s[1] == '.' && s[2] == '_' && s[3] == '+' && s[4] == ':' && s[5] == '-';
    }
  }

  lemma SameEndings(e: string)
    ensures e in PACKAGE_ENDINGS <==> Ending(e)
  {
    var s := PACKAGE_ENDINGS;
    assert s[0] == "-x86_64.pkg.tar.zst" && s[1] == "-aarch64.pkg.tar.zst" && s[2] == "-any.pkg.tar.zst";
    assert s[3] == "-x86_64.pkg.tar.xz" && s[4] == "-aarch64.pkg.tar.xz" && s[5] == "-any.pkg.tar.xz" && |s| == 6;
  }

  lemma EndsInIs(f: string, e: string)
    ensures EndsIn(f, e) <==> exists name :: Run1(name) && f == name + e
  {
    hide NameChar, InName;
    if EndsIn(f, e) {
      var name := f[..|f| - |e|];
      forall i | 0 <= i < |name| ensures InName(name[i]) { Same(f[i]); }
      assert f == name + e;
    }
    if name :| Run1(name) && f == name + e {
      assert f[|f| - |e|..] == e;
      forall i | 0 <= i < |f| - |e| ensures NameChar(f[i]) { Same(name[i]); }
    }
  }

  lemma PackageFilenameIs(f: string)
    ensures PackageFilename(f) <==> exists e :: e in PACKAGE_ENDINGS && EndsIn(f, e)
  {
    hide EndsIn, PACKAGE_ENDINGS;
  }

  lemma ArchiveNameIs(f: string)
    ensures ArchiveName(f) <==> exists e :: Ending(e) && exists name :: Run1(name) && f == name + e
  {
    hide Ending, Run1;
  }

  /** Exactly these filenames can be stored. */
  lemma FilenamesStored(f: string)
    ensures PackageFilename(f) <==> ArchiveName(f)
  {
    hide *;
    PackageFilenameIs(f);
    ArchiveNameIs(f);
    forall e ensures e in PACKAGE_ENDINGS && EndsIn(f, e) <==> Ending(e) && exists name :: Run1(name) && f == name + e {
      EndsInIs(f, e);
      SameEndings(e);
    }
  }

  // ---------- new packages ----------

  /** No other entry of the list has its filename or its bytes. */
  predicate AloneIn(ups: seq<Upstream>, p: Upstream) {
    p in ups && forall r :: r in ups && (r.filename == p.filename || r.sha == p.sha) ==> r == p
  }

  /** The pool has neither its bytes nor anything under its filename. */
  predicate NewTo(w: World, o: Options, p: Upstream) {
    && p.sha !in w.db.index && (o.source, o.arch, p.filename) !in w.objects
    && forall x :: x in w.db.index && !w.db.index[x].stale ==>
         w.db.index[x].source != o.source || w.db.index[x].arch != o.arch || w.db.index[x].filename != p.filename
  }

  /** No source this one defers to has a package of its name in the ring. */
  predicate NotYielded(w: World, o: Options, p: Upstream) {
    forall x :: x in w.db.Live(o.ring) && x in w.db.index && w.db.index[x].arch == o.arch
                && w.db.index[x].source in o.deferTo ==>
      w.db.index[x].name != p.name
  }

  lemma NewIsMissing(w: World, o: Options, ups: seq<Upstream>, p: Upstream)
    requires AloneIn(ups, p) && NewTo(w, o, p) && NotYielded(w, o, p)
    ensures p in Wanted(w, o, ups) && p in Missing(w, o, Wanted(w, o, ups))
    ensures forall r :: r in Missing(w, o, Wanted(w, o, ups)) ==> r in ups
  {
    assert !Collides(w, o, p);
    assert p.name !in OwnedElsewhere(w, o);
    hide ByFilename, OwnedElsewhere, Collides;
    assert p in Wanted(w, o, ups) && forall r :: r in Wanted(w, o, ups) ==> r in ups;
    hide Wanted;
    var wanted := Wanted(w, o, ups);
    assert p.filename !in Colliding(w, o, wanted);
    hide Colliding;
  }

  /**
   * A listed package the pool has nothing of is stored under its filename, indexed as this
   * source's and pinned exactly when its filename is one that can be stored and it was
   * downloaded, signed or not.
   */
  lemma NewPackages(w: World, o: Options, ups: seq<Upstream>, downloads: map<string, Download>, p: Upstream)
    requires AloneIn(ups, p) && NewTo(w, o, p) && NotYielded(w, o, p) && o.limit == 0
    ensures var out := Run(w, o, ups, downloads);
            if ArchiveName(p.filename) && p.filename in downloads && downloads[p.filename] in {Unsigned, Signed} then
              && p.sha in out.add && p.sha in out.world.db.index
              && var row := out.world.db.index[p.sha];
                 var key := (o.source, o.arch, p.filename);
                 && row == Row(row.id, o.source, p.name, p.version, o.arch, p.filename, false)
                 && key in out.world.objects && out.world.objects[key] == Object(p.sha, p.size, p.size <= 94371840)
            else
              p.sha !in out.add && p.sha !in out.world.db.index
  {
    hide *;
    NewIsMissing(w, o, ups, p);
    RefusedIs(p, downloads);
    if Refused(p, FetchOf(downloads, p)) {
      NewNotDone(w, o, ups, downloads, p);
      NotImported(w, o, ups, downloads, p);
    } else {
      NewDone(w, o, ups, downloads, p);
      IsIndexed(w, o, ups, downloads, p);
    }
  }

  lemma RefusedIs(p: Upstream, downloads: map<string, Download>)
    ensures !Refused(p, FetchOf(downloads, p)) <==>
      ArchiveName(p.filename) && p.filename in downloads && downloads[p.filename] in {Unsigned, Signed}
  {
    FilenamesStored(p.filename);
    hide PackageFilename, ArchiveName;
  }

  lemma NewDone(w: World, o: Options, ups: seq<Upstream>, downloads: map<string, Download>, p: Upstream)
    requires AloneIn(ups, p) && NewTo(w, o, p) && NotYielded(w, o, p) && !Refused(p, FetchOf(downloads, p))
    ensures var (w', done, _) := ImportAll(w, o, Missing(w, o, Wanted(w, o, ups)), downloads);
            p in done && KeyFor(o, p) in w'.objects && w'.objects[KeyFor(o, p)] == ObjectOf(p)
  {
    var ps := Missing(w, o, Wanted(w, o, ups));
    var w' := ImportAll(w, o, ps, downloads).0;
    NewIsMissing(w, o, ups, p);
    InOrderPasses(w, o, ps, downloads);
    InOrderUploads(w, o, ps, downloads);
    OwnObject(w, w', o, ps, downloads, p);
    hide ImportAll, Missing, Wanted, Refused, Uploads, FetchOf;
  }

  lemma NewNotDone(w: World, o: Options, ups: seq<Upstream>, downloads: map<string, Download>, p: Upstream)
    requires Refused(p, FetchOf(downloads, p))
    ensures p !in ImportAll(w, o, Missing(w, o, Wanted(w, o, ups)), downloads).1
  {
    InOrderPasses(w, o, Missing(w, o, Wanted(w, o, ups)), downloads);
    hide ImportAll, Missing, Wanted, Refused, FetchOf;
  }

  lemma IsIndexed(w: World, o: Options, ups: seq<Upstream>, downloads: map<string, Download>, p: Upstream)
    requires AloneIn(ups, p) && o.limit == 0
    requires var (w', done, _) := ImportAll(w, o, Missing(w, o, Wanted(w, o, ups)), downloads);
             p in done && KeyFor(o, p) in w'.objects && w'.objects[KeyFor(o, p)] == ObjectOf(p)
    ensures var out := Run(w, o, ups, downloads);
            && p.sha in out.add && p.sha in out.world.db.index
            && var row := out.world.db.index[p.sha];
               var key := (o.source, o.arch, p.filename);
               && row == Row(row.id, o.source, p.name, p.version, o.arch, p.filename, false)
               && key in out.world.objects && out.world.objects[key] == Object(p.sha, p.size, p.size <= 94371840)
  {
    var ps := Missing(w, o, Wanted(w, o, ups));
    assert Limited(o, ps) == ps;
    ImportedRow(w, o, ups, downloads, p);
    ImportAllRows(w, o, ps, downloads);
    assert forall r :: r in ps ==> r in ups;
    hide ImportAll, Missing, Wanted, Limited, Pins, Dropped, Current;
  }

  lemma DoneAreListed(w: World, o: Options, ps: seq<Upstream>, downloads: map<string, Download>)
    ensures forall r :: r in ImportAll(w, o, ps, downloads).1 ==> r in ps
  {
    ImportAllGrows(w, o, ps, downloads);
    var (w', done, failed) := ImportAll(w, o, ps, downloads);
    forall r | r in done ensures r in ps { assert r in multiset(done) + multiset(failed); }
  }

  lemma NotImported(w: World, o: Options, ups: seq<Upstream>, downloads: map<string, Download>, p: Upstream)
    requires AloneIn(ups, p) && NewTo(w, o, p) && NotYielded(w, o, p) && o.limit == 0
    requires p !in ImportAll(w, o, Missing(w, o, Wanted(w, o, ups)), downloads).1
    ensures p.sha !in Run(w, o, ups, downloads).world.db.index && p.sha !in Run(w, o, ups, downloads).add
  {
    var ps := Missing(w, o, Wanted(w, o, ups));
    NewIsMissing(w, o, ups, p);
    if p.sha in ImportAll(w, o, ps, downloads).0.db.index {
      SyncPool.AddedAreDone(w, o, ps, downloads, p.sha);
      DoneAreListed(w, o, ps, downloads);
    }
    PinsAreKnown(w, o, ups, downloads);
    assert Limited(o, ps) == ps;
    hide ImportAll, Missing, Wanted, Pins, Dropped, Current;
  }

  // ---------- any list ----------

  /** A stored package of this source and architecture has the filename. */
  predicate HasStored(w: World, o: Options, f: string, x: Sha) {
    && x in w.db.index && !w.db.index[x].stale
    && w.db.index[x].source == o.source && w.db.index[x].arch == o.arch && w.db.index[x].filename == f
  }

  /** The first indexed of them. */
  predicate Oldest(w: World, o: Options, f: string, x: Sha) {
    HasStored(w, o, f, x)
    && forall y :: y in w.db.index && HasStored(w, o, f, y) ==> w.db.index[x].id <= w.db.index[y].id
  }

  predicate KnownFor(w: World, o: Options, x: Sha) { x in w.db.index && w.db.index[x].arch == o.arch }

  ghost predicate Free(w: World, o: Options, f: string) { forall x :: !HasStored(w, o, f, x) }

  lemma StoredIs(w: World, o: Options, f: string)
    requires RowsDistinct(w.db.index)
    ensures ByFilename(w.db.index, (o.source, o.arch, f)) == None <==> Free(w, o, f)
    ensures forall x :: ByFilename(w.db.index, (o.source, o.arch, f)) == Some(x) <==> Oldest(w, o, f, x)
  {
    var key := (o.source, o.arch, f);
    forall x ensures Names(w.db.index, x, key) <==> HasStored(w, o, f, x) {}
    forall x ensures FirstNamed(w.db.index, x, key) <==> Oldest(w, o, f, x) {}
    forall x, y | Oldest(w, o, f, x) && Oldest(w, o, f, y) ensures x == y {}
    if !Free(w, o, f) {
      var x :| HasStored(w, o, f, x);
      FirstNamedExists(w.db.index, x, key);
    }
    hide Names, HasStored, FirstNamed, Oldest, RowsDistinct;
  }

  lemma WantedIs(w: World, o: Options, ups: seq<Upstream>, p: Upstream)
    ensures p in Wanted(w, o, ups) <==> p in ups && NotYielded(w, o, p)
  {}

  lemma CollidesIs(w: World, o: Options, p: Upstream)
    requires RowsDistinct(w.db.index)
    ensures Collides(w, o, p) <==> !Free(w, o, p.filename) && !Oldest(w, o, p.filename, p.sha)
  {
    StoredIs(w, o, p.filename);
    hide ByFilename, Free, Oldest, RowsDistinct;
  }

  lemma OldestKnown(w: World, o: Options, f: string, x: Sha)
    requires Oldest(w, o, f, x)
    ensures KnownFor(w, o, x) && !Free(w, o, f)
  {}

  lemma ReuseIs(w: World, o: Options, wanted: seq<Upstream>, x: Sha)
    requires RowsDistinct(w.db.index)
    ensures x in Reuse(w, o, wanted) <==>
      exists p :: p in wanted && Collides(w, o, p) && Oldest(w, o, p.filename, x)
  {
    forall f ensures forall x :: ByFilename(w.db.index, (o.source, o.arch, f)) == Some(x) <==> Oldest(w, o, f, x) {
      StoredIs(w, o, f);
    }
    hide ByFilename, Oldest, RowsDistinct;
    if p :| p in wanted && Collides(w, o, p) && Oldest(w, o, p.filename, x) {
      assert ByFilename(w.db.index, (o.source, o.arch, p.filename)).value == x;
    }
  }

  /** The listed packages a run imports: neither yielded nor known, and with a filename nothing is stored under. */
  lemma ImportedAre(w: World, o: Options, ups: seq<Upstream>, p: Upstream)
    requires RowsDistinct(w.db.index)
    ensures p in Missing(w, o, Wanted(w, o, ups)) <==>
      p in ups && NotYielded(w, o, p) && !KnownFor(w, o, p.sha) && Free(w, o, p.filename)
  {
    WantedIs(w, o, ups, p);
    var wanted := Wanted(w, o, ups);
    forall r ensures Collides(w, o, r) <==> !Free(w, o, r.filename) && !Oldest(w, o, r.filename, r.sha) {
      CollidesIs(w, o, r);
    }
    if Oldest(w, o, p.filename, p.sha) { OldestKnown(w, o, p.filename, p.sha); }
    hide Wanted, Collides, NotYielded, Oldest, Free, RowsDistinct;
  }

  /** With a limit only the first of them are. */
  lemma LimitIs(w: World, o: Options, ups: seq<Upstream>, downloads: map<string, Download>)
    ensures var missing := Missing(w, o, Wanted(w, o, ups));
            var tried := Limited(o, missing);
            var (_, done, failed) := ImportAll(w, o, tried, downloads);
            && tried <= missing
            && |tried| == (if o.limit > 0 && o.limit < |missing| then o.limit else |missing|)
            && multiset(done) + multiset(failed) == multiset(tried)
  {
    ImportAllGrows(w, o, Limited(o, Missing(w, o, Wanted(w, o, ups))), downloads);
    hide ImportAll, Missing, Wanted;
  }

  /**
   * What a run pins for a listed package that is not yielded: what is stored under its filename,
   * if anything is; otherwise its own bytes, if they are known for the architecture or
   * were just imported.
   */
  lemma PinsMean(w: World, o: Options, ups: seq<Upstream>, downloads: map<string, Download>, x: Sha)
    requires RowsDistinct(w.db.index)
    ensures var (_, done, _) := ImportAll(w, o, Limited(o, Missing(w, o, Wanted(w, o, ups))), downloads);
            x in Run(w, o, ups, downloads).add <==>
            exists p :: p in ups && NotYielded(w, o, p) &&
              if Free(w, o, p.filename) then x == p.sha && (KnownFor(w, o, x) || x in Shas(done))
              else Oldest(w, o, p.filename, x)
  {
    hide *;
    var wanted := Wanted(w, o, ups);
    var (_, done, _) := ImportAll(w, o, Limited(o, Missing(w, o, wanted)), downloads);
    RunPins(w, o, ups, downloads);
    ReuseIs(w, o, wanted, x);
    forall p ensures p in wanted <==> p in ups && NotYielded(w, o, p) { WantedIs(w, o, ups, p); }
    forall p ensures Collides(w, o, p) <==> !Free(w, o, p.filename) && !Oldest(w, o, p.filename, p.sha) {
      CollidesIs(w, o, p);
    }
    forall p: Upstream | Oldest(w, o, p.filename, x) ensures KnownFor(w, o, x) && !Free(w, o, p.filename) {
      OldestKnown(w, o, p.filename, x);
    }
    PinIs(w, o, wanted, done, x);
    if p :| p in wanted && !Free(w, o, p.filename) && Oldest(w, o, p.filename, x) && !Collides(w, o, p) {
      OnlyOldest(w, o, p.filename, x, p.sha);
      assert p.sha == x;
    }
    forall p, r | p in wanted && r in wanted && p.filename == r.filename && p.sha == x && Collides(w, o, r)
      ensures !Free(w, o, p.filename)
    {}
  }

  lemma RunPins(w: World, o: Options, ups: seq<Upstream>, downloads: map<string, Download>)
    ensures var wanted := Wanted(w, o, ups);
            var (_, done, _) := ImportAll(w, o, Limited(o, Missing(w, o, wanted)), downloads);
            Run(w, o, ups, downloads).add == Pins(w, o, wanted, done)
  {
    hide Wanted, Missing, Limited, ImportAll, Pins, Dropped, Current;
  }

  lemma PinIs(w: World, o: Options, wanted: seq<Upstream>, done: seq<Upstream>, x: Sha)
    ensures x in Pins(w, o, wanted, done) <==>
      || x in Reuse(w, o, wanted)
      || exists p :: p in wanted && p.sha == x && (KnownFor(w, o, x) || x in Shas(done))
                     && forall r :: r in wanted && r.filename == p.filename ==> !Collides(w, o, r)
  {
    hide Reuse, Collides;
  }

  lemma OnlyOldest(w: World, o: Options, f: string, x: Sha, y: Sha)
    requires RowsDistinct(w.db.index) && Oldest(w, o, f, x) && Oldest(w, o, f, y)
    ensures x == y
  {}

  /** The names a run drops: those of its source's rows in the ring that no listed package but yielded ones has. */
  lemma DropsMean(w: World, o: Options, ups: seq<Upstream>, downloads: map<string, Download>, n: string)
    ensures n in Run(w, o, ups, downloads).remove <==>
      && (exists x :: x in w.db.Live(o.ring) && x in w.db.index && w.db.index[x].arch == o.arch
            && w.db.index[x].source == o.source && w.db.index[x].name == n)
      && forall p :: p in ups && NotYielded(w, o, p) ==> p.name != n
  {
    forall p ensures p in Wanted(w, o, ups) <==> p in ups && NotYielded(w, o, p) { WantedIs(w, o, ups, p); }
    hide Wanted, Missing, Limited, ImportAll, Pins, NotYielded;
    assert Run(w, o, ups, downloads).remove == Dropped(w, o, Wanted(w, o, ups));
  }
}
