/** A second sync of the same upstream: exactly when it makes no release. */
module SyncTwice {
  import opened Common
  import opened Releases
  import opened Creation
  import opened Sync
  import opened SyncLaws

  /** What a package ends up pinned by: the stored object of a collision, or its own bytes. */
  ghost function Pin(w: World, o: Options, p: Upstream): Sha {
    if Collides(w, o, p) then ByFilename(w.db.index, KeyFor(o, p)).value else p.sha
  }

  /** The source and the name of the row a package ends up pinned by: those it was indexed under, or its own. */
  ghost function PinSource(w: World, o: Options, p: Upstream): string {
    if Known(w.db, o.arch, Pin(w, o, p)) then w.db.index[Pin(w, o, p)].source else o.source
  }

  ghost function PinName(w: World, o: Options, p: Upstream): string {
    if Known(w.db, o.arch, Pin(w, o, p)) then w.db.index[Pin(w, o, p)].name else p.name
  }

  /** A complete first run, without failures or limit, and the ring it leaves in `w1`. */
  ghost predicate FirstRun(w: World, o: Options, ups: seq<Upstream>, downloads: map<string, Download>, w1: World) {
    var out := Run(w, o, ups, downloads);
    && Apart(ups) && RowsNumbered(w.db.index) && RowsDistinct(w.db.index) && w.db.Live(o.ring) <= w.db.index.Keys
    && o.limit == 0 && o.source !in o.deferTo && out.failed == 0
    && out.add <= out.world.db.index.Keys && Settles(w, o, out, w1)
  }

  /** Once the pins are served, the name is owned by a source this one defers to. */
  ghost predicate Yielded(w: World, o: Options, wanted: seq<Upstream>, name: string) {
    exists p :: p in wanted && PinSource(w, o, p) in o.deferTo && PinName(w, o, p) == name
  }

  /** A package the next run still wants. */
  ghost predicate Kept(w: World, o: Options, wanted: seq<Upstream>, p: Upstream) {
    p in wanted && !Yielded(w, o, wanted, p.name)
  }

  /** The row pinned for the package stays asked for, and its name listed. */
  ghost predicate StaysAsked(w: World, o: Options, wanted: seq<Upstream>, p: Upstream) {
    && (exists r :: Kept(w, o, wanted, r) && Pin(w, o, r) == Pin(w, o, p))
    && (exists r :: Kept(w, o, wanted, r) && r.name == PinName(w, o, p))
  }

  predicate Lists(wanted: seq<Upstream>, name: string) {
    exists p :: p in wanted && p.name == name
  }

  /** Some package is pinned by a row of the source's own under that name. */
  ghost predicate PinsOwn(w: World, o: Options, wanted: seq<Upstream>, name: string) {
    exists p :: p in wanted && PinSource(w, o, p) == o.source && PinName(w, o, p) == name
  }

  /**
   * What the index holds keeps the ring quiet: the packages not yielded are pinned by the
   * source's own rows, every own row pinned stays asked for, and each own row the ring
   * served under a listed name has the name of an own row pinned.
   */
  ghost predicate Steady(w: World, o: Options, wanted: seq<Upstream>) {
    && (forall p :: Kept(w, o, wanted, p) ==> PinSource(w, o, p) == o.source)
    && (forall p :: p in wanted && PinSource(w, o, p) == o.source ==> StaysAsked(w, o, wanted, p))
    && (forall x :: x in Current(w, o) && x in w.db.index && Lists(wanted, w.db.index[x].name) ==>
          PinsOwn(w, o, wanted, w.db.index[x].name))
  }

  lemma CollidingIff(w: World, o: Options, ps: seq<Upstream>, p: Upstream)
    requires p in ps && forall r :: r in ps && r.filename == p.filename ==> r == p
    ensures p.filename in Colliding(w, o, ps) <==> Collides(w, o, p)
  {}

  // ---------- the first run ----------

  /** The first run pins every wanted package, and nothing else. */
  lemma FirstPins(w: World, o: Options, ups: seq<Upstream>, downloads: map<string, Download>, w1: World)
    requires FirstRun(w, o, ups, downloads, w1)
    ensures Grows(w, Run(w, o, ups, downloads).world)
    ensures forall x :: x in Run(w, o, ups, downloads).add <==> exists p :: p in Wanted(w, o, ups) && x == Pin(w, o, p)
    ensures forall p :: p in Wanted(w, o, ups) ==>
      var x := Pin(w, o, p);
      && Known(w1.db, o.arch, x) && w1.db.index[x].name == PinName(w, o, p)
      && w1.db.index[x].source == PinSource(w, o, p)
  {
    var wanted := Wanted(w, o, ups);
    var out := Run(w, o, ups, downloads);
    PinsAreKnown(w, o, ups, downloads);
    forall p | p in wanted
      ensures Pin(w, o, p) in out.add
      ensures var x := Pin(w, o, p);
        && Known(w1.db, o.arch, x) && w1.db.index[x].name == PinName(w, o, p)
        && w1.db.index[x].source == PinSource(w, o, p)
    {
      FirstPin(w, o, ups, downloads, w1, p);
    }
    assert forall p :: p in wanted ==> p in ups;
    hide PinName, PinSource, ImportAll, Missing, Wanted, Dropped, Current;
    forall x | x in out.add ensures exists p :: p in wanted && x == Pin(w, o, p) {
      if x in Reuse(w, o, wanted) {
        var p :| p in wanted && Collides(w, o, p) && ByFilename(w.db.index, KeyFor(o, p)).value == x;
      } else {
        var p :| p in wanted && p.filename !in Colliding(w, o, wanted) && p.sha == x;
        CollidingIff(w, o, wanted, p);
      }
    }
  }

  lemma FirstPin(w: World, o: Options, ups: seq<Upstream>, downloads: map<string, Download>, w1: World, p: Upstream)
    requires FirstRun(w, o, ups, downloads, w1) && p in Wanted(w, o, ups)
    ensures var x := Pin(w, o, p);
      && x in Run(w, o, ups, downloads).add
      && Known(w1.db, o.arch, x) && w1.db.index[x].name == PinName(w, o, p)
      && w1.db.index[x].source == PinSource(w, o, p)
  {
    var wanted := Wanted(w, o, ups);
    var missing := Missing(w, o, wanted);
    CollidingIff(w, o, wanted, p);
    PinsAreKnown(w, o, ups, downloads);
    if Collides(w, o, p) {
      assert Pin(w, o, p) in Reuse(w, o, wanted);
      ReuseIsKnown(w, o, wanted);
    } else if !Known(w.db, o.arch, p.sha) {
      var (w', done, failed) := ImportAll(w, o, missing, downloads);
      ImportAllGrows(w, o, missing, downloads);
      assert p in missing && p in multiset(missing);
      assert failed == [] && multiset(done) == multiset(missing);
      assert p in done;
      ImportedRow(w, o, ups, downloads, p);
    }
  }

  /** An unchanged selection is already the one the pins ask for. */
  lemma LiveAfter(w: World, o: Options, ups: seq<Upstream>, downloads: map<string, Download>, w1: World)
    requires FirstRun(w, o, ups, downloads, w1)
    ensures var out := Run(w, o, ups, downloads);
            w1.db.Live(o.ring) == Repinned(out.world.db, w.db.Live(o.ring), o.source, o.arch, out.add, out.remove)
  {
    var out := Run(w, o, ups, downloads);
    FirstPins(w, o, ups, downloads, w1);
    if !out.changed {
      var live := w.db.Live(o.ring);
      forall p | p in live && out.world.db.index[p].Key() in (set x | x in out.add :: out.world.db.index[x].Key())
        ensures p in out.add
      {
        assert out.world.db.index[p] == w.db.index[p];
        assert p in Current(w, o);
      }
    }
  }

  /** A row the ring serves after the first run: a pin, or a row that was neither dropped nor replaced. */
  ghost predicate Survives(w: World, o: Options, wanted: seq<Upstream>, w1: World, x: Sha)
    requires x in w1.db.index
  {
    var row := w1.db.index[x];
    && x in w.db.Live(o.ring)
    && (forall p :: p in wanted && Pin(w, o, p) in w1.db.index ==> w1.db.index[Pin(w, o, p)].Key() != row.Key())
    && (row.source == o.source && row.arch == o.arch ==> Lists(wanted, row.name))
  }

  lemma FirstFacts(w: World, o: Options, ups: seq<Upstream>, downloads: map<string, Download>, w1: World)
    requires FirstRun(w, o, ups, downloads, w1)
    ensures var out := Run(w, o, ups, downloads);
            && Grows(w, out.world) && w1.db.index == out.world.db.index && out.add <= w1.db.index.Keys
            && out.remove == Dropped(w, o, Wanted(w, o, ups)) && w.db.Live(o.ring) <= w.db.index.Keys
  {
    ImportAllGrows(w, o, Missing(w, o, Wanted(w, o, ups)), downloads);
  }

  lemma RepinnedHolds(db: Db, live: set<Sha>, source: string, arch: Arch, add: set<Sha>, remove: set<string>, x: Sha)
    requires add <= db.index.Keys && x in db.index
    ensures var row := db.index[x];
            x in Repinned(db, live, source, arch, add, remove) <==>
              || x in add
              || (x in live && (forall y :: y in add ==> db.index[y].Key() != row.Key())
                  && !(row.source == source && row.arch == arch && row.name in remove))
  {}

  lemma DroppedNames(w: World, o: Options, wanted: seq<Upstream>, x: Sha)
    requires x in Current(w, o)
    ensures w.db.index[x].name in Dropped(w, o, wanted) <==> !Lists(wanted, w.db.index[x].name)
  {}

  lemma ServedAfter(w: World, o: Options, ups: seq<Upstream>, downloads: map<string, Download>, w1: World, x: Sha)
    requires FirstRun(w, o, ups, downloads, w1) && x in w1.db.index
    ensures var wanted := Wanted(w, o, ups);
            x in w1.db.Live(o.ring) <==> (exists p :: p in wanted && x == Pin(w, o, p)) || Survives(w, o, wanted, w1, x)
  {
    var out := Run(w, o, ups, downloads);
    FirstFacts(w, o, ups, downloads, w1);
    FirstPins(w, o, ups, downloads, w1);
    LiveAfter(w, o, ups, downloads, w1);
    RepinnedHolds(out.world.db, w.db.Live(o.ring), o.source, o.arch, out.add, out.remove, x);
    hide FirstRun, Run, Wanted, Pin, Repinned;
    var row := w1.db.index[x];
    if x in w.db.Live(o.ring) && row.source == o.source && row.arch == o.arch {
      assert w.db.index[x] == row;
      DroppedNames(w, o, Wanted(w, o, ups), x);
    }
  }

  /** The second run wants what the first wanted, without what it now yields. */
  lemma WantedAfter(w: World, o: Options, ups: seq<Upstream>, downloads: map<string, Download>, w1: World, p: Upstream)
    requires FirstRun(w, o, ups, downloads, w1)
    ensures p in Wanted(w1, o, ups) <==> Kept(w, o, Wanted(w, o, ups), p)
  {
    OwnedAfter(w, o, ups, downloads, w1, p.name);
    hide FirstRun, Yielded;
  }

  /** The names owned by sources this one defers to: those that were, and those of their rows pinned. */
  lemma OwnedAfter(w: World, o: Options, ups: seq<Upstream>, downloads: map<string, Download>, w1: World, name: string)
    requires FirstRun(w, o, ups, downloads, w1)
    ensures name in OwnedElsewhere(w1, o) <==>
      name in OwnedElsewhere(w, o) || Yielded(w, o, Wanted(w, o, ups), name)
  {
    var wanted := Wanted(w, o, ups);
    FirstFacts(w, o, ups, downloads, w1);
    FirstPins(w, o, ups, downloads, w1);
    hide Wanted, Run, Pin, PinSource, PinName;
    if name in OwnedElsewhere(w1, o) {
      var x :| x in In(w1.db, w1.db.Live(o.ring), o.arch) && w1.db.index[x].source in o.deferTo
        && w1.db.index[x].name == name;
      ServedAfter(w, o, ups, downloads, w1, x);
      hide FirstRun;
      if r :| r in wanted && x == Pin(w, o, r) {
        assert Yielded(w, o, wanted, name);
      } else {
        assert w1.db.index[x] == w.db.index[x] && name in OwnedElsewhere(w, o);
      }
    }
    if Yielded(w, o, wanted, name) {
      var p :| p in wanted && PinSource(w, o, p) in o.deferTo && PinName(w, o, p) == name;
      PinIsServed(w, o, ups, downloads, w1, p);
    }
    if name in OwnedElsewhere(w, o) { OwnedStays(w, o, ups, downloads, w1, name); }
  }

  lemma PinIsServed(w: World, o: Options, ups: seq<Upstream>, downloads: map<string, Download>, w1: World, p: Upstream)
    requires FirstRun(w, o, ups, downloads, w1) && p in Wanted(w, o, ups)
    ensures var x := Pin(w, o, p);
            && x in In(w1.db, w1.db.Live(o.ring), o.arch) && w1.db.index[x].source == PinSource(w, o, p)
            && w1.db.index[x].name == PinName(w, o, p)
  {
    FirstPins(w, o, ups, downloads, w1);
    ServedAfter(w, o, ups, downloads, w1, Pin(w, o, p));
    hide FirstRun, Wanted, Run, Pin, PinSource, PinName;
  }

  lemma OwnedStays(w: World, o: Options, ups: seq<Upstream>, downloads: map<string, Download>, w1: World, name: string)
    requires FirstRun(w, o, ups, downloads, w1) && name in OwnedElsewhere(w, o)
    ensures name in OwnedElsewhere(w1, o)
  {
    var wanted := Wanted(w, o, ups);
    FirstFacts(w, o, ups, downloads, w1);
    var x :| x in In(w.db, w.db.Live(o.ring), o.arch) && w.db.index[x].source in o.deferTo
      && w.db.index[x].name == name;
    assert w1.db.index[x] == w.db.index[x];
    ServedAfter(w, o, ups, downloads, w1, x);
    assert w1.db.index[x].source != o.source;
    hide FirstRun, Wanted, Run, Pin, PinSource, PinName;
    if p :| p in wanted && Pin(w, o, p) in w1.db.index && w1.db.index[Pin(w, o, p)].Key() == w1.db.index[x].Key() {
      PinIsServed(w, o, ups, downloads, w1, p);
      assert Pin(w, o, p) in In(w1.db, w1.db.Live(o.ring), o.arch);
    } else {
      assert Survives(w, o, wanted, w1, x);
      assert x in In(w1.db, w1.db.Live(o.ring), o.arch);
    }
  }

  /** The second run pins what it still wants by the same objects, and imports nothing. */
  lemma SecondPins(w: World, o: Options, ups: seq<Upstream>, downloads: map<string, Download>, w1: World,
      again: map<string, Download>)
    requires FirstRun(w, o, ups, downloads, w1)
    ensures forall x :: x in Run(w1, o, ups, again).add <==> exists p :: p in Wanted(w1, o, ups) && x == Pin(w, o, p)
    ensures var second := Run(w1, o, ups, again);
            second.world == w1 && second.uploaded == 0 && second.failed == 0
  {
    var wanted1 := Wanted(w1, o, ups);
    var out := Run(w1, o, ups, again);
    forall p | p in wanted1
      ensures Pin(w1, o, p) == Pin(w, o, p) && Collides(w1, o, p) == Collides(w, o, p)
      ensures p.filename in Colliding(w1, o, wanted1) <==> Collides(w1, o, p)
      ensures !Collides(w1, o, p) ==> Known(w1.db, o.arch, p.sha)
    {
      SecondPin(w, o, ups, downloads, w1, p);
    }
    hide FirstRun, Wanted, Collides;
    assert Missing(w1, o, wanted1) == [] by {
      var colliding := Colliding(w1, o, wanted1);
      FilterNone(wanted1, (p: Upstream) => !Known(w1.db, o.arch, p.sha) && p.filename !in colliding);
    }
    hide Missing;
    forall x | x in out.add ensures exists p :: p in wanted1 && x == Pin(w1, o, p) {
      if x in Reuse(w1, o, wanted1) {
        var p :| p in wanted1 && Collides(w1, o, p) && x == ByFilename(w1.db.index, KeyFor(o, p)).value;
      }
    }
    forall p | p in wanted1 ensures Pin(w1, o, p) in out.add {
      assert Collides(w1, o, p) ==> Pin(w1, o, p) in Reuse(w1, o, wanted1);
    }
  }

  lemma SecondPin(w: World, o: Options, ups: seq<Upstream>, downloads: map<string, Download>, w1: World, p: Upstream)
    requires FirstRun(w, o, ups, downloads, w1) && p in Wanted(w1, o, ups)
    ensures Pin(w1, o, p) == Pin(w, o, p) && Collides(w1, o, p) == Collides(w, o, p)
    ensures p.filename in Colliding(w1, o, Wanted(w1, o, ups)) <==> Collides(w1, o, p)
    ensures !Collides(w1, o, p) ==> Known(w1.db, o.arch, p.sha)
  {
    var wanted1 := Wanted(w1, o, ups);
    WantedAfter(w, o, ups, downloads, w1, p);
    SameCollision(w, o, ups, downloads, w1, p);
    FirstPins(w, o, ups, downloads, w1);
    assert forall r :: r in wanted1 ==> r in ups;
    CollidingIff(w1, o, wanted1, p);
  }

  lemma SameCollision(w: World, o: Options, ups: seq<Upstream>, downloads: map<string, Download>, w1: World,
      p: Upstream)
    requires FirstRun(w, o, ups, downloads, w1) && p in Wanted(w, o, ups)
    ensures Collides(w1, o, p) == Collides(w, o, p) && Pin(w1, o, p) == Pin(w, o, p)
  {
    var missing := Missing(w, o, Wanted(w, o, ups));
    FirstFacts(w, o, ups, downloads, w1);
    ImportAllRows(w, o, missing, downloads);
    var w' := Run(w, o, ups, downloads).world;
    assert w' == ImportAll(w, o, missing, downloads).0;
    assert forall r :: r in missing ==> r in ups;
    hide ImportAll, Missing, Wanted, Run;
    AnswerAfter(w, w', o, missing, p);
  }

  lemma AnswerAfter(w: World, w': World, o: Options, missing: seq<Upstream>, p: Upstream)
    requires RowsNumbered(w.db.index) && RowsDistinct(w.db.index) && Grows(w, w')
    requires forall q :: q in w'.db.index && q !in w.db.index ==>
      w'.db.index[q].id >= |w.db.index| && exists r :: r in missing && r.sha == q && RowOf(w'.db.index[q], o, r)
    requires forall r :: r in missing && r.filename == p.filename ==> r.sha == p.sha
    ensures var a, b := ByFilename(w.db.index, KeyFor(o, p)), ByFilename(w'.db.index, KeyFor(o, p));
            b == a || (a.None? && b == Some(p.sha))
  {
    var key := KeyFor(o, p);
    if ByFilename(w.db.index, key).Some? {
      AnswersStay(w, w', key);
    } else if ByFilename(w'.db.index, key).Some? {
      var q :| FirstNamed(w'.db.index, q, key) && ByFilename(w'.db.index, key) == Some(q);
      if q in w.db.index {
        assert Names(w.db.index, q, key);
        FirstNamedExists(w.db.index, q, key);
      }
    }
  }

  // ---------- the second run ----------

  lemma IsCurrent(w: World, o: Options, x: Sha)
    ensures x in Current(w, o) <==>
      x in w.db.Live(o.ring) && x in w.db.index && w.db.index[x].arch == o.arch && w.db.index[x].source == o.source
  {}

  /** The source's own rows after the first run: its own pins, and what survived. */
  lemma OwnRowsAfter(w: World, o: Options, ups: seq<Upstream>, downloads: map<string, Download>, w1: World, x: Sha)
    requires FirstRun(w, o, ups, downloads, w1)
    ensures var wanted := Wanted(w, o, ups);
            x in Current(w1, o) <==>
              || (exists p :: p in wanted && x == Pin(w, o, p) && PinSource(w, o, p) == o.source)
              || (x in w1.db.index && x in Current(w, o) && Survives(w, o, wanted, w1, x))
  {
    var wanted := Wanted(w, o, ups);
    FirstFacts(w, o, ups, downloads, w1);
    FirstPins(w, o, ups, downloads, w1);
    IsCurrent(w1, o, x);
    IsCurrent(w, o, x);
    hide Wanted, Run, Pin, PinSource, PinName, Current, Survives;
    if x in w1.db.index { ServedAfter(w, o, ups, downloads, w1, x); }
    assert x in w.db.index ==> x in w1.db.index && w1.db.index[x] == w.db.index[x];
    if x in w1.db.index && Survives(w, o, wanted, w1, x) { SurvivesIs(w, o, wanted, w1, x); }
  }

  lemma SurvivesIs(w: World, o: Options, wanted: seq<Upstream>, w1: World, x: Sha)
    requires x in w1.db.index && Survives(w, o, wanted, w1, x)
    ensures x in w.db.Live(o.ring)
    ensures forall p :: p in wanted && Pin(w, o, p) in w1.db.index ==>
      w1.db.index[Pin(w, o, p)].Key() != w1.db.index[x].Key()
    ensures w1.db.index[x].source == o.source && w1.db.index[x].arch == o.arch ==>
      Lists(wanted, w1.db.index[x].name)
  {
    hide Pin, Lists;
  }

  /** A steady pool leaves no own row but the pins. */
  lemma NothingSurvives(w: World, o: Options, ups: seq<Upstream>, downloads: map<string, Download>, w1: World, x: Sha)
    requires FirstRun(w, o, ups, downloads, w1) && x in w1.db.index && x in Current(w, o)
    requires Steady(w, o, Wanted(w, o, ups))
    ensures !Survives(w, o, Wanted(w, o, ups), w1, x)
  {
    hide *;
    var wanted := Wanted(w, o, ups);
    FirstFacts(w, o, ups, downloads, w1);
    FirstPins(w, o, ups, downloads, w1);
    IsCurrent(w, o, x);
    RowStays(w, Run(w, o, ups, downloads).world, x);
    if Survives(w, o, wanted, w1, x) {
      SurvivesIs(w, o, wanted, w1, x);
      SteadyIs(w, o, wanted);
      var p := OwnPin(w, o, wanted, w.db.index[x].name);
      KnownArch(w1.db, o.arch, Pin(w, o, p));
      EqualKeys(w1.db.index[Pin(w, o, p)], w1.db.index[x]);
    }
  }

  lemma OwnPin(w: World, o: Options, wanted: seq<Upstream>, name: string) returns (p: Upstream)
    requires PinsOwn(w, o, wanted, name)
    ensures p in wanted && PinSource(w, o, p) == o.source && PinName(w, o, p) == name
  {
    hide PinSource, PinName;
    p :| p in wanted && PinSource(w, o, p) == o.source && PinName(w, o, p) == name;
  }

  lemma KnownArch(db: Db, arch: Arch, x: Sha)
    requires Known(db, arch, x)
    ensures x in db.index && db.index[x].arch == arch
  {}

  lemma EqualKeys(a: Row, b: Row)
    requires a.source == b.source && a.name == b.name && a.arch == b.arch
    ensures a.Key() == b.Key()
  {}

  lemma SteadyIs(w: World, o: Options, wanted: seq<Upstream>)
    requires Steady(w, o, wanted)
    ensures forall p :: Kept(w, o, wanted, p) ==> PinSource(w, o, p) == o.source
    ensures forall p :: p in wanted && PinSource(w, o, p) == o.source ==> StaysAsked(w, o, wanted, p)
    ensures forall x :: x in Current(w, o) && x in w.db.index && Lists(wanted, w.db.index[x].name) ==>
      PinsOwn(w, o, wanted, w.db.index[x].name)
  {
    hide Kept, PinSource, StaysAsked, PinsOwn, Lists, Current;
  }

  lemma AskedBy(w: World, o: Options, wanted: seq<Upstream>, p: Upstream) returns (r: Upstream, n: Upstream)
    requires StaysAsked(w, o, wanted, p)
    ensures Kept(w, o, wanted, r) && Pin(w, o, r) == Pin(w, o, p)
    ensures Kept(w, o, wanted, n) && n.name == PinName(w, o, p)
  {
    hide Kept, Pin, PinName;
    r :| Kept(w, o, wanted, r) && Pin(w, o, r) == Pin(w, o, p);
    n :| Kept(w, o, wanted, n) && n.name == PinName(w, o, p);
  }

  /** In a steady pool the second run finds the ring as its pins ask. */
  lemma SteadyIsQuiet(w: World, o: Options, ups: seq<Upstream>, downloads: map<string, Download>, w1: World,
      again: map<string, Download>)
    requires FirstRun(w, o, ups, downloads, w1) && Steady(w, o, Wanted(w, o, ups))
    ensures !Run(w1, o, ups, again).changed
  {
    hide *;
    var wanted := Wanted(w, o, ups);
    SecondPins(w, o, ups, downloads, w1, again);
    FirstPins(w, o, ups, downloads, w1);
    SteadyIs(w, o, wanted);
    forall p ensures p in Wanted(w1, o, ups) <==> Kept(w, o, wanted, p) { WantedAfter(w, o, ups, downloads, w1, p); }
    forall p | Kept(w, o, wanted, p) ensures Pin(w, o, p) in Current(w1, o) {
      KeptIsWanted(w, o, wanted, p);
      OwnRowsAfter(w, o, ups, downloads, w1, Pin(w, o, p));
    }
    forall x | x in Current(w1, o)
      ensures exists p :: p in Wanted(w1, o, ups) && x == Pin(w, o, p)
      ensures x in w1.db.index && Lists(Wanted(w1, o, ups), w1.db.index[x].name)
    {
      OwnRowIsKept(w, o, ups, downloads, w1, x);
      var n :| Kept(w, o, wanted, n) && n.name == w1.db.index[x].name;
      IsListed(Wanted(w1, o, ups), n);
    }
    assert Run(w1, o, ups, again).add == Current(w1, o);
    CurrentIndexed(w1, o);
    SameRowsAreQuiet(w1, o, ups, again);
  }

  lemma IsListed(wanted: seq<Upstream>, p: Upstream)
    requires p in wanted
    ensures Lists(wanted, p.name)
  {}

  lemma ListedBy(wanted: seq<Upstream>, name: string) returns (p: Upstream)
    requires Lists(wanted, name)
    ensures p in wanted && p.name == name
  {
    p :| p in wanted && p.name == name;
  }

  lemma CurrentIndexed(w: World, o: Options)
    ensures forall x :: x in Current(w, o) ==> x in w.db.index
  {}

  lemma KeptIsWanted(w: World, o: Options, wanted: seq<Upstream>, p: Upstream)
    requires Kept(w, o, wanted, p)
    ensures p in wanted
  {}

  lemma OwnRowIsKept(w: World, o: Options, ups: seq<Upstream>, downloads: map<string, Download>, w1: World, x: Sha)
    requires FirstRun(w, o, ups, downloads, w1) && Steady(w, o, Wanted(w, o, ups)) && x in Current(w1, o)
    ensures exists p :: Kept(w, o, Wanted(w, o, ups), p) && x == Pin(w, o, p)
    ensures x in w1.db.index && exists p :: Kept(w, o, Wanted(w, o, ups), p) && p.name == w1.db.index[x].name
  {
    hide *;
    var wanted := Wanted(w, o, ups);
    FirstPins(w, o, ups, downloads, w1);
    SteadyIs(w, o, wanted);
    OwnRowsAfter(w, o, ups, downloads, w1, x);
    CurrentIndexed(w1, o);
    if x in Current(w, o) { NothingSurvives(w, o, ups, downloads, w1, x); }
    var p :| p in wanted && x == Pin(w, o, p) && PinSource(w, o, p) == o.source;
    var r, n := AskedBy(w, o, wanted, p);
    assert x == Pin(w, o, r) && n.name == w1.db.index[x].name;
  }

  /** A run whose pins are the ring's rows, all of names it wants, changes nothing. */
  lemma SameRowsAreQuiet(w: World, o: Options, ups: seq<Upstream>, downloads: map<string, Download>)
    requires Run(w, o, ups, downloads).add == Current(w, o)
    requires forall x :: x in Current(w, o) ==> x in w.db.index && Lists(Wanted(w, o, ups), w.db.index[x].name)
    ensures !Run(w, o, ups, downloads).changed
  {
    forall x | x in Current(w, o) ensures w.db.index[x].name !in Dropped(w, o, Wanted(w, o, ups)) {
      DroppedNames(w, o, Wanted(w, o, ups), x);
    }
    hide Wanted, Missing, ImportAll, Pins, Current, Lists;
    assert Dropped(w, o, Wanted(w, o, ups)) == {};
  }

  /** A run that changes nothing pins the ring's rows, all of names it wants. */
  lemma QuietHasSameRows(w: World, o: Options, ups: seq<Upstream>, downloads: map<string, Download>)
    requires !Run(w, o, ups, downloads).changed
    ensures Run(w, o, ups, downloads).add == Current(w, o)
    ensures forall x :: x in Current(w, o) && x in w.db.index ==> Lists(Wanted(w, o, ups), w.db.index[x].name)
  {
    forall x | x in Current(w, o) ensures Lists(Wanted(w, o, ups), w.db.index[x].name) {
      DroppedNames(w, o, Wanted(w, o, ups), x);
    }
    hide Wanted, Missing, ImportAll, Pins, Current;
  }

  /** If the second run finds the ring as its pins ask, the pool was steady. */
  lemma QuietIsSteady(w: World, o: Options, ups: seq<Upstream>, downloads: map<string, Download>, w1: World,
      again: map<string, Download>)
    requires FirstRun(w, o, ups, downloads, w1) && !Run(w1, o, ups, again).changed
    ensures Steady(w, o, Wanted(w, o, ups))
  {
    hide *;
    var wanted := Wanted(w, o, ups);
    SecondPins(w, o, ups, downloads, w1, again);
    FirstPins(w, o, ups, downloads, w1);
    QuietHasSameRows(w1, o, ups, again);
    forall p ensures p in Wanted(w1, o, ups) <==> Kept(w, o, wanted, p) { WantedAfter(w, o, ups, downloads, w1, p); }
    forall p | Kept(w, o, wanted, p) ensures PinSource(w, o, p) == o.source {
      KeptIsWanted(w, o, wanted, p);
      assert Pin(w, o, p) in Current(w1, o);
      IsCurrent(w1, o, Pin(w, o, p));
    }
    forall p | p in wanted && PinSource(w, o, p) == o.source ensures StaysAsked(w, o, wanted, p) {
      OwnRowsAfter(w, o, ups, downloads, w1, Pin(w, o, p));
      CurrentIndexed(w1, o);
      var r :| r in Wanted(w1, o, ups) && Pin(w, o, p) == Pin(w, o, r);
      var n := ListedBy(Wanted(w1, o, ups), PinName(w, o, p));
      IsAsked(w, o, wanted, p, r, n);
    }
    forall x | x in Current(w, o) && x in w.db.index && Lists(wanted, w.db.index[x].name)
      ensures PinsOwn(w, o, wanted, w.db.index[x].name)
    {
      QuietLeavesNoRow(w, o, ups, downloads, w1, again, x);
    }
    IsSteady(w, o, wanted);
  }

  lemma IsAsked(w: World, o: Options, wanted: seq<Upstream>, p: Upstream, r: Upstream, n: Upstream)
    requires Kept(w, o, wanted, r) && Pin(w, o, r) == Pin(w, o, p)
    requires Kept(w, o, wanted, n) && n.name == PinName(w, o, p)
    ensures StaysAsked(w, o, wanted, p)
  {
    hide Kept, Pin, PinName;
  }

  lemma IsSteady(w: World, o: Options, wanted: seq<Upstream>)
    requires forall p :: Kept(w, o, wanted, p) ==> PinSource(w, o, p) == o.source
    requires forall p :: p in wanted && PinSource(w, o, p) == o.source ==> StaysAsked(w, o, wanted, p)
    requires forall x :: x in Current(w, o) && x in w.db.index && Lists(wanted, w.db.index[x].name) ==>
      PinsOwn(w, o, wanted, w.db.index[x].name)
    ensures Steady(w, o, wanted)
  {
    hide Kept, PinSource, StaysAsked, PinsOwn, Lists, Current;
  }

  /** After a quiet second run each own row served under a listed name shares its name with an own pin. */
  lemma QuietLeavesNoRow(w: World, o: Options, ups: seq<Upstream>, downloads: map<string, Download>, w1: World,
      again: map<string, Download>, x: Sha)
    requires FirstRun(w, o, ups, downloads, w1) && !Run(w1, o, ups, again).changed
    requires x in Current(w, o) && x in w.db.index
    requires Lists(Wanted(w, o, ups), w.db.index[x].name)
    ensures PinsOwn(w, o, Wanted(w, o, ups), w.db.index[x].name)
  {
    hide *;
    var wanted := Wanted(w, o, ups);
    FirstFacts(w, o, ups, downloads, w1);
    FirstPins(w, o, ups, downloads, w1);
    IsCurrent(w, o, x);
    RowStays(w, Run(w, o, ups, downloads).world, x);
    assert x in w1.db.index && w1.db.index[x] == w.db.index[x];
    if !Survives(w, o, wanted, w1, x) {
      var p := ReplacedBy(w, o, wanted, w1, x);
      SameKey(w1.db.index[Pin(w, o, p)], w1.db.index[x]);
      IsOwnPin(w, o, wanted, p);
    } else {
      SecondPins(w, o, ups, downloads, w1, again);
      QuietHasSameRows(w1, o, ups, again);
      OwnRowsAfter(w, o, ups, downloads, w1, x);
      var p :| p in Wanted(w1, o, ups) && x == Pin(w, o, p);
      WantedAfter(w, o, ups, downloads, w1, p);
      KeptIsWanted(w, o, wanted, p);
      IsOwnPin(w, o, wanted, p);
    }
  }

  lemma IsOwnPin(w: World, o: Options, wanted: seq<Upstream>, p: Upstream)
    requires p in wanted && PinSource(w, o, p) == o.source
    ensures PinsOwn(w, o, wanted, PinName(w, o, p))
  {
    hide PinSource, PinName;
  }

  lemma RowStays(w: World, w': World, x: Sha)
    requires Grows(w, w') && x in w.db.index
    ensures x in w'.db.index && w'.db.index[x] == w.db.index[x]
  {}

  lemma SameKey(a: Row, b: Row)
    requires a.Key() == b.Key()
    ensures a.source == b.source && a.name == b.name
  {}

  lemma ReplacedBy(w: World, o: Options, wanted: seq<Upstream>, w1: World, x: Sha) returns (p: Upstream)
    requires x in w1.db.index && !Survives(w, o, wanted, w1, x) && x in w.db.Live(o.ring)
    requires Lists(wanted, w1.db.index[x].name)
    ensures p in wanted && Pin(w, o, p) in w1.db.index && w1.db.index[Pin(w, o, p)].Key() == w1.db.index[x].Key()
  {
    hide Pin, Lists;
    p :| p in wanted && Pin(w, o, p) in w1.db.index && w1.db.index[Pin(w, o, p)].Key() == w1.db.index[x].Key();
  }

  /**
   * With no failed import and no limit, a second run on the same upstream makes no
   * release exactly when the pool was steady before the first.
   */
  lemma SecondRunIsQuiet(w: World, o: Options, ups: seq<Upstream>, downloads: map<string, Download>, w1: World,
      again: map<string, Download>)
    requires FirstRun(w, o, ups, downloads, w1)
    ensures !Run(w1, o, ups, again).changed <==> Steady(w, o, Wanted(w, o, ups))
  {
    hide *;
    if Steady(w, o, Wanted(w, o, ups)) { SteadyIsQuiet(w, o, ups, downloads, w1, again); }
    if !Run(w1, o, ups, again).changed { QuietIsSteady(w, o, ups, downloads, w1, again); }
  }

  // ---------- names as listed ----------

  /** Every name is listed once, and rows known under a package's bytes or filename carry its name. */
  ghost predicate NamedAsListed(w: World, o: Options, wanted: seq<Upstream>) {
    && (forall p, r :: p in wanted && r in wanted && p.name == r.name ==> p == r)
    && (forall p :: p in wanted ==> PinName(w, o, p) == p.name)
  }

  /**
   * Whether a known pin stays quiet: it is the source's own, or a source this one
   * defers to owns it and the ring had no row of this source under that name.
   */
  predicate Settled(w: World, o: Options, p: Upstream)
    requires p.sha in w.db.index
  {
    || w.db.index[p.sha].source == o.source
    || (w.db.index[p.sha].source in o.deferTo && forall x :: x in Current(w, o) ==> w.db.index[x].name != p.name)
  }

  /** A package pinned by another source's row is pinned by its own bytes, which the index had. */
  lemma ForeignPin(w: World, o: Options, wanted: seq<Upstream>, p: Upstream)
    requires Apart(wanted) && p in wanted
    ensures PinSource(w, o, p) != o.source ==> PinnedKnown(w, o, wanted, p)
    ensures PinnedKnown(w, o, wanted, p) ==> p.sha in w.db.index && PinSource(w, o, p) == w.db.index[p.sha].source
  {
    CollidingIff(w, o, wanted, p);
    PinOfCollision(w, o, p);
    hide Pin, ByFilename;
  }

  lemma YieldsItself(w: World, o: Options, wanted: seq<Upstream>, p: Upstream)
    requires NamedAsListed(w, o, wanted) && p in wanted
    ensures Yielded(w, o, wanted, p.name) <==> PinSource(w, o, p) in o.deferTo
  {
    hide PinSource, PinName;
  }

  lemma KnownIsWanted(w: World, o: Options, wanted: seq<Upstream>)
    ensures forall p :: PinnedKnown(w, o, wanted, p) ==> p in wanted && p.sha in w.db.index
  {}

  /** Where names are as listed, a pool is steady exactly when each known pin is settled. */
  lemma SteadyAsListed(w: World, o: Options, wanted: seq<Upstream>)
    requires Apart(wanted) && NamedAsListed(w, o, wanted) && o.source !in o.deferTo
    ensures Steady(w, o, wanted) <==> forall p :: PinnedKnown(w, o, wanted, p) ==> Settled(w, o, p)
  {
    KnownIsWanted(w, o, wanted);
    CurrentIndexed(w, o);
    hide *;
    if Steady(w, o, wanted) {
      SteadyIs(w, o, wanted);
      forall p | PinnedKnown(w, o, wanted, p) ensures Settled(w, o, p) { SteadySettles(w, o, wanted, p); }
    }
    if forall p :: PinnedKnown(w, o, wanted, p) ==> Settled(w, o, p) {
      forall p | p in wanted && PinSource(w, o, p) == o.source ensures StaysAsked(w, o, wanted, p) {
        YieldsItself(w, o, wanted, p);
        IsKept(w, o, wanted, p);
        NamedIs(w, o, wanted, p);
        IsAsked(w, o, wanted, p, p, p);
      }
      forall p | Kept(w, o, wanted, p) ensures PinSource(w, o, p) == o.source { SettledIsOwn(w, o, wanted, p); }
      forall x | x in Current(w, o) && x in w.db.index && Lists(wanted, w.db.index[x].name)
        ensures PinsOwn(w, o, wanted, w.db.index[x].name)
      {
        SettledPinsOwn(w, o, wanted, x);
      }
      IsSteady(w, o, wanted);
    }
  }

  lemma NamedIs(w: World, o: Options, wanted: seq<Upstream>, p: Upstream)
    requires NamedAsListed(w, o, wanted) && p in wanted
    ensures PinName(w, o, p) == p.name && forall r :: r in wanted && r.name == p.name ==> r == p
  {
    hide PinName;
  }

  lemma IsKept(w: World, o: Options, wanted: seq<Upstream>, p: Upstream)
    requires p in wanted
    ensures Kept(w, o, wanted, p) <==> !Yielded(w, o, wanted, p.name)
  {
    hide Yielded;
  }

  lemma SteadySettles(w: World, o: Options, wanted: seq<Upstream>, p: Upstream)
    requires Apart(wanted) && NamedAsListed(w, o, wanted) && Steady(w, o, wanted)
    requires PinnedKnown(w, o, wanted, p) && p in wanted && p.sha in w.db.index
    ensures Settled(w, o, p)
  {
    SteadyIs(w, o, wanted);
    CurrentIndexed(w, o);
    ForeignPin(w, o, wanted, p);
    YieldsItself(w, o, wanted, p);
    IsKept(w, o, wanted, p);
    NamedIs(w, o, wanted, p);
    hide Kept, Yielded, PinnedKnown, PinSource, PinName, PinsOwn, StaysAsked, Lists, Steady, NamedAsListed, Current,
      Apart;
    if PinSource(w, o, p) != o.source {
      forall x | x in Current(w, o) ensures w.db.index[x].name != p.name {
        if w.db.index[x].name == p.name {
          IsListed(wanted, p);
          var q := OwnPin(w, o, wanted, p.name);
          NamedIs(w, o, wanted, q);
        }
      }
    }
  }

  lemma SettledIsOwn(w: World, o: Options, wanted: seq<Upstream>, p: Upstream)
    requires Apart(wanted) && NamedAsListed(w, o, wanted) && Kept(w, o, wanted, p)
    requires forall q :: PinnedKnown(w, o, wanted, q) ==> q.sha in w.db.index && Settled(w, o, q)
    ensures PinSource(w, o, p) == o.source
  {
    KeptIsWanted(w, o, wanted, p);
    ForeignPin(w, o, wanted, p);
    YieldsItself(w, o, wanted, p);
    IsKept(w, o, wanted, p);
    hide Kept, Yielded, PinnedKnown, PinSource, Current, NamedAsListed, Apart;
  }

  lemma SettledPinsOwn(w: World, o: Options, wanted: seq<Upstream>, x: Sha)
    requires Apart(wanted) && NamedAsListed(w, o, wanted) && x in Current(w, o) && x in w.db.index
    requires forall q :: PinnedKnown(w, o, wanted, q) ==> q.sha in w.db.index && Settled(w, o, q)
    requires Lists(wanted, w.db.index[x].name)
    ensures PinsOwn(w, o, wanted, w.db.index[x].name)
  {
    var p := ListedBy(wanted, w.db.index[x].name);
    ForeignPin(w, o, wanted, p);
    NamedIs(w, o, wanted, p);
    hide PinnedKnown, PinSource, PinName, PinsOwn, Lists, NamedAsListed, Apart;
    if PinSource(w, o, p) == o.source { IsOwnPin(w, o, wanted, p); }
  }

  lemma PinOfCollision(w: World, o: Options, p: Upstream)
    ensures Collides(w, o, p) ==> PinSource(w, o, p) == o.source
    ensures !Collides(w, o, p) ==> Pin(w, o, p) == p.sha
  {}
}
