/** The sync as it is written: loops that fill the report, proved against the specification of a run. */
module SyncRun {
  import opened Common
  import opened Releases
  import opened Creation
  import opened Sync
  import opened SyncLaws

  /** The index's answer to which object sits under each filename of an upstream. */
  ghost predicate Answers(w: World, o: Options, ps: seq<Upstream>, byFilename: map<string, Sha>) {
    forall p :: p in ps ==>
      var a := ByFilename(w.db.index, KeyFor(o, p));
      (p.filename in byFilename <==> a.Some?) && (a.Some? ==> byFilename[p.filename] == a.value)
  }

  /** Leaves the packages whose names the ring serves from a source that wins to that source. */
  method YieldToOtherSources(w: World, o: Options, ups: seq<Upstream>) returns (wanted: seq<Upstream>, yielded: nat)
    ensures wanted == Wanted(w, o, ups) && yielded + |wanted| == |ups|
  {
    var owned := OwnedElsewhere(w, o);
    assert Wanted(w, o, ups) == Filter(ups, (p: Upstream) => p.name !in owned);
    hide Wanted, OwnedElsewhere;
    wanted := [];
    var i := 0;
    while i < |ups|
      invariant 0 <= i <= |ups| && |wanted| <= i
      invariant wanted == Filter(ups[..i], (p: Upstream) => p.name !in owned)
    {
      assert ups[..i + 1][..i] == ups[..i];
      if ups[i].name !in owned {
        wanted := wanted + [ups[i]];
      }
      i := i + 1;
    }
    assert ups[..i] == ups;
    yielded := |ups| - |wanted|;
  }

  function Filenames(collisions: seq<(string, Sha)>): set<string> { set c | c in collisions :: c.0 }

  lemma CollidingStep(w: World, o: Options, ps: seq<Upstream>, p: Upstream)
    ensures Colliding(w, o, ps + [p]) == Colliding(w, o, ps) + (if Collides(w, o, p) then {p.filename} else {})
    ensures Reuse(w, o, ps + [p])
            == Reuse(w, o, ps) + (if Collides(w, o, p) then {ByFilename(w.db.index, KeyFor(o, p)).value} else {})
  {
    assert Collides(w, o, p) ==> p.filename in Colliding(w, o, ps + [p])
                                 && ByFilename(w.db.index, KeyFor(o, p)).value in Reuse(w, o, ps + [p]);
  }

  lemma FilenamesStep(collisions: seq<(string, Sha)>, c: (string, Sha))
    ensures Filenames(collisions + [c]) == Filenames(collisions) + {c.0}
  {
    assert c in collisions + [c];
  }

  /** Collisions by filename, the stored objects to pin for them, and what has to be imported. */
  method ClassifyUpstream(w: World, o: Options, wanted: seq<Upstream>, byFilename: map<string, Sha>)
    returns (collisions: seq<(string, Sha)>, reuse: seq<Sha>, missing: seq<Upstream>)
    requires Answers(w, o, wanted, byFilename)
    ensures Filenames(collisions) == Colliding(w, o, wanted)
    ensures (set x | x in reuse) == Reuse(w, o, wanted)
    ensures missing == Missing(w, o, wanted)
  {
    collisions, reuse := [], [];
    var i := 0;
    while i < |wanted|
      invariant 0 <= i <= |wanted|
      invariant Filenames(collisions) == Colliding(w, o, wanted[..i])
      invariant (set x | x in reuse) == Reuse(w, o, wanted[..i])
    {
      var p := wanted[i];
      assert wanted[..i + 1] == wanted[..i] + [p];
      CollidingStep(w, o, wanted[..i], p);
      hide Colliding, Reuse, Filenames;
      if p.filename in byFilename && byFilename[p.filename] != p.sha {
        FilenamesStep(collisions, (p.filename, p.sha));
        collisions := collisions + [(p.filename, p.sha)];
        reuse := reuse + [byFilename[p.filename]];
      }
      i := i + 1;
    }
    assert wanted[..i] == wanted;
    var colliding := Filenames(collisions);
    missing := Filter(wanted, (p: Upstream) => !Known(w.db, o.arch, p.sha) && p.filename !in colliding);
  }

  method ImportMissing(w: World, o: Options, ps: seq<Upstream>, downloads: map<string, Download>)
    returns (w': World, done: seq<Upstream>, failed: seq<Upstream>)
    ensures (w', done, failed) == ImportAll(w, o, ps, downloads)
  {
    w', done, failed := w, [], [];
    var i := 0;
    while i < |ps|
      invariant 0 <= i <= |ps| && (w', done, failed) == ImportAll(w, o, ps[..i], downloads)
    {
      assert ps[..i + 1][..i] == ps[..i];
      var (next, ok) := ImportOne(w', o, ps[i], FetchOf(downloads, ps[i]));
      w' := next;
      if ok {
        done := done + [ps[i]];
      } else {
        failed := failed + [ps[i]];
      }
      i := i + 1;
    }
    assert ps[..i] == ps;
  }

  /** One source's sync: what it imports, pins and drops is what the specification says. */
  method RunSync(w: World, o: Options, ups: seq<Upstream>, downloads: map<string, Download>,
      byFilename: map<string, Sha>)
    returns (w': World, report: Report)
    requires Answers(w, o, Wanted(w, o, ups), byFilename)
    ensures var out := Run(w, o, ups, downloads);
            && w' == out.world && (set x | x in report.add) == out.add && report.remove == out.remove
            && report.changed == out.changed && report.uploaded == out.uploaded
            && report.known == |out.known| && report.failed == out.failed
    ensures AllIndexed(w'.db, PinRequest(o, (set x | x in report.add), report.remove))
  {
    hide ImportAll, Missing, Wanted, Colliding, Reuse, Dropped, Current, Answers, Pins, Run, AllIndexed;
    var wanted, yielded := YieldToOtherSources(w, o, ups);
    var collisions, reuse, missing := ClassifyUpstream(w, o, wanted, byFilename);
    var done, failed;
    w', done, failed := ImportMissing(w, o, Limited(o, missing), downloads);
    var colliding := Filenames(collisions);
    var known := set p | p in wanted && Known(w.db, o.arch, p.sha) :: p.sha;
    var nowKnown := known + Shas(done);
    var pinned := Filter(wanted, (p: Upstream) => p.sha in nowKnown && p.filename !in colliding);
    var add := seq(|pinned|, i requires 0 <= i < |pinned| => pinned[i].sha) + reuse;
    var remove := Dropped(w, o, wanted);
    var addShas := set x | x in add;
    PinnedShas(w, o, wanted, done, pinned, add, reuse);
    Assembled(w, o, ups, downloads, add);
    report := Report(add, remove, remove != {} || Current(w, o) != addShas, |done|, |known|, |failed|, colliding);
  }

  lemma Assembled(w: World, o: Options, ups: seq<Upstream>, downloads: map<string, Download>, add: seq<Sha>)
    requires var wanted := Wanted(w, o, ups);
             (set x | x in add) == Pins(w, o, wanted, ImportAll(w, o, Limited(o, Missing(w, o, wanted)), downloads).1)
    ensures var out := Run(w, o, ups, downloads);
            var wanted := Wanted(w, o, ups);
            var (w', done, failed) := ImportAll(w, o, Limited(o, Missing(w, o, wanted)), downloads);
            var addShas := set x | x in add;
            && out == Outcome(w', addShas, Dropped(w, o, wanted), Dropped(w, o, wanted) != {}
               || Current(w, o) != addShas,
                              |done|, set p | p in wanted && Known(w.db, o.arch, p.sha) :: p.sha, |failed|)
            && AllIndexed(w'.db, PinRequest(o, addShas, Dropped(w, o, wanted)))
  {
    PinsAreKnown(w, o, ups, downloads);
    hide ImportAll, Missing, Wanted, Dropped, Current, Pins;
    assert forall x :: x in add ==> x in Run(w, o, ups, downloads).add;
  }

  lemma PinnedShas(w: World, o: Options, wanted: seq<Upstream>, done: seq<Upstream>, pinned: seq<Upstream>,
      add: seq<Sha>, reuse: seq<Sha>)
    requires forall p :: p in pinned <==>
      p in wanted && (Known(w.db, o.arch, p.sha) || p.sha in Shas(done)) && p.filename !in Colliding(w, o, wanted)
    requires add == seq(|pinned|, i requires 0 <= i < |pinned| => pinned[i].sha) + reuse
    requires (set x | x in reuse) == Reuse(w, o, wanted)
    ensures (set x | x in add) == Pins(w, o, wanted, done)
  {
    hide Colliding, Reuse, Known;
    forall p | p in pinned ensures p.sha in add {
      var i :| 0 <= i < |pinned| && pinned[i] == p;
      assert add[i] == p.sha;
    }
    forall x | x in add ensures x in Pins(w, o, wanted, done) {
      var i :| 0 <= i < |add| && add[i] == x;
      if i < |pinned| {
        assert pinned[i] in pinned;
      } else {
        assert x == reuse[i - |pinned|];
      }
    }
    forall x | x in reuse ensures x in add {
      var i :| 0 <= i < |reuse| && reuse[i] == x;
      assert add[|pinned| + i] == x;
    }
  }
}
