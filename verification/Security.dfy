/** The security fast-track (`crates/pkg-repo/src/security.rs`): what it pulls, and what that replaces. */
module Security {
  import opened Common
  import opened Dependency
  import opened Releases
  import opened Selections
  import opened Sync
  import opened Work
  import opened WorkLaws
  import opened Jobs
  import V = Verify

  /** A package with an open advisory; `matches` says how sure each advisory is. */
  datatype Vulnerable = Vulnerable(name: string, version: string, worst: string, kev: bool, matches: seq<string>,
    fixedIn: seq<(Ring, string)>)

  function SeverityRank(s: string): nat {
    if s == "critical" then 0 else if s == "high" then 1 else if s == "medium" then 2 else if s == "low" then 3 else 4
  }

  /** The first clean version listed for a ring. */
  function CleanIn(fixedIn: seq<(Ring, string)>, ring: Ring): (v: Option<string>)
    ensures v.Some? ==> (ring, v.value) in fixedIn
  {
    if fixedIn == [] then None else if fixedIn[0].0 == ring then Some(fixedIn[0].1) else CleanIn(fixedIn[1..], ring)
  }

  /** An advisory we are confident about, severe or exploited, with a newer clean version in `from`. */
  predicate Candidate(v: Vulnerable, from: Ring, minSeverity: string) {
    && (exists m :: m in v.matches && m != "name-only")
    && (v.kev || SeverityRank(v.worst) <= SeverityRank(minSeverity))
    && CleanIn(v.fixedIn, from).Some? && VersionOrder(CleanIn(v.fixedIn, from).value, v.version) == Greater
  }

  predicate Offers(db: Db, p: Sha, name: string, arch: Arch, version: string) {
    p in db.index && db.index[p].name == name && db.index[p].arch == arch && db.index[p].version == version
  }

  /** The first row of the listing that offers the clean version. */
  function FindFix(db: Db, listing: seq<Sha>, name: string, arch: Arch, version: string): (p: Option<Sha>)
    ensures p.Some? ==> p.value in listing && Offers(db, p.value, name, arch, version)
    ensures p.None? ==> forall x :: x in listing ==> !Offers(db, x, name, arch, version)
  {
    if listing == [] then None
    else if Offers(db, listing[0], name, arch, version) then Some(listing[0])
    else FindFix(db, listing[1..], name, arch, version)
  }

  /** What one vulnerable package of one architecture pulls in. */
  function Fix(db: Db, listing: seq<Sha>, arch: Arch, v: Vulnerable, from: Ring, minSeverity: string): Option<Sha> {
    if Candidate(v, from, minSeverity) then FindFix(db, listing, v.name, arch, CleanIn(v.fixedIn, from).value) else None
  }

  function FixesOf(db: Db, listing: seq<Sha>, arch: Arch, vs: seq<Vulnerable>, from: Ring,
      minSeverity: string): (add: seq<Sha>)
    ensures forall x :: x in add <==> exists v :: v in vs && Fix(db, listing, arch, v, from, minSeverity) == Some(x)
  {
    hide Fix;
    if vs == [] then []
    else
      var rest, last := FixesOf(db, listing, arch, vs[..|vs| - 1], from, minSeverity),
        Fix(db, listing, arch, vs[|vs| - 1], from, minSeverity);
      assert vs == vs[..|vs| - 1] + [vs[|vs| - 1]];
      if last.Some? then rest + [last.value] else rest
  }

  /** The loops over the architectures and their vulnerable packages. */
  method FastTrackAdds(db: Db, listing: seq<Sha>, views: Arch -> seq<Vulnerable>, from: Ring,
      minSeverity: string) returns (add: seq<Sha>)
    ensures add == FixesOf(db, listing, X86_64, views(X86_64), from, minSeverity)
      + FixesOf(db, listing, Aarch64, views(Aarch64), from, minSeverity)
  {
    hide Fix;
    add := [];
    var arches := [X86_64, Aarch64];
    ghost var first: seq<Sha> := [];
    for i := 0 to 2
      invariant i == 1 ==> add == FixesOf(db, listing, X86_64, views(X86_64), from, minSeverity)
      invariant i == 2 ==> add == FixesOf(db, listing, X86_64, views(X86_64), from, minSeverity)
                                  + FixesOf(db, listing, Aarch64, views(Aarch64), from, minSeverity)
      invariant i == 0 ==> add == []
    {
      var vs := views(arches[i]);
      first := add;
      for j := 0 to |vs|
        invariant add == first + FixesOf(db, listing, arches[i], vs[..j], from, minSeverity)
      {
        assert vs[..j + 1][..j] == vs[..j];
        var fix := Fix(db, listing, arches[i], vs[j], from, minSeverity);
        if fix.Some? {
          add := add + [fix.value];
        }
      }
      assert vs[..|vs|] == vs;
    }
  }

  /** The listing of a ring: the rows it serves. */
  ghost predicate Lists(w: World, ring: Ring, listing: seq<Sha>) {
    forall x :: x in listing <==> x in w.db.Live(ring)
  }

  /** Everything a fast-track pulls is served by `from`, and newer than a vulnerable version of its name. */
  lemma FixesAreNewer(w: World, listing: seq<Sha>, arch: Arch, vs: seq<Vulnerable>, from: Ring, minSeverity: string,
      x: Sha)
    requires Lists(w, from, listing) && x in FixesOf(w.db, listing, arch, vs, from, minSeverity)
    ensures x in RowsOf(w, from, arch)
    ensures exists v :: v in vs && w.db.index[x].name == v.name
             && VersionOrder(w.db.index[x].version, v.version) == Greater
                        && (v.kev || SeverityRank(v.worst) <= SeverityRank(minSeverity))
  {
    var v :| v in vs && Fix(w.db, listing, arch, v, from, minSeverity) == Some(x);
    hide VersionOrder;
    assert Offers(w.db, x, v.name, arch, CleanIn(v.fixedIn, from).value);
  }

  /** Everything one ring's fast-track pulls. */
  function FastTracked(w: World, listing: seq<Sha>, views: Arch -> seq<Vulnerable>, from: Ring,
    minSeverity: string): set<Sha> {
    set x | x in FixesOf(w.db, listing, X86_64, views(X86_64), from, minSeverity)
               + FixesOf(w.db, listing, Aarch64, views(Aarch64), from, minSeverity)
  }

  lemma FastTrackedAre(w: World, listing: seq<Sha>, views: Arch -> seq<Vulnerable>, from: Ring, minSeverity: string)
    ensures forall x :: x in FastTracked(w, listing, views, from, minSeverity) <==>
      exists a, v :: v in views(a) && Fix(w.db, listing, a, v, from, minSeverity) == Some(x)
  {
    hide Fix;
    forall a, v, x | v in views(a) && Fix(w.db, listing, a, v, from, minSeverity) == Some(x)
      ensures x in FastTracked(w, listing, views, from, minSeverity)
    {
      if a == X86_64 {
        assert x in FixesOf(w.db, listing, X86_64, views(X86_64), from, minSeverity);
      } else {
        assert a == Aarch64;
        assert x in FixesOf(w.db, listing, Aarch64, views(Aarch64), from, minSeverity);
      }
    }
  }

  lemma FixIs(w: World, listing: seq<Sha>, arch: Arch, v: Vulnerable, from: Ring, minSeverity: string)
    requires Lists(w, from, listing) && Fix(w.db, listing, arch, v, from, minSeverity).Some?
    ensures var x := Fix(w.db, listing, arch, v, from, minSeverity).value;
            x in w.db.index && x in w.db.Live(from) && w.db.index[x].name == v.name && w.db.index[x].arch == arch
  {
    hide VersionOrder;
  }

  /** A fix pulled for the row's package comes from the row's own source. */
  predicate OwnFix(w: World, listing: seq<Sha>, v: Vulnerable, from: Ring, minSeverity: string, row: Row) {
    && v.name == row.name && Fix(w.db, listing, row.arch, v, from, minSeverity).Some?
    && var x := Fix(w.db, listing, row.arch, v, from, minSeverity).value;
       x in w.db.index && w.db.index[x].source == row.source
  }

  lemma KeyOfFix(w: World, listing: seq<Sha>, views: Arch -> seq<Vulnerable>, from: Ring, minSeverity: string, row: Row)
    requires Lists(w, from, listing)
    ensures FastTracked(w, listing, views, from, minSeverity) <= w.db.index.Keys
    ensures (exists x :: x in FastTracked(w, listing, views, from, minSeverity) && x in w.db.index
              && w.db.index[x].Key() == row.Key())
            <==> (exists v :: v in views(row.arch) && OwnFix(w, listing, v, from, minSeverity, row))
  {
    FastTrackedAre(w, listing, views, from, minSeverity);
    hide FastTracked, Fix;
    forall x | x in FastTracked(w, listing, views, from, minSeverity)
      ensures x in w.db.index
      ensures w.db.index[x].Key() == row.Key() ==>
        exists v :: v in views(row.arch) && OwnFix(w, listing, v, from, minSeverity, row)
    {
      var a, v :| v in views(a) && Fix(w.db, listing, a, v, from, minSeverity) == Some(x);
      FixIs(w, listing, a, v, from, minSeverity);
      assert w.db.index[x].Key() == row.Key() ==> OwnFix(w, listing, v, from, minSeverity, row);
    }
    forall v | v in views(row.arch) && OwnFix(w, listing, v, from, minSeverity, row)
      ensures exists x :: x in FastTracked(w, listing, views, from, minSeverity) && x in w.db.index
               && w.db.index[x].Key() == row.Key()
    {
      var x := Fix(w.db, listing, row.arch, v, from, minSeverity).value;
      FixIs(w, listing, row.arch, v, from, minSeverity);
      assert x in FastTracked(w, listing, views, from, minSeverity);
    }
  }

  lemma GoneFromOverlay(db: Db, live: set<Sha>, add: set<Sha>, p: Sha)
    requires add <= db.index.Keys && p in live && p in db.index && p !in add
    ensures p !in V.Overlay(db, live, add)
      <==> exists x :: x in add && x in db.index && db.index[x].Key() == db.index[p].Key()
  {}

  /**
   * After a healthy fast-track a row of the ring is gone exactly when a fix of its own
   * source was pulled for its package: a clean build from another source is served beside it.
   */
  lemma FixReplaces(w: World, ring: Ring, from: Ring, minSeverity: string, listing: seq<Sha>,
      views: Arch -> seq<Vulnerable>, healthy: Arch -> bool, p: Sha)
    requires Good(w) && Ready(w) && Lists(w, from, listing) && Healthy(BOTH, healthy)
    requires var add := FastTracked(w, listing, views, from, minSeverity);
             add != {} && p in w.db.Live(ring) && p !in add
    ensures p in w.db.index
    ensures var r := FastTrackJob(w, ring, FastTracked(w, listing, views, from, minSeverity), healthy);
            r.Some? && (p !in r.value.db.Live(ring)
                        <==> exists v :: v in views(w.db.index[p].arch)
                              && OwnFix(w, listing, v, from, minSeverity, w.db.index[p]))
  {
    hide *;
    var add := FastTracked(w, listing, views, from, minSeverity);
    V.GoodInv(w);
    LiveIndexedInv(w.db, ring);
    KeyOfFix(w, listing, views, from, minSeverity, w.db.index[p]);
    FastTrackServes(w, ring, add, healthy);
    GoneFromOverlay(w.db, w.db.Live(ring), add, p);
  }
}
