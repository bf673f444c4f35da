/** The security fast-track in plain terms: which builds it pulls, and what the ring serves then. */
module SecurityLaws {
  import opened Common
  import opened Releases
  import opened Sync
  import opened Work
  import opened Security
  import opened Jobs
  import V = Verify
  import Dependency

  /** At least as severe: critical, high, medium, low, and whatever else an advisory says. */
  predicate SevereAs(worst: string, least: string) {
    || worst == "critical"
    || (worst == "high" && least != "critical")
    || (worst == "medium" && least != "critical" && least != "high")
    || (worst == "low" && least != "critical" && least != "high" && least != "medium")
    || (least != "critical" && least != "high" && least != "medium" && least != "low")
  }

  /** The first clean version listed for the ring. */
  predicate CleanVersion(v: Vulnerable, ring: Ring, version: string) {
    exists i :: 0 <= i < |v.fixedIn| && v.fixedIn[i] == (ring, version)
      && forall j :: 0 <= j < i ==> v.fixedIn[j].0 != ring
  }

  /** The advisory matches by more than the name, is exploited or severe enough, and the clean version is newer. */
  predicate Urgent(v: Vulnerable, from: Ring, least: string, version: string) {
    && (exists m :: m in v.matches && m != "name-only")
    && (v.kev || SevereAs(v.worst, least))
    && CleanVersion(v, from, version) && Dependency.VersionOrder(version, v.version) == Greater
  }

  predicate Builds(db: Db, x: Sha, name: string, arch: Arch, version: string) {
    x in db.index && db.index[x].name == name && db.index[x].arch == arch && db.index[x].version == version
  }

  /** The first row of the listing that is that build. */
  predicate FirstBuild(db: Db, listing: seq<Sha>, x: Sha, name: string, arch: Arch, version: string) {
    exists k :: 0 <= k < |listing| && listing[k] == x && Builds(db, x, name, arch, version)
      && forall j :: 0 <= j < k ==> !Builds(db, listing[j], name, arch, version)
  }

  ghost predicate Pulled(w: World, listing: seq<Sha>, views: Arch -> seq<Vulnerable>, from: Ring, least: string,
      x: Sha) {
    exists a, v, version :: v in views(a) && Urgent(v, from, least, version)
      && FirstBuild(w.db, listing, x, v.name, a, version)
  }

  lemma SeverityIs(worst: string, least: string)
    ensures SeverityRank(worst) <= SeverityRank(least) <==> SevereAs(worst, least)
  {}

  lemma {:induction false} CleanIs(fixedIn: seq<(Ring, string)>, ring: Ring, version: string)
    ensures CleanIn(fixedIn, ring) == Some(version) <==>
      exists i :: 0 <= i < |fixedIn| && fixedIn[i] == (ring, version) && forall j :: 0 <= j < i ==> fixedIn[j].0 != ring
  {
    if fixedIn != [] && fixedIn[0].0 != ring {
      var rest := fixedIn[1..];
      CleanIs(rest, ring, version);
      if i :| 0 <= i < |rest| && rest[i] == (ring, version) && forall j :: 0 <= j < i ==> rest[j].0 != ring {
        assert fixedIn[i + 1] == (ring, version);
        forall j | 0 <= j < i + 1 ensures fixedIn[j].0 != ring { if j > 0 { assert fixedIn[j] == rest[j - 1]; } }
      }
      if i :| 0 <= i < |fixedIn| && fixedIn[i] == (ring, version) && forall j :: 0 <= j < i ==> fixedIn[j].0 != ring {
        assert rest[i - 1] == fixedIn[i];
        forall j | 0 <= j < i - 1 ensures rest[j].0 != ring { assert rest[j] == fixedIn[j + 1]; }
      }
    } else if fixedIn != [] {
      if i :| 0 <= i < |fixedIn| && fixedIn[i] == (ring, version) && forall j :: 0 <= j < i ==> fixedIn[j].0 != ring {
        assert i == 0;
      }
    }
  }

  lemma {:induction false} FindsFirst(db: Db, listing: seq<Sha>, x: Sha, name: string, arch: Arch, version: string)
    ensures FindFix(db, listing, name, arch, version) == Some(x) <==> FirstBuild(db, listing, x, name, arch, version)
  {
    if listing != [] && !Offers(db, listing[0], name, arch, version) {
      var rest := listing[1..];
      FindsFirst(db, rest, x, name, arch, version);
      if FirstBuild(db, rest, x, name, arch, version) {
        var k :| 0 <= k < |rest| && rest[k] == x && Builds(db, x, name, arch, version)
          && forall j :: 0 <= j < k ==> !Builds(db, rest[j], name, arch, version);
        assert listing[k + 1] == x;
        forall j | 0 <= j < k + 1 ensures !Builds(db, listing[j], name, arch, version) {
          if j > 0 { assert listing[j] == rest[j - 1]; }
        }
      }
      if FirstBuild(db, listing, x, name, arch, version) {
        var k :| 0 <= k < |listing| && listing[k] == x && Builds(db, x, name, arch, version)
          && forall j :: 0 <= j < k ==> !Builds(db, listing[j], name, arch, version);
        assert rest[k - 1] == x;
        forall j | 0 <= j < k - 1 ensures !Builds(db, rest[j], name, arch, version) {
          assert rest[j] == listing[j + 1];
        }
      }
    } else if listing != [] {
      assert Builds(db, listing[0], name, arch, version);
    }
  }

  lemma FixMeans(db: Db, listing: seq<Sha>, a: Arch, v: Vulnerable, from: Ring, least: string, x: Sha)
    ensures Fix(db, listing, a, v, from, least) == Some(x) <==>
      exists version :: Urgent(v, from, least, version) && FirstBuild(db, listing, x, v.name, a, version)
  {
    var clean := CleanIn(v.fixedIn, from);
    forall version ensures clean == Some(version) <==> CleanVersion(v, from, version) {
      CleanIs(v.fixedIn, from, version);
    }
    SeverityIs(v.worst, least);
    if clean.Some? { FindsFirst(db, listing, x, v.name, a, clean.value); }
    hide SeverityRank, SevereAs, CleanIn, FindFix, FirstBuild, CleanVersion, Dependency.VersionOrder;
  }

  /** What is pulled is exactly the first build of each clean version that is urgent. */
  lemma PullsExactly(w: World, listing: seq<Sha>, views: Arch -> seq<Vulnerable>, from: Ring, least: string, x: Sha)
    ensures x in FastTracked(w, listing, views, from, least) <==> Pulled(w, listing, views, from, least, x)
  {
    hide *;
    FastTrackedAre(w, listing, views, from, least);
    forall a, v ensures Fix(w.db, listing, a, v, from, least) == Some(x) <==>
      exists version :: Urgent(v, from, least, version) && FirstBuild(w.db, listing, x, v.name, a, version)
    {
      FixMeans(w.db, listing, a, v, from, least, x);
    }
    PulledIs(w, listing, views, from, least, x);
  }

  lemma PulledIs(w: World, listing: seq<Sha>, views: Arch -> seq<Vulnerable>, from: Ring, least: string, x: Sha)
    ensures Pulled(w, listing, views, from, least, x) <==>
      exists a, v :: v in views(a)
        && exists version :: Urgent(v, from, least, version) && FirstBuild(w.db, listing, x, v.name, a, version)
  {
    hide Urgent, FirstBuild;
  }

  /**
   * After a healthy fast-track the ring serves what was pulled, and of what it served every
   * row but those of the same source, name and architecture; otherwise what it served.
   */
  lemma FixesServed(w: World, ring: Ring, listing: seq<Sha>, views: Arch -> seq<Vulnerable>, from: Ring, least: string,
      healthy: Arch -> bool)
    requires Good(w) && Ready(w) && Lists(w, from, listing)
    ensures var r := FastTrackJob(w, ring, FastTracked(w, listing, views, from, least), healthy);
            if !exists x :: Pulled(w, listing, views, from, least, x) then r == Some(w)
            else
            && (r.None? <==> !(healthy(X86_64) && healthy(Aarch64)) && ring !in w.db.heads)
            && (r.Some? ==> forall x :: x in w.db.index ==>
                  (x in r.value.db.Live(ring) <==>
                   if healthy(X86_64) && healthy(Aarch64) then
                     || Pulled(w, listing, views, from, least, x)
                     || (x in w.db.Live(ring) && forall y :: Pulled(w, listing, views, from, least, y) ==>
                           y in w.db.index && (w.db.index[y].source != w.db.index[x].source
                           || w.db.index[y].name != w.db.index[x].name || w.db.index[y].arch != w.db.index[x].arch))
                   else x in w.db.Live(ring)))
  {
    hide *;
    var add := FastTracked(w, listing, views, from, least);
    forall x ensures x in add <==> Pulled(w, listing, views, from, least, x) {
      PullsExactly(w, listing, views, from, least, x);
    }
    AddIndexed(w, listing, views, from, least);
    BothHealthy(healthy);
    NothingPulled(w, ring, healthy);
    if add != {} {
      FastTrackServes(w, ring, add, healthy);
      forall x | x in w.db.index { OverlaidRow(w.db, w.db.Live(ring), add, x); }
    }
  }

  lemma NothingPulled(w: World, ring: Ring, healthy: Arch -> bool)
    requires Ready(w)
    ensures FastTrackJob(w, ring, {}, healthy) == Some(w)
  {
    hide Post, RenderAndVerify;
  }

  lemma BothHealthy(healthy: Arch -> bool)
    ensures Healthy(BOTH, healthy) <==> healthy(X86_64) && healthy(Aarch64)
  {
    assert BOTH[0] == X86_64 && BOTH[1] == Aarch64;
  }

  lemma AddIndexed(w: World, listing: seq<Sha>, views: Arch -> seq<Vulnerable>, from: Ring, least: string)
    requires Lists(w, from, listing)
    ensures FastTracked(w, listing, views, from, least) <= w.db.index.Keys
  {
    hide *;
    FastTrackedAre(w, listing, views, from, least);
    forall x | x in FastTracked(w, listing, views, from, least) ensures x in w.db.index {
      var a, v :| v in views(a) && Fix(w.db, listing, a, v, from, least) == Some(x);
      FixIs(w, listing, a, v, from, least);
    }
  }

  lemma OverlaidRow(db: Db, rows: set<Sha>, add: set<Sha>, x: Sha)
    requires add <= db.index.Keys && x in db.index
    ensures x in V.Overlay(db, rows, add) <==>
      || x in add
      || (x in rows && forall y :: y in add ==>
            db.index[y].source != db.index[x].source || db.index[y].name != db.index[x].name
            || db.index[y].arch != db.index[x].arch)
  {}
}
