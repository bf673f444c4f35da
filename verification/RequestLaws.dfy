/** Requests and jobs in plain terms: what a ring serves after one, and which databases it has. */
module RequestLaws {
  import opened Common
  import opened Releases
  import opened Creation
  import opened Selections
  import opened Sync
  import opened Work
  import opened Jobs

  // ---------- what a request asks for ----------

  /** The release a request copies: the one named, or the head of the ring named. */
  function CopyOf(db: Db, q: Request): Option<nat> {
    if q.fromRelease.Some? then q.fromRelease
    else if q.fromRing.Some? && q.fromRing.value in db.heads then Some(db.heads[q.fromRing.value])
    else None
  }

  /**
   * A row a request starts from: without a copy what the ring serves; else the copied release's
   * - of one architecture only where the request names one and the ring has a release, the
   * other staying as it is.
   */
  predicate StartsFrom(db: Db, q: Request, x: Sha)
    requires WellParented(db.releases) && (CopyOf(db, q).Some? ==> CopyOf(db, q).value < |db.releases|)
  {
    match CopyOf(db, q)
    case None => x in db.Live(q.ring)
    case Some(id) =>
      if q.arch.Some? && q.ring in db.heads && !(x in db.index && db.index[x].arch == q.arch.value)
      then x in db.Live(q.ring)
      else x in Members(db.releases, id)
  }

  /** The request takes the row out: by its name, or by its source and name, perhaps of one architecture only. */
  predicate TakenOut(q: Request, row: Row) {
    && (row.name in q.remove || (row.source, row.name) in q.removeFrom)
    && (q.removeArch == None || q.removeArch == Some(row.arch))
  }

  lemma CopySource(db: Db, q: Request)
    requires Inv(db) && SourceOf(db, q).Ok?
    ensures SourceOf(db, q).value == CopyOf(db, q)
    ensures WellParented(db.releases) && (CopyOf(db, q).Some? ==> CopyOf(db, q).value < |db.releases|)
  {
    if q.fromRelease.None? && q.fromRing.Some? { HeadMembers(db, q.fromRing.value); }
    hide Members, Distance;
  }

  /** Whatever the case, the base of a request is what it starts from. */
  lemma BaseIs(db: Db, q: Request, x: Sha)
    requires Inv(db) && SourceOf(db, q).Ok? && x in db.index
    ensures WellParented(db.releases) && (CopyOf(db, q).Some? ==> CopyOf(db, q).value < |db.releases|)
    ensures x in Base(db, q, CopyOf(db, q)) <==> StartsFrom(db, q, x)
  {
    hide *;
    CopySource(db, q);
    LiveIndexedInv(db, q.ring);
    var source := CopyOf(db, q);
    if source.Some? {
      SourceRowsAre(db, source.value);
    }
    OwnHead(db, q.ring);
    BaseShape(db, q, source, x);
    StartsShape(db, q, x);
  }

  lemma OwnHead(db: Db, ring: Ring)
    requires Inv(db)
    ensures WellParented(db.releases) && (forall r :: r in db.heads ==> db.heads[r] < |db.releases|)
    ensures ring in db.heads ==>
      db.Parent(ring) == Some(db.heads[ring]) && Members(db.releases, db.heads[ring]) == db.Live(ring)
    ensures ring !in db.heads ==> db.Parent(ring) == None && db.Live(ring) == {}
  {
    if ring in db.heads { HeadMembers(db, ring); }
    hide Members, Distance;
  }

  lemma BaseShape(db: Db, q: Request, source: Option<nat>, x: Sha)
    requires WellParented(db.releases) && (source.Some? ==> source.value < |db.releases|) && x in db.index
    ensures x in Base(db, q, source) <==>
      if source.None? || source == db.Parent(q.ring) then q.ring in db.heads && x in db.Live(q.ring)
      else if q.arch.Some? && q.ring in db.heads && db.index[x].arch != q.arch.value then x in db.Live(q.ring)
      else x in SourceRows(db, source.value)
  {
    hide SourceRows;
    if q.arch.Some? { EitherArch(db, q, x); }
  }

  lemma StartsShape(db: Db, q: Request, x: Sha)
    requires WellParented(db.releases) && (CopyOf(db, q).Some? ==> CopyOf(db, q).value < |db.releases|)
    requires x in db.index
    ensures StartsFrom(db, q, x) <==>
      if CopyOf(db, q).None? then x in db.Live(q.ring)
      else if q.arch.Some? && q.ring in db.heads && db.index[x].arch != q.arch.value then x in db.Live(q.ring)
      else x in Members(db.releases, CopyOf(db, q).value)
  {
    hide CopyOf, Members;
  }

  lemma EitherArch(db: Db, q: Request, x: Sha)
    requires x in db.index && q.arch.Some?
    ensures db.index[x].arch == q.arch.value || db.index[x].arch == q.arch.value.Other()
    ensures !(db.index[x].arch == q.arch.value && db.index[x].arch == q.arch.value.Other())
  {}

  lemma SourceRowsAre(db: Db, id: nat)
    requires Inv(db) && id < |db.releases|
    ensures SourceRows(db, id) == Members(db.releases, id)
  {
    if db.IsHead(id) { HeadMembers(db, db.releases[id].ring); }
    hide Members, Distance;
  }

  /**
   * After a request the ring serves what it adds, and of what it starts from every row that
   * it neither takes out nor adds another build of.
   */
  lemma RequestServes(db: Db, q: Request)
    requires Inv(db) && Create(db, q).Ok?
    ensures WellParented(db.releases) && (CopyOf(db, q).Some? ==> CopyOf(db, q).value < |db.releases|)
    ensures forall x :: x in db.index ==>
      var row := db.index[x];
      x in Create(db, q).value.db.Live(q.ring) <==>
        || x in q.add
        || (StartsFrom(db, q, x) && !TakenOut(q, row)
            && forall y :: y in q.add && y in db.index ==>
                 db.index[y].source != row.source || db.index[y].name != row.name || db.index[y].arch != row.arch)
  {
    hide *;
    CreateKeeps(db, q);
    CopySource(db, q);
    LiveIndexedInv(db, q.ring);
    forall x | x in db.index
      ensures var row := db.index[x];
        x in Create(db, q).value.db.Live(q.ring) <==>
        || x in q.add
        || (StartsFrom(db, q, x) && !TakenOut(q, row)
            && forall y :: y in q.add && y in db.index ==>
                 db.index[y].source != row.source || db.index[y].name != row.name || db.index[y].arch != row.arch)
    {
      BaseIs(db, q, x);
      AskedIs(db, q, x);
    }
  }

  lemma AskedIs(db: Db, q: Request, x: Sha)
    requires Inv(db) && SourceOf(db, q).Ok? && AllIndexed(db, q) && x in db.index
    ensures WellParented(db.releases) && (SourceOf(db, q).value.Some? ==> SourceOf(db, q).value.value < |db.releases|)
    ensures var row := db.index[x];
            x in Asked(db, q) <==>
            || x in q.add
            || (x in Base(db, q, SourceOf(db, q).value) && !TakenOut(q, row)
                && forall y :: y in q.add && y in db.index ==>
                     db.index[y].source != row.source || db.index[y].name != row.name || db.index[y].arch != row.arch)
  {
    CopySource(db, q);
    TargetIs(db, q, Base(db, q, SourceOf(db, q).value), x);
    hide Inv, Base, SourceOf, Target, TakenOut;
  }

  lemma TargetIs(db: Db, q: Request, base: set<Sha>, x: Sha)
    requires AllIndexed(db, q) && x in db.index
    ensures var row := db.index[x];
            x in Target(db, q, base) <==>
            || x in q.add
            || (x in base && !TakenOut(q, row)
                && forall y :: y in q.add && y in db.index ==>
                     db.index[y].source != row.source || db.index[y].name != row.name || db.index[y].arch != row.arch)
  {
    assert Removed(q, db.index[x]) <==> TakenOut(q, db.index[x]);
    hide Removed, TakenOut;
  }

  /**
   * A request fails exactly when the release or the ring it copies does not exist, something it
   * adds is not indexed - for the architecture it is scoped to - or it names an
   * architecture and copies nothing.
   */
  lemma RequestFails(db: Db, q: Request)
    requires Inv(db)
    ensures Create(db, q).Err? <==>
      || (q.fromRelease.Some? && q.fromRelease.value >= |db.releases|)
      || (q.fromRelease.None? && q.fromRing.Some? && q.fromRing.value !in db.heads)
      || (exists x :: x in q.add && (x !in db.index || (q.removeArch.Some? && db.index[x].arch != q.removeArch.value)))
      || (q.arch.Some? && q.fromRelease.None? && q.fromRing.None?)
  {
    CreateErrors(db, q);
    SourceFails(db, q);
    hide Inv, Create, SourceOf;
  }

  lemma SourceFails(db: Db, q: Request)
    ensures SourceOf(db, q).Err? <==>
      || (q.fromRelease.Some? && q.fromRelease.value >= |db.releases|)
      || (q.fromRelease.None? && q.fromRing.Some? && q.fromRing.value !in db.heads)
    ensures SourceOf(db, q).Ok? ==> (SourceOf(db, q).value.None? <==> q.fromRelease.None? && q.fromRing.None?)
  {}

  // ---------- which releases are checkpoints ----------

  lemma {:induction false} CheckpointBehind(rs: seq<Release>, id: nat) returns (c: nat)
    requires WellParented(rs) && Numbered(rs) && id < |rs| && Distance(rs, id).Some?
    ensures c < |rs| && rs[c].ring == rs[id].ring && rs[c].checkpoint.Some?
    ensures rs[c].number == rs[id].number - Distance(rs, id).value
    decreases id
  {
    if rs[id].checkpoint.Some? { c := id; } else { c := CheckpointBehind(rs, rs[id].parent.value); }
  }

  /** Steps back to the nearest checkpoint count releases since the last one. */
  lemma StepsAreNumbers(db: Db, ring: Ring)
    requires Inv(db) && ring in db.heads
    ensures WellParented(db.releases) && db.heads[ring] < |db.releases|
    ensures Distance(db.releases, db.heads[ring]) ==
      Some(db.releases[db.heads[ring]].number - MaxNumber(db.releases, ring, true))
  {
    hide *;
    InvParts(db);
    var rs, h := db.releases, db.heads[ring];
    HeadParts(db, ring);
    var last := MaxNumber(rs, ring, true);
    var c := CheckpointBehind(rs, h);
    FirstIsOne(rs, c);
    var k :| 0 <= k < |rs| && rs[k].ring == ring && rs[k].number == last && rs[k].checkpoint.Some?;
    UpToHead(db, ring, k);
    NearestCheckpoint(rs, h, k);
    assert rs[c].number <= last;
  }

  lemma HeadParts(db: Db, ring: Ring)
    requires Inv(db) && ring in db.heads
    ensures db.heads[ring] < |db.releases| && db.releases[db.heads[ring]].ring == ring
  {
    hide Members, Distance, Chained;
  }

  lemma UpToHead(db: Db, ring: Ring, k: nat)
    requires Inv(db) && ring in db.heads && k < |db.releases| && db.releases[k].ring == ring
    ensures db.heads[ring] < |db.releases| && db.releases[k].number <= db.releases[db.heads[ring]].number
  {
    hide Sound, Distance, Numbered, UniqueNumbers, Checkpointed;
    assert AtMostHead(db, k);
  }

  lemma {:induction false} DistanceStays(rs: seq<Release>, r: Release, id: nat)
    requires WellParented(rs) && WellParented(rs + [r]) && id < |rs|
    ensures Distance(rs + [r], id) == Distance(rs, id)
    decreases id
  {
    if rs[id].checkpoint.None? && rs[id].parent.Some? { DistanceStays(rs, r, rs[id].parent.value); }
  }

  /**
   * A release is a checkpoint exactly when it is the first of its ring or the one before it
   * lies 23 steps after one; so no release lies more than 23 steps after one.
   */
  lemma CheckpointRule(db: Db, q: Request)
    requires Inv(db) && Create(db, q).Ok?
    ensures var c := Create(db, q).value;
            && c.id == |db.releases| && |c.db.releases| == c.id + 1 && WellParented(c.db.releases)
            && (q.ring in db.heads ==> db.heads[q.ring] < |c.db.releases|)
            && (c.db.releases[c.id].checkpoint.Some?
                <==> q.ring !in db.heads || Distance(c.db.releases, db.heads[q.ring]) == Some(23))
            && forall i :: 0 <= i <= c.id ==> Distance(c.db.releases, i).Some? && Distance(c.db.releases, i).value <= 23
  {
    hide *;
    CreateKeeps(db, q);
    InvParts(db);
    CreateSteps(db, q);
    var source := SourceOf(db, q).value;
    var db1 := Prepared(db, q, source);
    PreparedKeeps(db, q, source);
    var target := Asked(db, q);
    AppendNumbers(db1, q.ring);
    AppendedRelease(db1, q.ring, source, target);
    InvParts(Create(db, q).value.db);
    if q.ring in db.heads {
      StepsAreNumbers(db1, q.ring);
      DistanceStays(db1.releases, Create(db, q).value.db.releases[|db.releases|], db.heads[q.ring]);
    }
  }

  lemma InvParts(db: Db)
    requires Inv(db)
    ensures WellParented(db.releases) && Numbered(db.releases) && UniqueNumbers(db.releases)
    ensures forall r :: r in db.heads ==> db.heads[r] < |db.releases|
    ensures forall i :: 0 <= i < |db.releases| ==>
      Distance(db.releases, i).Some? && Distance(db.releases, i).value <= 23
  {
    hide Distance, Members, Numbered, UniqueNumbers, HeadsNewest, CheckpointsRight, DeltasIndexed;
  }

  lemma CreateSteps(db: Db, q: Request)
    requires Inv(db) && Create(db, q).Ok?
    ensures SourceOf(db, q).Ok? && AllIndexed(db, q) && var source := SourceOf(db, q).value;
            && WellParented(db.releases) && (source.Some? ==> source.value < |db.releases|)
            && Create(db, q).value.db == Append(Prepared(db, q, source), q.ring, source, Asked(db, q))
  {
    InvParts(db);
    CopySource(db, q);
    hide Inv, Prepared, Append, Base, Target, Kept;
  }

  lemma AppendedRelease(db: Db, ring: Ring, source: Option<nat>, target: set<Sha>)
    ensures var db' := Append(db, ring, source, target);
            var n := MaxNumber(db.releases, ring, false) + 1;
            && |db'.releases| == |db.releases| + 1
            && db'.releases == db.releases + [db'.releases[|db.releases|]]
            && (db'.releases[|db.releases|].checkpoint.Some?
                <==> ring !in db.heads || n - MaxNumber(db.releases, ring, true) >= 24)
  {
    hide MaxNumber, Delta, Apply;
  }

  // ---------- what it reports as unchanged ----------

  /** A request is confined to one architecture: all it adds, takes out or copies is of it. */
  predicate Touches(db: Db, q: Request, a: Arch) {
    var copies := CopyOf(db, q).Some? && CopyOf(db, q) != db.Parent(q.ring);
    if !copies then q.removeArch == Some(a)
    else q.arch == Some(a)
         && (q.removeArch == Some(a) || (q.add == {} && q.remove == {} && q.removeFrom == {}))
  }

  /** The other architecture is unchanged exactly when the ring had a release and the request is confined. */
  lemma KeptExactly(db: Db, q: Request, a: Arch)
    requires Inv(db) && Create(db, q).Ok?
    ensures a.Other() in Create(db, q).value.kept <==> q.ring in db.heads && Touches(db, q, a)
  {
    hide *;
    KeptOf(db, q);
    CopySource(db, q);
    ScopedTo(db, q, SourceOf(db, q).value, a);
    TouchesIs(db, q, a);
  }

  lemma ScopedTo(db: Db, q: Request, source: Option<nat>, a: Arch)
    ensures a.Other() in Kept(db, q, source) <==>
      && q.ring in db.heads
      && (if source.None? || source == db.Parent(q.ring) then q.removeArch == Some(a)
          else q.arch == Some(a)
               && (q.removeArch == Some(a) || (q.add == {} && q.remove == {} && q.removeFrom == {})))
  {}

  lemma TouchesIs(db: Db, q: Request, a: Arch)
    ensures Touches(db, q, a) <==>
      if CopyOf(db, q).None? || CopyOf(db, q) == db.Parent(q.ring) then q.removeArch == Some(a)
      else q.arch == Some(a)
           && (q.removeArch == Some(a) || (q.add == {} && q.remove == {} && q.removeFrom == {}))
  {
    hide CopyOf;
  }

  lemma KeptOf(db: Db, q: Request)
    requires Inv(db) && Create(db, q).Ok?
    ensures SourceOf(db, q).Ok? && Create(db, q).value.kept == Kept(db, q, SourceOf(db, q).value)
  {
    hide Inv, Kept, SourceOf, Target, Base, Append, Prepared;
  }

  // ---------- databases ----------

  /** The ring serves a package of the source for the architecture. */
  predicate HasPackages(db: Db, ring: Ring, arch: Arch, source: string) {
    exists x :: x in db.Live(ring) && x in db.index && db.index[x].arch == arch && db.index[x].source == source
  }

  /**
   * Rendering writes, for each source with a package there, exactly its rows of the ring and
   * architecture; every other database stays as it was.
   */
  lemma RenderWrites(w: World, ring: Ring, arch: Arch)
    requires Good(w)
    ensures Render(w, ring, arch).Some? <==> ring in w.db.heads
    ensures Render(w, ring, arch).Some? ==>
      var w' := Render(w, ring, arch).value;
      && w' == w.(published := w'.published)
      && (forall s :: HasPackages(w.db, ring, arch, s) ==>
            (ring, arch, s) in w'.published
            && forall x :: x in w'.published[(ring, arch, s)] <==>
                 x in w.db.Live(ring) && x in w.db.index && w.db.index[x].arch == arch && w.db.index[x].source == s)
      && (forall r, a, s :: (r != ring || a != arch || !HasPackages(w.db, ring, arch, s)) ==>
            ((r, a, s) in w'.published <==> (r, a, s) in w.published)
            && ((r, a, s) in w.published ==> w'.published[(r, a, s)] == w.published[(r, a, s)]))
  {
    var g := BySource(w.db, ring, arch);
    DatabasesOf(ring, arch, g);
    SourcesServed(w.db, ring, arch);
    hide Good, HasPackages;
  }

  lemma SourcesServed(db: Db, ring: Ring, arch: Arch)
    ensures forall s :: s in BySource(db, ring, arch) <==> HasPackages(db, ring, arch, s)
    ensures forall s, x :: s in BySource(db, ring, arch) ==>
      (x in BySource(db, ring, arch)[s] <==>
         x in db.Live(ring) && x in db.index && db.index[x].arch == arch && db.index[x].source == s)
  {}
}
