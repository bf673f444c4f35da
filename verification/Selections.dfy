/** What creating a release does to the selections rings serve, for every request. */
module Selections {
  import opened Common
  import opened Releases
  import opened Creation

  lemma PreparedKeeps(db: Db, q: Request, source: Option<nat>)
    requires Inv(db) && (source.Some? ==> source.value < |db.releases|)
    ensures var db' := Prepared(db, q, source);
            && Inv(db') && Continues(db.releases, db'.releases) && |db'.releases| == |db.releases|
            && db' == db.(releases := db'.releases)
  {
    if Foreign(source, db.Parent(q.ring)) && !db.IsHead(source.value) {
      MaterialiseKeeps(db, source.value);
    }
  }

  lemma ContinuesTransitive(a: seq<Release>, b: seq<Release>, c: seq<Release>)
    requires Continues(a, b) && Continues(b, c)
    ensures Continues(a, c)
  {
    forall i | 0 <= i < |a| ensures Fixed(c[i]) == Fixed(a[i]) {
      assert Fixed(b[i]) == Fixed(a[i]);
    }
  }

  /** The selection a successful request asks for. */
  ghost function Asked(db: Db, q: Request): set<Sha>
    requires Inv(db) && SourceOf(db, q).Ok? && AllIndexed(db, q)
  {
    Target(db, q, Base(db, q, SourceOf(db, q).value))
  }

  lemma AskedIndexed(db: Db, q: Request)
    requires Inv(db) && SourceOf(db, q).Ok? && AllIndexed(db, q)
    ensures Asked(db, q) <= db.index.Keys
  {}

  /**
   * One request: the ring serves exactly what was asked for, no other ring and no
   * earlier release changes, and every invariant of the index is kept.
   */
  lemma CreateKeeps(db: Db, q: Request)
    requires Inv(db) && Create(db, q).Ok?
    ensures SourceOf(db, q).Ok? && AllIndexed(db, q)
    ensures var c := Create(db, q).value;
            && Inv(c.db) && Continues(db.releases, c.db.releases)
            && c.id == |db.releases| && |c.db.releases| == c.id + 1
            && c.db.index == db.index && c.db.heads == db.heads[q.ring := c.id]
            && c.db.Live(q.ring) == Asked(db, q)
            && (forall r :: r != q.ring ==> c.db.Live(r) == db.Live(r))
            && c.db.releases[c.id].parent == db.Parent(q.ring) && c.db.releases[c.id].source == SourceOf(db, q).value
  {
    var source := SourceOf(db, q).value;
    var db1 := Prepared(db, q, source);
    PreparedKeeps(db, q, source);
    AskedIndexed(db, q);
    hide Inv, Base, Target, Prepared;
    var target := Asked(db, q);
    Finish(db, db1, q, source, target);
  }

  lemma Finish(db: Db, db1: Db, q: Request, source: Option<nat>, target: set<Sha>)
    requires Inv(db1) && Continues(db.releases, db1.releases) && |db1.releases| == |db.releases|
    requires db1 == db.(releases := db1.releases) && target <= db.index.Keys
    ensures var db' := Append(db1, q.ring, source, target);
            && Inv(db') && Continues(db.releases, db'.releases) && |db'.releases| == |db.releases| + 1
            && db'.index == db.index && db'.heads == db.heads[q.ring := |db.releases|]
            && db'.Live(q.ring) == target && (forall r :: r != q.ring ==> db'.Live(r) == db.Live(r))
            && db'.releases[|db.releases|].parent == db.Parent(q.ring) && db'.releases[|db.releases|].source == source
  {
    hide Inv, Delta, Apply, MaxNumber;
    AppendKeeps(db1, q.ring, source, target);
    ContinuesTransitive(db.releases, db1.releases, Append(db1, q.ring, source, target).releases);
    assert forall r :: db1.Live(r) == db.Live(r);
  }

  /** With the chains the requests build, a source that exists can always be reconstructed. */
  lemma CreateErrors(db: Db, q: Request)
    requires Inv(db)
    ensures Create(db, q).Err?
      <==> SourceOf(db, q).Err? || !AllIndexed(db, q) || (q.arch.Some? && SourceOf(db, q).value.None?)
    ensures Create(db, q) != Err(NotReconstructable)
  {}

  /** Source rows are the source's membership, whether it is a head or a reconstructed release. */
  lemma SourceRowsAreMembers(db: Db, id: nat)
    requires Inv(db) && id < |db.releases|
    ensures SourceRows(db, id) == Members(db.releases, id) && SourceRows(db, id) <= db.index.Keys
  {
    MembersIndexed(db, id);
  }

  /** What a request that touches neither removals nor adds of an architecture leaves of it is its base. */
  lemma UntouchedIsBase(db: Db, q: Request, base: set<Sha>, arch: Arch)
    requires AllIndexed(db, q) && base <= db.index.Keys
    requires (q.remove == {} && q.removeFrom == {} && q.add == {}) || q.removeArch == Some(arch.Other())
    ensures In(db, Target(db, q, base), arch) == In(db, base, arch)
  {}

  /** An architecture is kept when the request is scoped to the other, which the base is then taken for. */
  lemma KeptIs(db: Db, q: Request, source: Option<nat>, arch: Arch)
    requires arch in Kept(db, q, source)
    ensures db.Parent(q.ring).Some?
    ensures if !Foreign(source, db.Parent(q.ring)) then q.removeArch == Some(arch.Other())
            else q.arch == Some(arch.Other())
                 && ((q.remove == {} && q.removeFrom == {} && q.add == {}) || q.removeArch == Some(arch.Other()))
  {}

  lemma KeptBase(db: Db, q: Request, source: Option<nat>, arch: Arch)
    requires WellParented(db.releases) && (source.Some? ==> source.value < |db.releases|) && db.Parent(q.ring).Some?
    requires Foreign(source, db.Parent(q.ring)) ==> q.arch == Some(arch.Other())
    ensures In(db, Base(db, q, source), arch) == In(db, db.Live(q.ring), arch)
  {
    hide SourceRows;
  }

  lemma KeptAsked(db: Db, q: Request, arch: Arch)
    requires Inv(db) && Create(db, q).Ok? && arch in Create(db, q).value.kept
    ensures SourceOf(db, q).Ok? && AllIndexed(db, q) && WellParented(db.releases)
    ensures var source := SourceOf(db, q).value;
            (source.Some? ==> source.value < |db.releases|) && arch in Kept(db, q, source)
            && Asked(db, q) == Target(db, q, Base(db, q, source))
  {
    LiveIndexedInv(db, q.ring);
    hide Inv, Kept, Target, Base, Append, Prepared, AllIndexed;
  }

  /** An architecture reported as kept serves exactly what the parent served. */
  lemma KeptIsUntouched(db: Db, q: Request, arch: Arch)
    requires Inv(db) && Create(db, q).Ok? && arch in Create(db, q).value.kept
    ensures In(db, Asked(db, q), arch) == In(db, db.Live(q.ring), arch)
  {
    hide *;
    KeptAsked(db, q, arch);
    var source := SourceOf(db, q).value;
    KeptIs(db, q, source, arch);
    BaseIndexed(db, q);
    KeptBase(db, q, source, arch);
    UntouchedIsBase(db, q, Base(db, q, source), arch);
  }

  lemma LiveIndexedInv(db: Db, ring: Ring)
    requires Inv(db)
    ensures db.Live(ring) <= db.index.Keys
    ensures WellParented(db.releases) && forall r :: r in db.heads ==> db.heads[r] < |db.releases|
    ensures ring !in db.heads ==> db.Live(ring) == {}
  {
    LiveIndexed(db, ring);
  }

  // ---------- promotions and rollbacks ----------

  predicate CopiesOnly(q: Request) {
    q.add == {} && q.remove == {} && q.removeFrom == {}
  }

  lemma SourceExists(db: Db, q: Request)
    requires Inv(db) && SourceOf(db, q).Ok? && SourceOf(db, q).value.Some?
    ensures WellParented(db.releases) && SourceOf(db, q).value.value < |db.releases|
  {}

  lemma BaseIndexed(db: Db, q: Request)
    requires Inv(db) && SourceOf(db, q).Ok?
    ensures Base(db, q, SourceOf(db, q).value) <= db.index.Keys
  {
    if SourceOf(db, q).value.Some? {
      SourceExists(db, q);
      SourceRowsAreMembers(db, SourceOf(db, q).value.value);
    }
    LiveIndexedInv(db, q.ring);
    hide Inv, Members, Distance, SourceRows, In, SourceOf;
    if q.arch.Some? && SourceOf(db, q).value.Some? {
      InIndexed(db, SourceRows(db, SourceOf(db, q).value.value), q.arch.value);
      InIndexed(db, db.Live(q.ring), q.arch.value.Other());
    }
  }

  lemma InIndexed(db: Db, rows: set<Sha>, arch: Arch)
    ensures In(db, rows, arch) <= db.index.Keys
  {}

  /** What a copy without adds and removals starts from is what it serves. */
  lemma CopyIsBase(db: Db, q: Request)
    requires Inv(db) && SourceOf(db, q).Ok? && CopiesOnly(q)
    ensures Asked(db, q) == Base(db, q, SourceOf(db, q).value)
  {
    BaseIndexed(db, q);
    hide Inv, Base;
  }

  /** A promotion or rollback of both architectures serves exactly the source's members. */
  lemma WholeCopyIsExact(db: Db, q: Request, source: nat)
    requires Inv(db) && SourceOf(db, q) == Ok(Some(source)) && CopiesOnly(q)
    requires q.arch.None? || db.Parent(q.ring).None?
    ensures source < |db.releases| && Asked(db, q) == Members(db.releases, source)
  {
    SourceExists(db, q);
    CopyIsBase(db, q);
    SourceRowsAreMembers(db, source);
    if q.ring in db.heads { HeadMembers(db, q.ring); }
    hide Inv, Members, Distance, Target;
  }

  lemma HeadMembers(db: Db, ring: Ring)
    requires Inv(db) && ring in db.heads
    ensures db.heads[ring] < |db.releases| && db.Live(ring) == Members(db.releases, db.heads[ring])
  {}

  lemma InOfUnion(db: Db, rows: set<Sha>, own: set<Sha>, a: Arch)
    ensures var both := In(db, rows, a) + In(db, own, a.Other());
            In(db, both, a) == In(db, rows, a) && In(db, both, a.Other()) == In(db, own, a.Other())
  {}

  /** One architecture moved: it comes from the source, the other stays as the ring serves it. */
  lemma OneArchCopyIsExact(db: Db, q: Request, source: nat)
    requires Inv(db) && SourceOf(db, q) == Ok(Some(source)) && CopiesOnly(q)
    requires q.arch.Some? && db.Parent(q.ring).Some?
    ensures var a := q.arch.value;
            && source < |db.releases|
            && In(db, Asked(db, q), a) == In(db, Members(db.releases, source), a)
            && In(db, Asked(db, q), a.Other()) == In(db, db.Live(q.ring), a.Other())
  {
    SourceExists(db, q);
    CopyIsBase(db, q);
    SourceRowsAreMembers(db, source);
    HeadMembers(db, q.ring);
    hide Inv, Members, Distance, Target, SourceRows, In, SourceOf, AllIndexed;
    InOfUnion(db, Members(db.releases, source), db.Live(q.ring), q.arch.value);
    assert Base(db, q, Some(source)) ==
      if Foreign(Some(source), db.Parent(q.ring))
      then In(db, Members(db.releases, source), q.arch.value) + In(db, db.Live(q.ring), q.arch.value.Other())
      else db.Live(q.ring);
  }

  /** Selections that agree on both architectures are the same selection. */
  lemma BothArches(db: Db, a: set<Sha>, b: set<Sha>, arch: Arch)
    requires a <= db.index.Keys && b <= db.index.Keys
    requires In(db, a, arch) == In(db, b, arch) && In(db, a, arch.Other()) == In(db, b, arch.Other())
    ensures a == b
  {
    forall p | p in a + b ensures p in a && p in b {
      assert p in In(db, a, db.index[p].arch) || p in In(db, b, db.index[p].arch);
    }
  }

  // ---------- one row per source, name and architecture ----------

  predicate OneRowPerKey(db: Db, rows: set<Sha>) {
    forall p, r :: p in rows && r in rows && p in db.index && r in db.index ==>
      (db.index[p].Key() == db.index[r].Key() ==> p == r)
  }

  /** A ring that holds one row per key still does, exactly when the adds name each key once. */
  lemma KeysStayUnique(db: Db, q: Request)
    requires Inv(db) && SourceOf(db, q).Ok? && AllIndexed(db, q)
    requires OneRowPerKey(db, Base(db, q, SourceOf(db, q).value))
    ensures OneRowPerKey(db, Asked(db, q)) <==> OneRowPerKey(db, q.add)
  {
    hide Inv, Base;
  }
}
