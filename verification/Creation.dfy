/**
 * Creating a release (`POST /releases`): where its selection starts, what it adds
 * and removes, the delta it stores, and which architectures it leaves alone.
 */
module Creation {
  import opened Common
  import opened Releases

  /** What the request body says; neither the order of `add` nor its repetitions matter to the statements it becomes. */
  datatype Request = Request(
    ring: Ring, fromRing: Option<Ring>, fromRelease: Option<nat>,
    add: set<Sha>, remove: set<string>, removeFrom: set<(string, string)>,
    removeArch: Option<Arch>, arch: Option<Arch>)

  datatype Error = NoSuchRelease | NothingToPromote | NotIndexed | ArchWithoutSource | NotReconstructable

  datatype Created = Created(db: Db, id: nat, kept: set<Arch>)

  /** The rows of one architecture. */
  function In(db: Db, rows: set<Sha>, arch: Arch): set<Sha> {
    set p | p in rows && p in db.index && db.index[p].arch == arch
  }

  function SourceOf(db: Db, q: Request): Result<Option<nat>, Error> {
    if q.fromRelease.Some? then
      if q.fromRelease.value < |db.releases| then Ok(q.fromRelease) else Err(NoSuchRelease)
    else if q.fromRing.Some? then
      if q.fromRing.value in db.heads then Ok(db.Parent(q.fromRing.value)) else Err(NothingToPromote)
    else Ok(None)
  }

  /** Whether the selection starts from another release than the ring's own head. */
  predicate Foreign(source: Option<nat>, parent: Option<nat>) {
    source.Some? && source != parent
  }

  function SourceRows(db: Db, id: nat): set<Sha>
    requires WellParented(db.releases) && id < |db.releases|
  {
    if db.IsHead(id) then db.Live(db.releases[id].ring) else Members(db.releases, id)
  }

  function Base(db: Db, q: Request, source: Option<nat>): set<Sha>
    requires WellParented(db.releases) && (source.Some? ==> source.value < |db.releases|)
  {
    var parent := db.Parent(q.ring);
    if Foreign(source, parent) then
      var rows := SourceRows(db, source.value);
      if q.arch.Some? && parent.Some? then
        In(db, rows, q.arch.value) + In(db, db.Live(q.ring), q.arch.value.Other())
      else rows
    else if parent.Some? then db.Live(q.ring)
    else {}
  }

  predicate Removed(q: Request, row: Row) {
    && (row.name in q.remove || (row.source, row.name) in q.removeFrom)
    && (q.removeArch.Some? ==> row.arch == q.removeArch.value)
  }

  predicate AllIndexed(db: Db, q: Request) {
    forall p :: p in q.add ==> p in db.index && (q.removeArch.Some? ==> db.index[p].arch == q.removeArch.value)
  }

  function AddKeys(db: Db, q: Request): set<(string, string, Arch)>
    requires AllIndexed(db, q)
  {
    set p | p in q.add :: db.index[p].Key()
  }

  /** The selection asked for: the base without what is removed or replaced, and the adds. */
  function Target(db: Db, q: Request, base: set<Sha>): set<Sha>
    requires AllIndexed(db, q)
  {
    (set p | p in base && p in db.index && !Removed(q, db.index[p]) && db.index[p].Key() !in AddKeys(db, q))
    + q.add
  }

  /** What turns one selection into another. */
  function Delta(own: set<Sha>, target: set<Sha>): map<Sha, Op> {
    map p | p in own + target && (p in own) != (p in target) :: if p in target then Add else Op.Remove
  }

  function MaxNumber(rs: seq<Release>, ring: Ring, checkpointed: bool): (n: nat)
    ensures forall i | 0 <= i < |rs| && rs[i].ring == ring
      && (checkpointed ==> rs[i].checkpoint.Some?) :: rs[i].number <= n
    ensures n > 0 ==> exists i :: 0 <= i < |rs| && rs[i].ring == ring && rs[i].number == n
                       && (checkpointed ==> rs[i].checkpoint.Some?)
  {
    if rs == [] then 0
    else
      var r := rs[|rs| - 1];
      var n := MaxNumber(rs[..|rs| - 1], ring, checkpointed);
      if r.ring == ring && (checkpointed ==> r.checkpoint.Some?) && r.number > n then r.number else n
  }

  predicate Reconstructable(rs: seq<Release>, id: nat)
    requires WellParented(rs) && id < |rs|
  {
    Distance(rs, id).Some? && Distance(rs, id).value < 4 * CHECKPOINT_EVERY
  }

  /** The architectures a request cannot have touched, which need no rendering. */
  function Kept(db: Db, q: Request, source: Option<nat>): set<Arch> {
    var parent := db.Parent(q.ring);
    var untouched := q.remove == {} && q.removeFrom == {} && q.add == {};
    var scoped :=
      if parent.Some? && !Foreign(source, parent) then q.removeArch
      else if q.arch.Some? && (untouched || q.removeArch == q.arch) then q.arch
      else None;
    if parent.Some? && scoped.Some? then {scoped.value.Other()} else {}
  }

  /** Appends a release holding `target` to the ring. */
  function Append(db: Db, ring: Ring, source: Option<nat>, target: set<Sha>): Db {
    var parent := db.Parent(ring);
    var deltas := Delta(db.Live(ring), target);
    var live := Apply(db.Live(ring), deltas);
    var number := MaxNumber(db.releases, ring, false) + 1;
    var checkpoint :=
      if parent.None? || number - MaxNumber(db.releases, ring, true) >= CHECKPOINT_EVERY then Some(live) else None;
    db.(releases := db.releases + [Release(ring, number, parent, source, deltas, checkpoint)],
        heads := db.heads[ring := |db.releases|],
        live := db.live[ring := live])
  }

  /** The index after the source has its checkpoint, when it needs one. */
  function Prepared(db: Db, q: Request, source: Option<nat>): Db
    requires WellParented(db.releases) && (source.Some? ==> source.value < |db.releases|)
  {
    if Foreign(source, db.Parent(q.ring)) && !db.IsHead(source.value)
    then db.(releases := Materialise(db.releases, source.value)) else db
  }

  function Create(db: Db, q: Request): Result<Created, Error>
    requires WellParented(db.releases) && forall r :: r in db.heads ==> db.heads[r] < |db.releases|
  {
    match SourceOf(db, q)
    case Err(e) => Err(e)
    case Ok(source) =>
      if !AllIndexed(db, q) then Err(NotIndexed)
      else if q.arch.Some? && source.None? then Err(ArchWithoutSource)
      else if Foreign(source, db.Parent(q.ring)) && !db.IsHead(source.value)
              && !Reconstructable(db.releases, source.value) then Err(NotReconstructable)
      else
        var target := Target(db, q, Base(db, q, source));
        Ok(Created(Append(Prepared(db, q, source), q.ring, source, target), |db.releases|, Kept(db, q, source)))
  }

  // ---------- appending keeps the invariants ----------

  /** Applying the stored delta gives exactly the selection asked for. */
  lemma DeltaReachesTarget(own: set<Sha>, target: set<Sha>)
    ensures Apply(own, Delta(own, target)) == target
  {}

  lemma {:induction false} NearestCheckpoint(rs: seq<Release>, id: nat, c: nat)
    requires WellParented(rs) && Numbered(rs) && UniqueNumbers(rs) && id < |rs| && c < |rs|
    requires rs[c].ring == rs[id].ring && rs[c].checkpoint.Some? && rs[c].number <= rs[id].number
    ensures Distance(rs, id).Some? && Distance(rs, id).value <= rs[id].number - rs[c].number
    decreases id
  {
    if rs[id].checkpoint.None? {
      assert id != c;
      assert rs[id].parent.Some? by { assert rs[c].number >= 1 by { assert rs[c].parent == rs[c].parent; } }
      NearestCheckpoint(rs, rs[id].parent.value, c);
    }
  }

  /** A checkpoint behind every release, so one in every ring that has a release. */
  lemma {:induction false} CheckpointExists(rs: seq<Release>, id: nat) returns (c: nat)
    requires WellParented(rs) && id < |rs| && Distance(rs, id).Some?
    ensures c < |rs| && rs[c].ring == rs[id].ring && rs[c].checkpoint.Some?
    decreases id
  {
    if rs[id].checkpoint.Some? { c := id; } else { c := CheckpointExists(rs, rs[id].parent.value); }
  }

  lemma AppendNumbers(db: Db, ring: Ring)
    requires Inv(db)
    ensures MaxNumber(db.releases, ring, false)
            == if ring in db.heads then db.releases[db.heads[ring]].number else 0
  {
    var rs := db.releases;
    var n := MaxNumber(rs, ring, false);
    forall i | 0 <= i < |rs| && rs[i].ring == ring ensures ring in db.heads
      && rs[i].number <= rs[db.heads[ring]].number {
      assert AtMostHead(db, i);
    }
  }

  /** One more release changes no earlier membership. */
  lemma OneMore(rs: seq<Release>, r: Release)
    requires WellParented(rs)
    requires r.parent.Some? ==> r.parent.value < |rs| && rs[r.parent.value].ring == r.ring
    ensures var rs' := rs + [r];
            && WellParented(rs') && Continues(rs, rs')
            && (forall i :: 0 <= i < |rs| ==> rs'[i] == rs[i] && Members(rs', i) == Members(rs, i))
            && Members(rs', |rs|) == Apply(if r.parent.Some? then Members(rs, r.parent.value) else {}, r.deltas)
  {
    var rs' := rs + [r];
    forall i | 0 <= i < |rs| ensures rs'[i] == rs[i] && Fixed(rs'[i]) == Fixed(rs[i]) {}
    forall i | 0 <= i < |rs| ensures Members(rs', i) == Members(rs, i) {
      MembersContinue(rs, rs', i);
    }
  }

  /** What `Append` adds, field by field. */
  lemma Appended(db: Db, ring: Ring, source: Option<nat>, target: set<Sha>)
    requires WellParented(db.releases) && HeadsRight(db)
    ensures var db' := Append(db, ring, source, target);
            var rs, n := db.releases, |db.releases|;
            && |db'.releases| == n + 1 && Continues(rs, db'.releases) && WellParented(db'.releases)
            && (forall i :: 0 <= i < n ==> db'.releases[i] == rs[i] && Members(db'.releases, i) == Members(rs, i))
            && Members(db'.releases, n) == target && db'.Live(ring) == target
            && (forall r :: r != ring ==> db'.Live(r) == db.Live(r))
            && db'.releases[n].ring == ring && db'.releases[n].parent == db.Parent(ring)
            && db'.releases[n].deltas == Delta(db.Live(ring), target)
            && (db'.releases[n].checkpoint.Some? ==> db'.releases[n].checkpoint.value == target)
  {
    hide MaxNumber, Distance, Delta, Apply, Members;
    DeltaReachesTarget(db.Live(ring), target);
    var r := Append(db, ring, source, target).releases[|db.releases|];
    OneMore(db.releases, r);
  }

  lemma AppendHeads(db: Db, ring: Ring, source: Option<nat>, target: set<Sha>)
    requires WellParented(db.releases) && HeadsRight(db)
    ensures var db' := Append(db, ring, source, target);
            WellParented(db'.releases) && HeadsRight(db')
  {
    Appended(db, ring, source, target);
    var db' := Append(db, ring, source, target);
    assert db'.heads == db.heads[ring := |db.releases|];
    hide MaxNumber, Members, Apply, Append;
    forall r ensures r != ring ==> db'.Live(r) == db.Live(r) {}
  }

  lemma AppendCheckpoints(db: Db, ring: Ring, source: Option<nat>, target: set<Sha>)
    requires WellParented(db.releases) && HeadsRight(db) && CheckpointsRight(db.releases)
    ensures var db' := Append(db, ring, source, target);
            WellParented(db'.releases) && CheckpointsRight(db'.releases)
  {
    Appended(db, ring, source, target);
    hide MaxNumber, Members, Apply, Append, HeadsRight;
  }

  lemma AppendDeltas(db: Db, ring: Ring, source: Option<nat>, target: set<Sha>)
    requires WellParented(db.releases) && HeadsRight(db) && DeltasIndexed(db) && target <= db.index.Keys
    ensures DeltasIndexed(Append(db, ring, source, target))
  {
    Appended(db, ring, source, target);
    assert Append(db, ring, source, target).index == db.index;
    hide MaxNumber, Members, Apply, Append, HeadsRight;
  }

  lemma AppendSound(db: Db, ring: Ring, source: Option<nat>, target: set<Sha>)
    requires Inv(db) && target <= db.index.Keys
    ensures Sound(Append(db, ring, source, target))
  {
    SoundParts(db);
    hide *;
    AppendHeads(db, ring, source, target);
    AppendCheckpoints(db, ring, source, target);
    AppendDeltas(db, ring, source, target);
    PartsSound(Append(db, ring, source, target));
  }

  lemma SoundParts(db: Db)
    requires Inv(db)
    ensures WellParented(db.releases) && HeadsRight(db) && CheckpointsRight(db.releases) && DeltasIndexed(db)
  {
    hide WellParented, HeadsRight, CheckpointsRight, DeltasIndexed, Chained;
  }

  lemma PartsSound(db: Db)
    requires WellParented(db.releases) && HeadsRight(db) && CheckpointsRight(db.releases) && DeltasIndexed(db)
    ensures Sound(db)
  {
    hide WellParented, HeadsRight, CheckpointsRight, DeltasIndexed;
  }

  /** A release numbered after all of its ring keeps the numbering. */
  lemma OneMoreNumbered(rs: seq<Release>, r: Release)
    requires WellParented(rs) && WellParented(rs + [r]) && Numbered(rs) && UniqueNumbers(rs)
    requires forall i :: 0 <= i < |rs| && rs[i].ring == r.ring ==> rs[i].number < r.number
    requires r.parent.Some? ==> r.parent.value < |rs| && r.number == rs[r.parent.value].number + 1
    requires r.parent.None? ==> r.number == 1
    ensures Numbered(rs + [r]) && UniqueNumbers(rs + [r])
  {
    var rs' := rs + [r];
    assert rs'[|rs|] == r && forall i :: 0 <= i < |rs| ==> rs'[i] == rs[i];
  }

  /** The checkpoint rule keeps a checkpoint within reach of the new release. */
  lemma OneMoreDistance(rs: seq<Release>, r: Release)
    requires WellParented(rs) && WellParented(rs + [r]) && Numbered(rs) && UniqueNumbers(rs) && Checkpointed(rs)
    requires r.parent.Some? ==> && r.parent.value < |rs| && rs[r.parent.value].ring == r.ring
                                && r.number == rs[r.parent.value].number + 1
    requires forall i :: 0 <= i < |rs| && rs[i].ring == r.ring ==> rs[i].number < r.number
    requires r.checkpoint.None? ==> r.parent.Some? && r.number - MaxNumber(rs, r.ring, true) < CHECKPOINT_EVERY
    ensures Checkpointed(rs + [r])
  {
    hide MaxNumber, Numbered, UniqueNumbers;
    var rs', n := rs + [r], |rs|;
    assert rs'[n] == r && forall i :: 0 <= i < |rs| ==> rs'[i] == rs[i];
    forall i | 0 <= i < n ensures Distance(rs', i).Some? && Distance(rs', i).value <= Distance(rs, i).value {
      DistanceShrinks(rs, rs', i);
    }
    if r.checkpoint.None? {
      var p := r.parent.value;
      var c := CheckpointExists(rs, p);
      FirstIsOne(rs, c);
      var last := MaxNumber(rs, r.ring, true);
      var k :| 0 <= k < n && rs[k].ring == r.ring && rs[k].number == last && rs[k].checkpoint.Some?;
      NearestCheckpoint(rs, p, k);
    }
  }

  lemma FirstIsOne(rs: seq<Release>, i: nat)
    requires WellParented(rs) && Numbered(rs) && i < |rs|
    ensures rs[i].number >= 1
  {
    assert rs[i].parent == rs[i].parent;
  }

  lemma AppendIsNewest(db: Db, ring: Ring, source: Option<nat>, target: set<Sha>)
    requires Inv(db)
    ensures var db' := Append(db, ring, source, target);
            var r := db'.releases[|db.releases|];
            && db'.releases == db.releases + [r] && r.ring == ring && r.parent == db.Parent(ring)
            && (forall i :: 0 <= i < |db.releases| && db.releases[i].ring == ring ==> db.releases[i].number < r.number)
            && (r.parent.Some? ==> r.number == db.releases[r.parent.value].number + 1)
            && (r.parent.None? ==> r.number == 1)
            && HeadsNewest(db')
  {
    hide MaxNumber, Distance, Delta, Apply, Members, DeltasIndexed, CheckpointsRight, Numbered, UniqueNumbers,
      Checkpointed, WellParented;
    var db' := Append(db, ring, source, target);
    var n := |db.releases|;
    var r := db'.releases[n];
    AppendNumbers(db, ring);
    forall i | 0 <= i < n && db.releases[i].ring == ring ensures db.releases[i].number < r.number {
      assert AtMostHead(db, i);
    }
    forall i | 0 <= i <= n ensures AtMostHead(db', i) {
      if i < n { assert AtMostHead(db, i); }
    }
  }

  lemma AppendChained(db: Db, ring: Ring, source: Option<nat>, target: set<Sha>)
    requires Inv(db)
    ensures WellParented(Append(db, ring, source, target).releases) && Chained(Append(db, ring, source, target))
  {
    hide Distance, Members, DeltasIndexed, CheckpointsRight, Numbered, UniqueNumbers, Checkpointed, HeadsNewest;
    var rs := db.releases;
    var db' := Append(db, ring, source, target);
    var r := db'.releases[|rs|];
    Appended(db, ring, source, target);
    AppendIsNewest(db, ring, source, target);
    OneMoreNumbered(rs, r);
    AppendRule(db, ring, source, target);
    OneMoreDistance(rs, r);
  }

  /** A release without a checkpoint has a parent, and the ring's last checkpoint is fewer than 24 numbers back. */
  lemma AppendRule(db: Db, ring: Ring, source: Option<nat>, target: set<Sha>)
    ensures var r := Append(db, ring, source, target).releases[|db.releases|];
            r.checkpoint.None? ==> r.parent.Some? && r.number - MaxNumber(db.releases, ring, true) < CHECKPOINT_EVERY
  {
    hide MaxNumber, Delta, Apply;
  }

  /** Appending a release of indexed packages keeps every invariant of the index. */
  lemma AppendKeeps(db: Db, ring: Ring, source: Option<nat>, target: set<Sha>)
    requires Inv(db) && target <= db.index.Keys
    ensures var db' := Append(db, ring, source, target);
            && Inv(db') && Continues(db.releases, db'.releases) && |db'.releases| == |db.releases| + 1
            && db'.Live(ring) == target && (forall r :: r != ring ==> db'.Live(r) == db.Live(r))
  {
    AppendSound(db, ring, source, target);
    AppendChained(db, ring, source, target);
    hide Chained, DeltasIndexed, CheckpointsRight, Members, Append;
    Appended(db, ring, source, target);
  }
}
