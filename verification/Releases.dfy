/**
 * The release index: append-only releases stored as deltas with checkpoints, one
 * live selection per ring, and the request that creates a release - a sync's
 * pins, a promotion or a rollback.
 */
module Releases {
  import opened Common

  type Sha = string

  datatype Ring = Edge | Rc | Stable

  datatype Arch = X86_64 | Aarch64 {
    function Other(): Arch { if this == X86_64 then Aarch64 else X86_64 }
  }

  /**
   * One indexed package; `Key` is what a ring holds one row of. Rows are numbered in
   * the order they were indexed; a stale row is marked as naming no stored object.
   */
  datatype Row = Row(id: nat, source: string, name: string, version: string, arch: Arch, filename: string,
    stale: bool) {
    function Key(): (string, string, Arch) { (source, name, arch) }
  }

  datatype Op = Add | Remove

  datatype Release = Release(
    ring: Ring, number: nat, parent: Option<nat>, source: Option<nat>,
    deltas: map<Sha, Op>, checkpoint: Option<set<Sha>>)

  /** A release's id is its position in `releases`. */
  datatype Db = Db(index: map<Sha, Row>, releases: seq<Release>, heads: map<Ring, nat>, live: map<Ring, set<Sha>>) {
    function Live(ring: Ring): set<Sha> { if ring in live then live[ring] else {} }

    predicate IsHead(id: nat) {
      id < |releases| && releases[id].ring in heads && heads[releases[id].ring] == id
    }

    function Parent(ring: Ring): Option<nat> { if ring in heads then Some(heads[ring]) else None }
  }

  const CHECKPOINT_EVERY := 24

  // ---------- membership ----------

  function Apply(base: set<Sha>, deltas: map<Sha, Op>): set<Sha> {
    (base - (set p | p in deltas && deltas[p] == Remove)) + (set p | p in deltas && deltas[p] == Add)
  }

  predicate WellParented(rs: seq<Release>) {
    forall i {:trigger rs[i].parent} :: 0 <= i < |rs| && rs[i].parent.Some? ==>
      rs[i].parent.value < i && rs[rs[i].parent.value].ring == rs[i].ring
  }

  /** What a release holds: its parent's members with its deltas applied. */
  function Members(rs: seq<Release>, id: nat): set<Sha>
    requires WellParented(rs) && id < |rs|
    decreases id
  {
    Apply(if rs[id].parent.Some? then Members(rs, rs[id].parent.value) else {}, rs[id].deltas)
  }

  /** Parent steps from a release to the nearest checkpoint behind it. */
  function Distance(rs: seq<Release>, id: nat): Option<nat>
    requires WellParented(rs) && id < |rs|
    decreases id
  {
    if rs[id].checkpoint.Some? then Some(0)
    else if rs[id].parent.None? then None
    else match Distance(rs, rs[id].parent.value)
      case Some(d) => Some(d + 1)
      case None => None
  }

  // ---------- invariants ----------

  ghost predicate HeadsRight(db: Db)
    requires WellParented(db.releases)
  {
    && (forall r :: r in db.heads ==>
          db.heads[r] < |db.releases| && db.releases[db.heads[r]].ring == r
            && db.Live(r) == Members(db.releases, db.heads[r]))
    && (forall r :: r !in db.heads ==> db.Live(r) == {})
  }

  ghost predicate CheckpointsRight(rs: seq<Release>)
    requires WellParented(rs)
  {
    forall i :: 0 <= i < |rs| && rs[i].checkpoint.Some? ==> rs[i].checkpoint.value == Members(rs, i)
  }

  ghost predicate DeltasIndexed(db: Db) {
    forall i, p :: 0 <= i < |db.releases| && p in db.releases[i].deltas && db.releases[i].deltas[p] == Add ==>
      p in db.index
  }

  /** Stored selections are the recursive membership; nothing is served that is not indexed. */
  ghost predicate Sound(db: Db) {
    WellParented(db.releases) && HeadsRight(db) && CheckpointsRight(db.releases) && DeltasIndexed(db)
  }

  ghost predicate Numbered(rs: seq<Release>)
    requires WellParented(rs)
  {
    forall i {:trigger rs[i].parent} :: 0 <= i < |rs| ==>
      rs[i].number == if rs[i].parent.Some? then rs[rs[i].parent.value].number + 1 else 1
  }

  ghost predicate UniqueNumbers(rs: seq<Release>) {
    forall i, j | 0 <= i < |rs| && 0 <= j < |rs| && rs[i].ring == rs[j].ring && rs[i].number == rs[j].number :: i == j
  }

  /** The ring of release `i` has a head, numbered no lower than `i`. */
  ghost predicate AtMostHead(db: Db, i: nat)
    requires i < |db.releases|
  {
    var r := db.releases[i].ring;
    r in db.heads && db.heads[r] < |db.releases| && db.releases[i].number <= db.releases[db.heads[r]].number
  }

  ghost predicate HeadsNewest(db: Db) {
    forall i :: 0 <= i < |db.releases| ==> AtMostHead(db, i)
  }

  ghost predicate Checkpointed(rs: seq<Release>)
    requires WellParented(rs)
  {
    forall i :: 0 <= i < |rs| ==> Distance(rs, i).Some? && Distance(rs, i).value < CHECKPOINT_EVERY
  }

  /** Every ring's releases are one chain numbered from 1, checkpointed at least every 24. */
  ghost predicate Chained(db: Db)
    requires WellParented(db.releases)
  {
    Numbered(db.releases) && UniqueNumbers(db.releases) && HeadsNewest(db) && Checkpointed(db.releases)
  }

  ghost predicate Inv(db: Db) {
    Sound(db) && Chained(db)
  }

  const EMPTY := Db(map[], [], map[], map[])

  lemma {:induction false} MembersIndexed(db: Db, id: nat)
    requires Sound(db) && id < |db.releases|
    ensures Members(db.releases, id) <= db.index.Keys
    decreases id
  {
    var r := db.releases[id];
    if r.parent.Some? {
      MembersIndexed(db, r.parent.value);
    }
  }

  lemma LiveIndexed(db: Db, ring: Ring)
    requires Sound(db)
    ensures db.Live(ring) <= db.index.Keys
  {
    if ring in db.heads {
      MembersIndexed(db, db.heads[ring]);
    }
  }

  /** A release without its checkpoint: the part that never changes. */
  function Fixed(r: Release): Release { r.(checkpoint := None) }

  /** History only grows: no release changes its ring, number, parent, source or deltas. */
  predicate Continues(old_: seq<Release>, new_: seq<Release>) {
    |old_| <= |new_| && forall i :: 0 <= i < |old_| ==> Fixed(new_[i]) == Fixed(old_[i])
  }

  lemma {:induction false} MembersContinue(old_: seq<Release>, new_: seq<Release>, id: nat)
    requires WellParented(old_) && WellParented(new_) && Continues(old_, new_) && id < |old_|
    ensures Members(new_, id) == Members(old_, id)
    decreases id
  {
    assert Fixed(new_[id]) == Fixed(old_[id]);
    if old_[id].parent.Some? {
      MembersContinue(old_, new_, old_[id].parent.value);
    }
  }

  // ---------- materialising a checkpoint ----------

  /** The release's membership written out (what `ensureCheckpoint` must leave behind). */
  function Materialise(rs: seq<Release>, id: nat): seq<Release>
    requires WellParented(rs) && id < |rs|
  {
    if rs[id].checkpoint.Some? then rs else rs[id := rs[id].(checkpoint := Some(Members(rs, id)))]
  }

  lemma MaterialiseContinues(rs: seq<Release>, id: nat)
    requires WellParented(rs) && id < |rs|
    ensures var rs' := Materialise(rs, id);
            && WellParented(rs') && |rs'| == |rs| && Continues(rs, rs')
            && forall i :: 0 <= i < |rs| ==> Members(rs', i) == Members(rs, i)
  {
    var rs' := Materialise(rs, id);
    forall i | 0 <= i < |rs| ensures Fixed(rs'[i]) == Fixed(rs[i]) {}
    forall i | 0 <= i < |rs| ensures rs'[i].parent == rs[i].parent && rs'[i].ring == rs[i].ring {
      assert Fixed(rs'[i]) == Fixed(rs[i]);
    }
    forall i | 0 <= i < |rs| ensures Members(rs', i) == Members(rs, i) {
      MembersContinue(rs, rs', i);
    }
  }

  lemma {:induction false} DistanceShrinks(rs: seq<Release>, rs': seq<Release>, id: nat)
    requires WellParented(rs) && WellParented(rs') && |rs| <= |rs'| && id < |rs|
    requires forall i :: 0 <= i < |rs| ==>
      rs'[i].parent == rs[i].parent && (rs[i].checkpoint.Some? ==> rs'[i].checkpoint.Some?)
    requires Distance(rs, id).Some?
    ensures Distance(rs', id).Some? && Distance(rs', id).value <= Distance(rs, id).value
    decreases id
  {
    if rs[id].checkpoint.None? {
      DistanceShrinks(rs, rs', rs[id].parent.value);
    }
  }

  lemma ContinuesShape(rs: seq<Release>, rs': seq<Release>, i: nat)
    requires Continues(rs, rs') && i < |rs|
    ensures rs'[i].ring == rs[i].ring && rs'[i].number == rs[i].number && rs'[i].parent == rs[i].parent
    ensures rs'[i].deltas == rs[i].deltas
  {
    assert Fixed(rs'[i]) == Fixed(rs[i]);
  }

  lemma MaterialiseKeepsSound(db: Db, id: nat)
    requires Sound(db) && id < |db.releases|
    ensures Sound(db.(releases := Materialise(db.releases, id)))
  {
    var rs := db.releases;
    var rs' := Materialise(rs, id);
    MaterialiseContinues(rs, id);
    hide Members;
    var db' := db.(releases := rs');
    assert DeltasIndexed(db') by {
      forall i | 0 <= i < |rs| ensures rs'[i].deltas == rs[i].deltas { ContinuesShape(rs, rs', i); }
    }
    assert HeadsRight(db') by {
      forall r | r in db.heads
        ensures rs'[db.heads[r]].ring == r && db'.Live(r) == Members(rs', db.heads[r])
      {
        ContinuesShape(rs, rs', db.heads[r]);
        assert db'.Live(r) == db.Live(r);
      }
      forall r | r !in db.heads ensures db'.Live(r) == {} {
        assert db'.Live(r) == db.Live(r);
      }
    }
  }

  lemma MaterialiseKeepsChained(db: Db, id: nat)
    requires WellParented(db.releases) && Chained(db) && id < |db.releases|
    ensures WellParented(Materialise(db.releases, id)) && Chained(db.(releases := Materialise(db.releases, id)))
  {
    var rs := db.releases;
    var rs' := Materialise(rs, id);
    MaterialiseContinues(rs, id);
    hide Members, Distance;
    forall i {:trigger rs'[i].parent} | 0 <= i < |rs| ensures rs'[i].parent == rs[i].parent {
      ContinuesShape(rs, rs', i);
    }
    forall i | 0 <= i < |rs| ensures rs'[i].ring == rs[i].ring && rs'[i].number == rs[i].number {
      ContinuesShape(rs, rs', i);
    }
    forall i | 0 <= i < |rs| ensures AtMostHead(db.(releases := rs'), i) {
      assert AtMostHead(db, i);
    }
    forall i | 0 <= i < |rs| ensures Distance(rs', i).Some? && Distance(rs', i).value < CHECKPOINT_EVERY {
      DistanceShrinks(rs, rs', i);
    }
  }

  /** Materialising keeps every invariant, every membership and all else in the index; it is idempotent. */
  lemma MaterialiseKeeps(db: Db, id: nat)
    requires Inv(db) && id < |db.releases|
    ensures var rs' := Materialise(db.releases, id);
            && Inv(db.(releases := rs')) && Continues(db.releases, rs')
            && rs'[id].checkpoint == Some(Members(db.releases, id))
            && Materialise(rs', id) == rs'
  {
    MaterialiseContinues(db.releases, id);
    MaterialiseKeepsSound(db, id);
    MaterialiseKeepsChained(db, id);
  }
}
