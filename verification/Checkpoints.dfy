/** Reconstructing a release that is not a checkpoint (`worker/src/db.ts`). */
module Checkpoints {
  import opened Common
  import opened Releases
  import opened Creation

  datatype Failure = NoSuchRelease | NoCheckpointBehind | TooFar

  /** Applying a release's delta rows in any order gives its membership: one row per package. */
  method ApplyRows(base: set<Sha>, deltas: map<Sha, Op>) returns (ids: set<Sha>)
    ensures ids == Apply(base, deltas)
  {
    ids := base;
    var rows := deltas.Keys;
    while rows != {}
      invariant rows <= deltas.Keys
      invariant forall p :: p in ids <==>
        if p in deltas && p !in rows then deltas[p] == Add else p in base
      decreases rows
    {
      var p :| p in rows;
      ids := if deltas[p] == Op.Remove then ids - {p} else ids + {p};
      rows := rows - {p};
    }
  }

  predicate Reachable(db: Db, id: nat)
    requires WellParented(db.releases)
  {
    && id < |db.releases|
    && (db.releases[id].checkpoint.Some? || db.IsHead(id)
        || (Distance(db.releases, id).Some? && Distance(db.releases, id).value <= 95))
  }

  /** The tables the index keeps, updated in place. */
  class Index {
    var db: Db

    constructor (start: Db)
      ensures db == start
    {
      db := start;
    }

    /**
     * Writes out the release's membership. It fails, changing nothing, exactly for
     * a release that does not exist, or is neither a checkpoint nor a head and has
     * no checkpoint within 95 parents.
     */
    method EnsureCheckpoint(id: nat) returns (r: Result<(), Failure>)
      requires Sound(db)
      modifies this
      ensures r.Ok? ==> id < |old(db).releases| && db == old(db).(releases := Materialise(old(db).releases, id))
      ensures r.Err? ==> db == old(db)
      ensures r.Ok? <==> Reachable(old(db), id)
    {
      var rs := db.releases;
      if id >= |rs| {
        return Err(Failure.NoSuchRelease);
      }
      if rs[id].checkpoint.Some? {
        return Ok(());
      }
      var head := db.IsHead(id);
      var chain: seq<nat>, cur: nat := [id], id;
      while rs[cur].checkpoint.None? && !head
        invariant db == old(db) && |chain| > 0 && chain[|chain| - 1] == cur && chain[0] == id
        invariant forall k :: 0 <= k < |chain| ==> chain[k] < |rs|
        invariant forall k :: 0 <= k < |chain| - 1 ==> rs[chain[k]].parent == Some(chain[k + 1])
        invariant |chain| <= 4 * CHECKPOINT_EVERY
        invariant Distance(rs, id) ==
          match Distance(rs, cur) { case Some(d) => Some(d + |chain| - 1) case None => None }
        decreases cur
      {
        if rs[cur].parent.None? {
          return Err(NoCheckpointBehind);
        }
        cur := rs[cur].parent.value;
        chain := chain + [cur];
        if |chain| > 4 * CHECKPOINT_EVERY {
          return Err(TooFar);
        }
      }
      var ids: set<Sha>;
      if head {
        ids := db.Live(rs[id].ring);
        assert db.heads[rs[id].ring] == id && ids == Members(rs, id);
      } else {
        ids := rs[cur].checkpoint.value;
        var k := |chain| - 1;
        while k > 0
          invariant 0 <= k < |chain|
          invariant db == old(db) && ids == Members(rs, chain[k])
        {
          k := k - 1;
          ids := ApplyRows(ids, rs[chain[k]].deltas);
        }
      }
      assert ids == Members(rs, id);
      db := db.(releases := rs[id := rs[id].(checkpoint := Some(ids))]);
      r := Ok(());
    }

    /** A head's members are the ring's live rows; any other release is materialised first. */
    method ReleaseMembers(id: nat) returns (r: Result<set<Sha>, Failure>)
      requires Inv(db)
      modifies this
      ensures Inv(db)
      ensures r.Ok? <==> id < |old(db).releases|
      ensures r.Ok? ==> r.value == Members(old(db).releases, id)
      ensures db == old(db) || (id < |old(db).releases|
        && db == old(db).(releases := Materialise(old(db).releases, id)))
    {
      if db.IsHead(id) {
        return Ok(db.Live(db.releases[id].ring));
      }
      var done := EnsureCheckpoint(id);
      if done.Err? {
        return Err(done.error);
      }
      MaterialiseKeeps(old(db), id);
      r := Ok(db.releases[id].checkpoint.value);
    }
  }
}
