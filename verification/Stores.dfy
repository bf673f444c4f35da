/** What the pool stores for the rows a sync pins: exactly when pins and filename answers are right. */
module Stores {
  import opened Sync
  import opened SyncLaws
  import opened SyncPool
  import opened Leftovers

  /** What a run is about to import. */
  ghost function Listed(w: World, o: Options, ups: seq<Upstream>): seq<Upstream> {
    Limited(o, Missing(w, o, Wanted(w, o, ups)))
  }

  /** No package a run imports is registered over other bytes, which can be told before the run. */
  ghost predicate NoLeftover(w: World, o: Options, ups: seq<Upstream>, downloads: map<string, Download>) {
    var ps := Listed(w, o, ups);
    forall i :: 0 <= i < |ps| ==> !Misplaces(w, o, ps, downloads, i)
  }

  /** ... or none whose row is the first written for its filename. */
  ghost predicate NoneAnswersWrong(w: World, o: Options, ups: seq<Upstream>, downloads: map<string, Download>) {
    var ps := Listed(w, o, ups);
    forall i :: 0 <= i < |ps| ==> !(Misplaces(w, o, ps, downloads, i) && Answers(w, o, ps, downloads, i))
  }

  // ---------- what is pinned is stored ----------

  /**
   * Every sha a run pins is the sha of the object the pool stores under its filename -
   * known, imported or reused for a collision - exactly when each row that was known is
   * the first to name its filename and no import is registered over other bytes.
   */
  lemma PinsAreStored(w: World, o: Options, ups: seq<Upstream>, downloads: map<string, Download>)
    requires RowsDistinct(w.db.index) && AnswersStored(w)
    ensures var out := Run(w, o, ups, downloads);
            (forall p :: p in out.add ==> StoredAsIndexed(out.world, p))
            <==> && (forall p :: PinnedKnown(w, o, Wanted(w, o, ups), p) ==>
              FirstNamed(w.db.index, p.sha, KeyOf(w.db.index[p.sha])))
                 && NoLeftover(w, o, ups, downloads)
  {
    var out := Run(w, o, ups, downloads);
    var wanted := Wanted(w, o, ups);
    PinsAreKnown(w, o, ups, downloads);
    ImportsAreStored(w, o, ups, downloads);
    forall p | PinnedKnown(w, o, wanted, p)
      ensures p.sha in out.add
        && (StoredAsIndexed(out.world, p.sha) <==> FirstNamed(w.db.index, p.sha, KeyOf(w.db.index[p.sha])))
    {
      RowIsStored(w, out.world, p.sha);
    }
    forall x | x in Reuse(w, o, wanted) ensures StoredAsIndexed(out.world, x) {
      ReuseIsStored(w, o, wanted, x);
      StaysStored(w, out.world, x);
    }
    PinsComeFrom(w, o, ups, downloads);
    hide *;
  }

  /** The rows a run adds are stored as they say exactly when none was written over other bytes. */
  lemma ImportsAreStored(w: World, o: Options, ups: seq<Upstream>, downloads: map<string, Download>)
    requires AnswersStored(w)
    ensures var out := Run(w, o, ups, downloads);
            (forall x :: x in out.world.db.index && x !in w.db.index ==> StoredAsIndexed(out.world, x))
            <==> NoLeftover(w, o, ups, downloads)
  {
    var ps := Listed(w, o, ups);
    AnsweredIsHeld(w);
    ImportAllStored(w, o, ps, downloads);
    NoLeftoverTold(w, o, ps, downloads);
    hide ImportAll, Missing, Wanted, Limited, Pins, Dropped, Current, StoredAsIndexed, Misplaces, NoneOverLeftover;
  }

  /** A pin was known, or its row is new, or it is reused for a collision; and every new row is pinned. */
  lemma PinsComeFrom(w: World, o: Options, ups: seq<Upstream>, downloads: map<string, Download>)
    ensures var out := Run(w, o, ups, downloads);
            && (forall x :: x in out.world.db.index && x !in w.db.index ==> x in out.add)
            && forall x :: x in out.add ==>
              || (exists p :: PinnedKnown(w, o, Wanted(w, o, ups), p) && p.sha == x)
              || (x in out.world.db.index && x !in w.db.index)
              || x in Reuse(w, o, Wanted(w, o, ups))
  {
    var wanted := Wanted(w, o, ups);
    var out := Run(w, o, ups, downloads);
    var done := ImportAll(w, o, Limited(o, Missing(w, o, wanted)), downloads).1;
    forall p | p in done ensures p.sha in out.add && p.sha in out.world.db.index && p.sha !in w.db.index {
      ImportedRow(w, o, ups, downloads, p);
    }
    forall x | x in out.world.db.index && x !in w.db.index ensures exists p :: p in done && p.sha == x {
      AddedAreDone(w, o, Limited(o, Missing(w, o, wanted)), downloads, x);
    }
    hide ImportAll, Missing, Wanted, Limited, Reuse, Colliding, Dropped, Current, Known;
    forall x | x in out.add && x !in Reuse(w, o, wanted)
      ensures (exists p :: PinnedKnown(w, o, wanted, p) && p.sha == x) || (exists p :: p in done && p.sha == x)
    {
      var p :| p in wanted && p.sha == x && (Known(w.db, o.arch, p.sha) || p.sha in Shas(done))
        && p.filename !in Colliding(w, o, wanted);
      if Known(w.db, o.arch, p.sha) { assert PinnedKnown(w, o, wanted, p); }
    }
  }

  /**
   * Over every run: the index's answers for filenames stay what the pool stores, exactly
   * when no row is written over other bytes that is the first for its filename.
   */
  lemma PoolStaysRight(w: World, o: Options, ups: seq<Upstream>, downloads: map<string, Download>)
    requires RowsOrdered(w.db.index) && AnswersStored(w)
    ensures var out := Run(w, o, ups, downloads);
            RowsOrdered(out.world.db.index) && (AnswersStored(out.world) <==> NoneAnswersWrong(w, o, ups, downloads))
  {
    var ps := Listed(w, o, ups);
    AnsweredIsHeld(w);
    ImportAllNumbers(w, o, ps, downloads);
    ImportAllAnswers(w, o, ps, downloads);
    NoneSpoilsTold(w, o, ps, downloads);
    assert Run(w, o, ups, downloads).world == ImportAll(w, o, ps, downloads).0 by { hide ImportAll, Pins, Dropped; }
    hide *;
    NoneWrongIs(w, o, ups, downloads);
  }

  lemma NoneWrongIs(w: World, o: Options, ups: seq<Upstream>, downloads: map<string, Download>)
    ensures var ps := Listed(w, o, ups);
            NoneAnswersWrong(w, o, ups, downloads)
            <==> forall i :: 0 <= i < |ps| ==> !(Misplaces(w, o, ps, downloads, i) && Answers(w, o, ps, downloads, i))
  {
    hide Listed, Misplaces, Answers;
  }
}
