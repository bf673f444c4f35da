/**
 * What imports do to the pool: which are accepted over an object left under their filename,
 * what that does to the index's answers, and how to tell before the imports run.
 */
module Leftovers {
  import opened Common
  import opened Releases
  import opened Sync
  import opened SyncLaws
  import opened SyncPool
  import opened Import

  // ---------- one import ----------

  /**
   * The import registers `p` over other bytes that lie under its filename: only the size is
   * compared, and a signature only with the checksum of an object that has one.
   */
  predicate AcceptsLeftover(w: World, o: Options, p: Upstream, d: Download) {
    && !Refused(p, d) && p.sha !in w.db.index
    && KeyFor(o, p) in w.objects && w.objects[KeyFor(o, p)].sha != p.sha && w.objects[KeyFor(o, p)].size == p.size
    && (d.Unsigned? || !w.objects[KeyFor(o, p)].hashed)
  }

  /** The pool holds nothing but the package's own bytes under its filename. */
  predicate FreeOrSame(w: World, o: Options, p: Upstream) {
    KeyFor(o, p) in w.objects ==> w.objects[KeyFor(o, p)].sha == p.sha
  }

  lemma LeftoverIs(w: World, o: Options, p: Upstream, d: Download)
    requires !Known(w.db, o.arch, p.sha)
    ensures AcceptsLeftover(w, o, p, d) <==> Succeeds(w, o, p, d) && !FreeOrSame(w, o, p)
  {
    hide PackageFilename;
  }

  /** One package about to be imported, and the pool it meets. */
  datatype Attempt = Attempt(world: World, o: Options, p: Upstream, d: Download)

  predicate OverLeftover(a: Attempt) { AcceptsLeftover(a.world, a.o, a.p, a.d) }

  /** The leftover's filename had no answer yet: from now on it answers with bytes it does not hold. */
  ghost predicate Spoils(a: Attempt) {
    OverLeftover(a) && ByFilename(a.world.db.index, KeyFor(a.o, a.p)).None?
  }

  ghost predicate NoneSpoils(attempts: seq<Attempt>) {
    forall a :: a in attempts ==> !Spoils(a)
  }

  predicate NoneOverLeftover(attempts: seq<Attempt>) {
    forall a :: a in attempts ==> !OverLeftover(a)
  }

  /** Every key a row says holds an object holds some object. */
  predicate RowsHeld(w: World) {
    forall x :: x in w.db.index && !w.db.index[x].stale ==> KeyOf(w.db.index[x]) in w.objects
  }

  /** Every indexed row's bytes are stored under its filename. */
  predicate AllStored(w: World) {
    forall x :: x in w.db.index ==> StoredAsIndexed(w, x)
  }

  /** ... and those of the rows added since `w`. */
  predicate NewStored(w: World, w': World) {
    forall x :: x in w'.db.index && x !in w.db.index ==> StoredAsIndexed(w', x)
  }

  lemma AnsweredIsHeld(w: World)
    requires AnswersStored(w)
    ensures RowsHeld(w)
  {
    forall x | x in w.db.index && !w.db.index[x].stale ensures KeyOf(w.db.index[x]) in w.objects {
      FirstNamedExists(w.db.index, x, KeyOf(w.db.index[x]));
    }
  }

  /** The one row an import may add, and what it answers for. */
  lemma ImportOneAdds(w: World, o: Options, p: Upstream, d: Download)
    ensures var w' := ImportOne(w, o, p, d).0;
            && (forall x :: x in w'.db.index && x !in w.db.index ==> x == p.sha)
            && (p.sha !in w.db.index && p.sha in w'.db.index ==>
                  && w'.db.index[p.sha] == NewRow(w, o, p) && KeyFor(o, p) in w'.objects
                  && (AcceptsLeftover(w, o, p, d) <==> w'.objects[KeyFor(o, p)].sha != p.sha))
            && (AcceptsLeftover(w, o, p, d) ==> p.sha !in w.db.index && p.sha in w'.db.index)
  {
    hide PackageFilename;
  }

  lemma ImportOneHolds(w: World, o: Options, p: Upstream, d: Download)
    requires RowsHeld(w)
    ensures RowsHeld(ImportOne(w, o, p, d).0)
  {
    ImportOneAdds(w, o, p, d);
    ImportOneGrows(w, o, p, d);
    hide ImportOne, AcceptsLeftover;
  }

  /** A row that was there is stored as before; the new one is unless it was accepted over a leftover. */
  lemma ImportOneStored(w: World, o: Options, p: Upstream, d: Download)
    requires RowsHeld(w)
    ensures var w' := ImportOne(w, o, p, d).0;
            && (forall x :: x in w.db.index ==> (StoredAsIndexed(w', x) <==> StoredAsIndexed(w, x)))
            && (forall x :: x in w'.db.index && x !in w.db.index ==>
                  (StoredAsIndexed(w', x) <==> !AcceptsLeftover(w, o, p, d)))
            && (AcceptsLeftover(w, o, p, d) ==> p.sha in w'.db.index && p.sha !in w.db.index)
  {
    ImportOneAdds(w, o, p, d);
    ImportOneGrows(w, o, p, d);
    hide ImportOne, AcceptsLeftover;
  }

  /** Whose answer changes when a row is added: that of its own filename, if it had none. */
  lemma AnswersWithRow(index: map<Sha, Row>, x: Sha, row: Row, key: ObjectKey)
    requires RowsOrdered(index) && x !in index && row.id == |index|
    ensures var answer := ByFilename(index, key);
            ByFilename(index[x := row], key) ==
              if answer.Some? then answer else if !row.stale && KeyOf(row) == key then Some(x) else None
  {
    var index' := index[x := row];
    OneMoreRow(index, x, row);
    if ByFilename(index, key).Some? {
      var p :| FirstNamed(index, p, key) && ByFilename(index, key) == Some(p);
      forall r | r in index' && Names(index', r, key) ensures index'[p].id <= index'[r].id {
        if r != x { assert Names(index, r, key); }
      }
      ByFilenameUnique(index', p, key);
    } else {
      forall r | r in index ensures !Names(index, r, key) {
        if Names(index, r, key) { FirstNamedExists(index, r, key); }
      }
      if !row.stale && KeyOf(row) == key {
        assert FirstNamed(index', x, key);
        ByFilenameUnique(index', x, key);
      }
    }
  }

  lemma AnswerIsHeld(w: World, key: ObjectKey)
    requires RowsHeld(w)
    ensures ByFilename(w.db.index, key).Some? ==> key in w.objects
  {
    if x :| FirstNamed(w.db.index, x, key) && ByFilename(w.db.index, key) == Some(x) {
      assert KeyOf(w.db.index[x]) == key;
    }
  }

  lemma ImportOneAnswer(w: World, o: Options, p: Upstream, d: Download, key: ObjectKey)
    requires RowsOrdered(w.db.index) && RowsHeld(w)
    ensures var w' := ImportOne(w, o, p, d).0;
            AnswerStored(w', key) <==>
              AnswerStored(w, key) && !(Spoils(Attempt(w, o, p, d)) && key == KeyFor(o, p))
  {
    var w' := ImportOne(w, o, p, d).0;
    ImportOneAdds(w, o, p, d);
    ImportOneGrows(w, o, p, d);
    AnswerIsHeld(w, key);
    if w'.db.index != w.db.index {
      assert w'.db.index == w.db.index[p.sha := NewRow(w, o, p)];
      AnswersWithRow(w.db.index, p.sha, NewRow(w, o, p), key);
    }
    hide ImportOne, AcceptsLeftover, RowsOrdered, FirstNamed, ByFilename, RowsHeld;
  }

  lemma ImportOneAnswers(w: World, o: Options, p: Upstream, d: Download)
    requires RowsOrdered(w.db.index) && RowsHeld(w)
    ensures AnswersStored(ImportOne(w, o, p, d).0) <==> AnswersStored(w) && !Spoils(Attempt(w, o, p, d))
  {
    var w' := ImportOne(w, o, p, d).0;
    AnswersAre(w);
    AnswersAre(w');
    forall key ensures AnswerStored(w', key)
      <==> AnswerStored(w, key) && !(Spoils(Attempt(w, o, p, d)) && key == KeyFor(o, p)) {
      ImportOneAnswer(w, o, p, d, key);
    }
    assert AnswerStored(w', KeyFor(o, p)) ==> !Spoils(Attempt(w, o, p, d));
    hide ImportOne, AnswerStored, AnswersStored, Spoils;
  }

  // ---------- imports in order ----------

  /** The imports of a list, each with the pool it meets. */
  ghost function Imports(w: World, o: Options, ps: seq<Upstream>, downloads: map<string, Download>): seq<Attempt> {
    if ps == [] then []
    else
      var front, p := ps[..|ps| - 1], ps[|ps| - 1];
      Imports(w, o, front, downloads) + [Attempt(ImportAll(w, o, front, downloads).0, o, p, FetchOf(downloads, p))]
  }

  lemma {:induction false} ImportAllHolds(w: World, o: Options, ps: seq<Upstream>, downloads: map<string, Download>)
    requires RowsHeld(w)
    ensures RowsHeld(ImportAll(w, o, ps, downloads).0)
  {
    if ps != [] {
      var n := |ps| - 1;
      ImportAllHolds(w, o, ps[..n], downloads);
      ImportOneHolds(ImportAll(w, o, ps[..n], downloads).0, o, ps[n], FetchOf(downloads, ps[n]));
      hide ImportOne, FetchOf, RowsHeld;
    }
  }

  /** The rows that were there are stored as before, the new ones unless one was accepted over a leftover. */
  lemma {:induction false} ImportAllStored(w: World, o: Options, ps: seq<Upstream>, downloads: map<string, Download>)
    requires RowsHeld(w)
    ensures var w' := ImportAll(w, o, ps, downloads).0;
            && (forall x :: x in w.db.index ==> (StoredAsIndexed(w', x) <==> StoredAsIndexed(w, x)))
            && (NewStored(w, w') <==> NoneOverLeftover(Imports(w, o, ps, downloads)))
            && (AllStored(w') <==> AllStored(w) && NoneOverLeftover(Imports(w, o, ps, downloads)))
  {
    if ps != [] {
      var n := |ps| - 1;
      var w1 := ImportAll(w, o, ps[..n], downloads).0;
      var d := FetchOf(downloads, ps[n]);
      ImportAllStored(w, o, ps[..n], downloads);
      ImportAllHolds(w, o, ps[..n], downloads);
      ImportAllGrows(w, o, ps[..n], downloads);
      OneMoreStored(w, w1, o, ps[n], d, Imports(w, o, ps[..n], downloads));
    }
    ImportAllGrows(w, o, ps, downloads);
    StoredParts(w, ImportAll(w, o, ps, downloads).0);
    hide *;
    if ps != [] { LastImport(w, o, ps, downloads); }
  }

  lemma LastImport(w: World, o: Options, ps: seq<Upstream>, downloads: map<string, Download>)
    requires ps != []
    ensures var front, p := ps[..|ps| - 1], ps[|ps| - 1];
            var w1 := ImportAll(w, o, front, downloads).0;
            && ImportAll(w, o, ps, downloads).0 == ImportOne(w1, o, p, FetchOf(downloads, p)).0
            && Imports(w, o, ps, downloads)
               == Imports(w, o, front, downloads) + [Attempt(w1, o, p, FetchOf(downloads, p))]
  {
    hide ImportOne, FetchOf;
  }

  lemma OneMoreStored(w: World, w1: World, o: Options, p: Upstream, d: Download, attempts: seq<Attempt>)
    requires RowsHeld(w1) && Grows(w, w1) && (NewStored(w, w1) <==> NoneOverLeftover(attempts))
    requires forall x :: x in w.db.index ==> (StoredAsIndexed(w1, x) <==> StoredAsIndexed(w, x))
    ensures var w2 := ImportOne(w1, o, p, d).0;
            && (forall x :: x in w.db.index ==> (StoredAsIndexed(w2, x) <==> StoredAsIndexed(w, x)))
            && (NewStored(w, w2) <==> NoneOverLeftover(attempts + [Attempt(w1, o, p, d)]))
  {
    var w2, a := ImportOne(w1, o, p, d).0, Attempt(w1, o, p, d);
    ImportOneStored(w1, o, p, d);
    ImportOneGrows(w1, o, p, d);
    assert OverLeftover(a) <==> AcceptsLeftover(w1, o, p, d);
    hide ImportOne, AcceptsLeftover, StoredAsIndexed, OverLeftover, RowsHeld;
    assert NoneOverLeftover(attempts + [a]) <==> NoneOverLeftover(attempts) && !OverLeftover(a) by {
      assert a in attempts + [a];
    }
    assert forall x :: x in w.db.index ==> x in w1.db.index;
    assert forall x :: x in w1.db.index ==> x in w2.db.index;
  }

  lemma StoredParts(w: World, w': World)
    requires Grows(w, w')
    requires forall x :: x in w.db.index ==> (StoredAsIndexed(w', x) <==> StoredAsIndexed(w, x))
    ensures AllStored(w') <==> AllStored(w) && NewStored(w, w')
  {
    hide StoredAsIndexed;
  }

  /** The answers stay right unless an import spoils one. */
  lemma {:induction false} ImportAllAnswers(w: World, o: Options, ps: seq<Upstream>, downloads: map<string, Download>)
    requires RowsOrdered(w.db.index) && RowsHeld(w)
    ensures AnswersStored(ImportAll(w, o, ps, downloads).0)
      <==> AnswersStored(w) && NoneSpoils(Imports(w, o, ps, downloads))
  {
    if ps != [] {
      hide *;
      var front, p := ps[..|ps| - 1], ps[|ps| - 1];
      var w1, d := ImportAll(w, o, front, downloads).0, FetchOf(downloads, p);
      ImportAllAnswers(w, o, front, downloads);
      ImportAllHolds(w, o, front, downloads);
      ImportAllNumbers(w, o, front, downloads);
      ImportOneAnswers(w1, o, p, d);
      LastImport(w, o, ps, downloads);
      OneMoreSpoils(Imports(w, o, front, downloads), Attempt(w1, o, p, d));
    }
  }

  lemma OneMoreSpoils(attempts: seq<Attempt>, a: Attempt)
    ensures NoneSpoils(attempts + [a]) <==> NoneSpoils(attempts) && !Spoils(a)
  {
    hide Spoils;
    assert a in attempts + [a];
  }

  lemma {:induction false} ImportsAre(w: World, o: Options, ps: seq<Upstream>, downloads: map<string, Download>)
    ensures |Imports(w, o, ps, downloads)| == |ps|
    ensures forall i :: 0 <= i < |ps| ==>
      Imports(w, o, ps, downloads)[i]
        == Attempt(ImportAll(w, o, ps[..i], downloads).0, o, ps[i], FetchOf(downloads, ps[i]))
  {
    hide ImportAll, FetchOf;
    if ps != [] {
      var front := ps[..|ps| - 1];
      ImportsAre(w, o, front, downloads);
      assert forall i :: 0 <= i < |front| ==> front[..i] == ps[..i];
    }
  }

  // ---------- told before the imports ----------

  /** The object that will lie under a key first: the stored one, or that of the first package uploaded there. */
  function Holder(w: World, o: Options, ps: seq<Upstream>, downloads: map<string, Download>,
      key: ObjectKey): Option<Object>
  {
    if key in w.objects then Some(w.objects[key])
    else if ps == [] then None
    else
      var n := |ps| - 1;
      var earlier := Holder(w, o, ps[..n], downloads, key);
      if earlier.Some? || KeyFor(o, ps[n]) != key || !Accepted(ps, downloads, n) then earlier else Some(ObjectOf(ps[n]))
  }

  /** The package's manifest is accepted over what will lie under its filename, and its bytes are new. */
  predicate Registers(w: World, o: Options, ps: seq<Upstream>, downloads: map<string, Download>, i: nat)
    requires i < |ps|
  {
    var holder := Holder(w, o, ps, downloads, KeyFor(o, ps[i]));
    && Accepted(ps, downloads, i) && ps[i].sha !in w.db.index
    && holder.Some? && TakenOver(holder.value, ps[i], FetchOf(downloads, ps[i]))
  }

  /** It is the first of its bytes, so its row is the one written. */
  predicate Writes(w: World, o: Options, ps: seq<Upstream>, downloads: map<string, Download>, i: nat)
    requires i < |ps|
  {
    && Registers(w, o, ps, downloads, i)
    && forall j :: 0 <= j < i && ps[j].sha == ps[i].sha ==> !Registers(w, o, ps, downloads, j)
  }

  /** Its row is written over other bytes. */
  predicate Misplaces(w: World, o: Options, ps: seq<Upstream>, downloads: map<string, Download>, i: nat)
    requires i < |ps|
  {
    Writes(w, o, ps, downloads, i) && Holder(w, o, ps, downloads, KeyFor(o, ps[i])).value.sha != ps[i].sha
  }

  /** Its row is the first written for a filename without an answer. */
  ghost predicate Answers(w: World, o: Options, ps: seq<Upstream>, downloads: map<string, Download>, i: nat)
    requires i < |ps|
  {
    && Writes(w, o, ps, downloads, i) && ByFilename(w.db.index, KeyFor(o, ps[i])).None?
    && forall j :: 0 <= j < i && ps[j].filename == ps[i].filename ==> !Writes(w, o, ps, downloads, j)
  }

  lemma {:induction false} HolderIs(w: World, o: Options, ps: seq<Upstream>, downloads: map<string, Download>,
      key: ObjectKey)
    ensures var w' := ImportAll(w, o, ps, downloads).0;
            Holder(w, o, ps, downloads, key) == if key in w'.objects then Some(w'.objects[key]) else None
  {
    if ps != [] {
      var n := |ps| - 1;
      var w1 := ImportAll(w, o, ps[..n], downloads).0;
      var d := FetchOf(downloads, ps[n]);
      HolderIs(w, o, ps[..n], downloads, key);
      ImportAllGrows(w, o, ps[..n], downloads);
      TwoSteps(w1, o, ps[n], d);
      assert ImportOne(w1, o, ps[n], d).0.objects == if Refused(ps[n], d) then w1.objects
        else Upload(w1, o, ps[n]).objects;
      hide ImportOne, Refused, FetchOf, Finish, Holder;
      IsAccepted(ps, downloads, n);
      HolderStep(w, o, ps, downloads, key);
    }
  }

  lemma HolderStep(w: World, o: Options, ps: seq<Upstream>, downloads: map<string, Download>, key: ObjectKey)
    ensures key in w.objects ==> Holder(w, o, ps, downloads, key) == Some(w.objects[key])
    ensures key !in w.objects && ps == [] ==> Holder(w, o, ps, downloads, key) == None
    ensures key !in w.objects && ps != [] ==>
      var n := |ps| - 1;
      var earlier := Holder(w, o, ps[..n], downloads, key);
      Holder(w, o, ps, downloads, key)
      == if earlier.Some? || KeyFor(o, ps[n]) != key || !Accepted(ps, downloads, n) then earlier
         else Some(ObjectOf(ps[n]))
  {
    hide Accepted;
  }

  /** What comes later changes nothing for a key that holds an object. */
  lemma {:induction false} HolderStays(w: World, o: Options, ps: seq<Upstream>, downloads: map<string, Download>,
      i: nat, key: ObjectKey)
    requires i <= |ps| && Holder(w, o, ps[..i], downloads, key).Some?
    ensures Holder(w, o, ps, downloads, key) == Holder(w, o, ps[..i], downloads, key)
    decreases |ps|
  {
    if i == |ps| {
      assert ps[..i] == ps;
    } else {
      var front := ps[..|ps| - 1];
      assert front[..i] == ps[..i];
      hide Holder;
      HolderStays(w, o, front, downloads, i, key);
      HolderStep(w, o, ps, downloads, key);
      HolderStep(w, o, front, downloads, key);
    }
  }

  /** The packages registered so far are the ones that pass. */
  lemma RegistersIs(w: World, o: Options, ps: seq<Upstream>, downloads: map<string, Download>, i: nat, j: nat)
    requires j < i <= |ps| && ps[j].sha !in w.db.index
    ensures Registers(w, o, ps, downloads, j)
      <==> Passes(w, ImportAll(w, o, ps[..i], downloads).0, o, ps[j], FetchOf(downloads, ps[j]))
  {
    var key := KeyFor(o, ps[j]);
    HolderIs(w, o, ps[..i], downloads, key);
    IsAccepted(ps, downloads, j);
    IsAccepted(ps[..i], downloads, j);
    InOrderUploads(w, o, ps[..i], downloads);
    if key in ImportAll(w, o, ps[..i], downloads).0.objects { HolderStays(w, o, ps, downloads, i, key); }
    hide ImportAll, Holder, Refused, FetchOf, TakenOver, Accepted;
  }

  /** The bytes indexed so far: the earlier ones and those registered. */
  lemma IndexedSoFar(w: World, o: Options, ps: seq<Upstream>, downloads: map<string, Download>, i: nat, x: Sha)
    requires i <= |ps|
    ensures x in ImportAll(w, o, ps[..i], downloads).0.db.index
      <==> x in w.db.index || exists j :: 0 <= j < i && ps[j].sha == x && Registers(w, o, ps, downloads, j)
  {
    var front := ps[..i];
    var (w1, imported, failed) := ImportAll(w, o, front, downloads);
    ImportAllGrows(w, o, front, downloads);
    InOrderPasses(w, o, front, downloads);
    if x !in w.db.index {
      if x in w1.db.index {
        AddedAreDone(w, o, front, downloads, x);
        hide ImportAll, Passes, Registers, FetchOf;
        var p :| p in imported && p.sha == x;
        var j :| 0 <= j < i && front[j] == p;
        RegistersIs(w, o, ps, downloads, i, j);
      }
      hide ImportAll, Passes, Registers, FetchOf;
      if j :| 0 <= j < i && ps[j].sha == x && Registers(w, o, ps, downloads, j) {
        RegistersIs(w, o, ps, downloads, i, j);
        assert front[j] == ps[j] && ps[j] in front;
      }
    }
  }

  /** Accepted over a leftover, as told before. */
  lemma LeftoverTold(w: World, o: Options, ps: seq<Upstream>, downloads: map<string, Download>, i: nat)
    requires i < |ps|
    ensures AcceptsLeftover(ImportAll(w, o, ps[..i], downloads).0, o, ps[i], FetchOf(downloads, ps[i]))
      <==> Misplaces(w, o, ps, downloads, i)
  {
    hide *;
    var w1 := ImportAll(w, o, ps[..i], downloads).0;
    var key, d := KeyFor(o, ps[i]), FetchOf(downloads, ps[i]);
    IndexedSoFar(w, o, ps, downloads, i, ps[i].sha);
    HolderIs(w, o, ps[..i], downloads, key);
    IsAccepted(ps, downloads, i);
    if Accepted(ps, downloads, i) { HolderAt(w, o, ps, downloads, i); }
    MisplacesIs(w, o, ps, downloads, i);
    LeftoverParts(w1, o, ps[i], d);
  }

  /** What an accepted package meets: what lies there already, or its own object. */
  lemma HolderAt(w: World, o: Options, ps: seq<Upstream>, downloads: map<string, Download>, i: nat)
    requires i < |ps| && Accepted(ps, downloads, i)
    ensures var earlier := Holder(w, o, ps[..i], downloads, KeyFor(o, ps[i]));
            Holder(w, o, ps, downloads, KeyFor(o, ps[i])) == if earlier.Some? then earlier else Some(ObjectOf(ps[i]))
  {
    var key := KeyFor(o, ps[i]);
    var upto := ps[..i + 1];
    assert upto[..i] == ps[..i] && upto[i] == ps[i];
    IsAccepted(ps, downloads, i);
    IsAccepted(upto, downloads, i);
    hide Holder, Accepted, Refused, FetchOf;
    HolderStep(w, o, upto, downloads, key);
    HolderStep(w, o, ps[..i], downloads, key);
    HolderStays(w, o, ps, downloads, i + 1, key);
  }

  lemma MisplacesIs(w: World, o: Options, ps: seq<Upstream>, downloads: map<string, Download>, i: nat)
    requires i < |ps|
    ensures var holder := Holder(w, o, ps, downloads, KeyFor(o, ps[i]));
            Misplaces(w, o, ps, downloads, i) <==>
              && Accepted(ps, downloads, i) && ps[i].sha !in w.db.index && holder.Some?
              && TakenOver(holder.value, ps[i], FetchOf(downloads, ps[i])) && holder.value.sha != ps[i].sha
              && forall j :: 0 <= j < i && ps[j].sha == ps[i].sha ==> !Registers(w, o, ps, downloads, j)
  {
    hide Holder, Accepted, FetchOf, TakenOver;
  }

  lemma LeftoverParts(w: World, o: Options, p: Upstream, d: Download)
    ensures AcceptsLeftover(w, o, p, d) <==>
      && !Refused(p, d) && p.sha !in w.db.index && KeyFor(o, p) in w.objects
      && TakenOver(w.objects[KeyFor(o, p)], p, d) && w.objects[KeyFor(o, p)].sha != p.sha
    ensures ObjectOf(p).sha == p.sha
  {
    hide PackageFilename;
  }

  /** Each row added so far is the written one's. */
  lemma {:induction false} WrittenSoFar(w: World, o: Options, ps: seq<Upstream>, downloads: map<string, Download>,
      i: nat, x: Sha)
    requires i <= |ps| && x in ImportAll(w, o, ps[..i], downloads).0.db.index && x !in w.db.index
    ensures exists j :: 0 <= j < i && ps[j].sha == x && Writes(w, o, ps, downloads, j)
                        && RowOf(ImportAll(w, o, ps[..i], downloads).0.db.index[x], o, ps[j])
    decreases i
  {
    hide *;
    IndexedSoFar(w, o, ps, downloads, i, x);
    var n := i - 1;
    var w1 := ImportAll(w, o, ps[..n], downloads).0;
    OneMoreRowSoFar(w, o, ps, downloads, n, x);
    IndexedSoFar(w, o, ps, downloads, n, x);
    if x in w1.db.index {
      WrittenSoFar(w, o, ps, downloads, n, x);
    } else {
      IsWritten(w, o, ps, downloads, n);
    }
  }

  lemma OneMoreRowSoFar(w: World, o: Options, ps: seq<Upstream>, downloads: map<string, Download>, n: nat, x: Sha)
    requires n < |ps| && x in ImportAll(w, o, ps[..n + 1], downloads).0.db.index
    ensures var index, index' := ImportAll(w, o, ps[..n], downloads).0.db.index,
              ImportAll(w, o, ps[..n + 1], downloads).0.db.index;
            if x in index then index'[x] == index[x] else x == ps[n].sha && RowOf(index'[x], o, ps[n])
  {
    assert ps[..n + 1][..n] == ps[..n];
    ImportOneGrows(ImportAll(w, o, ps[..n], downloads).0, o, ps[n], FetchOf(downloads, ps[n]));
    hide ImportOne, FetchOf;
  }

  lemma IsWritten(w: World, o: Options, ps: seq<Upstream>, downloads: map<string, Download>, i: nat)
    requires i < |ps| && Registers(w, o, ps, downloads, i)
    requires forall j :: 0 <= j < i && ps[j].sha == ps[i].sha ==> !Registers(w, o, ps, downloads, j)
    ensures Writes(w, o, ps, downloads, i)
  {
    hide Registers;
  }

  /** A filename has no answer yet: it had none, and no row was written for it. */
  lemma UnansweredSoFar(w: World, o: Options, ps: seq<Upstream>, downloads: map<string, Download>, i: nat,
      filename: string)
    requires i <= |ps|
    ensures var key := (o.source, o.arch, filename);
            ByFilename(ImportAll(w, o, ps[..i], downloads).0.db.index, key).None? <==>
              && ByFilename(w.db.index, key).None?
              && forall j :: 0 <= j < i && ps[j].filename == filename ==> !Writes(w, o, ps, downloads, j)
  {
    var key := (o.source, o.arch, filename);
    var index, index' := w.db.index, ImportAll(w, o, ps[..i], downloads).0.db.index;
    ImportAllGrows(w, o, ps[..i], downloads);
    AnswerMeans(index, key);
    AnswerMeans(index', key);
    assert forall x :: x in index && Names(index, x, key) ==> Names(index', x, key);
    hide ImportAll, ByFilename, Writes, Registers;
    if x :| x in index' && Names(index', x, key) && x !in index {
      WrittenSoFar(w, o, ps, downloads, i, x);
    }
    if j :| 0 <= j < i && ps[j].filename == filename && Writes(w, o, ps, downloads, j) {
      WrittenNames(w, o, ps, downloads, i, j);
    }
    assert forall x :: x in index && Names(index', x, key) ==> Names(index, x, key);
  }

  lemma AnswerMeans(index: map<Sha, Row>, key: ObjectKey)
    ensures ByFilename(index, key).None? <==> forall x :: x in index ==> !Names(index, x, key)
  {
    if x :| x in index && Names(index, x, key) { FirstNamedExists(index, x, key); }
  }

  lemma WrittenNames(w: World, o: Options, ps: seq<Upstream>, downloads: map<string, Download>, i: nat, j: nat)
    requires j < i <= |ps| && Writes(w, o, ps, downloads, j)
    ensures var index' := ImportAll(w, o, ps[..i], downloads).0.db.index;
            ps[j].sha in index' && Names(index', ps[j].sha, KeyFor(o, ps[j]))
  {
    var x := ps[j].sha;
    IndexedSoFar(w, o, ps, downloads, i, x);
    assert x !in w.db.index;
    WrittenSoFar(w, o, ps, downloads, i, x);
    hide ImportAll, Registers;
    var m :| 0 <= m < i && ps[m].sha == x && Writes(w, o, ps, downloads, m)
      && RowOf(ImportAll(w, o, ps[..i], downloads).0.db.index[x], o, ps[m]);
    assert m == j;
  }

  /** No import of a list is accepted over a leftover: told before. */
  lemma NoLeftoverTold(w: World, o: Options, ps: seq<Upstream>, downloads: map<string, Download>)
    ensures NoneOverLeftover(Imports(w, o, ps, downloads))
      <==> forall i :: 0 <= i < |ps| ==> !Misplaces(w, o, ps, downloads, i)
  {
    ImportsAre(w, o, ps, downloads);
    var attempts := Imports(w, o, ps, downloads);
    forall i | 0 <= i < |ps|
      ensures attempts[i] in attempts && (OverLeftover(attempts[i]) <==> Misplaces(w, o, ps, downloads, i))
    {
      LeftoverTold(w, o, ps, downloads, i);
    }
    hide Imports, OverLeftover, Misplaces, ImportAll;
  }

  /** None spoils an answer: told before. */
  lemma NoneSpoilsTold(w: World, o: Options, ps: seq<Upstream>, downloads: map<string, Download>)
    ensures NoneSpoils(Imports(w, o, ps, downloads))
      <==> forall i :: 0 <= i < |ps| ==> !(Misplaces(w, o, ps, downloads, i) && Answers(w, o, ps, downloads, i))
  {
    ImportsAre(w, o, ps, downloads);
    var attempts := Imports(w, o, ps, downloads);
    forall i | 0 <= i < |ps|
      ensures attempts[i] in attempts
        && (Spoils(attempts[i]) <==> Misplaces(w, o, ps, downloads, i) && Answers(w, o, ps, downloads, i))
    {
      LeftoverTold(w, o, ps, downloads, i);
      UnansweredSoFar(w, o, ps, downloads, i, ps[i].filename);
      hide ImportAll, Imports, Registers, Holder, AcceptsLeftover, ByFilename;
    }
    hide Imports, Spoils, Misplaces, Answers, ImportAll;
  }
}
