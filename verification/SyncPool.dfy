/** What a sync keeps of the pool: rows numbered in order, and filenames that answer for what is stored. */
module SyncPool {
  import opened Common
  import opened Releases
  import opened Sync

  predicate RowsOrdered(index: map<Sha, Row>) {
    RowsNumbered(index) && RowsDistinct(index)
  }

  lemma OneMoreRow(index: map<Sha, Row>, x: Sha, row: Row)
    requires RowsOrdered(index) && x !in index && row.id == |index|
    ensures RowsOrdered(index[x := row])
  {
    assert |index[x := row].Keys| == |index.Keys + {x}|;
  }

  lemma ImportOneNumbers(w: World, o: Options, p: Upstream, d: Download)
    requires RowsOrdered(w.db.index)
    ensures RowsOrdered(ImportOne(w, o, p, d).0.db.index)
  {
    var index' := ImportOne(w, o, p, d).0.db.index;
    assert index' == w.db.index || (p.sha !in w.db.index && index' == w.db.index[p.sha := NewRow(w, o, p)]);
    assert NewRow(w, o, p).id == |w.db.index|;
    hide *;
    if index' != w.db.index { OneMoreRow(w.db.index, p.sha, NewRow(w, o, p)); }
  }

  lemma {:induction false} ImportAllNumbers(w: World, o: Options, ps: seq<Upstream>, downloads: map<string, Download>)
    requires RowsOrdered(w.db.index)
    ensures RowsOrdered(ImportAll(w, o, ps, downloads).0.db.index)
  {
    if ps != [] {
      var n := |ps| - 1;
      ImportAllNumbers(w, o, ps[..n], downloads);
      ImportOneNumbers(ImportAll(w, o, ps[..n], downloads).0, o, ps[n], FetchOf(downloads, ps[n]));
      hide ImportOne, FetchOf, RowsOrdered;
    }
  }

  /** The filename's answer is what the pool stores under it, or there is none. */
  ghost predicate AnswerStored(w: World, key: ObjectKey) {
    ByFilename(w.db.index, key).Some? ==> key in w.objects && w.objects[key].sha == ByFilename(w.db.index, key).value
  }

  lemma AnswersAre(w: World)
    ensures AnswersStored(w) <==> forall key :: AnswerStored(w, key)
  {
    if forall key :: AnswerStored(w, key) {
      forall key | ByFilename(w.db.index, key).Some?
        ensures key in w.objects && w.objects[key].sha == ByFilename(w.db.index, key).value
      {
        assert AnswerStored(w, key);
      }
    }
  }

  /** A row that a run adds is an imported package's. */
  lemma {:induction false} AddedAreDone(w: World, o: Options, ps: seq<Upstream>, downloads: map<string, Download>,
      x: Sha)
    requires x !in w.db.index && x in ImportAll(w, o, ps, downloads).0.db.index
    ensures exists p :: p in ImportAll(w, o, ps, downloads).1 && p.sha == x
             && RowOf(ImportAll(w, o, ps, downloads).0.db.index[x], o, p)
  {
    assert ps != [];
    var n := |ps| - 1;
    var (w1, done, failed) := ImportAll(w, o, ps[..n], downloads);
    var d := FetchOf(downloads, ps[n]);
    var (w2, ok) := ImportOne(w1, o, ps[n], d);
    ImportOneGrows(w1, o, ps[n], d);
    if x in w1.db.index {
      AddedAreDone(w, o, ps[..n], downloads, x);
      var p :| p in done && p.sha == x && RowOf(w1.db.index[x], o, p);
      assert p in ImportAll(w, o, ps, downloads).1;
    } else {
      AddsWhenDone(w1, o, ps[n], d);
      assert ps[n] in ImportAll(w, o, ps, downloads).1;
    }
  }

  lemma AddsWhenDone(w: World, o: Options, p: Upstream, d: Download)
    ensures var (w', ok) := ImportOne(w, o, p, d);
            w'.db.index != w.db.index ==> ok && p.sha in w'.db.index && RowOf(w'.db.index[p.sha], o, p)
  {}
}
