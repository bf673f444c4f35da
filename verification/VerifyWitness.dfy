/** A pool in which every verification pins again what the one before it pinned. */
module VerifyWitness {
  import opened Common
  import opened Releases
  import opened Sync
  import opened Work
  import opened WorkLaws
  import opened Jobs
  import opened Witnesses
  import K = Worker
  import V = Verify

  // ---------- a list with the same bytes twice ----------

  lemma {:induction false} FilterAll<T(!new)>(xs: seq<T>, f: T -> bool)
    requires forall x :: x in xs ==> f(x)
    ensures Filter(xs, f) == xs
  {
    if xs != [] {
      var n := |xs| - 1;
      FilterAll(xs[..n], f);
      assert xs == xs[..n] + [xs[n]];
    }
  }

  /** A list none of which is known, nor any filename answered: all of it is missing. */
  lemma AllMissing(w: World, o: Options, ps: seq<Upstream>)
    requires o.deferTo == {} && o.limit == 0
    requires forall p :: p in ps ==> ByFilename(w.db.index, KeyFor(o, p)).None? && !Known(w.db, o.arch, p.sha)
    ensures Wanted(w, o, ps) == ps && Colliding(w, o, ps) == {} && Reuse(w, o, ps) == {}
    ensures Missing(w, o, ps) == ps && Limited(o, ps) == ps
  {
    var owned := OwnedElsewhere(w, o);
    assert owned == {};
    FilterAll(ps, (r: Upstream) => r.name !in owned);
    assert forall p :: p in ps ==> !Collides(w, o, p);
    hide ByFilename, OwnedElsewhere;
    assert Colliding(w, o, ps) == {} && Reuse(w, o, ps) == {};
    var colliding := Colliding(w, o, ps);
    FilterAll(ps, (r: Upstream) => !Known(w.db, o.arch, r.sha) && r.filename !in colliding);
  }

  lemma OneMoreDone(w: World, o: Options, front: seq<Upstream>, p: Upstream, downloads: map<string, Download>)
    requires ImportOne(ImportAll(w, o, front, downloads).0, o, p, FetchOf(downloads, p)).1
    ensures var (w1, done, failed) := ImportAll(w, o, front, downloads);
            ImportAll(w, o, front + [p], downloads)
            == (ImportOne(w1, o, p, FetchOf(downloads, p)).0, done + [p], failed)
  {
    assert (front + [p])[..|front|] == front;
    hide ImportOne, FetchOf;
  }

  lemma NewUpload(w: World, o: Options, p: Upstream, d: Download)
    requires PackageFilename(p.filename) && !d.Broken? && KeyFor(o, p) !in w.objects
    requires p.sha in w.db.index ==> w.db.index[p.sha].arch == o.arch
    ensures var (w', ok) := ImportOne(w, o, p, d);
            && ok && w'.objects == w.objects[KeyFor(o, p) := Object(p.sha, p.size, p.size <= SINGLE_PUT_MAX)]
            && w'.db.index == if p.sha in w.db.index then w.db.index else w.db.index[p.sha := NewRow(w, o, p)]
  {
    hide PackageFilename;
  }

  /** Two names for one package's bytes: both are uploaded, and the first is registered. */
  lemma ImportBoth(w: World, o: Options, p: Upstream, q: Upstream, downloads: map<string, Download>)
    requires p.sha == q.sha && p.filename != q.filename && PackageFilename(p.filename) && PackageFilename(q.filename)
    requires p.sha !in w.db.index && KeyFor(o, p) !in w.objects && KeyFor(o, q) !in w.objects
    requires !FetchOf(downloads, p).Broken? && !FetchOf(downloads, q).Broken?
    ensures var (w', done, failed) := ImportAll(w, o, [p, q], downloads);
            && done == [p, q] && failed == [] && w'.db.index == w.db.index[p.sha := NewRow(w, o, p)]
            && w'.objects == w.objects[KeyFor(o, p) := Object(p.sha, p.size, p.size <= SINGLE_PUT_MAX)]
                                      [KeyFor(o, q) := Object(q.sha, q.size, q.size <= SINGLE_PUT_MAX)]
  {
    assert ImportAll(w, o, [], downloads) == (w, [], []);
    NewUpload(w, o, p, FetchOf(downloads, p));
    OneMoreDone(w, o, [], p, downloads);
    var w1 := ImportOne(w, o, p, FetchOf(downloads, p)).0;
    NewUpload(w1, o, q, FetchOf(downloads, q));
    OneMoreDone(w, o, [] + [p], q, downloads);
    assert [] + [p] + [q] == [p, q];
    hide ImportOne, ImportAll, FetchOf, PackageFilename;
  }

  lemma PinsOne(w: World, o: Options, p: Upstream, q: Upstream)
    requires Colliding(w, o, [p, q]) == {} && Reuse(w, o, [p, q]) == {} && p.sha == q.sha
    ensures Pins(w, o, [p, q], [p, q]) == {p.sha}
  {
    hide Colliding, Reuse, Known;
    assert p in [p, q] && p.sha in Shas([p, q]);
  }

  /** The sync of such a list from the empty pool. */
  lemma BothSynced(o: Options, p: Upstream, q: Upstream) returns (w: World)
    requires o.deferTo == {} && o.limit == 0
    requires p.sha == q.sha && p.filename != q.filename && PackageFilename(p.filename) && PackageFilename(q.filename)
    ensures Reached(w) && Good(w) && Ready(w) && Rendered(w)
    ensures w.db.index == map[p.sha := NewRow(START, o, p)]
    ensures w.objects == map[KeyFor(o, p) := Object(p.sha, p.size, p.size <= SINGLE_PUT_MAX),
                             KeyFor(o, q) := Object(q.sha, q.size, q.size <= SINGLE_PUT_MAX)]
    ensures w.db.Live(o.ring) == {p.sha} && forall r :: r != o.ring ==> w.db.Live(r) == {}
  {
    hide *;
    var ps, downloads := [p, q], map[p.filename := Signed, q.filename := Signed];
    StartReached();
    EmptyStart(o, p);
    EmptyStart(o, q);
    RunOfBoth(o, p, q, ps, downloads);
    var out := Run(START, o, ps, downloads);
    w := OnePinned(START, o, Fetched(ps, downloads), out, p.sha);
    OverNothing(w.db, p.sha);
  }

  lemma OverNothing(db: Db, x: Sha)
    requires x in db.index
    ensures V.Overlay(db, {}, {x}) == {x}
  {}

  lemma RunOfBoth(o: Options, p: Upstream, q: Upstream, ps: seq<Upstream>, downloads: map<string, Download>)
    requires o.deferTo == {} && o.limit == 0 && ps == [p, q]
    requires downloads == map[p.filename := Signed, q.filename := Signed]
    requires p.sha == q.sha && p.filename != q.filename && PackageFilename(p.filename) && PackageFilename(q.filename)
    ensures var out := Run(START, o, ps, downloads);
            && !Bails(out) && out.changed && out.add == {p.sha} && out.remove == {}
            && out.world.db.index == map[p.sha := NewRow(START, o, p)]
            && out.world.objects == map[KeyFor(o, p) := Object(p.sha, p.size, p.size <= SINGLE_PUT_MAX),
                                        KeyFor(o, q) := Object(q.sha, q.size, q.size <= SINGLE_PUT_MAX)]
  {
    EmptyStart(o, p);
    EmptyStart(o, q);
    AllMissing(START, o, ps);
    ImportBoth(START, o, p, q, downloads);
    PinsOne(START, o, p, q);
    assert Current(START, o) == {} && Dropped(START, o, ps) == {};
    hide Wanted, Missing, ImportAll, Pins, Dropped, Current, ByFilename, PackageFilename;
  }

  // ---------- what is never repaired ----------

  const BAR_FILE := "bar-1-1" + "-x86_64.pkg.tar.zst"

  lemma BarIsAccepted()
    ensures PackageFilename(BAR_FILE) && BAR_FILE != X86_FILE
  {
    assert PACKAGE_ENDINGS[0] == "-x86_64.pkg.tar.zst";
    assert forall c :: c in "bar-1-1" ==> c == 'b' || c == 'a' || c == 'r' || c == '-' || c == '1';
    assert NameChar('b') && NameChar('a') && NameChar('r') && NameChar('-') && NameChar('1');
    AcceptedName("bar-1-1", PACKAGE_ENDINGS[0]);
    assert BAR_FILE[0] == 'b' && X86_FILE[0] == 'f';
  }

  function BarRow(id: nat): Row { Row(id, V.OPR, "bar", "1-1", X86_64, BAR_FILE, false) }

  function FooRow(id: nat): Row { Row(id, V.OPR, "foo", "1-1", X86_64, X86_FILE, false) }

  /** Edge serves foo, and under its filename lie the bytes of bar, which is stored right itself. */
  ghost predicate Stuck(w: World) {
    && Good(w) && Ready(w) && V.NoObjectPkg(w) && Edge in w.db.heads
    && w.db.index == map["b" := BarRow(0), "c" := FooRow(1)]
    && KeyOf(BarRow(0)) in w.objects && w.objects[KeyOf(BarRow(0))].sha == "b"
    && KeyOf(FooRow(1)) in w.objects && w.objects[KeyOf(FooRow(1))].sha == "b"
    && "c" in w.db.Live(Edge) && forall r :: r != Edge ==> "c" !in w.db.Live(r)
  }

  lemma ShasDiffer()
    ensures "b" != "c" && "bar" != "foo"
  {
    assert "b"[0] != "c"[0] && "bar"[0] != "foo"[0];
  }

  /** Two syncs of one list and one rebuild lead there. */
  lemma StuckPool() returns (w: World)
    ensures Reached(w) && Stuck(w)
  {
    hide *;
    var size := TooLarge();
    var bar, foo := Upstream("bar", "1-1", BAR_FILE, "b", size), Upstream("foo", "1-1", X86_FILE, "b", size);
    var rebuilt := Upstream("foo", "1-1", X86_FILE, "c", size);
    var o1, o2 := Options(V.OPR, X86_64, Rc, 0, {}), Options(V.OPR, X86_64, Edge, 0, {});
    FilesAreAccepted();
    BarIsAccepted();
    ShasDiffer();
    var w1 := BothSynced(o1, bar, foo);
    RebuildIsFree(w1, o1, bar, foo, o2, rebuilt);
    RegisteredOver(w1, o2, rebuilt);
    w := FirstSync(w1, o2, rebuilt, Signed);
    ReachedIsTidy(w);
    TidyParts(w);
    IsStuck(w1, w, o1, bar, foo, o2, rebuilt);
  }

  lemma RebuildIsFree(w: World, o: Options, p: Upstream, q: Upstream, o2: Options, r: Upstream)
    requires w.db.index == map[p.sha := NewRow(START, o, p)]
    requires w.objects == map[KeyFor(o, p) := Object(p.sha, p.size, p.size <= SINGLE_PUT_MAX),
                              KeyFor(o, q) := Object(q.sha, q.size, q.size <= SINGLE_PUT_MAX)]
    requires o2.ring != o.ring && o2 == o.(ring := o2.ring) && w.db.Live(o2.ring) == {}
    requires p.filename != q.filename && r.filename == q.filename && r.size == q.size && r.sha != p.sha
    requires q.size > SINGLE_PUT_MAX
    ensures Unserved(w, o2) && ByFilename(w.db.index, KeyFor(o2, r)).None? && r.sha !in w.db.index
    ensures KeyFor(o2, r) in w.objects && w.objects[KeyFor(o2, r)].size == r.size && !w.objects[KeyFor(o2, r)].hashed
  {
    NoAnswer(w.db.index, KeyFor(o2, r));
    hide ByFilename;
  }

  lemma IsStuck(w1: World, w: World, o: Options, p: Upstream, q: Upstream, o2: Options, r: Upstream)
    requires o == Options(V.OPR, X86_64, Rc, 0, {}) && o2 == Options(V.OPR, X86_64, Edge, 0, {})
    requires p == Upstream("bar", "1-1", BAR_FILE, "b", p.size) && q == Upstream("foo", "1-1", X86_FILE, "b", p.size)
    requires r == Upstream("foo", "1-1", X86_FILE, "c", p.size) && BAR_FILE != X86_FILE && "b" != "c"
    requires w1.db.index == map[p.sha := NewRow(START, o, p)]
    requires w1.objects == map[KeyFor(o, p) := Object(p.sha, p.size, p.size <= SINGLE_PUT_MAX),
                               KeyFor(o, q) := Object(q.sha, q.size, q.size <= SINGLE_PUT_MAX)]
    requires w1.db.Live(Rc) == {"b"} && forall x :: x != Rc ==> w1.db.Live(x) == {}
    requires Good(w) && Ready(w) && V.NoObjectPkg(w) && w.objects == w1.objects
    requires w.db.index == w1.db.index[r.sha := NewRow(w1, o2, r)]
    requires w.db.Live(Edge) == V.Overlay(w.db, w1.db.Live(Edge), {"c"}) && w.db.heads.Keys == w1.db.heads.Keys + {Edge}
    requires forall x :: x != Edge ==> w.db.Live(x) == w1.db.Live(x)
    ensures Stuck(w)
  {
    RowsAre(w1, o, p, o2, r);
    hide *;
    StuckObjects(w, o, p, q);
    TwoEntries(w.db.index, p.sha, BarRow(0), r.sha, FooRow(1));
    OverNothing(w.db, r.sha);
    ServedOnlyByEdge(w1, w, p.sha, r.sha);
    AllStuck(w);
  }

  lemma RowsAre(w1: World, o: Options, p: Upstream, o2: Options, r: Upstream)
    requires o == Options(V.OPR, X86_64, Rc, 0, {}) && o2 == Options(V.OPR, X86_64, Edge, 0, {})
    requires p == Upstream("bar", "1-1", BAR_FILE, "b", p.size)
    requires r == Upstream("foo", "1-1", X86_FILE, "c", r.size)
    requires w1.db.index == map[p.sha := NewRow(START, o, p)]
    ensures NewRow(START, o, p) == BarRow(0) && NewRow(w1, o2, r) == FooRow(1)
  {}

  lemma TwoEntries(m: map<Sha, Row>, b: Sha, x: Row, c: Sha, y: Row)
    requires m == map[b := x][c := y]
    ensures m == map[b := x, c := y] && c in m
  {}

  lemma ServedOnlyByEdge(w1: World, w: World, b: Sha, c: Sha)
    requires w1.db.Live(Rc) == {b} && b != c && forall x :: x != Rc ==> w1.db.Live(x) == {}
    requires w.db.Live(Edge) == {c} && forall x :: x != Edge ==> w.db.Live(x) == w1.db.Live(x)
    requires w.db.heads.Keys == w1.db.heads.Keys + {Edge}
    ensures c in w.db.Live(Edge) && Edge in w.db.heads && forall r :: r != Edge ==> c !in w.db.Live(r)
  {}

  lemma StuckObjects(w: World, o: Options, p: Upstream, q: Upstream)
    requires o == Options(V.OPR, X86_64, Rc, 0, {})
    requires p == Upstream("bar", "1-1", BAR_FILE, "b", p.size) && q == Upstream("foo", "1-1", X86_FILE, "b", p.size)
    requires w.objects == map[KeyFor(o, p) := Object(p.sha, p.size, p.size <= SINGLE_PUT_MAX),
                              KeyFor(o, q) := Object(q.sha, q.size, q.size <= SINGLE_PUT_MAX)]
    ensures KeyOf(BarRow(0)) in w.objects && w.objects[KeyOf(BarRow(0))].sha == "b"
    ensures KeyOf(FooRow(1)) in w.objects && w.objects[KeyOf(FooRow(1))].sha == "b"
  {}

  lemma AllStuck(w: World)
    requires Good(w) && Ready(w) && V.NoObjectPkg(w) && Edge in w.db.heads
    requires w.db.index == map["b" := BarRow(0), "c" := FooRow(1)]
    requires KeyOf(BarRow(0)) in w.objects && w.objects[KeyOf(BarRow(0))].sha == "b"
    requires KeyOf(FooRow(1)) in w.objects && w.objects[KeyOf(FooRow(1))].sha == "b"
    requires "c" in w.db.Live(Edge) && forall r :: r != Edge ==> "c" !in w.db.Live(r)
    ensures Stuck(w)
  {
    hide Good, Ready, V.NoObjectPkg;
  }

  /** Where foo is served its bytes are wrong, and nowhere else is anything. */
  lemma OnlyFooIsWrong(w: World, v: V.Place)
    requires Stuck(w)
    ensures V.Repins(w, v.0, v.1) == if v == (Edge, X86_64) then {"b"} else {}
    ensures forall q :: q in V.OprRows(w, v.0, v.1) && V.Mismatch(w, q) ==>
      q == "c" && V.Stored(w, q) == "b" && q in w.db.index && Known(w.db, v.1, "b")
    ensures v == (Edge, X86_64) ==> "c" in V.OprRows(w, v.0, v.1) && V.Mismatch(w, "c")
  {
    ShasDiffer();
    hide Good, Ready, V.NoObjectPkg;
    assert KeyOf(w.db.index["b"]) == KeyOf(BarRow(0)) && KeyOf(w.db.index["c"]) == KeyOf(FooRow(1));
    assert V.Mismatch(w, "c") && !V.Mismatch(w, "b");
    assert forall q :: q in V.OprRows(w, v.0, v.1) ==> q in w.db.index && q in w.db.Live(v.0);
    if v == (Edge, X86_64) {
      assert "c" in RowsOf(w, Edge, X86_64);
      assert V.Stored(w, "c") == "b";
    }
  }

  lemma BarNeverReplacesFoo(w: World, rows: set<Sha>)
    requires Stuck(w) && "c" in rows
    ensures "b" in w.db.index && "c" in V.Overlay(w.db, rows, {"b"})
  {
    ShasDiffer();
    hide Good, Ready, V.NoObjectPkg;
    assert w.db.index["b"].Key() != w.db.index["c"].Key();
  }

  /** Whatever a verification does there, it pins edge again, and leaves the pool as stuck. */
  lemma StuckPins(w: World, pinned: map<V.Place, set<Sha>>, refused: set<Sha>, w': World)
    requires Stuck(w) && Verified(w, RINGS, BOTH, pinned, refused, w')
    ensures pinned == map[(Edge, X86_64) := {"b"}] && Stuck(w')
  {
    StuckIs(w);
    hide *;
    var e: V.Place := (Edge, X86_64);
    VerifiedParts(w, RINGS, BOTH, pinned, refused, w');
    VerifiedKeeps(w, RINGS, BOTH, pinned, refused, w');
    KeepsGood(w, w');
    GoodIsReady(w');
    forall v: V.Place ensures V.PinsAt(pinned, v) == if v == e then {"b"} else {} {
      OnlyFooIsWrong(w, v);
      EveryPlace(v);
      PinsThere(w, V.Places(RINGS, BOTH), pinned, refused, v);
    }
    OnePlace(w, V.Places(RINGS, BOTH), pinned, refused, e);
    OnlyFooIsWrong(w, e);
    FooStays(w, w', pinned);
    StaysStuck(w, w');
  }

  lemma StuckIs(w: World)
    requires Stuck(w)
    ensures Good(w) && Ready(w) && V.NoObjectPkg(w)
  {
    hide Good, Ready, V.NoObjectPkg;
  }

  lemma EveryPlace(v: V.Place)
    ensures v in V.Places(RINGS, BOTH)
  {
    AllRings();
    assert v.1 == X86_64 || v.1 == Aarch64;
    assert BOTH[0] == X86_64 && BOTH[1] == Aarch64;
    assert v.1 in BOTH && v.0 in RINGS && v == (v.0, v.1);
  }

  lemma PinsThere(w: World, places: set<V.Place>, pinned: map<V.Place, set<Sha>>, refused: set<Sha>, v: V.Place)
    requires V.Repaired(w, places, pinned, refused) && v in places
    requires forall q :: q in V.OprRows(w, v.0, v.1) && V.Mismatch(w, q) ==>
      q in w.db.index && Known(w.db, v.1, V.Stored(w, q))
    ensures V.PinsAt(pinned, v) == V.Repins(w, v.0, v.1)
  {
    assert V.Covers(w, v, V.PinsAt(pinned, v), refused);
    forall q | q in V.OprRows(w, v.0, v.1) && V.Mismatch(w, q) ensures q !in refused {
      assert w.db.index[q].arch == v.1;
    }
  }

  lemma OnePlace(w: World, places: set<V.Place>, pinned: map<V.Place, set<Sha>>, refused: set<Sha>, e: V.Place)
    requires V.Repaired(w, places, pinned, refused)
    requires forall v: V.Place :: V.PinsAt(pinned, v) == if v == e then {"b"} else {}
    ensures pinned == map[e := {"b"}]
  {
    assert V.PinsAt(pinned, e) == {"b"};
    forall v | v in pinned ensures v == e { assert V.PinsAt(pinned, v) == pinned[v]; }
    hide V.Covers;
  }

  lemma FooStays(w: World, w': World, pinned: map<V.Place, set<Sha>>)
    requires Stuck(w) && pinned == map[(Edge, X86_64) := {"b"}] && V.PinnedOver(w, w', pinned)
    requires w'.db.index == w.db.index && "c" in V.OprRows(w, Edge, X86_64)
    ensures "c" in w'.db.Live(Edge) && forall r :: r != Edge ==> "c" !in w'.db.Live(r)
  {
    var e: V.Place := (Edge, X86_64);
    assert e in pinned;
    BarNeverReplacesFoo(w, RowsOf(w, Edge, X86_64));
    assert "c" in RowsOf(w', e.0, e.1);
    forall r | r != Edge ensures "c" !in w'.db.Live(r) {
      var v: V.Place := (r, X86_64);
      assert v !in pinned;
      assert RowsOf(w', v.0, v.1) == RowsOf(w, v.0, v.1);
      assert "c" !in RowsOf(w, r, X86_64);
    }
    hide Good, Ready, V.NoObjectPkg, V.Overlay;
  }

  lemma StaysStuck(w: World, w': World)
    requires Stuck(w) && Good(w') && Ready(w') && w'.db.index == w.db.index && w'.objects == w.objects
    requires "c" in w'.db.Live(Edge) && forall r :: r != Edge ==> "c" !in w'.db.Live(r)
    ensures Stuck(w')
  {
    LiveHasHead(w', Edge);
    hide Good, Ready;
  }

  lemma LiveHasHead(w: World, ring: Ring)
    requires Good(w) && w.db.Live(ring) != {}
    ensures ring in w.db.heads
  {}

  /** And one does complete. */
  lemma StuckCompletes(w: World) returns (w': World)
    requires Stuck(w)
    ensures Verified(w, RINGS, BOTH, map[(Edge, X86_64) := {"b"}], {}, w')
  {
    StuckIs(w);
    hide *;
    var e: V.Place := (Edge, X86_64);
    var pinned: map<V.Place, set<Sha>> := map[e := {"b"}];
    OnlyFooIsWrong(w, e);
    V.RepinEffect(w, Edge, X86_64, {"b"});
    var w1 := Post(w, AddRequest(Edge, {"b"}, Some(X86_64))).value.0;
    IsSameStore(w, w1);
    IsPinnedOver(w, w1, pinned);
    forall v: V.Place
      ensures V.Covers(w, v, V.PinsAt(pinned, v), {})
      ensures forall q :: q in V.OprRows(w, v.0, v.1) ==> !V.Refusable(w, q)
    {
      OnlyFooIsWrong(w, v);
      PinsOf(pinned, v);
      IsCovered(w, v);
      NotRefused(w, v);
    }
    EveryPlace(e);
    IsRepaired(w, V.Places(RINGS, BOTH), pinned);
    NeverTwice(w, V.Places(RINGS, BOTH));
    LiveHasHead(w1, Edge);
    w' := RenderOne(w1, Edge, X86_64);
    K.IsVerified(w, w1, w', RINGS, BOTH, pinned, {}, [e]);
  }

  lemma IsSameStore(w: World, w': World)
    requires Good(w) && Good(w') && Continues(w.db.releases, w'.db.releases)
    requires w'.db.index == w.db.index && w'.objects == w.objects && w'.published == w.published
    ensures V.SameStore(w, w')
  {
    hide Good;
  }

  lemma IsPinnedOver(w: World, w1: World, pinned: map<V.Place, set<Sha>>)
    requires pinned == map[(Edge, X86_64) := {"b"}] && w1.db.index == w.db.index && Known(w.db, X86_64, "b")
    requires RowsOf(w1, Edge, X86_64) == V.Overlay(w.db, RowsOf(w, Edge, X86_64), {"b"})
    requires forall r, a :: (r, a) != (Edge, X86_64) ==> RowsOf(w1, r, a) == RowsOf(w, r, a)
    ensures V.PinnedOver(w, w1, pinned) && RowsOf(w1, Edge, X86_64) != {}
  {
    assert V.Overlay(w1.db, RowsOf(w, Edge, X86_64), {"b"}) == V.Overlay(w.db, RowsOf(w, Edge, X86_64), {"b"});
    assert "b" in V.Overlay(w.db, RowsOf(w, Edge, X86_64), {"b"});
    hide RowsOf, V.Overlay;
    forall v: V.Place | v !in pinned ensures RowsOf(w1, v.0, v.1) == RowsOf(w, v.0, v.1) {
      assert v == (v.0, v.1);
    }
  }

  lemma PinsOf(pinned: map<V.Place, set<Sha>>, v: V.Place)
    requires pinned == map[(Edge, X86_64) := {"b"}]
    ensures V.PinsAt(pinned, v) == if v == (Edge, X86_64) then {"b"} else {}
  {}

  lemma IsCovered(w: World, v: V.Place)
    ensures V.Covers(w, v, V.Repins(w, v.0, v.1), {})
  {}

  lemma NotRefused(w: World, v: V.Place)
    requires forall q :: q in V.OprRows(w, v.0, v.1) && V.Mismatch(w, q) ==>
      q in w.db.index && Known(w.db, v.1, V.Stored(w, q))
    ensures forall q :: q in V.OprRows(w, v.0, v.1) ==> !V.Refusable(w, q)
  {
    forall q | q in V.OprRows(w, v.0, v.1) ensures !V.Refusable(w, q) {
      assert w.db.index[q].arch == v.1;
    }
  }

  lemma IsRepaired(w: World, places: set<V.Place>, pinned: map<V.Place, set<Sha>>)
    requires pinned == map[(Edge, X86_64) := {"b"}] && (Edge, X86_64) in places
    requires forall v: V.Place :: V.Covers(w, v, V.PinsAt(pinned, v), {})
    ensures V.Repaired(w, places, pinned, {})
  {
    hide V.Covers;
  }

  lemma NeverTwice(w: World, places: set<V.Place>)
    requires forall v: V.Place, q :: q in V.OprRows(w, v.0, v.1) ==> !V.Refusable(w, q)
    ensures !V.Twice(w, places)
  {
    hide V.OprRows, V.Refusable;
  }

  lemma RenderOne(w: World, ring: Ring, arch: Arch) returns (w': World)
    requires ring in w.db.heads
    ensures RenderPlaces(w, [(ring, arch)]) == Some(w')
  {
    w' := Render(w, ring, arch).value;
    assert [(ring, arch)][1..] == [];
    assert RenderPlaces(w', []) == Some(w');
  }

  /**
   * A pool that jobs reach in which a verification of all rings completes, and every one
   * that does pins the same row again and leaves such a pool: it never ends.
   */
  lemma VerificationRepeats(w: World) returns (w': World)
    requires Reached(w) && Stuck(w)
    ensures Step(w, Verification(RINGS, BOTH), w') && Reached(w') && Stuck(w')
    ensures forall pinned, refused, v :: Verified(w, RINGS, BOTH, pinned, refused, v) ==>
      pinned.Keys == {(Edge, X86_64)}
  {
    hide *;
    w' := StuckCompletes(w);
    StuckPins(w, map[(Edge, X86_64) := {"b"}], {}, w');
    StuckIs(w);
    IsVerification(w, map[(Edge, X86_64) := {"b"}], {}, w');
    StepReached(w, Verification(RINGS, BOTH), w');
    forall pinned, refused, v | Verified(w, RINGS, BOTH, pinned, refused, v)
      ensures pinned.Keys == {(Edge, X86_64)}
    {
      StuckPins(w, pinned, refused, v);
    }
  }

  lemma IsVerification(w: World, pinned: map<V.Place, set<Sha>>, refused: set<Sha>, w': World)
    requires Ready(w) && Verified(w, RINGS, BOTH, pinned, refused, w')
    ensures Step(w, Verification(RINGS, BOTH), w')
  {
    hide Verified;
  }
}
