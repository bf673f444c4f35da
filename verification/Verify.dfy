/**
 * Verification of what the rings serve (`crates/pkg-repo/src/verify.rs`): every
 * object is downloaded once however many rings pin it, and a ring that pins bytes
 * the pool does not store is pinned again to what it stores.
 */
module Verify {
  import opened Common
  import opened Releases
  import opened Creation
  import opened Selections
  import opened Sync
  import opened SyncPool
  import opened Work
  import opened WorkLaws

  const OPR := "packages"

  /** The file the run downloads into; the stored bytes are registered under this name. */
  const OBJECT_PKG := "object.pkg"

  predicate Serves(w: World, p: Sha) {
    p in w.db.index && KeyOf(w.db.index[p]) in w.objects
  }

  /** What the pool stores where a row says its bytes are. */
  function Stored(w: World, p: Sha): Sha
    requires Serves(w, p)
  {
    w.objects[KeyOf(w.db.index[p])].sha
  }

  predicate Mismatch(w: World, p: Sha) {
    Serves(w, p) && Stored(w, p) != p
  }

  /** The row pins other bytes than the stored `x`. */
  predicate Wrong(w: World, p: Sha, x: Sha) {
    Mismatch(w, p) && Stored(w, p) == x
  }

  function OprRows(w: World, ring: Ring, arch: Arch): set<Sha> {
    set p | p in RowsOf(w, ring, arch) && w.db.index[p].source == OPR
  }

  /** What a ring must be pinned to, looked at from scratch. */
  function Repins(w: World, ring: Ring, arch: Arch): set<Sha> {
    set p | p in OprRows(w, ring, arch) && Mismatch(w, p) :: Stored(w, p)
  }

  /** An object as the run remembers it. */
  type Object3 = (Arch, string, Sha)

  function SeenKey(w: World, p: Sha): Object3
    requires p in w.db.index
  {
    (w.db.index[p].arch, w.db.index[p].filename, p)
  }

  /** What the run remembers of an object is what the pool stores. */
  ghost predicate Cached(w: World, seen: set<Object3>, stored: map<(Arch, string), Sha>) {
    && (forall k :: k in stored ==> (OPR, k.0, k.1) in w.objects && stored[k] == w.objects[(OPR, k.0, k.1)].sha)
    && (forall k: Object3 :: k in seen && (OPR, k.0, k.1) in w.objects ==> (k.0, k.1) in stored)
  }

  /** No object is stored under the name stored bytes are registered with. */
  predicate NoObjectPkg(w: World) {
    forall a :: (OPR, a, OBJECT_PKG) !in w.objects
  }

  /** The row's object was visited for an earlier ring. */
  predicate Earlier(w: World, seen: set<Object3>, p: Sha) {
    p in w.db.index && SeenKey(w, p) in seen
  }

  /** What the visited rows of one ring and architecture have come to. */
  ghost predicate Visits(w: World, w': World, arch: Arch, seen0: set<Object3>, visited: set<Sha>, repin: set<Sha>,
      refused: set<Sha>) {
    && (forall x :: x in repin ==>
       exists q :: q in visited && Wrong(w, q, x) && (Earlier(w, seen0, q) || Known(w'.db, arch, x)))
    && (forall q :: q in refused ==>
       q in visited && Mismatch(w, q) && !Earlier(w, seen0, q) && !Known(w.db, arch, Stored(w, q)))
    && (forall q :: q in visited && Mismatch(w, q) ==> q in refused || Stored(w, q) in repin)
    && (forall q :: q in visited && Mismatch(w, q) && !Earlier(w, seen0, q) ==>
       q in refused || Known(w'.db, arch, Stored(w, q)))
  }

  /** What came of one more row. */
  ghost predicate Step(w: World, w': World, arch: Arch, seen0: set<Object3>, p: Sha, repin: set<Sha>,
      refused: set<Sha>, repin': set<Sha>, refused': set<Sha>) {
    if !Mismatch(w, p) then repin' == repin && refused' == refused
    else
      || (repin' == repin + {Stored(w, p)} && refused' == refused
         && (Earlier(w, seen0, p) || Known(w'.db, arch, Stored(w, p))))
      || (repin' == repin && refused' == refused + {p} && !Earlier(w, seen0, p) && !Known(w.db, arch, Stored(w, p)))
  }

  lemma OneMoreVisit(w: World, w1: World, w2: World, arch: Arch, seen0: set<Object3>, visited: set<Sha>, p: Sha,
      repin: set<Sha>, refused: set<Sha>, repin': set<Sha>, refused': set<Sha>)
    requires Visits(w, w1, arch, seen0, visited, repin, refused) && Grows(w1, w2)
    requires Step(w, w2, arch, seen0, p, repin, refused, repin', refused')
    ensures Visits(w, w2, arch, seen0, visited + {p}, repin', refused')
  {
    hide Earlier;
    forall x | x in repin' ensures exists q :: q in visited + {p} && Wrong(w, q, x)
                                    && (Earlier(w, seen0, q) || Known(w2.db, arch, x)) {
      if x in repin {
        var q :| q in visited && Wrong(w, q, x) && (Earlier(w, seen0, q) || Known(w1.db, arch, x));
        assert q in visited + {p};
      } else {
        assert Wrong(w, p, x);
      }
    }
  }

  lemma RegisterEffect(w: World, o: Options, p: Upstream)
    ensures var (w', ok) := IndexManifest(w, o, p);
            && Grows(w, w') && w'.objects == w.objects && (ok ==> Known(w'.db, o.arch, p.sha))
            && (o.source == OPR && p.filename == OBJECT_PKG && NoObjectPkg(w) ==> w' == w && !ok)
            && (RowsOrdered(w.db.index) ==> RowsOrdered(w'.db.index))
  {
    if RowsOrdered(w.db.index) && p.sha !in w.db.index { OneMoreRow(w.db.index, p.sha, NewRow(w, o, p)); }
    hide RowsOrdered;
  }

  lemma GrowsSame(w: World)
    ensures Grows(w, w)
  {}

  lemma KnownGrows(w: World, w': World, arch: Arch, x: Sha)
    requires Grows(w, w') && Known(w.db, arch, x)
    ensures Known(w'.db, arch, x)
  {}

  /** The keys the run remembers a set of rows by. */
  function Keys(w: World, rows: set<Sha>): set<Object3> {
    set p | p in rows && p in w.db.index :: SeenKey(w, p)
  }

  lemma OneMoreKey(w: World, rows: set<Sha>, p: Sha)
    requires p in w.db.index
    ensures Keys(w, rows + {p}) == Keys(w, rows) + {SeenKey(w, p)}
    ensures SeenKey(w, p) in Keys(w, rows) <==> p in rows
  {}

  lemma CacheStays(w: World, w': World, seen: set<Object3>, stored: map<(Arch, string), Sha>)
    requires Cached(w, seen, stored) && w'.objects == w.objects
    ensures Cached(w', seen, stored)
  {}

  /** A remembered object is answered as the pool would answer. */
  lemma CacheAnswers(w: World, seen: set<Object3>, stored: map<(Arch, string), Sha>, k: Object3)
    requires Cached(w, seen, stored) && k in seen
    ensures (k.0, k.1) in stored <==> (OPR, k.0, k.1) in w.objects
    ensures (k.0, k.1) in stored ==> stored[(k.0, k.1)] == w.objects[(OPR, k.0, k.1)].sha
  {}

  lemma CacheMore(w: World, seen: set<Object3>, stored: map<(Arch, string), Sha>, k: Object3)
    requires Cached(w, seen, stored)
    ensures var o := (OPR, k.0, k.1);
            Cached(w, seen + {k}, if o in w.objects then stored[(k.0, k.1) := w.objects[o].sha] else stored)
  {}

  lemma CacheSame(w: World, seen: set<Object3>, stored: map<(Arch, string), Sha>, k: Object3)
    requires Cached(w, seen, stored) && k in seen
    ensures Cached(w, seen + {k}, stored)
  {
    assert seen + {k} == seen;
  }

  lemma OprRow(w: World, ring: Ring, arch: Arch, p: Sha)
    requires p in OprRows(w, ring, arch)
    ensures p in w.db.index && KeyOf(w.db.index[p]) == (OPR, arch, w.db.index[p].filename)
    ensures SeenKey(w, p) == (arch, w.db.index[p].filename, p)
  {}

  /** The stored bytes of a mismatch: known to the index, or registered under the download's own name. */
  method Register(w: World, ring: Ring, arch: Arch, found: Object,
      named: Sha -> (string, string)) returns (w': World, indexed: bool)
    ensures Grows(w, w') && w'.objects == w.objects && (NoObjectPkg(w) ==> w' == w)
      && (RowsOrdered(w.db.index) ==> RowsOrdered(w'.db.index))
    ensures if indexed then Known(w'.db, arch, found.sha) else !Known(w.db, arch, found.sha)
  {
    w', indexed := w, true;
    if !Known(w.db, arch, found.sha) {
      var (name, version) := named(found.sha);
      var o, manifest := Options(OPR, arch, ring, 0, {}), Upstream(name, version, OBJECT_PKG, found.sha, found.size);
      RegisterEffect(w, o, manifest);
      var (next, ok) := IndexManifest(w, o, manifest);
      w', indexed := next, ok;
    }
  }

  /** One row of a ring: downloaded and compared unless an earlier ring pinned the same bytes. */
  method CheckRow(w: World, w1: World, ring: Ring, arch: Arch, p: Sha, named: Sha -> (string, string),
      ghost seen0: set<Object3>,
                  seen: set<Object3>, stored: map<(Arch, string), Sha>, repin: set<Sha>, refused: set<Sha>)
    returns (w2: World, seen': set<Object3>, stored': map<(Arch, string), Sha>, repin': set<Sha>, refused': set<Sha>)
    requires Grows(w, w1) && w1.objects == w.objects && Cached(w, seen, stored)
    requires p in OprRows(w, ring, arch) && (SeenKey(w, p) in seen <==> SeenKey(w, p) in seen0)
    ensures Grows(w1, w2) && w2.objects == w.objects && (NoObjectPkg(w) ==> w2 == w1)
    ensures RowsOrdered(w1.db.index) ==> RowsOrdered(w2.db.index)
    ensures Cached(w, seen', stored') && seen' == seen + {SeenKey(w, p)}
    ensures Step(w, w2, arch, seen0, p, repin, refused, repin', refused')
  {
    w2, seen', stored', repin', refused' := w1, seen, stored, repin, refused;
    OprRow(w, ring, arch, p);
    var row := w.db.index[p];
    var key := (arch, row.filename, p);
    CacheMore(w, seen, stored, key);
    hide OprRows, Cached, RowsOrdered;
    if key in seen {
      CacheAnswers(w, seen, stored, key);
      if (arch, row.filename) in stored && stored[(arch, row.filename)] != p {
        repin' := repin + {stored[(arch, row.filename)]};
      }
      assert seen + {key} == seen;
      CacheSame(w, seen, stored, key);
    } else {
      seen' := seen + {key};
      if (OPR, arch, row.filename) in w1.objects {
        var found := w1.objects[(OPR, arch, row.filename)];
        stored' := stored[(arch, row.filename) := found.sha];
        if found.sha != p {
          var indexed;
          w2, indexed := Register(w1, ring, arch, found, named);
          if indexed {
            repin' := repin + {found.sha};
          } else {
            refused' := refused + {p};
          }
        }
      }
    }
  }

  /** What checking some of the rows has come to. */
  ghost predicate Viewed(w: World, w': World, arch: Arch, seen0: set<Object3>, visited: set<Sha>, seen: set<Object3>,
      stored: map<(Arch, string), Sha>, repin: set<Sha>, refused: set<Sha>) {
    && Grows(w, w') && w'.objects == w.objects && (NoObjectPkg(w) ==> w' == w)
    && (RowsOrdered(w.db.index) ==> RowsOrdered(w'.db.index))
    && Cached(w, seen, stored) && seen == seen0 + Keys(w, visited)
    && Visits(w, w', arch, seen0, visited, repin, refused)
  }

  lemma ViewedIs(w: World, w': World, arch: Arch, seen0: set<Object3>, visited: set<Sha>, seen: set<Object3>,
      stored: map<(Arch, string), Sha>, repin: set<Sha>, refused: set<Sha>)
    requires Viewed(w, w', arch, seen0, visited, seen, stored, repin, refused)
    ensures Grows(w, w') && w'.objects == w.objects && (NoObjectPkg(w) ==> w' == w)
    ensures RowsOrdered(w.db.index) ==> RowsOrdered(w'.db.index)
    ensures Cached(w, seen, stored) && seen == seen0 + Keys(w, visited)
    ensures Visits(w, w', arch, seen0, visited, repin, refused)
  {
    hide Grows, Cached, Visits, NoObjectPkg, RowsOrdered, Keys;
  }

  lemma FreshRow(w: World, arch: Arch, seen0: set<Object3>, visited: set<Sha>, p: Sha)
    requires p in w.db.index && p !in visited
    ensures SeenKey(w, p) in seen0 + Keys(w, visited) <==> SeenKey(w, p) in seen0
  {
    OneMoreKey(w, visited, p);
    hide Keys;
  }

  lemma ViewStep(w: World, w1: World, w2: World, arch: Arch, seen0: set<Object3>, visited: set<Sha>, p: Sha,
      seen: set<Object3>, stored: map<(Arch, string), Sha>, repin: set<Sha>, refused: set<Sha>,
      seen': set<Object3>, stored': map<(Arch, string), Sha>, repin': set<Sha>, refused': set<Sha>)
    requires Viewed(w, w1, arch, seen0, visited, seen, stored, repin, refused) && p in w.db.index
    requires Grows(w1, w2) && w2.objects == w.objects && (NoObjectPkg(w) ==> w2 == w1)
    requires RowsOrdered(w1.db.index) ==> RowsOrdered(w2.db.index)
    requires Cached(w, seen', stored') && seen' == seen + {SeenKey(w, p)}
    requires Step(w, w2, arch, seen0, p, repin, refused, repin', refused')
    ensures Viewed(w, w2, arch, seen0, visited + {p}, seen', stored', repin', refused')
  {
    OneMoreKey(w, visited, p);
    OneMoreVisit(w, w1, w2, arch, seen0, visited, p, repin, refused, repin', refused');
    GrowsTransitive(w, w1, w2);
    hide Grows, Cached, Visits, NoObjectPkg, RowsOrdered, Keys, Step, SeenKey;
  }

  lemma NothingVisited(w: World, arch: Arch, seen0: set<Object3>, stored: map<(Arch, string), Sha>)
    requires Cached(w, seen0, stored)
    ensures Viewed(w, w, arch, seen0, {}, seen0, stored, {}, {})
  {}

  lemma MoveOne<T>(visited: set<T>, rows: set<T>, p: T)
    requires p in rows && visited !! rows
    ensures (visited + {p}) + (rows - {p}) == visited + rows && visited + {p} !! rows - {p} && |rows - {p}| < |rows|
  {}

  /** One ring and architecture: each row of the OPR is checked once, in whatever order. */
  method VerifyView(w: World, ring: Ring, arch: Arch, seen0: set<Object3>, stored0: map<(Arch, string), Sha>,
      named: Sha -> (string, string))
    returns (w': World, seen: set<Object3>, stored: map<(Arch, string), Sha>, repin: set<Sha>, refused: set<Sha>)
    requires Cached(w, seen0, stored0)
    ensures Grows(w, w') && w'.objects == w.objects && (NoObjectPkg(w) ==> w' == w)
      && (RowsOrdered(w.db.index) ==> RowsOrdered(w'.db.index))
    ensures Cached(w', seen, stored) && seen == seen0 + Keys(w, OprRows(w, ring, arch))
    ensures Visits(w, w', arch, seen0, OprRows(w, ring, arch), repin, refused)
  {
    hide *;
    w', seen, stored, repin, refused := w, seen0, stored0, {}, {};
    var rows := OprRows(w, ring, arch);
    ghost var visited: set<Sha> := {};
    NothingVisited(w, arch, seen0, stored0);
    while rows != {}
      invariant visited + rows == OprRows(w, ring, arch) && visited !! rows
      invariant Viewed(w, w', arch, seen0, visited, seen, stored, repin, refused)
      decreases |rows|
    {
      var p :| p in rows;
      OprRow(w, ring, arch, p);
      FreshRow(w, arch, seen0, visited, p);
      ViewedIs(w, w', arch, seen0, visited, seen, stored, repin, refused);
      ghost var w1, seen1, stored1, repin1, refused1 := w', seen, stored, repin, refused;
      w', seen, stored, repin, refused := CheckRow(w, w', ring, arch, p, named, seen0, seen, stored, repin, refused);
      ViewStep(w, w1, w', arch, seen0, visited, p, seen1, stored1, repin1, refused1, seen, stored, repin, refused);
      MoveOne(visited, rows, p);
      visited, rows := visited + {p}, rows - {p};
    }
    assert visited == OprRows(w, ring, arch);
    ViewedIs(w, w', arch, seen0, visited, seen, stored, repin, refused);
    CacheStays(w, w', seen, stored);
  }

  // ---------- the whole run ----------

  /** The rows of a ring after pinning `add`. */
  function Overlay(db: Db, rows: set<Sha>, add: set<Sha>): set<Sha>
    requires add <= db.index.Keys
  {
    var keys := set p | p in add :: db.index[p].Key();
    (set p | p in rows && p in db.index && db.index[p].Key() !in keys) + add
  }

  lemma RepinAccepted(w: World, ring: Ring, arch: Arch, add: set<Sha>)
    requires Good(w) && Ready(w)
    ensures Post(w, AddRequest(ring, add, Some(arch))).Some? <==> forall p :: p in add ==> Known(w.db, arch, p)
  {
    CreateErrors(w.db, AddRequest(ring, add, Some(arch)));
    hide Inv, Create;
  }

  /** A re-pin changes one architecture of one ring, and no database. */
  lemma RepinEffect(w: World, ring: Ring, arch: Arch, add: set<Sha>)
    requires Good(w) && Ready(w) && forall p :: p in add ==> Known(w.db, arch, p)
    ensures Post(w, AddRequest(ring, add, Some(arch))).Some?
    ensures var w' := Post(w, AddRequest(ring, add, Some(arch))).value.0;
            && Good(w') && Continues(w.db.releases, w'.db.releases)
            && w'.db.index == w.db.index && w'.objects == w.objects && w'.published == w.published
            && RowsOf(w', ring, arch) == Overlay(w.db, RowsOf(w, ring, arch), add)
            && (forall r, a :: (r, a) != (ring, arch) ==> RowsOf(w', r, a) == RowsOf(w, r, a))
  {
    hide *;
    RepinAccepted(w, ring, arch, add);
    RepinPosted(w, ring, arch, add);
    RepinRows(w, Post(w, AddRequest(ring, add, Some(arch))).value.0, ring, arch, add);
  }

  /** What posting the re-pin does to the selections. */
  lemma RepinPosted(w: World, ring: Ring, arch: Arch, add: set<Sha>)
    requires Good(w) && Post(w, AddRequest(ring, add, Some(arch))).Some? && forall p :: p in add ==>
      Known(w.db, arch, p)
    ensures add <= w.db.index.Keys
    ensures var w' := Post(w, AddRequest(ring, add, Some(arch))).value.0;
            && Good(w') && Continues(w.db.releases, w'.db.releases)
            && w'.db.index == w.db.index && w'.objects == w.objects && w'.published == w.published
            && w'.db.Live(ring) == Overlay(w.db, w.db.Live(ring), add)
               && (forall r :: r != ring ==> w'.db.Live(r) == w.db.Live(r))
  {
    GoodInv(w);
    AskedAdds(w.db, ring, arch, add);
    AddAsksOf(ring, add, arch);
    AllIndexedKnown(w.db, arch, add);
    hide *;
    PostEffect(w, AddRequest(ring, add, Some(arch)));
  }

  lemma GoodInv(w: World)
    requires Good(w)
    ensures Inv(w.db)
  {}

  lemma AddAsksOf(ring: Ring, add: set<Sha>, arch: Arch)
    ensures AddRequest(ring, add, Some(arch)).ring == ring
  {}

  lemma AllIndexedKnown(db: Db, arch: Arch, add: set<Sha>)
    requires forall p :: p in add ==> Known(db, arch, p)
    ensures add <= db.index.Keys
  {}

  lemma RepinRows(w: World, w': World, ring: Ring, arch: Arch, add: set<Sha>)
    requires add <= w.db.index.Keys && forall p :: p in add ==> Known(w.db, arch, p)
    requires w'.db.index == w.db.index && w'.db.Live(ring) == Overlay(w.db, w.db.Live(ring), add)
    requires forall r :: r != ring ==> w'.db.Live(r) == w.db.Live(r)
    ensures RowsOf(w', ring, arch) == Overlay(w.db, RowsOf(w, ring, arch), add)
    ensures forall r, a :: (r, a) != (ring, arch) ==> RowsOf(w', r, a) == RowsOf(w, r, a)
  {
    OverlayRows(w.db, w.db.Live(ring), arch, add);
    forall r, a ensures RowsOf(w', r, a) == In(w.db, w'.db.Live(r), a) && RowsOf(w, r, a) == In(w.db, w.db.Live(r), a) {
      RowsAre(w, w', r, a);
    }
    hide Db.Live, Overlay, In, RowsOf, Known;
  }

  lemma RowsAre(w: World, w': World, ring: Ring, arch: Arch)
    requires w'.db.index == w.db.index
    ensures RowsOf(w', ring, arch) == In(w.db, w'.db.Live(ring), arch)
      && RowsOf(w, ring, arch) == In(w.db, w.db.Live(ring), arch)
  {}

  lemma AskedAdds(db: Db, ring: Ring, arch: Arch, add: set<Sha>)
    requires Inv(db) && forall p :: p in add ==> Known(db, arch, p)
    ensures SourceOf(db, AddRequest(ring, add, Some(arch))).Ok? && AllIndexed(db, AddRequest(ring, add, Some(arch)))
    ensures Asked(db, AddRequest(ring, add, Some(arch))) == Overlay(db, db.Live(ring), add)
  {
    LiveIndexedInv(db, ring);
    hide Inv;
    assert Base(db, AddRequest(ring, add, Some(arch)), None) == db.Live(ring);
  }

  lemma OverlayRows(db: Db, live: set<Sha>, arch: Arch, add: set<Sha>)
    requires add <= db.index.Keys && forall p :: p in add ==> Known(db, arch, p)
    ensures In(db, Overlay(db, live, add), arch) == Overlay(db, In(db, live, arch), add)
    ensures forall a :: a != arch ==> In(db, Overlay(db, live, add), a) == In(db, live, a)
  {}

  type Place = (Ring, Arch)

  predicate IndexGrows(db: Db, db': Db) {
    forall p :: p in db.index ==> p in db'.index && db'.index[p] == db.index[p]
  }

  /** Everything but the selections is as it was, or only grew. */
  ghost predicate SameStore(w0: World, w: World) {
    && Good(w) && Continues(w0.db.releases, w.db.releases) && IndexGrows(w0.db, w.db)
    && w.objects == w0.objects && w.published == w0.published
    && (NoObjectPkg(w0) ==> w.db.index == w0.db.index)
  }

  predicate AllKnown(db: Db, arch: Arch, add: set<Sha>) {
    add <= db.index.Keys && forall p :: p in add ==> Known(db, arch, p)
  }

  /** Each place serves what it did, with its pins over it. */
  ghost predicate PinnedOver(w0: World, w: World, pinned: map<Place, set<Sha>>) {
    forall v: Place ::
      if v in pinned then AllKnown(w.db, v.1, pinned[v])
        && RowsOf(w, v.0, v.1) == Overlay(w.db, RowsOf(w0, v.0, v.1), pinned[v])
      else RowsOf(w, v.0, v.1) == RowsOf(w0, v.0, v.1)
  }

  function PinsAt(pinned: map<Place, set<Sha>>, v: Place): set<Sha> { if v in pinned then pinned[v] else {} }

  /** The pins repair every mismatch of the place but the refused ones, and nothing else. */
  ghost predicate Covers(w0: World, v: Place, pins: set<Sha>, refused: set<Sha>) {
    && pins <= Repins(w0, v.0, v.1)
    && forall q :: q in OprRows(w0, v.0, v.1) && Mismatch(w0, q) ==> q in refused || Stored(w0, q) in pins
  }

  /** The index does not know the stored bytes for the row's architecture. */
  predicate Refusable(w: World, p: Sha) {
    Mismatch(w, p) && !Known(w.db, w.db.index[p].arch, Stored(w, p))
  }

  /** Two places pin the same refusable row. */
  ghost predicate Twice(w0: World, places: set<Place>) {
    exists v1, v2, q :: v1 in places && v2 in places && v1 != v2
      && q in OprRows(w0, v1.0, v1.1) && q in OprRows(w0, v2.0, v2.1) && Refusable(w0, q)
  }

  ghost predicate Repaired(w0: World, done: set<Place>, pinned: map<Place, set<Sha>>, refused: set<Sha>) {
    && pinned.Keys <= done && (forall v :: v in pinned ==> pinned[v] != {})
    && (forall v :: v in done ==> Covers(w0, v, PinsAt(pinned, v), refused))
    && (forall q :: q in refused ==> Refusable(w0, q))
  }

  ghost predicate PinnedIn(w0: World, places: set<Place>, q: Sha) {
    exists v :: v in places && q in OprRows(w0, v.0, v.1)
  }

  /** What was seen is what the places so far serve. */
  ghost predicate SeenThere(w0: World, done: set<Place>, seen: set<Object3>) {
    forall q :: q in w0.db.index ==> (SeenKey(w0, q) in seen <==> PinnedIn(w0, done, q))
  }

  // ---------- one place after another ----------

  lemma SameMismatch(w0: World, w: World, q: Sha)
    requires q in w0.db.index && IndexGrows(w0.db, w.db) && w.objects == w0.objects
    ensures Mismatch(w, q) <==> Mismatch(w0, q)
    ensures Mismatch(w0, q) ==> Stored(w, q) == Stored(w0, q)
    ensures w.db.index[q] == w0.db.index[q]
  {}

  lemma SameOprRows(w0: World, w: World, v: Place)
    requires IndexGrows(w0.db, w.db) && RowsOf(w, v.0, v.1) == RowsOf(w0, v.0, v.1)
    ensures OprRows(w, v.0, v.1) == OprRows(w0, v.0, v.1)
  {}

  lemma StoreGrows(w0: World, w: World, w1: World)
    requires SameStore(w0, w) && Grows(w, w1) && w1.objects == w.objects && (NoObjectPkg(w) ==> w1 == w)
    ensures SameStore(w0, w1)
  {
    GrowthEffect(w, w1);
    hide Good, RenderedAt;
  }

  lemma PinsGrow(w0: World, w: World, w1: World, pinned: map<Place, set<Sha>>)
    requires Good(w) && Grows(w, w1) && PinnedOver(w0, w, pinned) && IndexGrows(w0.db, w.db)
    ensures PinnedOver(w0, w1, pinned)
  {
    GrowthEffect(w, w1);
    hide Good, RenderedAt;
    forall v: Place ensures RowsOf(w1, v.0, v.1) == RowsOf(w, v.0, v.1) {}
    forall v: Place | v in pinned
      ensures AllKnown(w1.db, v.1, pinned[v])
        && Overlay(w1.db, RowsOf(w0, v.0, v.1), pinned[v]) == Overlay(w.db, RowsOf(w0, v.0, v.1), pinned[v])
    {
      OverlayGrows(w.db, w1.db, RowsOf(w0, v.0, v.1), pinned[v]);
    }
  }

  lemma OverlayGrows(db: Db, db': Db, rows: set<Sha>, add: set<Sha>)
    requires IndexGrows(db, db') && add <= db.index.Keys && rows <= db.index.Keys
    ensures add <= db'.index.Keys && Overlay(db', rows, add) == Overlay(db, rows, add)
  {}

  lemma OneMorePin(w0: World, w1: World, w2: World, pinned: map<Place, set<Sha>>, v: Place, add: set<Sha>)
    requires PinnedOver(w0, w1, pinned) && v !in pinned && AllKnown(w1.db, v.1, add) && w2.db.index == w1.db.index
    requires RowsOf(w2, v.0, v.1) == Overlay(w1.db, RowsOf(w1, v.0, v.1), add)
    requires forall r, a :: (r, a) != v ==> RowsOf(w2, r, a) == RowsOf(w1, r, a)
    ensures PinnedOver(w0, w2, pinned[v := add])
  {
    hide RowsOf;
    var pinned' := pinned[v := add];
    forall u: Place
      ensures if u in pinned' then AllKnown(w2.db, u.1, pinned'[u])
        && RowsOf(w2, u.0, u.1) == Overlay(w2.db, RowsOf(w0, u.0, u.1), pinned'[u])
              else RowsOf(w2, u.0, u.1) == RowsOf(w0, u.0, u.1)
    {
      if u != v {
        assert (u.0, u.1) == u;
        assert RowsOf(w2, u.0, u.1) == RowsOf(w1, u.0, u.1);
      }
    }
  }

  /** What a visit found at a place is what is there to find from scratch. */
  lemma ViewCovers(w0: World, w: World, w1: World, v: Place, seen: set<Object3>, repin: set<Sha>, refused: set<Sha>)
    requires IndexGrows(w0.db, w.db) && w.objects == w0.objects && RowsOf(w, v.0, v.1) == RowsOf(w0, v.0, v.1)
    requires Visits(w, w1, v.1, seen, OprRows(w, v.0, v.1), repin, refused)
    ensures Covers(w0, v, repin, refused) && forall q :: q in refused ==> Refusable(w0, q)
  {
    SameOprRows(w0, w, v);
    forall q | q in OprRows(w0, v.0, v.1)
      ensures (Mismatch(w, q) <==> Mismatch(w0, q)) && (Mismatch(w0, q) ==> Stored(w, q) == Stored(w0, q))
      ensures w0.db.index[q].arch == v.1 && (Known(w0.db, v.1, q) ==> Known(w.db, v.1, q))
    {
      SameMismatch(w0, w, q);
    }
    forall x | x in repin ensures x in Repins(w0, v.0, v.1) {
      var q :| q in OprRows(w, v.0, v.1) && Wrong(w, q, x);
    }
    forall q | q in refused ensures Refusable(w0, q) {
      assert Stored(w, q) == Stored(w0, q);
    }
  }

  lemma SeenMore(w0: World, w: World, done: set<Place>, seen: set<Object3>, v: Place)
    requires SeenThere(w0, done, seen) && IndexGrows(w0.db, w.db) && RowsOf(w, v.0, v.1) == RowsOf(w0, v.0, v.1)
    ensures SeenThere(w0, done + {v}, seen + Keys(w, OprRows(w, v.0, v.1)))
  {
    SameOprRows(w0, w, v);
    var rows := OprRows(w0, v.0, v.1);
    hide OprRows;
    forall q | q in w0.db.index
      ensures SeenKey(w0, q) in seen + Keys(w, rows) <==> PinnedIn(w0, done + {v}, q)
    {
      assert SeenKey(w0, q) in Keys(w, rows) <==> q in rows;
      if PinnedIn(w0, done, q) {
        var u :| u in done && q in OprRows(w0, u.0, u.1);
        assert u in done + {v};
      }
    }
  }

  lemma StoreIs(w0: World, w: World)
    requires SameStore(w0, w)
    ensures Good(w) && Ready(w) && IndexGrows(w0.db, w.db) && w.objects == w0.objects
    ensures NoObjectPkg(w0) ==> w.db.index == w0.db.index && NoObjectPkg(w)
  {}

  lemma PostedStore(w0: World, w: World, w': World)
    requires SameStore(w0, w) && Good(w') && Continues(w.db.releases, w'.db.releases)
    requires w'.db.index == w.db.index && w'.objects == w.objects && w'.published == w.published
    ensures SameStore(w0, w')
  {
    ContinuesTransitive(w0.db.releases, w.db.releases, w'.db.releases);
    hide Good;
  }

  lemma KnownKeys(w: World, arch: Arch, add: set<Sha>)
    requires forall p :: p in add ==> Known(w.db, arch, p)
    ensures AllKnown(w.db, arch, add)
  {}

  /** A place not visited yet serves what it did. */
  lemma UnvisitedRows(w0: World, w: World, done: set<Place>, pinned: map<Place, set<Sha>>, refused: set<Sha>, v: Place)
    requires PinnedOver(w0, w, pinned) && Repaired(w0, done, pinned, refused) && v !in done
    ensures v !in pinned && RowsOf(w, v.0, v.1) == RowsOf(w0, v.0, v.1)
  {}

  ghost predicate Running(w0: World, w: World, done: set<Place>, seen: set<Object3>,
      stored: map<(Arch, string), Sha>, pinned: map<Place, set<Sha>>, refused: set<Sha>) {
    && SameStore(w0, w) && PinnedOver(w0, w, pinned) && Cached(w, seen, stored) && SeenThere(w0, done, seen)
    && Repaired(w0, done, pinned, refused)
  }

  /** A row of a place, seen from the pool as it was before the run. */
  lemma RowOfPlace(w0: World, w: World, done: set<Place>, seen: set<Object3>, v: Place, q: Sha)
    requires SameStore(w0, w) && SeenThere(w0, done, seen) && RowsOf(w, v.0, v.1) == RowsOf(w0, v.0, v.1)
    ensures OprRows(w, v.0, v.1) == OprRows(w0, v.0, v.1)
    ensures q in OprRows(w0, v.0, v.1) ==>
      && (Earlier(w, seen, q) <==> PinnedIn(w0, done, q)) && (Mismatch(w, q) <==> Mismatch(w0, q))
      && (Mismatch(w0, q) ==> Stored(w, q) == Stored(w0, q))
      && (Refusable(w0, q) <==> Mismatch(w0, q) && !Known(w0.db, v.1, Stored(w0, q)))
  {
    SameOprRows(w0, w, v);
    if q in OprRows(w0, v.0, v.1) { SameMismatch(w0, w, q); }
    hide Good, Mismatch, Known;
  }

  /** A re-pin is refused only for bytes an earlier place found, and the index refused, before. */
  lemma UnknownPin(w0: World, w: World, w1: World, done: set<Place>, seen: set<Object3>,
      pinned: map<Place, set<Sha>>, refused: set<Sha>, v: Place, repin: set<Sha>, more: set<Sha>, x: Sha)
    requires SameStore(w0, w) && PinnedOver(w0, w, pinned) && SeenThere(w0, done, seen)
      && Repaired(w0, done, pinned, refused)
    requires v !in done && Grows(w, w1) && Visits(w, w1, v.1, seen, OprRows(w, v.0, v.1), repin, more)
    requires x in repin && !Known(w1.db, v.1, x)
    ensures exists q :: q in refused && q in OprRows(w0, v.0, v.1) && PinnedIn(w0, done, q)
  {
    var q :| q in OprRows(w, v.0, v.1) && Wrong(w, q, x) && (Earlier(w, seen, q) || Known(w1.db, v.1, x));
    RowOfPlace(w0, w, done, seen, v, q);
    var u :| u in done && q in OprRows(w0, u.0, u.1);
    assert u.1 == v.1;
    assert Covers(w0, u, PinsAt(pinned, u), refused);
    assert x in PinsAt(pinned, u) ==> AllKnown(w.db, u.1, pinned[u]);
    if Known(w.db, v.1, x) { KnownGrows(w, w1, v.1, x); }
    hide SameStore, PinnedOver, SeenThere, OprRows, Grows, Visits, Mismatch, Earlier;
  }

  lemma TwiceGrows(w0: World, done: set<Place>, v: Place)
    requires v !in done && !Twice(w0, done)
    ensures Twice(w0, done + {v})
      <==> exists q :: q in OprRows(w0, v.0, v.1) && PinnedIn(w0, done, q) && Refusable(w0, q)
  {
    hide OprRows, Refusable;
    if Twice(w0, done + {v}) {
      var v1, v2, q :| v1 in done + {v} && v2 in done + {v} && v1 != v2
        && q in OprRows(w0, v1.0, v1.1) && q in OprRows(w0, v2.0, v2.1) && Refusable(w0, q);
      assert v1 == v || v2 == v;
      assert PinnedIn(w0, done, q);
    }
    if q :| q in OprRows(w0, v.0, v.1) && PinnedIn(w0, done, q) && Refusable(w0, q) {
      var u :| u in done && q in OprRows(w0, u.0, u.1);
      assert u in done + {v} && v in done + {v};
    }
  }

  /** Without an object of that name unknown shas are refused, so a second place with the same row stops the run. */
  lemma SecondPlaceStops(w0: World, w: World, done: set<Place>, seen: set<Object3>, v: Place, repin: set<Sha>,
      more: set<Sha>)
    requires SameStore(w0, w) && NoObjectPkg(w0) && SeenThere(w0, done, seen) && v !in done
    requires RowsOf(w, v.0, v.1) == RowsOf(w0, v.0, v.1)
    requires Visits(w, w, v.1, seen, OprRows(w, v.0, v.1), repin, more)
    requires !Twice(w0, done)
    ensures Twice(w0, done + {v}) <==> exists x :: x in repin && !Known(w.db, v.1, x)
  {
    TwiceGrows(w0, done, v);
    forall q ensures SameRowOfPlace(w0, w, done, seen, v, q) {
      RowOfPlace(w0, w, done, seen, v, q);
    }
    SameIndex(w0, w);
    SameKnown(w0, w, v.1);
    hide Mismatch, SameStore, SeenThere, OprRows, Twice, PinnedIn, Earlier, Refusable, Known, RowsOf;
    if q :| q in OprRows(w0, v.0, v.1) && PinnedIn(w0, done, q) && Refusable(w0, q) {
      assert SameRowOfPlace(w0, w, done, seen, v, q);
      assert Stored(w, q) in repin;
    }
    if x :| x in repin && !Known(w.db, v.1, x) {
      var q :| q in OprRows(w, v.0, v.1) && Wrong(w, q, x) && (Earlier(w, seen, q) || Known(w.db, v.1, x));
      assert SameRowOfPlace(w0, w, done, seen, v, q);
      assert Refusable(w0, q);
    }
  }

  /** A row of the place is seen and judged now as from the start. */
  ghost predicate SameRowOfPlace(w0: World, w: World, done: set<Place>, seen: set<Object3>, v: Place, q: Sha) {
    && OprRows(w, v.0, v.1) == OprRows(w0, v.0, v.1)
    && (q in OprRows(w0, v.0, v.1) ==>
          && (Earlier(w, seen, q) <==> PinnedIn(w0, done, q)) && (Mismatch(w, q) <==> Mismatch(w0, q))
          && (Mismatch(w0, q) ==> Stored(w, q) == Stored(w0, q))
          && (Refusable(w0, q) <==> Mismatch(w0, q) && !Known(w0.db, v.1, Stored(w0, q))))
  }

  lemma SameIndex(w0: World, w: World)
    requires SameStore(w0, w) && NoObjectPkg(w0)
    ensures w.db.index == w0.db.index
  {
    hide Good, NoObjectPkg;
  }

  lemma SameKnown(w0: World, w: World, arch: Arch)
    requires w.db.index == w0.db.index
    ensures forall x :: Known(w.db, arch, x) <==> Known(w0.db, arch, x)
  {}

  lemma OneMorePlace(w0: World, done: set<Place>, pinned: map<Place, set<Sha>>, refused: set<Sha>, v: Place,
      repin: set<Sha>, more: set<Sha>)
    requires Repaired(w0, done, pinned, refused) && v !in done && Covers(w0, v, repin, more)
    requires forall q :: q in more ==> Refusable(w0, q)
    ensures Repaired(w0, done + {v}, if repin == {} then pinned else pinned[v := repin], refused + more)
  {
    var pinned' := if repin == {} then pinned else pinned[v := repin];
    forall u | u in done + {v} ensures Covers(w0, u, PinsAt(pinned', u), refused + more) {
      if u != v { assert Covers(w0, u, PinsAt(pinned, u), refused); }
    }
  }

  /** What checking a place leaves, before its pins. */
  lemma PlaceChecked(w0: World, w: World, w1: World, done: set<Place>, v: Place, seen: set<Object3>,
      stored: map<(Arch, string), Sha>,
                     pinned: map<Place, set<Sha>>, refused: set<Sha>, repin: set<Sha>, more: set<Sha>)
    requires Running(w0, w, done, seen, stored, pinned, refused) && v !in done
    requires Grows(w, w1) && w1.objects == w.objects && (NoObjectPkg(w) ==> w1 == w)
    requires Visits(w, w1, v.1, seen, OprRows(w, v.0, v.1), repin, more)
    ensures SameStore(w0, w1) && PinnedOver(w0, w1, pinned) && Good(w1) && Ready(w1) && w1.objects == w0.objects
    ensures v !in pinned && SeenThere(w0, done + {v}, seen + Keys(w, OprRows(w, v.0, v.1)))
    ensures Repaired(w0, done + {v}, if repin == {} then pinned else pinned[v := repin], refused + more)
    ensures forall x :: x in repin && !Known(w1.db, v.1, x) ==> refused != {}
  {
    RunningIs(w0, w, done, seen, stored, pinned, refused);
    UnvisitedRows(w0, w, done, pinned, refused, v);
    StoreIs(w0, w);
    hide *;
    ViewCovers(w0, w, w1, v, seen, repin, more);
    OneMorePlace(w0, done, pinned, refused, v, repin, more);
    SeenMore(w0, w, done, seen, v);
    StoreGrows(w0, w, w1);
    StoreIs(w0, w1);
    PinsGrow(w0, w, w1, pinned);
    forall x | x in repin && !Known(w1.db, v.1, x) ensures refused != {} {
      UnknownPin(w0, w, w1, done, seen, pinned, refused, v, repin, more, x);
    }
  }

  /** One place: its rows checked, then the ring pinned again when something was wrong. */
  method VisitPlace(ghost w0: World, w: World, ghost done: set<Place>, v: Place, named: Sha -> (string, string),
                    seen: set<Object3>, stored: map<(Arch, string), Sha>, pinned: map<Place, set<Sha>>,
                      refused: set<Sha>)
    returns (ok: bool, w': World, seen': set<Object3>, stored': map<(Arch, string), Sha>, pinned': map<Place, set<Sha>>,
      refused': set<Sha>)
    requires Running(w0, w, done, seen, stored, pinned, refused) && v !in done
    ensures ok ==> Running(w0, w', done + {v}, seen', stored', pinned', refused')
                   && (RowsOrdered(w.db.index) ==> RowsOrdered(w'.db.index))
    ensures refused <= refused' && (!ok ==> refused' != {})
    ensures NoObjectPkg(w0) && !Twice(w0, done) ==> (ok <==> !Twice(w0, done + {v}))
  {
    RunningIs(w0, w, done, seen, stored, pinned, refused);
    UnvisitedRows(w0, w, done, pinned, refused, v);
    StoreIs(w0, w);
    hide *;
    var w1, repin, more;
    w1, seen', stored', repin, more := VerifyView(w, v.0, v.1, seen, stored, named);
    refused', pinned' := refused + more, pinned;
    PlaceChecked(w0, w, w1, done, v, seen, stored, pinned, refused, repin, more);
    RepinAccepted(w1, v.0, v.1, repin);
    if NoObjectPkg(w0) && !Twice(w0, done) {
      SecondPlaceStops(w0, w, done, seen, v, repin, more);
    }
    ok, w' := true, w1;
    if repin != {} {
      var posted := Post(w1, AddRequest(v.0, repin, Some(v.1)));
      if posted.None? {
        ok := false;
        return;
      }
      w' := posted.value.0;
      pinned' := pinned[v := repin];
      RepinEffect(w1, v.0, v.1, repin);
      PostedStore(w0, w1, w');
      KnownKeys(w1, v.1, repin);
      OneMorePin(w0, w1, w', pinned, v, repin);
      CacheStays(w1, w', seen', stored');
    }
    IsRunning(w0, w', done + {v}, seen', stored', pinned', refused');
  }

  function Places(rings: seq<Ring>, arches: seq<Arch>): set<Place> {
    set r, a | r in rings && a in arches :: (r, a)
  }

  lemma PlacesGrow(rings: seq<Ring>, arches: seq<Arch>, i: nat, j: nat)
    requires i < |rings| && j < |arches|
    requires (forall k, l :: 0 <= k < l < |rings| ==> rings[k] != rings[l])
      && (forall k, l :: 0 <= k < l < |arches| ==> arches[k] != arches[l])
    ensures var done := Places(rings[..i], arches) + Places([rings[i]], arches[..j]);
            && (rings[i], arches[j]) !in done
            && done + {(rings[i], arches[j])} == Places(rings[..i], arches) + Places([rings[i]], arches[..j + 1])
    ensures Places(rings[..i], arches) + Places([rings[i]], arches) == Places(rings[..i + 1], arches)
  {
    assert rings[..i + 1] == rings[..i] + [rings[i]] && arches[..j + 1] == arches[..j] + [arches[j]];
  }

  lemma NoPlaces(w0: World, rings: seq<Ring>, arches: seq<Arch>)
    ensures Places(rings[..0], arches) == {} && forall r :: Places([r], arches[..0]) == {}
    ensures !Twice(w0, {})
  {}

  lemma NothingDone(w0: World)
    requires Good(w0)
    ensures Running(w0, w0, {}, {}, map[], map[], {})
  {}

  /** The pins of the places, if nothing was refused: those of looking at each place from scratch. */
  lemma CachesChangeNothing(w0: World, places: set<Place>, pinned: map<Place, set<Sha>>)
    requires Repaired(w0, places, pinned, {})
    ensures forall v :: v in places ==> PinsAt(pinned, v) == Repins(w0, v.0, v.1)
    ensures forall v :: v in pinned <==> v in places && Repins(w0, v.0, v.1) != {}
  {
    forall v | v in places ensures PinsAt(pinned, v) == Repins(w0, v.0, v.1) {
      assert Covers(w0, v, PinsAt(pinned, v), {});
    }
  }

  /**
   * The whole run. Unless the index refuses stored bytes, its caches change nothing:
   * it completes, and every place is pinned to what looking at it from scratch would
   * pin. A refusal stops the run exactly when a second place pins the same row.
   */
  method VerifyRun(w0: World, rings: seq<Ring>, arches: seq<Arch>, named: Sha -> (string, string))
    returns (ok: bool, w: World, pinned: map<Place, set<Sha>>, refused: set<Sha>)
    requires Good(w0)
    requires (forall k, l :: 0 <= k < l < |rings| ==> rings[k] != rings[l])
      && (forall k, l :: 0 <= k < l < |arches| ==> arches[k] != arches[l])
    ensures ok ==> SameStore(w0, w) && PinnedOver(w0, w, pinned) && Repaired(w0, Places(rings, arches), pinned, refused)
    ensures ok && RowsOrdered(w0.db.index) ==> RowsOrdered(w.db.index)
    ensures refused == {} ==> ok && forall v :: v in Places(rings, arches) ==> PinsAt(pinned, v) == Repins(w0, v.0, v.1)
    ensures NoObjectPkg(w0) ==> (ok <==> !Twice(w0, Places(rings, arches)))
  {
    hide *;
    ok, w, pinned, refused := true, w0, map[], {};
    var seen: set<Object3>, stored: map<(Arch, string), Sha> := {}, map[];
    NothingDone(w0);
    NoPlaces(w0, rings, arches);
    ghost var done: set<Place> := {};
    var i := 0;
    while i < |rings|
      invariant 0 <= i <= |rings| && done == Places(rings[..i], arches)
      invariant Running(w0, w, done, seen, stored, pinned, refused)
        && (RowsOrdered(w0.db.index) ==> RowsOrdered(w.db.index))
      invariant NoObjectPkg(w0) ==> !Twice(w0, done)
    {
      var j := 0;
      while j < |arches|
        invariant 0 <= j <= |arches| && done == Places(rings[..i], arches) + Places([rings[i]], arches[..j])
        invariant Running(w0, w, done, seen, stored, pinned, refused)
          && (RowsOrdered(w0.db.index) ==> RowsOrdered(w.db.index))
        invariant NoObjectPkg(w0) ==> !Twice(w0, done)
      {
        PlacesGrow(rings, arches, i, j);
        ok, w, seen, stored, pinned, refused :=
          VisitPlace(w0, w, done, (rings[i], arches[j]), named, seen, stored, pinned, refused);
        done := done + {(rings[i], arches[j])};
        if !ok {
          AllPlaces(rings, arches, i, j);
          TwiceStays(w0, done, Places(rings, arches));
          return;
        }
        j := j + 1;
      }
      assert arches[..j] == arches;
      RingDone(rings, arches, i);
      i := i + 1;
    }
    assert rings[..i] == rings;
    RunningIs(w0, w, done, seen, stored, pinned, refused);
    if refused == {} { CachesChangeNothing(w0, done, pinned); }
  }

  lemma RingDone(rings: seq<Ring>, arches: seq<Arch>, i: nat)
    requires i < |rings|
    ensures Places(rings[..i], arches) + Places([rings[i]], arches) == Places(rings[..i + 1], arches)
  {
    assert rings[..i + 1] == rings[..i] + [rings[i]];
  }

  lemma AllPlaces(rings: seq<Ring>, arches: seq<Arch>, i: nat, j: nat)
    requires i < |rings| && j < |arches|
    ensures Places(rings[..i], arches) + Places([rings[i]], arches[..j + 1]) <= Places(rings, arches)
  {}

  lemma TwiceStays(w0: World, places: set<Place>, more: set<Place>)
    requires places <= more
    ensures Twice(w0, places) ==> Twice(w0, more)
  {}

  lemma RunningIs(w0: World, w: World, done: set<Place>, seen: set<Object3>, stored: map<(Arch, string), Sha>,
      pinned: map<Place, set<Sha>>, refused: set<Sha>)
    requires Running(w0, w, done, seen, stored, pinned, refused)
    ensures SameStore(w0, w) && PinnedOver(w0, w, pinned) && Repaired(w0, done, pinned, refused)
    ensures Cached(w, seen, stored) && SeenThere(w0, done, seen)
  {}

  lemma IsRunning(w0: World, w: World, done: set<Place>, seen: set<Object3>, stored: map<(Arch, string), Sha>,
      pinned: map<Place, set<Sha>>, refused: set<Sha>)
    requires SameStore(w0, w) && PinnedOver(w0, w, pinned) && Repaired(w0, done, pinned, refused)
    requires Cached(w, seen, stored) && SeenThere(w0, done, seen)
    ensures Running(w0, w, done, seen, stored, pinned, refused)
  {}

  // ---------- a second run ----------

  /** A run finds no mismatch at the place. */
  predicate Clean(w: World, v: Place) {
    forall p :: p in OprRows(w, v.0, v.1) ==> !Mismatch(w, p)
  }

  /** Among `rows`, every wrong one is replaced by a pin of its own name, and no pin of the OPR is wrong itself. */
  predicate Replaces(w: World, rows: set<Sha>, pins: set<Sha>)
    requires rows <= w.db.index.Keys && pins <= w.db.index.Keys
  {
    && (forall q :: q in rows && Mismatch(w, q) ==> exists x :: x in pins && w.db.index[x].Key() == w.db.index[q].Key())
    && (forall x :: x in pins && w.db.index[x].source == OPR ==> !Mismatch(w, x))
  }

  lemma OprRowsIndexed(w: World, v: Place)
    ensures OprRows(w, v.0, v.1) <= w.db.index.Keys
  {}

  /** After the repair a place is clean exactly when its pins replace what was wrong, which can be checked before it. */
  lemma CleanAfterRepair(w0: World, w: World, v: Place, pins: set<Sha>)
    requires w.db.index == w0.db.index && w.objects == w0.objects && AllKnown(w0.db, v.1, pins)
    requires RowsOf(w, v.0, v.1) == Overlay(w0.db, RowsOf(w0, v.0, v.1), pins)
    ensures OprRows(w0, v.0, v.1) <= w0.db.index.Keys && (Clean(w, v) <==> Replaces(w0, OprRows(w0, v.0, v.1), pins))
  {
    OprRowsIndexed(w0, v);
    forall p | p in w0.db.index ensures Mismatch(w, p) <==> Mismatch(w0, p) {
      SameMismatch(w0, w, p);
    }
    assert forall p :: p in OprRows(w, v.0, v.1) <==>
      p in Overlay(w0.db, RowsOf(w0, v.0, v.1), pins) && w0.db.index[p].source == OPR;
    assert forall p :: p in RowsOf(w0, v.0, v.1) ==> p in w0.db.index;
    hide Mismatch, Known;
  }

  /** The stored bytes are indexed as the same package under the same filename. */
  predicate Fits(w: World, q: Sha) {
    Mismatch(w, q) ==> var x := Stored(w, q);
      x in w.db.index && w.db.index[x].Key() == w.db.index[q].Key() && w.db.index[x].filename == w.db.index[q].filename
  }

  /** When all stored bytes are indexed as the packages they are stored for, the repair leaves nothing to find. */
  lemma FittingPinsReplace(w0: World, v: Place)
    requires forall q :: q in OprRows(w0, v.0, v.1) ==> Fits(w0, q)
    ensures OprRows(w0, v.0, v.1) <= w0.db.index.Keys && AllKnown(w0.db, v.1, Repins(w0, v.0, v.1))
    ensures Replaces(w0, OprRows(w0, v.0, v.1), Repins(w0, v.0, v.1))
  {
    OprRowsIndexed(w0, v);
    forall x | x in Repins(w0, v.0, v.1) ensures Known(w0.db, v.1, x) && !Mismatch(w0, x) {
      var q :| q in OprRows(w0, v.0, v.1) && Mismatch(w0, q) && Stored(w0, q) == x;
      assert Fits(w0, q);
      OprRow(w0, v.0, v.1, q);
    }
    forall q | q in OprRows(w0, v.0, v.1) && Mismatch(w0, q)
      ensures Stored(w0, q) in Repins(w0, v.0, v.1) && w0.db.index[Stored(w0, q)].Key() == w0.db.index[q].Key()
    {
      assert Fits(w0, q);
    }
  }

  /** Where every row fits, a place whose mismatches are all pinned again has none left. */
  lemma RepairedIsClean(w0: World, w: World, v: Place, pins: set<Sha>)
    requires IndexGrows(w0.db, w.db) && w.objects == w0.objects && pins == Repins(w0, v.0, v.1)
    requires forall q :: q in OprRows(w0, v.0, v.1) ==> Fits(w0, q)
    requires if pins == {} then RowsOf(w, v.0, v.1) == RowsOf(w0, v.0, v.1)
             else pins <= w.db.index.Keys && RowsOf(w, v.0, v.1) == Overlay(w.db, RowsOf(w0, v.0, v.1), pins)
    ensures Clean(w, v)
  {
    forall p | p in OprRows(w, v.0, v.1) ensures !Mismatch(w, p) {
      if p in pins {
        PinFits(w0, w, v, p);
      } else {
        KeptFits(w0, w, v, pins, p);
      }
    }
  }

  /** What was stored for a fitting row is stored for itself. */
  lemma PinFits(w0: World, w: World, v: Place, x: Sha)
    requires IndexGrows(w0.db, w.db) && w.objects == w0.objects && x in Repins(w0, v.0, v.1)
    requires forall q :: q in OprRows(w0, v.0, v.1) ==> Fits(w0, q)
    ensures !Mismatch(w, x)
  {
    var q :| q in OprRows(w0, v.0, v.1) && Mismatch(w0, q) && Stored(w0, q) == x;
    assert Fits(w0, q);
    SameMismatch(w0, w, x);
  }

  /** A row that was neither pinned nor replaced by a pin was no mismatch. */
  lemma KeptFits(w0: World, w: World, v: Place, pins: set<Sha>, p: Sha)
    requires IndexGrows(w0.db, w.db) && w.objects == w0.objects && pins == Repins(w0, v.0, v.1)
    requires forall q :: q in OprRows(w0, v.0, v.1) ==> Fits(w0, q)
    requires if pins == {} then RowsOf(w, v.0, v.1) == RowsOf(w0, v.0, v.1)
             else pins <= w.db.index.Keys && RowsOf(w, v.0, v.1) == Overlay(w.db, RowsOf(w0, v.0, v.1), pins)
    requires p in OprRows(w, v.0, v.1) && p !in pins
    ensures !Mismatch(w, p)
  {
    assert forall q :: q in OprRows(w0, v.0, v.1) && Mismatch(w0, q) ==> Fits(w0, q) && Stored(w0, q) in pins;
    assert p in RowsOf(w0, v.0, v.1) && p in w0.db.index;
    SameMismatch(w0, w, p);
    assert p in OprRows(w0, v.0, v.1);
  }

  /**
   * After a run that refused nothing, and where the stored bytes are indexed as the
   * packages they are stored for, a second run pins nothing.
   */
  lemma SecondRunPinsNothing(w0: World, w: World, places: set<Place>, pinned: map<Place, set<Sha>>,
      again: map<Place, set<Sha>>, refused: set<Sha>)
    requires IndexGrows(w0.db, w.db) && w.objects == w0.objects
    requires PinnedOver(w0, w, pinned) && Repaired(w0, places, pinned, {})
    requires forall v, q :: v in places && q in OprRows(w0, v.0, v.1) ==> Fits(w0, q)
    requires Repaired(w, places, again, refused)
    ensures again == map[] && forall v :: v in places ==> Clean(w, v)
  {
    CachesChangeNothing(w0, places, pinned);
    forall v | v in places ensures Clean(w, v) {
      assert v in pinned ==> pinned[v] == Repins(w0, v.0, v.1);
      assert v in pinned <==> Repins(w0, v.0, v.1) != {};
      PinnedAt(w0, w, pinned, v);
      hide *;
      RepairedIsClean(w0, w, v, PinsAt(pinned, v));
    }
    forall v | v in places ensures PinsAt(again, v) == {} {
      CleanHasNoPins(w, v);
      assert Covers(w, v, PinsAt(again, v), refused);
    }
    NoPins(again, places);
  }

  lemma NoPins(pinned: map<Place, set<Sha>>, places: set<Place>)
    requires pinned.Keys <= places && forall v :: v in pinned ==> pinned[v] != {}
    requires forall v :: v in places ==> PinsAt(pinned, v) == {}
    ensures pinned == map[]
  {
    assert forall v :: v in places ==> v !in pinned;
  }

  lemma CleanHasNoPins(w: World, v: Place)
    requires Clean(w, v)
    ensures Repins(w, v.0, v.1) == {}
  {}

  lemma PinnedAt(w0: World, w: World, pinned: map<Place, set<Sha>>, v: Place)
    requires PinnedOver(w0, w, pinned) && (v in pinned ==> pinned[v] != {})
    ensures if PinsAt(pinned, v) == {} then RowsOf(w, v.0, v.1) == RowsOf(w0, v.0, v.1)
            else
              && PinsAt(pinned, v) <= w.db.index.Keys
              && RowsOf(w, v.0, v.1) == Overlay(w.db, RowsOf(w0, v.0, v.1), PinsAt(pinned, v))
  {
    hide RowsOf, Overlay;
  }

  /** Every place's pins replace what is wrong there and are right themselves, which can be told before the run. */
  predicate AllReplaced(w: World, places: set<Place>) {
    forall v :: v in places ==>
      && OprRows(w, v.0, v.1) <= w.db.index.Keys && Repins(w, v.0, v.1) <= w.db.index.Keys
      && Replaces(w, OprRows(w, v.0, v.1), Repins(w, v.0, v.1))
  }

  /**
   * After a run that refused nothing and indexed nothing, no place has a mismatch exactly
   * when all that was wrong was replaced; then a second run pins nothing, and one that
   * refuses nothing pins nothing only then.
   */
  lemma SecondRunIsQuiet(w0: World, w: World, places: set<Place>, pinned: map<Place, set<Sha>>,
      again: map<Place, set<Sha>>, refused: set<Sha>)
    requires w.db.index == w0.db.index && w.objects == w0.objects
    requires PinnedOver(w0, w, pinned) && Repaired(w0, places, pinned, {}) && Repaired(w, places, again, refused)
    ensures (forall v :: v in places ==> Clean(w, v)) <==> AllReplaced(w0, places)
    ensures AllReplaced(w0, places) ==> again == map[]
    ensures refused == {} && again == map[] ==> AllReplaced(w0, places)
  {
    CachesChangeNothing(w0, places, pinned);
    forall v | v in places
      ensures OprRows(w0, v.0, v.1) <= w0.db.index.Keys && Repins(w0, v.0, v.1) <= w0.db.index.Keys
      ensures Clean(w, v) <==> Replaces(w0, OprRows(w0, v.0, v.1), Repins(w0, v.0, v.1))
    {
      var pins := Repins(w0, v.0, v.1);
      assert v in pinned ==> pinned[v] == PinsAt(pinned, v) == pins;
      PinnedAt(w0, w, pinned, v);
      KnownPins(w0, w, pinned, v);
      hide Repaired, PinnedOver, Overlay, Replaces, Clean, Repins, PinsAt;
      NothingOver(w0, v);
      CleanAfterRepair(w0, w, v, pins);
    }
    if AllReplaced(w0, places) {
      forall v | v in places ensures PinsAt(again, v) == {} {
        CleanHasNoPins(w, v);
        assert Covers(w, v, PinsAt(again, v), refused);
      }
      NoPins(again, places);
    }
    if refused == {} && again == map[] {
      CachesChangeNothing(w, places, again);
      forall v | v in places ensures Clean(w, v) {
        assert PinsAt(again, v) == {};
        NoPinsIsClean(w, v);
      }
    }
    hide *;
  }

  lemma KnownPins(w0: World, w: World, pinned: map<Place, set<Sha>>, v: Place)
    requires w.db.index == w0.db.index && PinnedOver(w0, w, pinned)
    ensures AllKnown(w0.db, v.1, PinsAt(pinned, v))
  {
    hide RowsOf, Overlay;
  }

  lemma NothingOver(w: World, v: Place)
    ensures Overlay(w.db, RowsOf(w, v.0, v.1), {}) == RowsOf(w, v.0, v.1)
  {
    assert forall p :: p in RowsOf(w, v.0, v.1) ==> p in w.db.index;
    hide RowsOf;
  }

  lemma NoPinsIsClean(w: World, v: Place)
    requires Repins(w, v.0, v.1) == {}
    ensures Clean(w, v)
  {
    forall p | p in OprRows(w, v.0, v.1) ensures !Mismatch(w, p) {
      if Mismatch(w, p) { PinsMismatch(w, v, p); }
    }
  }

  lemma PinsMismatch(w: World, v: Place, p: Sha)
    requires p in OprRows(w, v.0, v.1) && Mismatch(w, p)
    ensures Stored(w, p) in Repins(w, v.0, v.1)
  {}
}
