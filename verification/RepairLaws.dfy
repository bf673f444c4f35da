/** A verification in plain terms: what is wrong, what is pinned again, and what is served then. */
module RepairLaws {
  import opened Common
  import opened Releases
  import opened Sync
  import opened Work
  import opened WorkLaws
  import opened Jobs
  import V = Verify

  /** The ring serves `q` of the channel `packages`, but other bytes, `x`, are stored under its filename. */
  predicate Misfiled(w: World, ring: Ring, arch: Arch, q: Sha, x: Sha) {
    && q in w.db.Live(ring) && q in w.db.index && w.db.index[q].source == "packages" && w.db.index[q].arch == arch
    && ("packages", arch, w.db.index[q].filename) in w.objects
    && w.objects[("packages", arch, w.db.index[q].filename)].sha == x && x != q
  }

  lemma MisfiledIs(w: World, ring: Ring, arch: Arch, q: Sha, x: Sha)
    ensures Misfiled(w, ring, arch, q, x) <==> q in V.OprRows(w, ring, arch) && V.Wrong(w, q, x)
  {}

  lemma RepinsAre(w: World, ring: Ring, arch: Arch)
    ensures forall x :: x in V.Repins(w, ring, arch) <==> exists q :: Misfiled(w, ring, arch, q, x)
  {
    forall x ensures x in V.Repins(w, ring, arch) <==> exists q :: Misfiled(w, ring, arch, q, x) {
      RepinIs(w, ring, arch, x);
      forall q ensures Misfiled(w, ring, arch, q, x) <==> q in V.OprRows(w, ring, arch) && V.Wrong(w, q, x) {
        MisfiledIs(w, ring, arch, q, x);
      }
    }
    hide *;
  }

  lemma RepinIs(w: World, ring: Ring, arch: Arch, x: Sha)
    ensures x in V.Repins(w, ring, arch) <==> exists q :: q in V.OprRows(w, ring, arch) && V.Wrong(w, q, x)
  {
    hide V.OprRows, V.Serves;
    if q :| q in V.OprRows(w, ring, arch) && V.Wrong(w, q, x) {
      assert V.Mismatch(w, q) && V.Stored(w, q) == x;
    }
  }

  /** Other bytes than the row's are stored under its filename, indexed for no package of its architecture. */
  predicate Unknown(w: World, q: Sha) {
    && q in w.db.index
    && var key := (w.db.index[q].source, w.db.index[q].arch, w.db.index[q].filename);
       && key in w.objects && w.objects[key].sha != q
       && !(w.objects[key].sha in w.db.index && w.db.index[w.objects[key].sha].arch == w.db.index[q].arch)
  }

  /** What the place serves once the pins lie over it. */
  ghost predicate LiesOver(w: World, w': World, ring: Ring, arch: Arch, pins: set<Sha>) {
    forall x :: x in RowsOf(w', ring, arch) <==>
      || x in pins
      || (x in RowsOf(w, ring, arch) && x in w'.db.index && forall y :: y in pins && y in w'.db.index ==>
            w'.db.index[y].source != w'.db.index[x].source || w'.db.index[y].name != w'.db.index[x].name
            || w'.db.index[y].arch != w'.db.index[x].arch)
  }

  /**
   * A completed verification: the pins of a visited place are bytes stored for what it serves,
   * every misfiled row has its bytes pinned unless it was refused, and each place serves
   * what it did with its pins over it.
   */
  lemma VerificationRepairs(w: World, rings: seq<Ring>, arches: seq<Arch>, pinned: map<V.Place, set<Sha>>,
      refused: set<Sha>, w': World)
    requires Good(w) && Verified(w, rings, arches, pinned, refused, w')
    ensures forall ring, arch :: (ring, arch) in pinned ==>
              ring in rings && arch in arches && pinned[(ring, arch)] != {}
    ensures forall ring, arch, x :: (ring, arch) in pinned && x in pinned[(ring, arch)] ==>
              exists q :: Misfiled(w, ring, arch, q, x)
    ensures forall ring, arch, q, x :: ring in rings && arch in arches && Misfiled(w, ring, arch, q, x) ==>
              q in refused || ((ring, arch) in pinned && x in pinned[(ring, arch)])
    ensures forall q :: q in refused ==> Unknown(w, q)
    ensures forall ring, arch ::
              LiesOver(w, w', ring, arch, if (ring, arch) in pinned then pinned[(ring, arch)] else {})
    ensures (forall a :: ("packages", a, "object.pkg") !in w.objects) ==> w'.db.index == w.db.index
  {
    hide *;
    DownloadName(w);
    VerifiedIs(w, rings, arches, pinned, refused, w');
    forall ring, arch ensures (ring, arch) in V.Places(rings, arches) <==> ring in rings && arch in arches {
      PlaceIs(rings, arches, ring, arch);
    }
    forall ring, arch
      ensures forall x :: x in V.Repins(w, ring, arch) <==> exists q :: Misfiled(w, ring, arch, q, x)
    {
      RepinsAre(w, ring, arch);
    }
    forall ring, arch, q, x | ring in rings && arch in arches && Misfiled(w, ring, arch, q, x)
      ensures q in refused || ((ring, arch) in pinned && x in pinned[(ring, arch)])
    {
      MisfiledIs(w, ring, arch, q, x);
      CoveredRow(w, (ring, arch), V.PinsAt(pinned, (ring, arch)), refused, q, x);
      PinsAre(pinned, (ring, arch));
    }
    forall ring, arch, x | (ring, arch) in pinned && x in pinned[(ring, arch)] ensures x in V.Repins(w, ring, arch) {
      PinsAre(pinned, (ring, arch));
      CoveredPin(w, (ring, arch), pinned[(ring, arch)], refused, x);
    }
    forall q | q in refused ensures Unknown(w, q) { UnknownIs(w, q); }
  }

  lemma DownloadName(w: World)
    ensures V.NoObjectPkg(w) <==> forall a :: ("packages", a, "object.pkg") !in w.objects
  {}

  lemma PlaceIs(rings: seq<Ring>, arches: seq<Arch>, ring: Ring, arch: Arch)
    ensures (ring, arch) in V.Places(rings, arches) <==> ring in rings && arch in arches
  {}

  lemma PinsAre(pinned: map<V.Place, set<Sha>>, v: V.Place)
    ensures V.PinsAt(pinned, v) == if v in pinned then pinned[v] else {}
  {}

  lemma CoveredRow(w: World, v: V.Place, pins: set<Sha>, refused: set<Sha>, q: Sha, x: Sha)
    requires V.Covers(w, v, pins, refused) && q in V.OprRows(w, v.0, v.1) && V.Wrong(w, q, x)
    ensures q in refused || x in pins
  {
    hide V.OprRows, V.Mismatch;
  }

  lemma CoveredPin(w: World, v: V.Place, pins: set<Sha>, refused: set<Sha>, x: Sha)
    requires V.Covers(w, v, pins, refused) && x in pins
    ensures x in V.Repins(w, v.0, v.1)
  {
    hide V.OprRows, V.Mismatch, V.Repins;
  }

  lemma UnknownIs(w: World, q: Sha)
    requires V.Refusable(w, q)
    ensures Unknown(w, q)
  {}

  lemma VerifiedIs(w: World, rings: seq<Ring>, arches: seq<Arch>, pinned: map<V.Place, set<Sha>>, refused: set<Sha>,
      w': World)
    requires Good(w) && Verified(w, rings, arches, pinned, refused, w')
    ensures pinned.Keys <= V.Places(rings, arches) && forall v :: v in pinned ==> pinned[v] != {}
    ensures forall v :: v in V.Places(rings, arches) ==> V.Covers(w, v, V.PinsAt(pinned, v), refused)
    ensures forall q :: q in refused ==> V.Refusable(w, q)
    ensures forall ring, arch ::
              LiesOver(w, w', ring, arch, if (ring, arch) in pinned then pinned[(ring, arch)] else {})
    ensures V.NoObjectPkg(w) ==> w'.db.index == w.db.index
  {
    var w1 :| V.SameStore(w, w1) && V.PinnedOver(w, w1, pinned)
      && V.Repaired(w, V.Places(rings, arches), pinned, refused) && RendersPinned(w1, pinned, w');
    var places: seq<V.Place> :| (forall v :: v in places <==> v in pinned) && RenderPlaces(w1, places) == Some(w');
    RepairedParts(w, V.Places(rings, arches), pinned, refused);
    hide *;
    StoreParts(w, w1);
    RendersStore(w1, places);
    forall ring, arch
      ensures LiesOver(w, w', ring, arch, if (ring, arch) in pinned then pinned[(ring, arch)] else {})
    {
      PinnedRows(w, w1, pinned, ring, arch);
      SameDb(w, w1, w', ring, arch, if (ring, arch) in pinned then pinned[(ring, arch)] else {});
    }
  }

  lemma RepairedParts(w: World, places: set<V.Place>, pinned: map<V.Place, set<Sha>>, refused: set<Sha>)
    requires V.Repaired(w, places, pinned, refused)
    ensures pinned.Keys <= places && forall v :: v in pinned ==> pinned[v] != {}
    ensures forall v :: v in places ==> V.Covers(w, v, V.PinsAt(pinned, v), refused)
    ensures forall q :: q in refused ==> V.Refusable(w, q)
  {
    hide V.Covers, V.Refusable, V.PinsAt;
  }

  lemma StoreParts(w: World, w1: World)
    requires V.SameStore(w, w1)
    ensures Good(w1) && forall p :: p in w.db.index ==> p in w1.db.index && w1.db.index[p] == w.db.index[p]
    ensures V.NoObjectPkg(w) ==> w1.db.index == w.db.index
  {
    hide Good;
  }

  lemma {:induction false} RendersStore(w: World, places: seq<V.Place>)
    requires RenderPlaces(w, places).Some?
    ensures RenderPlaces(w, places).value.db == w.db
    decreases |places|
  {
    if places != [] { RendersStore(Render(w, places[0].0, places[0].1).value, places[1..]); }
  }

  lemma PinnedRows(w: World, w1: World, pinned: map<V.Place, set<Sha>>, ring: Ring, arch: Arch)
    requires V.PinnedOver(w, w1, pinned) && Good(w1)
    requires forall p :: p in w.db.index ==> p in w1.db.index && w1.db.index[p] == w.db.index[p]
    ensures LiesOver(w, w1, ring, arch, if (ring, arch) in pinned then pinned[(ring, arch)] else {})
  {
    var v := (ring, arch);
    assert if v in pinned then V.AllKnown(w1.db, v.1, pinned[v])
        && RowsOf(w1, v.0, v.1) == V.Overlay(w1.db, RowsOf(w, v.0, v.1), pinned[v])
      else RowsOf(w1, v.0, v.1) == RowsOf(w, v.0, v.1);
    RowsIndexed(w, ring, arch);
    hide V.PinnedOver, RowsOf, Good;
  }

  lemma RowsIndexed(w: World, ring: Ring, arch: Arch)
    ensures RowsOf(w, ring, arch) <= w.db.index.Keys
  {}

  lemma SameDb(w: World, w1: World, w': World, ring: Ring, arch: Arch, pins: set<Sha>)
    requires w'.db == w1.db && LiesOver(w, w1, ring, arch, pins)
    ensures LiesOver(w, w', ring, arch, pins)
  {}
}
