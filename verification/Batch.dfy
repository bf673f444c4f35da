/**
 * A batched sync pins the pending lists of several sources as one release per
 * ring: when that equals one release per source, in any order.
 */
module Batch {
  import opened Common
  import opened Releases
  import opened Creation
  import opened Selections
  import opened SyncLaws

  /** What one source's deferred run leaves to pin and to drop from its own rows. */
  datatype Pending = Pending(source: string, add: set<Sha>, remove: set<string>)

  function Adds(ps: seq<Pending>): set<Sha> {
    if ps == [] then {} else Adds(ps[..|ps| - 1]) + ps[|ps| - 1].add
  }

  function Removes(ps: seq<Pending>): set<(string, string)> {
    set p, n | p in ps && n in p.remove :: (p.source, n)
  }

  /** One release for the whole batch. */
  function BatchRequest(ring: Ring, arch: Arch, ps: seq<Pending>): Request {
    Request(ring, None, None, Adds(ps), {}, Removes(ps), Some(arch), None)
  }

  /** The accumulators of the batch: one list of pins and one of removals per ring. */
  method Accumulate(ring: Ring, arch: Arch, ps: seq<Pending>) returns (q: Request)
    ensures q == BatchRequest(ring, arch, ps)
  {
    var add: set<Sha>, remove: set<(string, string)> := {}, {};
    var i := 0;
    while i < |ps|
      invariant 0 <= i <= |ps| && add == Adds(ps[..i]) && remove == Removes(ps[..i])
    {
      assert ps[..i + 1][..i] == ps[..i];
      RemovesStep(ps[..i], ps[i]);
      assert ps[..i] + [ps[i]] == ps[..i + 1];
      add := add + ps[i].add;
      remove := remove + set n | n in ps[i].remove :: (ps[i].source, n);
      i := i + 1;
    }
    assert ps[..i] == ps;
    q := Request(ring, None, None, add, {}, remove, Some(arch), None);
  }

  lemma RemovesStep(ps: seq<Pending>, p: Pending)
    ensures Removes(ps + [p]) == Removes(ps) + set n | n in p.remove :: (p.source, n)
  {}

  predicate Indexed(db: Db, arch: Arch, p: Pending) {
    forall x :: x in p.add ==> x in db.index && db.index[x].arch == arch
  }

  /** One source's release after another's. */
  function InTurn(db: Db, live: set<Sha>, arch: Arch, ps: seq<Pending>): set<Sha>
    requires forall p :: p in ps ==> Indexed(db, arch, p)
  {
    if ps == [] then live
    else
      var p := ps[|ps| - 1];
      assert Indexed(db, arch, p);
      Repinned(db, InTurn(db, live, arch, ps[..|ps| - 1]), p.source, arch, p.add, p.remove)
  }

  /** The whole batch at once. */
  function AtOnce(db: Db, live: set<Sha>, arch: Arch, ps: seq<Pending>): set<Sha>
    requires forall x :: x in Adds(ps) ==> x in db.index
  {
    var keys := set x | x in Adds(ps) :: db.index[x].Key();
    (set x | x in live && x in db.index && db.index[x].Key() !in keys
             && !((db.index[x].source, db.index[x].name) in Removes(ps) && db.index[x].arch == arch))
    + Adds(ps)
  }

  lemma {:induction false} AddsIndexed(db: Db, arch: Arch, ps: seq<Pending>)
    requires forall p :: p in ps ==> Indexed(db, arch, p)
    ensures forall x :: x in Adds(ps) ==> x in db.index && db.index[x].arch == arch
    ensures forall x :: x in Adds(ps) <==> exists p :: p in ps && x in p.add
  {
    if ps != [] {
      var n := |ps| - 1;
      AddsIndexed(db, arch, ps[..n]);
      assert ps == ps[..n] + [ps[n]];
      assert Indexed(db, arch, ps[n]);
    }
  }

  /** The batch's release request asks for exactly the batch at once. */
  lemma BatchRequestIsAtOnce(db: Db, ring: Ring, arch: Arch, ps: seq<Pending>)
    requires Inv(db) && forall p :: p in ps ==> Indexed(db, arch, p)
    ensures Create(db, BatchRequest(ring, arch, ps)).Ok?
    ensures (forall x :: x in Adds(ps) ==> x in db.index)
      && Asked(db, BatchRequest(ring, arch, ps)) == AtOnce(db, db.Live(ring), arch, ps)
  {
    hide *;
    AddsIndexed(db, arch, ps);
    LiveIndexedInv(db, ring);
    BatchBase(db, ring, arch, ps);
    BatchTarget(db, db.Live(ring), ring, arch, ps);
    CreateErrors(db, BatchRequest(ring, arch, ps));
    AskedIs(db, BatchRequest(ring, arch, ps), db.Live(ring));
  }

  lemma AskedIs(db: Db, q: Request, base: set<Sha>)
    requires Inv(db) && SourceOf(db, q) == Ok(None) && AllIndexed(db, q) && Base(db, q, None) == base
    ensures Asked(db, q) == Target(db, q, base)
  {
    hide Inv, SourceOf, AllIndexed, Base, Target;
  }

  /** What the request removes and replaces are the batch's own. */
  lemma BatchTarget(db: Db, live: set<Sha>, ring: Ring, arch: Arch, ps: seq<Pending>)
    requires forall x :: x in Adds(ps) ==> x in db.index && db.index[x].arch == arch
    ensures AllIndexed(db, BatchRequest(ring, arch, ps)) && !BatchRequest(ring, arch, ps).arch.Some?
    ensures Target(db, BatchRequest(ring, arch, ps), live) == AtOnce(db, live, arch, ps)
  {
    hide Adds, Removes;
    var q := BatchRequest(ring, arch, ps);
    assert AddKeys(db, q) == set x | x in Adds(ps) :: db.index[x].Key();
  }

  lemma BatchBase(db: Db, ring: Ring, arch: Arch, ps: seq<Pending>)
    requires WellParented(db.releases) && (ring !in db.heads ==> db.Live(ring) == {})
    ensures SourceOf(db, BatchRequest(ring, arch, ps)) == Ok(None)
    ensures Base(db, BatchRequest(ring, arch, ps), None) == db.Live(ring)
  {
    hide Adds, Removes;
  }

  // ---------- when the batch equals its parts ----------

  /** No package pinned so far is dropped or replaced by the next part. */
  predicate Undisturbed(db: Db, arch: Arch, pinned: set<Sha>, next: Pending)
    requires pinned <= db.index.Keys && Indexed(db, arch, next)
  {
    forall x :: x in pinned && x !in next.add ==>
      && !(db.index[x].source == next.source && db.index[x].arch == arch && db.index[x].name in next.remove)
      && (forall y :: y in next.add ==> db.index[y].Key() != db.index[x].Key())
  }

  /** What holds for one row: served at once or, after the batch so far, by the next part's release. */
  lemma OneMorePart(db: Db, live: set<Sha>, arch: Arch, ps: seq<Pending>, next: Pending, x: Sha)
    requires (forall p :: p in ps ==> Indexed(db, arch, p)) && Indexed(db, arch, next) && live <= db.index.Keys
      && x in db.index
    ensures forall y :: y in Adds(ps) || y in Adds(ps + [next]) ==> y in db.index
    ensures var kept := x in next.add
      || (!(db.index[x].source == next.source && db.index[x].arch == arch && db.index[x].name in next.remove)
                                          && (forall y :: y in next.add ==> db.index[y].Key() != db.index[x].Key()));
            && (x in Repinned(db, AtOnce(db, live, arch, ps), next.source, arch, next.add, next.remove)
                <==> x in next.add || (kept && x in AtOnce(db, live, arch, ps)))
            && (x in AtOnce(db, live, arch, ps + [next])
               <==> x in Adds(ps) || x in next.add || (kept && x in AtOnce(db, live, arch, ps)))
  {
    AddsIndexed(db, arch, ps);
    AddsIndexed(db, arch, ps + [next]);
    RemovesStep(ps, next);
    assert (ps + [next])[..|ps|] == ps;
    assert forall y :: y in Adds(ps + [next]) <==> y in Adds(ps) || y in next.add;
    hide Removes, Adds;
    var row := db.index[x];
    assert (row.source, row.name) in Removes(ps + [next])
      <==> (row.source, row.name) in Removes(ps) || (row.source == next.source && row.name in next.remove);
  }

  /**
   * Whatever the ring serves: releasing one more part after a batch gives the same
   * selection as the larger batch exactly when the part leaves the batch's pins alone.
   */
  lemma OneMorePartAgrees(db: Db, live: set<Sha>, arch: Arch, ps: seq<Pending>, next: Pending)
    requires (forall p :: p in ps ==> Indexed(db, arch, p)) && Indexed(db, arch, next) && live <= db.index.Keys
    ensures forall y :: y in Adds(ps) || y in Adds(ps + [next]) ==> y in db.index
    ensures Repinned(db, AtOnce(db, live, arch, ps), next.source, arch, next.add, next.remove)
            == AtOnce(db, live, arch, ps + [next])
            <==> Undisturbed(db, arch, Adds(ps), next)
  {
    AddsIndexed(db, arch, ps);
    AddsIndexed(db, arch, ps + [next]);
    var inTurn := Repinned(db, AtOnce(db, live, arch, ps), next.source, arch, next.add, next.remove);
    var atOnce := AtOnce(db, live, arch, ps + [next]);
    forall x | x in db.index
      ensures (x in inTurn <==> x in atOnce)
        <==> (x in Adds(ps) ==> x in next.add || (x in AtOnce(db, live, arch, ps) && x in inTurn))
      ensures x in Adds(ps) ==> x in atOnce && x in AtOnce(db, live, arch, ps)
      ensures x in inTurn ==> x in atOnce
    {
      OneMorePart(db, live, arch, ps, next, x);
    }
    forall x | x in Adds(ps) && x !in next.add
      ensures x in inTurn <==>
        && !(db.index[x].source == next.source && db.index[x].arch == arch && db.index[x].name in next.remove)
        && (forall y :: y in next.add ==> db.index[y].Key() != db.index[x].Key())
    {
      OneMorePart(db, live, arch, ps, next, x);
    }
    assert inTurn <= db.index.Keys && atOnce <= db.index.Keys;
    hide AtOnce, Repinned, Adds;
    if inTurn != atOnce {
      var x :| x in atOnce && x !in inTurn;
      assert x in Adds(ps) && x !in next.add;
    }
  }

  /** No part drops or replaces what another pins. */
  ghost predicate NoneDisturbs(db: Db, arch: Arch, ps: seq<Pending>)
    requires forall p :: p in ps ==> Indexed(db, arch, p)
  {
    forall p, r :: p in ps && r in ps ==> LeavesAlone(db, arch, p, r)
  }

  predicate LeavesAlone(db: Db, arch: Arch, p: Pending, r: Pending)
    requires Indexed(db, arch, p) && Indexed(db, arch, r)
  {
    Undisturbed(db, arch, p.add, r)
  }

  /** Parts that do not disturb each other: one release after another gives the batch. */
  lemma {:induction false} PeacefulPartsAgree(db: Db, live: set<Sha>, arch: Arch, ps: seq<Pending>)
    requires (forall p :: p in ps ==> Indexed(db, arch, p)) && NoneDisturbs(db, arch, ps) && live <= db.index.Keys
    ensures (forall x :: x in Adds(ps) ==> x in db.index) && InTurn(db, live, arch, ps) == AtOnce(db, live, arch, ps)
  {
    hide AtOnce, Repinned, Removes, LeavesAlone, Indexed;
    AddsIndexed(db, arch, ps);
    if ps == [] {
      NothingAtOnce(db, live, arch);
    } else {
      var n := |ps| - 1;
      var p := ps[n];
      PeacefulPartsAgree(db, live, arch, ps[..n]);
      LastUndisturbing(db, arch, ps);
      OneMorePartAgrees(db, live, arch, ps[..n], p);
      assert ps == ps[..n] + [p];
    }
  }

  lemma NothingAtOnce(db: Db, live: set<Sha>, arch: Arch)
    requires live <= db.index.Keys
    ensures AtOnce(db, live, arch, []) == live
  {}

  lemma LastUndisturbing(db: Db, arch: Arch, ps: seq<Pending>)
    requires ps != [] && (forall p :: p in ps ==> Indexed(db, arch, p)) && NoneDisturbs(db, arch, ps)
    ensures var n := |ps| - 1;
            && Indexed(db, arch, ps[n]) && (forall y :: y in Adds(ps[..n]) ==> y in db.index)
            && Undisturbed(db, arch, Adds(ps[..n]), ps[n])
  {
    var n := |ps| - 1;
    AddsIndexed(db, arch, ps[..n]);
    assert ps[n] in ps;
    hide Adds;
    forall x | x in Adds(ps[..n]) && x !in ps[n].add
      ensures !(db.index[x].source == ps[n].source && db.index[x].arch == arch && db.index[x].name in ps[n].remove)
      ensures forall y :: y in ps[n].add ==> db.index[y].Key() != db.index[x].Key()
    {
      var r :| r in ps[..n] && x in r.add;
      assert LeavesAlone(db, arch, r, ps[n]);
    }
  }

  /** A part released last takes away what it disturbs, which the batch would serve. */
  lemma DisturberLast(db: Db, live: set<Sha>, arch: Arch, qs: seq<Pending>, p: Pending)
    requires qs != [] && (forall r :: r in qs ==> Indexed(db, arch, r)) && live <= db.index.Keys
    requires p in qs && !LeavesAlone(db, arch, p, qs[|qs| - 1])
    ensures (forall x :: x in Adds(qs) ==> x in db.index) && InTurn(db, live, arch, qs) != AtOnce(db, live, arch, qs)
  {
    AddsIndexed(db, arch, qs);
    var last := qs[|qs| - 1];
    assert last in qs;
    var before := InTurn(db, live, arch, qs[..|qs| - 1]);
    assert InTurn(db, live, arch, qs) == Repinned(db, before, last.source, arch, last.add, last.remove);
    hide InTurn, Adds;
    var x :| x in p.add && x !in last.add &&
      ((db.index[x].source == last.source && db.index[x].arch == arch && db.index[x].name in last.remove)
       || exists y :: y in last.add && db.index[y].Key() == db.index[x].Key());
    assert x in AtOnce(db, live, arch, qs);
  }

  /** The parts in an order that ends with `last`. */
  lemma EndsWith(ps: seq<Pending>, last: Pending) returns (qs: seq<Pending>)
    requires last in ps
    ensures multiset(qs) == multiset(ps) && qs != [] && qs[|qs| - 1] == last
  {
    var i :| 0 <= i < |ps| && ps[i] == last;
    qs := ps[..i] + ps[i + 1..] + [last];
    assert ps == ps[..i] + [last] + ps[i + 1..];
  }

  lemma SameBatch(db: Db, live: set<Sha>, arch: Arch, ps: seq<Pending>, qs: seq<Pending>)
    requires (forall p :: p in ps ==> Indexed(db, arch, p)) && multiset(qs) == multiset(ps)
    ensures (forall p :: p in qs <==> p in ps) && (forall p :: p in qs ==> Indexed(db, arch, p))
    ensures (forall x :: x in Adds(ps) ==> x in db.index) && (forall x :: x in Adds(qs) ==> x in db.index)
    ensures AtOnce(db, live, arch, qs) == AtOnce(db, live, arch, ps)
  {
    SameElements(ps, qs);
    AddsIndexed(db, arch, ps);
    AddsIndexed(db, arch, qs);
    assert Removes(qs) == Removes(ps);
    assert Adds(qs) == Adds(ps);
  }

  /** One release per part, in the order of `qs`, gives what the batch gives at once. */
  ghost predicate OrderAgrees(db: Db, live: set<Sha>, arch: Arch, ps: seq<Pending>, qs: seq<Pending>)
    requires forall x :: x in Adds(ps) ==> x in db.index
  {
    (forall p :: p in qs ==> Indexed(db, arch, p)) && InTurn(db, live, arch, qs) == AtOnce(db, live, arch, ps)
  }

  ghost predicate EveryOrderAgrees(db: Db, live: set<Sha>, arch: Arch, ps: seq<Pending>)
    requires forall x :: x in Adds(ps) ==> x in db.index
  {
    forall qs :: multiset(qs) == multiset(ps) ==> OrderAgrees(db, live, arch, ps, qs)
  }

  /**
   * Whatever the ring serves: one release for the batch gives the same selection as one
   * release per part, in every order, exactly when no part disturbs what another pins.
   */
  lemma AnyOrderAgrees(db: Db, live: set<Sha>, arch: Arch, ps: seq<Pending>)
    requires (forall p :: p in ps ==> Indexed(db, arch, p)) && live <= db.index.Keys
    ensures forall x :: x in Adds(ps) ==> x in db.index
    ensures EveryOrderAgrees(db, live, arch, ps) <==> NoneDisturbs(db, arch, ps)
  {
    AddsIndexed(db, arch, ps);
    hide *;
    if NoneDisturbs(db, arch, ps) {
      forall qs: seq<Pending> | multiset(qs) == multiset(ps) ensures OrderAgrees(db, live, arch, ps, qs) {
        SameBatch(db, live, arch, ps, qs);
        SamePeace(db, arch, ps, qs);
        PeacefulPartsAgree(db, live, arch, qs);
        OrderIs(db, live, arch, ps, qs);
      }
      OrdersAgree(db, live, arch, ps);
    } else {
      var p, r := Disturbed(db, arch, ps);
      var qs := EndsWith(ps, r);
      SameBatch(db, live, arch, ps, qs);
      DisturberLast(db, live, arch, qs, p);
      OrderIs(db, live, arch, ps, qs);
      OneOrderDiffers(db, live, arch, ps, qs);
    }
  }

  lemma Disturbed(db: Db, arch: Arch, ps: seq<Pending>) returns (p: Pending, r: Pending)
    requires (forall p :: p in ps ==> Indexed(db, arch, p)) && !NoneDisturbs(db, arch, ps)
    ensures p in ps && r in ps && !LeavesAlone(db, arch, p, r)
  {
    hide LeavesAlone, Indexed;
    p, r :| p in ps && r in ps && !LeavesAlone(db, arch, p, r);
  }

  lemma SamePeace(db: Db, arch: Arch, ps: seq<Pending>, qs: seq<Pending>)
    requires (forall p :: p in ps ==> Indexed(db, arch, p)) && (forall p :: p in qs <==> p in ps)
      && NoneDisturbs(db, arch, ps)
    ensures NoneDisturbs(db, arch, qs)
  {
    hide LeavesAlone, Indexed;
  }

  lemma OrdersAgree(db: Db, live: set<Sha>, arch: Arch, ps: seq<Pending>)
    requires forall x :: x in Adds(ps) ==> x in db.index
    requires forall qs :: multiset(qs) == multiset(ps) ==> OrderAgrees(db, live, arch, ps, qs)
    ensures EveryOrderAgrees(db, live, arch, ps)
  {
    hide OrderAgrees, Adds;
  }

  lemma OneOrderDiffers(db: Db, live: set<Sha>, arch: Arch, ps: seq<Pending>, qs: seq<Pending>)
    requires forall x :: x in Adds(ps) ==> x in db.index
    requires multiset(qs) == multiset(ps) && !OrderAgrees(db, live, arch, ps, qs)
    ensures !EveryOrderAgrees(db, live, arch, ps)
  {
    hide OrderAgrees, Adds;
  }

  lemma OrderIs(db: Db, live: set<Sha>, arch: Arch, ps: seq<Pending>, qs: seq<Pending>)
    requires (forall x :: x in Adds(ps) ==> x in db.index) && (forall p :: p in qs ==> Indexed(db, arch, p))
    ensures OrderAgrees(db, live, arch, ps, qs) <==> InTurn(db, live, arch, qs) == AtOnce(db, live, arch, ps)
  {
    hide InTurn, AtOnce, Indexed, Adds;
  }

  /** Each part pins only its own source's rows, and no two parts share a source. */
  predicate OwnParts(db: Db, ps: seq<Pending>) {
    && (forall p, x :: p in ps && x in p.add ==> x in db.index && db.index[x].source == p.source)
    && (forall i, j :: 0 <= i < j < |ps| ==> ps[i].source != ps[j].source)
  }

  /** Parts that pin only their own never disturb each other. */
  lemma OwnPartsAreQuiet(db: Db, arch: Arch, ps: seq<Pending>)
    requires (forall p :: p in ps ==> Indexed(db, arch, p)) && OwnParts(db, ps)
    ensures NoneDisturbs(db, arch, ps)
  {
    forall p, r | p in ps && r in ps ensures LeavesAlone(db, arch, p, r) {
      var i :| 0 <= i < |ps| && ps[i] == p;
      var j :| 0 <= j < |ps| && ps[j] == r;
      if i != j { assert p.source != r.source; }
    }
  }

  /** A batch of own parts agrees with one release per source, in whatever order. */
  lemma OwnPartsAgree(db: Db, live: set<Sha>, arch: Arch, ps: seq<Pending>)
    requires (forall p :: p in ps ==> Indexed(db, arch, p)) && OwnParts(db, ps) && live <= db.index.Keys
    ensures (forall x :: x in Adds(ps) ==> x in db.index) && EveryOrderAgrees(db, live, arch, ps)
  {
    hide *;
    OwnPartsAreQuiet(db, arch, ps);
    AnyOrderAgrees(db, live, arch, ps);
  }

  lemma SameElements<T>(ps: seq<T>, qs: seq<T>)
    requires multiset(qs) == multiset(ps)
    ensures forall p :: p in qs <==> p in ps
  {
    assert forall p :: p in ps <==> p in multiset(ps);
    assert forall p :: p in qs <==> p in multiset(qs);
  }
}
