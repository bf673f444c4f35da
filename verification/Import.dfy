/**
 * The parallel import of a sync (`crates/pkg-repo/src/sync.rs`, `import_all`): workers
 * draining one queue, in whatever order they come to run.
 */
module Import {
  import opened Releases
  import opened Sync
  import opened SyncLaws
  import SyncPool

  /** A worker: waiting for the queue, with a package in hand, or gone. */
  datatype Slot = Idle | Fetching(i: nat) | Uploaded(i: nat) | Stopped

  /** What follows the upload: the signature, then the manifest. */
  function Finish(w: World, o: Options, p: Upstream, d: Download): (World, bool)
    requires KeyFor(o, p) in w.objects
  {
    var stored := w.objects[KeyFor(o, p)];
    if d.Signed? && stored.hashed && stored.sha != p.sha then (w, false) else IndexManifest(w, o, p)
  }

  /** Taken one at a time, the two steps are an import. */
  lemma TwoSteps(w: World, o: Options, p: Upstream, d: Download)
    ensures KeyFor(o, p) in Upload(w, o, p).objects
    ensures ImportOne(w, o, p, d) == if Refused(p, d) then (w, false) else Finish(Upload(w, o, p), o, p, d)
  {}

  // ---------- what the workers hold ----------

  function Held(s: Slot): multiset<nat> {
    if s.Fetching? || s.Uploaded? then multiset{s.i} else multiset{}
  }

  function InFlight(slots: seq<Slot>): multiset<nat> {
    if slots == [] then multiset{} else InFlight(slots[..|slots| - 1]) + Held(slots[|slots| - 1])
  }

  lemma {:induction false} InFlightAt(slots: seq<Slot>, k: nat, s: Slot)
    requires k < |slots|
    ensures Held(slots[k]) <= InFlight(slots)
    ensures InFlight(slots[k := s]) == InFlight(slots) - Held(slots[k]) + Held(s)
  {
    hide *;
    var n := |slots| - 1;
    InFlightLast(slots);
    InFlightLast(slots[k := s]);
    if k == n {
      assert slots[k := s][..n] == slots[..n];
    } else {
      assert slots[k := s][..n] == slots[..n][k := s];
      InFlightAt(slots[..n], k, s);
      SwapHeld(InFlight(slots[..n]), Held(slots[k]), Held(s), Held(slots[n]));
    }
  }

  lemma InFlightLast(slots: seq<Slot>)
    requires slots != []
    ensures InFlight(slots) == InFlight(slots[..|slots| - 1]) + Held(slots[|slots| - 1])
  {}

  lemma SwapHeld(all: multiset<nat>, out: multiset<nat>, into: multiset<nat>, last: multiset<nat>)
    requires out <= all
    ensures out <= all + last && (all - out + into) + last == all + last - out + into
  {}

  /** Steps a worker still has to take, not counting new packages. */
  function Rank(s: Slot): nat {
    match s case Stopped => 0 case Idle => 1 case Uploaded(_) => 2 case Fetching(_) => 3
  }

  function Ranks(slots: seq<Slot>): nat {
    if slots == [] then 0 else Ranks(slots[..|slots| - 1]) + Rank(slots[|slots| - 1])
  }

  lemma {:induction false} RanksAt(slots: seq<Slot>, k: nat, s: Slot)
    requires k < |slots|
    ensures Ranks(slots[k := s]) == Ranks(slots) - Rank(slots[k]) + Rank(s)
  {
    var n := |slots| - 1;
    if k == n {
      assert slots[k := s][..n] == slots[..n];
    } else {
      RanksAt(slots[..n], k, s);
      assert slots[k := s][..n] == slots[..n][k := s];
    }
  }

  function Upto(n: nat): seq<nat> { seq(n, i => i) }

  function Reversed(n: nat): (q: seq<nat>)
    ensures |q| == n && forall i :: i in q <==> 0 <= i < n
    ensures multiset(q) == multiset(Upto(n))
  {
    if n == 0 then []
    else
      assert Upto(n)[..n - 1] == Upto(n - 1);
      assert Upto(n) == Upto(n - 1) + [n - 1];
      [n - 1] + Reversed(n - 1)
  }

  // ---------- what decides an import ----------

  /**
   * The object that lies under the package's filename decides whether it is imported: its
   * manifest is accepted over it, and the bytes are not indexed for the other architecture.
   */
  predicate Passes(w: World, w': World, o: Options, p: Upstream, d: Download) {
    && !Refused(p, d) && KeyFor(o, p) in w'.objects && TakenOver(w'.objects[KeyFor(o, p)], p, d)
    && (p.sha in w.db.index ==> w.db.index[p.sha].arch == o.arch)
  }

  /** The manifest has the object's size, and the signature is not refused for its checksum. */
  predicate TakenOver(stored: Object, p: Upstream, d: Download) {
    stored.size == p.size && !(d.Signed? && stored.hashed && stored.sha != p.sha)
  }

  /** New rows are of one architecture. */
  predicate RowsFor(w: World, w': World, arch: Arch) {
    forall x :: x in w'.db.index && x !in w.db.index ==> w'.db.index[x].arch == arch
  }

  lemma UploadEffect(w': World, o: Options, p: Upstream)
    ensures KeyFor(o, p) in Upload(w', o, p).objects && Grows(w', Upload(w', o, p)) && Upload(w', o, p).db == w'.db
  {}

  /** Finishing decides by the object that is there. */
  lemma FinishEffect(w: World, w': World, o: Options, p: Upstream, d: Download)
    requires KeyFor(o, p) in w'.objects && !Refused(p, d) && Grows(w, w') && RowsFor(w, w', o.arch)
    ensures var (w2, ok) := Finish(w', o, p, d);
            && ok == Passes(w, w2, o, p, d) && Grows(w', w2) && w2.objects == w'.objects
            && (ok ==> Known(w2.db, o.arch, p.sha))
            && (forall x :: x in w2.db.index && x !in w'.db.index ==> ok && x == p.sha && RowOf(w2.db.index[x], o, p))
  {
    hide Refused;
  }

  /** Once a package's filename holds an object, later imports change nothing for it. */
  lemma PassesStays(w: World, w': World, w2: World, o: Options, p: Upstream, d: Download)
    requires Grows(w', w2) && (KeyFor(o, p) in w'.objects || Refused(p, d))
    ensures Passes(w, w2, o, p, d) == Passes(w, w', o, p, d) && (KeyFor(o, p) in w2.objects || Refused(p, d))
  {
    hide Refused;
  }

  // ---------- every step of every worker ----------

  /** Where a package is: still queued, in the hands of a worker, or through. */
  datatype Home = Queued | Hand(worker: nat) | Over

  /** The queue, the workers' hands and the two results hold each package, where `home` says. */
  ghost predicate Placed(n: nat, queue: seq<nat>, slots: seq<Slot>, done: seq<nat>, failed: seq<nat>, home: seq<Home>) {
    && |home| == n
    && (forall i :: i in queue ==> i < n && home[i] == Queued)
    && (forall k :: 0 <= k < |slots| && (slots[k].Fetching? || slots[k].Uploaded?) ==>
       slots[k].i < n && home[slots[k].i] == Hand(k))
    && (forall i :: i in done ==> i < n && home[i] == Over)
    && (forall i :: i in failed ==> i < n && home[i] == Over)
  }

  /** Nothing is lost and nothing is done twice. */
  ghost predicate Conserved(n: nat, queue: seq<nat>, slots: seq<Slot>, done: seq<nat>, failed: seq<nat>) {
    multiset(queue) + InFlight(slots) + multiset(done) + multiset(failed) == multiset(Upto(n))
  }

  /** What the pool looks like to each package, wherever it is. */
  ghost predicate Effects(w: World, w': World, o: Options, ps: seq<Upstream>, downloads: map<string, Download>,
      slots: seq<Slot>, done: seq<nat>, failed: seq<nat>, home: seq<Home>)
    requires |home| == |ps|
  {
    && Grows(w, w')
    && Hands(w', o, ps, downloads, slots)
    && Outcomes(w, w', o, ps, downloads, done, failed)
    && RowsExplained(w, w', o, ps, done)
    && ObjectsExplained(w, w', o, ps, downloads, slots, home)
  }

  /** The package is through, or in hand with its upload behind it. */
  predicate Tried(slots: seq<Slot>, home: seq<Home>, i: nat)
    requires i < |home|
  {
    home[i] == Over || (home[i].Hand? && home[i].worker < |slots| && slots[home[i].worker] == Uploaded(i))
  }

  predicate Accepted(ps: seq<Upstream>, downloads: map<string, Download>, i: nat)
    requires i < |ps|
  {
    !Refused(ps[i], FetchOf(downloads, ps[i]))
  }

  function ObjectOf(p: Upstream): Object { Object(p.sha, p.size, p.size <= SINGLE_PUT_MAX) }

  /** The stored objects are the earlier ones and, under free keys, those of the packages uploaded so far. */
  ghost predicate ObjectsExplained(w: World, w': World, o: Options, ps: seq<Upstream>, downloads: map<string, Download>,
      slots: seq<Slot>, home: seq<Home>)
    requires |home| == |ps|
  {
    && (forall i :: 0 <= i < |ps| && Tried(slots, home, i) && Accepted(ps, downloads, i) ==>
       KeyFor(o, ps[i]) in w'.objects)
    && (forall k :: k in w'.objects && k !in w.objects ==>
          exists i :: 0 <= i < |ps| && Tried(slots, home, i) && Accepted(ps, downloads, i)
                      && k == KeyFor(o, ps[i]) && w'.objects[k] == ObjectOf(ps[i]))
  }

  /** What a worker has uploaded lies under its filename. */
  ghost predicate Hands(w': World, o: Options, ps: seq<Upstream>, downloads: map<string, Download>, slots: seq<Slot>) {
    forall k :: 0 <= k < |slots| && slots[k].Uploaded? && slots[k].i < |ps| ==>
      KeyFor(o, ps[slots[k].i]) in w'.objects && Accepted(ps, downloads, slots[k].i)
  }

  /** The object under each package's filename has decided. */
  ghost predicate Outcomes(w: World, w': World, o: Options, ps: seq<Upstream>, downloads: map<string, Download>,
      done: seq<nat>, failed: seq<nat>) {
    && (forall i :: i in done && i < |ps| ==>
       Passes(w, w', o, ps[i], FetchOf(downloads, ps[i])) && Known(w'.db, o.arch, ps[i].sha))
    && (forall i :: i in failed && i < |ps| ==>
       !Passes(w, w', o, ps[i], FetchOf(downloads, ps[i])) && Lasting(w', o, ps, downloads, i))
  }

  /** The package's filename holds an object, which stays, or the package is refused. */
  predicate Lasting(w': World, o: Options, ps: seq<Upstream>, downloads: map<string, Download>, i: nat)
    requires i < |ps|
  {
    KeyFor(o, ps[i]) in w'.objects || !Accepted(ps, downloads, i)
  }

  /** Every new row is that of a package that is through. */
  ghost predicate RowsExplained(w: World, w': World, o: Options, ps: seq<Upstream>, done: seq<nat>) {
    forall x :: x in w'.db.index && x !in w.db.index ==>
      exists i :: i in done && i < |ps| && ps[i].sha == x && RowOf(w'.db.index[x], o, ps[i])
  }

  predicate NoTwice(queue: seq<nat>) {
    forall i, j :: 0 <= i < j < |queue| ==> queue[i] != queue[j]
  }

  /** The next package goes from the queue into a worker's hands. */
  lemma TakePlaced(n: nat, queue: seq<nat>, slots: seq<Slot>, done: seq<nat>, failed: seq<nat>, home: seq<Home>, k: nat)
    requires Placed(n, queue, slots, done, failed, home) && queue != [] && k < |slots| && slots[k] == Idle
      && NoTwice(queue)
    ensures var i := queue[|queue| - 1];
            var queue' := queue[..|queue| - 1];
            i < n && home[i] == Queued && Placed(n, queue', slots[k := Fetching(i)], done, failed, home[i := Hand(k)])
              && NoTwice(queue')
  {
    var i := queue[|queue| - 1];
    var queue' := queue[..|queue| - 1];
    assert i in queue;
    forall j | j in queue' ensures j != i && j in queue {
      var m :| 0 <= m < |queue'| && queue'[m] == j;
      assert queue[m] == j;
    }
  }

  lemma TakeConserved(n: nat, queue: seq<nat>, slots: seq<Slot>, done: seq<nat>, failed: seq<nat>, k: nat)
    requires Conserved(n, queue, slots, done, failed) && queue != [] && k < |slots| && slots[k] == Idle
    ensures Conserved(n, queue[..|queue| - 1], slots[k := Fetching(queue[|queue| - 1])], done, failed)
  {
    var i := queue[|queue| - 1];
    InFlightAt(slots, k, Fetching(i));
    assert Held(Idle) == multiset{} && Held(Fetching(i)) == multiset{i};
    hide InFlight, Held, Upto;
    assert queue == queue[..|queue| - 1] + [i];
    Regroup(multiset(queue[..|queue| - 1]), InFlight(slots), multiset(done), multiset(failed), multiset{i});
  }

  lemma Regroup(q: multiset<nat>, f: multiset<nat>, d: multiset<nat>, x: multiset<nat>, i: multiset<nat>)
    ensures (q + i) + f + d + x == q + (f - multiset{} + i) + d + x
  {}

  /** A package in hand stays in hand; a worker without one may stop. */
  lemma KeepPlaced(n: nat, queue: seq<nat>, slots: seq<Slot>, done: seq<nat>, failed: seq<nat>, home: seq<Home>,
      k: nat, s: Slot)
    requires Placed(n, queue, slots, done, failed, home) && k < |slots| && Held(s) == Held(slots[k])
    ensures Placed(n, queue, slots[k := s], done, failed, home)
  {
    if s.Fetching? || s.Uploaded? {
      assert s.i in Held(s);
      assert slots[k].Fetching? || slots[k].Uploaded?;
      assert slots[k].i == s.i;
    }
  }

  lemma KeepConserved(n: nat, queue: seq<nat>, slots: seq<Slot>, done: seq<nat>, failed: seq<nat>, k: nat, s: Slot)
    requires Conserved(n, queue, slots, done, failed) && k < |slots| && Held(s) == Held(slots[k])
    ensures Conserved(n, queue, slots[k := s], done, failed)
  {
    InFlightAt(slots, k, s);
    hide InFlight, Held;
    assert InFlight(slots) - Held(slots[k]) + Held(s) == InFlight(slots);
  }

  /** A package through is recorded once, and leaves the worker's hands. */
  lemma OverPlaced(n: nat, queue: seq<nat>, slots: seq<Slot>, done: seq<nat>, failed: seq<nat>, home: seq<Home>,
      k: nat, ok: bool)
    requires Placed(n, queue, slots, done, failed, home)
    requires k < |slots| && (slots[k].Fetching? || slots[k].Uploaded?)
    ensures var i := slots[k].i;
            i < n && Placed(n, queue, slots[k := Idle], if ok then done + [i] else done, if ok then failed
              else failed + [i], home[i := Over])
  {
    var i := slots[k].i;
    forall m | 0 <= m < |slots| && m != k && (slots[m].Fetching? || slots[m].Uploaded?) ensures slots[m].i != i {
      assert home[i] == Hand(k) && home[slots[m].i] == Hand(m);
    }
  }

  lemma OverConserved(n: nat, queue: seq<nat>, slots: seq<Slot>, done: seq<nat>, failed: seq<nat>, k: nat, ok: bool)
    requires Conserved(n, queue, slots, done, failed) && k < |slots| && (slots[k].Fetching? || slots[k].Uploaded?)
    ensures var i := slots[k].i;
            Conserved(n, queue, slots[k := Idle], if ok then done + [i] else done, if ok then failed else failed + [i])
  {
    var i := slots[k].i;
    InFlightAt(slots, k, Idle);
    assert Held(Idle) == multiset{} && Held(slots[k]) == multiset{i};
    hide InFlight, Held, Upto;
    assert multiset(done + [i]) == multiset(done) + multiset{i}
      && multiset(failed + [i]) == multiset(failed) + multiset{i};
    Handed(multiset(queue), InFlight(slots), multiset(done), multiset(failed), multiset{i});
  }

  lemma Handed(q: multiset<nat>, f: multiset<nat>, d: multiset<nat>, x: multiset<nat>, i: multiset<nat>)
    requires i <= f
    ensures q + (f - i + multiset{}) + (d + i) + x == q + f + d + x
    ensures q + (f - i + multiset{}) + d + (x + i) == q + f + d + x
  {}

  lemma UploadStep(w: World, w': World, o: Options, ps: seq<Upstream>, downloads: map<string, Download>,
      slots: seq<Slot>, done: seq<nat>, failed: seq<nat>, home: seq<Home>, queue: seq<nat>, k: nat)
    requires Placed(|ps|, queue, slots, done, failed, home)
      && Effects(w, w', o, ps, downloads, slots, done, failed, home)
    requires k < |slots| && slots[k].Fetching? && !Refused(ps[slots[k].i], FetchOf(downloads, ps[slots[k].i]))
    ensures Effects(w, Upload(w', o, ps[slots[k].i]), o, ps, downloads, slots[k := Uploaded(slots[k].i)], done, failed,
      home)
  {
    hide *;
    InHand(|ps|, queue, slots, done, failed, home, k);
    EffectsAre(w, w', o, ps, downloads, slots, done, failed, home);
    var i := slots[k].i;
    var w2 := Upload(w', o, ps[i]);
    UploadEffect(w', o, ps[i]);
    GrowsTransitive(w, w', w2);
    SameOutcomes(w, w', w2, o, ps, downloads, done, failed);
    SameExplained(w, w', w2, o, ps, done);
    IsAccepted(ps, downloads, i);
    HandsUploaded(w', w2, o, ps, downloads, slots, k);
    ObjectsUploaded(w, w', o, ps, downloads, queue, slots, done, failed, home, k);
    AreEffects(w, w2, o, ps, downloads, slots[k := Uploaded(i)], done, failed, home);
  }

  lemma IsAccepted(ps: seq<Upstream>, downloads: map<string, Download>, i: nat)
    requires i < |ps|
    ensures Accepted(ps, downloads, i) <==> !Refused(ps[i], FetchOf(downloads, ps[i]))
  {
    hide Refused, FetchOf;
  }

  lemma ObjectsUploaded(w: World, w': World, o: Options, ps: seq<Upstream>, downloads: map<string, Download>,
      queue: seq<nat>, slots: seq<Slot>, done: seq<nat>, failed: seq<nat>, home: seq<Home>, k: nat)
    requires Placed(|ps|, queue, slots, done, failed, home) && ObjectsExplained(w, w', o, ps, downloads, slots, home)
    requires k < |slots| && slots[k].Fetching? && slots[k].i < |ps| && Accepted(ps, downloads, slots[k].i)
    ensures var i := slots[k].i;
            ObjectsExplained(w, Upload(w', o, ps[i]), o, ps, downloads, slots[k := Uploaded(i)], home)
  {
    var i := slots[k].i;
    UploadedTried(|ps|, queue, slots, done, failed, home, k);
    hide Placed, Tried, Accepted;
    OneMoreObject(w, w', o, ps, downloads, slots, home, slots[k := Uploaded(i)], i);
  }

  /** The upload is behind the package in hand, and no other package's has changed. */
  lemma UploadedTried(n: nat, queue: seq<nat>, slots: seq<Slot>, done: seq<nat>, failed: seq<nat>, home: seq<Home>,
      k: nat)
    requires Placed(n, queue, slots, done, failed, home) && k < |slots| && slots[k].Fetching?
    ensures |home| == n && slots[k].i < n
    ensures forall j :: 0 <= j < n ==>
      (Tried(slots[k := Uploaded(slots[k].i)], home, j) <==> Tried(slots, home, j) || j == slots[k].i)
    ensures !Tried(slots, home, slots[k].i)
  {
    var i := slots[k].i;
    var slots' := slots[k := Uploaded(i)];
    assert home[i] == Hand(k) && slots'[k] == Uploaded(i);
    forall j | 0 <= j < n && j != i ensures Tried(slots', home, j) <==> Tried(slots, home, j) {
      if home[j] == Hand(k) {
        assert slots'[k] != Uploaded(j) && slots[k] != Uploaded(j);
      }
    }
  }

  lemma OneMoreObject(w: World, w': World, o: Options, ps: seq<Upstream>, downloads: map<string, Download>,
      slots: seq<Slot>, home: seq<Home>, slots': seq<Slot>, i: nat)
    requires |home| == |ps| && ObjectsExplained(w, w', o, ps, downloads, slots, home)
    requires i < |ps| && Accepted(ps, downloads, i)
    requires forall j :: 0 <= j < |ps| ==> (Tried(slots', home, j) <==> Tried(slots, home, j) || j == i)
    ensures ObjectsExplained(w, Upload(w', o, ps[i]), o, ps, downloads, slots', home)
  {
    var w2 := Upload(w', o, ps[i]);
    hide Tried, Accepted;
    assert Tried(slots', home, i);
    forall key | key in w2.objects && key !in w.objects
      ensures exists j :: 0 <= j < |ps| && Tried(slots', home, j) && Accepted(ps, downloads, j)
                          && key == KeyFor(o, ps[j]) && w2.objects[key] == ObjectOf(ps[j])
    {
      if key in w'.objects {
        var j :| 0 <= j < |ps| && Tried(slots, home, j) && Accepted(ps, downloads, j)
          && key == KeyFor(o, ps[j]) && w'.objects[key] == ObjectOf(ps[j]);
        assert Tried(slots', home, j);
      }
    }
  }

  /** A step that stores nothing, and after which the same packages are uploaded. */
  lemma SameObjects(w: World, w': World, w2: World, o: Options, ps: seq<Upstream>, downloads: map<string, Download>,
      slots: seq<Slot>, home: seq<Home>, slots': seq<Slot>, home': seq<Home>)
    requires |home| == |ps| == |home'| && ObjectsExplained(w, w', o, ps, downloads, slots, home)
      && w2.objects == w'.objects
    requires forall j :: 0 <= j < |ps| ==>
      (Tried(slots', home', j) <==> Tried(slots, home, j)) || !Accepted(ps, downloads, j)
    ensures ObjectsExplained(w, w2, o, ps, downloads, slots', home')
  {
    hide Tried, Accepted;
    forall key | key in w2.objects && key !in w.objects
      ensures exists j :: 0 <= j < |ps| && Tried(slots', home', j) && Accepted(ps, downloads, j)
                          && key == KeyFor(o, ps[j]) && w2.objects[key] == ObjectOf(ps[j])
    {
      var j :| 0 <= j < |ps| && Tried(slots, home, j) && Accepted(ps, downloads, j)
        && key == KeyFor(o, ps[j]) && w'.objects[key] == ObjectOf(ps[j]);
    }
  }

  /** What is through stays as it was decided. */
  lemma SameOutcomes(w: World, w': World, w2: World, o: Options, ps: seq<Upstream>, downloads: map<string, Download>,
      done: seq<nat>, failed: seq<nat>)
    requires Outcomes(w, w', o, ps, downloads, done, failed) && Grows(w', w2)
    ensures Outcomes(w, w2, o, ps, downloads, done, failed)
  {
    forall i | 0 <= i < |ps| && (i in done || i in failed)
      ensures Passes(w, w2, o, ps[i], FetchOf(downloads, ps[i])) == Passes(w, w', o, ps[i], FetchOf(downloads, ps[i]))
      ensures Known(w'.db, o.arch, ps[i].sha) ==> Known(w2.db, o.arch, ps[i].sha)
      ensures Lasting(w', o, ps, downloads, i) ==> Lasting(w2, o, ps, downloads, i)
    {
      PassesStays(w, w', w2, o, ps[i], FetchOf(downloads, ps[i]));
    }
    hide Grows, Passes, FetchOf, Known, Lasting;
  }

  lemma SameExplained(w: World, w': World, w2: World, o: Options, ps: seq<Upstream>, done: seq<nat>)
    requires RowsExplained(w, w', o, ps, done) && w2.db == w'.db
    ensures RowsExplained(w, w2, o, ps, done)
  {
    hide RowOf;
  }

  lemma HandsUploaded(w': World, w2: World, o: Options, ps: seq<Upstream>, downloads: map<string, Download>,
      slots: seq<Slot>, k: nat)
    requires Hands(w', o, ps, downloads, slots) && Grows(w', w2)
    requires k < |slots| && slots[k].Fetching? && slots[k].i < |ps| && Accepted(ps, downloads, slots[k].i)
      && KeyFor(o, ps[slots[k].i]) in w2.objects
    ensures Hands(w2, o, ps, downloads, slots[k := Uploaded(slots[k].i)])
  {
    hide Accepted;
  }

  lemma OverStep(w: World, w': World, w2: World, o: Options, ps: seq<Upstream>, downloads: map<string, Download>,
      slots: seq<Slot>, done: seq<nat>, failed: seq<nat>, home: seq<Home>, queue: seq<nat>, k: nat, ok: bool)
    requires Placed(|ps|, queue, slots, done, failed, home)
      && Effects(w, w', o, ps, downloads, slots, done, failed, home)
    requires k < |slots| && (slots[k].Fetching? || slots[k].Uploaded?)
    requires Through(w, w', w2, o, ps, downloads, slots[k], ok)
    ensures var i := slots[k].i;
            Effects(w, w2, o, ps, downloads, slots[k := Idle], if ok then done + [i] else done, if ok then failed
              else failed + [i], home[i := Over])
  {
    hide *;
    InHand(|ps|, queue, slots, done, failed, home, k);
    ThroughIs(w, w', w2, o, ps, downloads, slots[k], ok);
    EffectsAre(w, w', o, ps, downloads, slots, done, failed, home);
    GrowsTransitive(w, w', w2);
    RowsOver(w, w', w2, o, ps, done, slots[k].i, ok);
    OutcomesOver(w, w', w2, o, ps, downloads, done, failed, slots[k].i, ok);
    HandsOver(w', w2, o, ps, downloads, slots, k, Idle);
    OverTried(|ps|, queue, slots, done, failed, home, k);
    SameObjects(w, w', w2, o, ps, downloads, slots, home, slots[k := Idle], home[slots[k].i := Over]);
    AreEffects(w, w2, o, ps, downloads, slots[k := Idle], if ok then done + [slots[k].i] else done,
               if ok then failed else failed + [slots[k].i], home[slots[k].i := Over]);
  }

  /** The step that ends a package: refused when fetched, or decided by what lies under its filename. */
  ghost predicate Through(w: World, w': World, w2: World, o: Options, ps: seq<Upstream>,
      downloads: map<string, Download>, s: Slot, ok: bool)
    requires s.Fetching? || s.Uploaded?
  {
    && s.i < |ps| && Grows(w', w2) && w2.objects == w'.objects && (s.Fetching? ==> !Accepted(ps, downloads, s.i))
    && ok == Passes(w, w2, o, ps[s.i], FetchOf(downloads, ps[s.i])) && Lasting(w2, o, ps, downloads, s.i)
    && (ok ==> Known(w2.db, o.arch, ps[s.i].sha))
    && (forall x :: x in w2.db.index && x !in w'.db.index ==>
          ok && x == ps[s.i].sha && RowOf(w2.db.index[x], o, ps[s.i]))
  }

  lemma ThroughIs(w: World, w': World, w2: World, o: Options, ps: seq<Upstream>, downloads: map<string, Download>,
      s: Slot, ok: bool)
    requires (s.Fetching? || s.Uploaded?) && Through(w, w', w2, o, ps, downloads, s, ok)
    ensures s.i < |ps| && Grows(w', w2) && w2.objects == w'.objects && (s.Fetching? ==> !Accepted(ps, downloads, s.i))
    ensures ok == Passes(w, w2, o, ps[s.i], FetchOf(downloads, ps[s.i])) && Lasting(w2, o, ps, downloads, s.i)
    ensures ok ==> Known(w2.db, o.arch, ps[s.i].sha)
    ensures forall x :: x in w2.db.index && x !in w'.db.index ==>
      ok && x == ps[s.i].sha && RowOf(w2.db.index[x], o, ps[s.i])
  {}

  lemma OverTried(n: nat, queue: seq<nat>, slots: seq<Slot>, done: seq<nat>, failed: seq<nat>, home: seq<Home>, k: nat)
    requires Placed(n, queue, slots, done, failed, home) && k < |slots| && (slots[k].Fetching? || slots[k].Uploaded?)
    ensures |home| == n && slots[k].i < n
    ensures forall j :: 0 <= j < n && (j == slots[k].i ==> slots[k].Uploaded?) ==>
      (Tried(slots[k := Idle], home[slots[k].i := Over], j) <==> Tried(slots, home, j))
  {}

  lemma InHand(n: nat, queue: seq<nat>, slots: seq<Slot>, done: seq<nat>, failed: seq<nat>, home: seq<Home>, k: nat)
    requires Placed(n, queue, slots, done, failed, home) && k < |slots| && (slots[k].Fetching? || slots[k].Uploaded?)
    ensures |home| == n && slots[k].i < n
  {}

  lemma EffectsAre(w: World, w': World, o: Options, ps: seq<Upstream>, downloads: map<string, Download>,
      slots: seq<Slot>, done: seq<nat>, failed: seq<nat>, home: seq<Home>)
    requires |home| == |ps| && Effects(w, w', o, ps, downloads, slots, done, failed, home)
    ensures Grows(w, w') && Hands(w', o, ps, downloads, slots)
    ensures Outcomes(w, w', o, ps, downloads, done, failed) && RowsExplained(w, w', o, ps, done)
    ensures ObjectsExplained(w, w', o, ps, downloads, slots, home)
  {
    hide Grows, Hands, Outcomes, RowsExplained, ObjectsExplained;
  }

  lemma AreEffects(w: World, w': World, o: Options, ps: seq<Upstream>, downloads: map<string, Download>,
      slots: seq<Slot>, done: seq<nat>, failed: seq<nat>, home: seq<Home>)
    requires |home| == |ps| && Grows(w, w') && Hands(w', o, ps, downloads, slots)
    requires Outcomes(w, w', o, ps, downloads, done, failed) && RowsExplained(w, w', o, ps, done)
    requires ObjectsExplained(w, w', o, ps, downloads, slots, home)
    ensures Effects(w, w', o, ps, downloads, slots, done, failed, home)
  {
    hide Grows, Hands, Outcomes, RowsExplained, ObjectsExplained;
  }

  lemma OutcomesOver(w: World, w': World, w2: World, o: Options, ps: seq<Upstream>, downloads: map<string, Download>,
      done: seq<nat>, failed: seq<nat>, i: nat, ok: bool)
    requires Outcomes(w, w', o, ps, downloads, done, failed) && i < |ps| && Grows(w', w2)
    requires ok == Passes(w, w2, o, ps[i], FetchOf(downloads, ps[i])) && Lasting(w2, o, ps, downloads, i)
    requires ok ==> Known(w2.db, o.arch, ps[i].sha)
    ensures Outcomes(w, w2, o, ps, downloads, if ok then done + [i] else done, if ok then failed else failed + [i])
  {
    SameOutcomes(w, w', w2, o, ps, downloads, done, failed);
    hide Grows, Passes, FetchOf, Known, Lasting;
  }

  /** A worker that has nothing uploaded in hand, or has put it down. */
  lemma HandsOver(w': World, w2: World, o: Options, ps: seq<Upstream>, downloads: map<string, Download>,
      slots: seq<Slot>, k: nat, s: Slot)
    requires Hands(w', o, ps, downloads, slots) && k < |slots| && !s.Uploaded? && w2.objects == w'.objects
    ensures Hands(w2, o, ps, downloads, slots[k := s])
  {
    hide Accepted;
  }

  /** Every row a step adds is that of a package that is through. */
  lemma RowsOver(w: World, w': World, w2: World, o: Options, ps: seq<Upstream>, done: seq<nat>, i: nat, ok: bool)
    requires i < |ps| && Grows(w, w') && Grows(w', w2)
    requires forall x :: x in w2.db.index && x !in w'.db.index ==>
      ok && x == ps[i].sha && RowOf(w2.db.index[x], o, ps[i])
    requires RowsExplained(w, w', o, ps, done)
    ensures RowsExplained(w, w2, o, ps, if ok then done + [i] else done)
  {
    var done' := if ok then done + [i] else done;
    assert forall j :: j in done ==> j in done';
    hide RowOf;
    forall x | x in w2.db.index && x !in w.db.index
      ensures exists j :: j in done' && j < |ps| && ps[j].sha == x && RowOf(w2.db.index[x], o, ps[j])
    {
      if x in w'.db.index {
        var j :| j in done && j < |ps| && ps[j].sha == x && RowOf(w'.db.index[x], o, ps[j]);
        assert j in done' && w2.db.index[x] == w'.db.index[x];
      } else {
        assert i in done';
      }
    }
  }

  ghost predicate Working(w: World, w': World, o: Options, ps: seq<Upstream>, downloads: map<string, Download>,
      queue: seq<nat>, slots: seq<Slot>, done: seq<nat>, failed: seq<nat>, home: seq<Home>) {
    && Placed(|ps|, queue, slots, done, failed, home) && Conserved(|ps|, queue, slots, done, failed)
    && Effects(w, w', o, ps, downloads, slots, done, failed, home)
    && NoTwice(queue) && (Stopped in slots ==> queue == [])
  }

  lemma StartsWorking(w: World, o: Options, ps: seq<Upstream>, downloads: map<string, Download>, workers: nat)
    ensures Working(w, w, o, ps, downloads, Reversed(|ps|), seq(workers, _ => Idle), [], [], seq(|ps|, _ => Queued))
  {
    hide *;
    var slots, home := seq(workers, _ => Idle), seq(|ps|, _ => Queued);
    StartsPlaced(|ps|, workers);
    StartsEffects(w, o, ps, downloads, workers);
    ReversedDistinct(|ps|);
    NoneStopped(slots, workers);
    IsWorking(w, w, o, ps, downloads, Reversed(|ps|), slots, [], [], home);
  }

  lemma NoneStopped(slots: seq<Slot>, workers: nat)
    requires slots == seq(workers, _ => Idle)
    ensures Stopped !in slots && forall k :: 0 <= k < |slots| ==> slots[k] == Idle
  {}

  lemma StartsPlaced(n: nat, workers: nat)
    ensures Placed(n, Reversed(n), seq(workers, _ => Idle), [], [], seq(n, _ => Queued))
    ensures Conserved(n, Reversed(n), seq(workers, _ => Idle), [], [])
  {
    NoneStopped(seq(workers, _ => Idle), workers);
    NothingHeld(seq(workers, _ => Idle));
    hide InFlight, Reversed;
  }

  lemma StartsEffects(w: World, o: Options, ps: seq<Upstream>, downloads: map<string, Download>, workers: nat)
    ensures Effects(w, w, o, ps, downloads, seq(workers, _ => Idle), [], [], seq(|ps|, _ => Queued))
  {
    hide Passes, Known, FetchOf, RowOf;
  }

  lemma {:induction false} NothingHeld(slots: seq<Slot>)
    requires forall k :: 0 <= k < |slots| ==> slots[k] == Idle || slots[k] == Stopped
    ensures InFlight(slots) == multiset{}
  {
    if slots != [] {
      NothingHeld(slots[..|slots| - 1]);
    }
  }

  lemma {:induction false} ReversedDistinct(n: nat)
    ensures NoTwice(Reversed(n))
  {
    if n > 0 {
      ReversedDistinct(n - 1);
      var q := Reversed(n);
      assert q[1..] == Reversed(n - 1);
      forall i, j | 0 <= i < j < |q| ensures q[i] != q[j] {
        assert q[j] == Reversed(n - 1)[j - 1];
        if i == 0 { assert q[j] in Reversed(n - 1); } else { assert q[i] == Reversed(n - 1)[i - 1]; }
      }
    }
  }

  lemma WorkingIs(w: World, w': World, o: Options, ps: seq<Upstream>, downloads: map<string, Download>,
      queue: seq<nat>, slots: seq<Slot>, done: seq<nat>, failed: seq<nat>, home: seq<Home>)
    requires Working(w, w', o, ps, downloads, queue, slots, done, failed, home)
    ensures Placed(|ps|, queue, slots, done, failed, home) && Conserved(|ps|, queue, slots, done, failed)
    ensures Effects(w, w', o, ps, downloads, slots, done, failed, home) && NoTwice(queue)
      && (Stopped in slots ==> queue == [])
  {}

  lemma IsWorking(w: World, w': World, o: Options, ps: seq<Upstream>, downloads: map<string, Download>,
      queue: seq<nat>, slots: seq<Slot>, done: seq<nat>, failed: seq<nat>, home: seq<Home>)
    requires Placed(|ps|, queue, slots, done, failed, home) && Conserved(|ps|, queue, slots, done, failed)
    requires Effects(w, w', o, ps, downloads, slots, done, failed, home) && NoTwice(queue)
      && (Stopped in slots ==> queue == [])
    ensures Working(w, w', o, ps, downloads, queue, slots, done, failed, home)
  {}

  lemma HandIs(n: nat, queue: seq<nat>, slots: seq<Slot>, done: seq<nat>, failed: seq<nat>, home: seq<Home>, k: nat)
    requires Placed(n, queue, slots, done, failed, home) && k < |slots| && (slots[k].Fetching? || slots[k].Uploaded?)
    ensures slots[k].i < n
  {}

  lemma StoppedAt(slots: seq<Slot>, k: nat, s: Slot)
    requires k < |slots|
    ensures Stopped in slots[k := s] ==> s == Stopped || Stopped in slots
  {}

  /** The next package off the queue. */
  lemma TakeStep(w: World, w': World, o: Options, ps: seq<Upstream>, downloads: map<string, Download>,
      queue: seq<nat>, slots: seq<Slot>, done: seq<nat>, failed: seq<nat>, home: seq<Home>, k: nat)
    requires Working(w, w', o, ps, downloads, queue, slots, done, failed, home) && queue != [] && k < |slots|
      && slots[k] == Idle
    ensures var i := queue[|queue| - 1];
            i < |ps| && |home| == |ps|
              && Working(w, w', o, ps, downloads, queue[..|queue| - 1], slots[k := Fetching(i)], done, failed,
                 home[i := Hand(k)])
  {
    hide *;
    WorkingIs(w, w', o, ps, downloads, queue, slots, done, failed, home);
    var i := queue[|queue| - 1];
    TakePlaced(|ps|, queue, slots, done, failed, home, k);
    TakeConserved(|ps|, queue, slots, done, failed, k);
    TakeEffects(w, w', o, ps, downloads, slots, done, failed, home, i, k);
    StoppedAt(slots, k, Fetching(i));
    IsWorking(w, w', o, ps, downloads, queue[..|queue| - 1], slots[k := Fetching(i)], done, failed, home[i := Hand(k)]);
  }

  lemma TakeEffects(w: World, w': World, o: Options, ps: seq<Upstream>, downloads: map<string, Download>,
      slots: seq<Slot>, done: seq<nat>, failed: seq<nat>, home: seq<Home>, i: nat, k: nat)
    requires |home| == |ps| && i < |ps| && home[i] == Queued && k < |slots| && slots[k] == Idle
    requires Effects(w, w', o, ps, downloads, slots, done, failed, home)
    ensures Effects(w, w', o, ps, downloads, slots[k := Fetching(i)], done, failed, home[i := Hand(k)])
  {
    SameObjects(w, w', w', o, ps, downloads, slots, home, slots[k := Fetching(i)], home[i := Hand(k)]);
    HandsOver(w', w', o, ps, downloads, slots, k, Fetching(i));
    hide Hands, Grows, FetchOf, Outcomes, RowsExplained, ObjectsExplained;
  }

  lemma StopStep(w: World, w': World, o: Options, ps: seq<Upstream>, downloads: map<string, Download>,
      slots: seq<Slot>, done: seq<nat>, failed: seq<nat>, home: seq<Home>, k: nat)
    requires Working(w, w', o, ps, downloads, [], slots, done, failed, home) && k < |slots| && slots[k] == Idle
    ensures Working(w, w', o, ps, downloads, [], slots[k := Stopped], done, failed, home)
  {
    assert Held(Stopped) == Held(Idle);
    hide *;
    WorkingIs(w, w', o, ps, downloads, [], slots, done, failed, home);
    KeepPlaced(|ps|, [], slots, done, failed, home, k, Stopped);
    KeepConserved(|ps|, [], slots, done, failed, k, Stopped);
    HomeSize(|ps|, [], slots, done, failed, home);
    StopEffects(w, w', o, ps, downloads, slots, done, failed, home, k);
    IsWorking(w, w', o, ps, downloads, [], slots[k := Stopped], done, failed, home);
  }

  lemma StopEffects(w: World, w': World, o: Options, ps: seq<Upstream>, downloads: map<string, Download>,
      slots: seq<Slot>, done: seq<nat>, failed: seq<nat>, home: seq<Home>, k: nat)
    requires |home| == |ps| && k < |slots| && slots[k] == Idle
    requires Effects(w, w', o, ps, downloads, slots, done, failed, home)
    ensures Effects(w, w', o, ps, downloads, slots[k := Stopped], done, failed, home)
  {
    SameObjects(w, w', w', o, ps, downloads, slots, home, slots[k := Stopped], home);
    HandsOver(w', w', o, ps, downloads, slots, k, Stopped);
    hide Hands, Grows, FetchOf, Outcomes, RowsExplained, ObjectsExplained;
  }

  lemma StoreStep(w: World, w': World, o: Options, ps: seq<Upstream>, downloads: map<string, Download>,
      queue: seq<nat>, slots: seq<Slot>, done: seq<nat>, failed: seq<nat>, home: seq<Home>, k: nat)
    requires Working(w, w', o, ps, downloads, queue, slots, done, failed, home)
    requires k < |slots| && slots[k].Fetching? && slots[k].i < |ps|
      && !Refused(ps[slots[k].i], FetchOf(downloads, ps[slots[k].i]))
    ensures Working(w, Upload(w', o, ps[slots[k].i]), o, ps, downloads, queue, slots[k := Uploaded(slots[k].i)], done,
      failed, home)
  {
    SameHands(slots[k].i);
    hide *;
    WorkingIs(w, w', o, ps, downloads, queue, slots, done, failed, home);
    var s := Uploaded(slots[k].i);
    KeepPlaced(|ps|, queue, slots, done, failed, home, k, s);
    KeepConserved(|ps|, queue, slots, done, failed, k, s);
    UploadStep(w, w', o, ps, downloads, slots, done, failed, home, queue, k);
    StoppedAt(slots, k, s);
    IsWorking(w, Upload(w', o, ps[slots[k].i]), o, ps, downloads, queue, slots[k := s], done, failed, home);
  }

  lemma SameHands(i: nat)
    ensures Held(Uploaded(i)) == Held(Fetching(i))
  {}

  /** A package that is through, with the pool it leaves. */
  lemma ThroughStep(w: World, w': World, w2: World, o: Options, ps: seq<Upstream>, downloads: map<string, Download>,
      queue: seq<nat>, slots: seq<Slot>, done: seq<nat>, failed: seq<nat>, home: seq<Home>, k: nat, ok: bool)
    requires Working(w, w', o, ps, downloads, queue, slots, done, failed, home)
    requires k < |slots| && (slots[k].Fetching? || slots[k].Uploaded?) && slots[k].i < |ps|
    requires Through(w, w', w2, o, ps, downloads, slots[k], ok)
    ensures var i := slots[k].i;
            |home| == |ps| && Working(w, w2, o, ps, downloads, queue, slots[k := Idle], if ok then done + [i]
              else done, if ok then failed else failed + [i], home[i := Over])
  {
    hide *;
    WorkingIs(w, w', o, ps, downloads, queue, slots, done, failed, home);
    var i := slots[k].i;
    OverPlaced(|ps|, queue, slots, done, failed, home, k, ok);
    OverConserved(|ps|, queue, slots, done, failed, k, ok);
    OverStep(w, w', w2, o, ps, downloads, slots, done, failed, home, queue, k, ok);
    StoppedAt(slots, k, Idle);
    HomeSize(|ps|, queue, slots, done, failed, home);
    IsWorking(w, w2, o, ps, downloads, queue, slots[k := Idle], if ok then done + [i] else done, if ok then failed
      else failed + [i], home[i := Over]);
  }

  lemma HomeSize(n: nat, queue: seq<nat>, slots: seq<Slot>, done: seq<nat>, failed: seq<nat>, home: seq<Home>)
    requires Placed(n, queue, slots, done, failed, home)
    ensures |home| == n
  {}

  /** The package was refused: it is not imported, and nothing was written. */
  lemma RefusedFacts(w: World, w': World, o: Options, ps: seq<Upstream>, downloads: map<string, Download>, i: nat)
    requires i < |ps| && Refused(ps[i], FetchOf(downloads, ps[i]))
    ensures Through(w, w', w', o, ps, downloads, Fetching(i), false)
  {
    hide Refused, FetchOf;
  }

  lemma FinishFacts(w: World, w': World, o: Options, ps: seq<Upstream>, downloads: map<string, Download>,
      slots: seq<Slot>, done: seq<nat>, failed: seq<nat>, home: seq<Home>, k: nat)
    requires |home| == |ps| && Effects(w, w', o, ps, downloads, slots, done, failed, home)
    requires k < |slots| && slots[k].Uploaded? && slots[k].i < |ps|
    ensures var p := ps[slots[k].i];
            && KeyFor(o, p) in w'.objects
            && var (w2, ok) := Finish(w', o, p, FetchOf(downloads, p));
               Through(w, w', w2, o, ps, downloads, slots[k], ok)
  {
    hide *;
    EffectsAre(w, w', o, ps, downloads, slots, done, failed, home);
    UploadedIs(w', o, ps, downloads, slots, k);
    ExplainedRows(w, w', o, ps, done);
    IsAccepted(ps, downloads, slots[k].i);
    var p := ps[slots[k].i];
    var d := FetchOf(downloads, p);
    FinishEffect(w, w', o, p, d);
    var (w2, ok) := Finish(w', o, p, d);
    IsThrough(w, w', w2, o, ps, downloads, slots[k], ok);
  }

  lemma UploadedIs(w': World, o: Options, ps: seq<Upstream>, downloads: map<string, Download>, slots: seq<Slot>, k: nat)
    requires Hands(w', o, ps, downloads, slots) && k < |slots| && slots[k].Uploaded? && slots[k].i < |ps|
    ensures KeyFor(o, ps[slots[k].i]) in w'.objects && Accepted(ps, downloads, slots[k].i)
  {
    hide Accepted;
  }

  lemma ExplainedRows(w: World, w': World, o: Options, ps: seq<Upstream>, done: seq<nat>)
    requires RowsExplained(w, w', o, ps, done)
    ensures RowsFor(w, w', o.arch)
  {}

  lemma IsThrough(w: World, w': World, w2: World, o: Options, ps: seq<Upstream>, downloads: map<string, Download>,
      s: Slot, ok: bool)
    requires s.Uploaded? && s.i < |ps| && Grows(w', w2) && w2.objects == w'.objects && KeyFor(o, ps[s.i]) in w'.objects
    requires ok == Passes(w, w2, o, ps[s.i], FetchOf(downloads, ps[s.i]))
    requires ok ==> Known(w2.db, o.arch, ps[s.i].sha)
    requires forall x :: x in w2.db.index && x !in w'.db.index ==>
      ok && x == ps[s.i].sha && RowOf(w2.db.index[x], o, ps[s.i])
    ensures Through(w, w', w2, o, ps, downloads, s, ok)
  {
    hide Accepted, Passes, Grows;
  }

  /** One turn of one worker. */
  method Turn(w: World, w': World, o: Options, ps: seq<Upstream>, downloads: map<string, Download>, queue: seq<nat>,
      slots: seq<Slot>, done: seq<nat>, failed: seq<nat>, ghost home: seq<Home>, k: nat)
    returns (w2: World, queue2: seq<nat>, slots2: seq<Slot>, done2: seq<nat>, failed2: seq<nat>, ghost home2: seq<Home>)
    requires Working(w, w', o, ps, downloads, queue, slots, done, failed, home)
    requires k < |slots| && slots[k] != Stopped
    ensures Working(w, w2, o, ps, downloads, queue2, slots2, done2, failed2, home2) && |slots2| == |slots|
    ensures 3 * |queue2| + Ranks(slots2) < 3 * |queue| + Ranks(slots)
  {
    w2, queue2, slots2, done2, failed2, home2 := w', queue, slots, done, failed, home;
    WorkingIs(w, w', o, ps, downloads, queue, slots, done, failed, home);
    HomeSize(|ps|, queue, slots, done, failed, home);
    hide Working, Placed, Conserved, Effects, Ranks, NoTwice, Through, FetchOf, Finish, Upload, Refused;
    match slots[k]
    case Idle =>
      if queue == [] {
        StopStep(w, w', o, ps, downloads, slots, done, failed, home, k);
        RanksAt(slots, k, Stopped);
        slots2 := slots[k := Stopped];
      } else {
        var i := queue[|queue| - 1];
        TakeStep(w, w', o, ps, downloads, queue, slots, done, failed, home, k);
        RanksAt(slots, k, Fetching(i));
        queue2, slots2, home2 := queue[..|queue| - 1], slots[k := Fetching(i)], home[i := Hand(k)];
      }
    case Fetching(i) =>
      HandIs(|ps|, queue, slots, done, failed, home, k);
      if Refused(ps[i], FetchOf(downloads, ps[i])) {
        RefusedFacts(w, w', o, ps, downloads, i);
        ThroughStep(w, w', w', o, ps, downloads, queue, slots, done, failed, home, k, false);
        RanksAt(slots, k, Idle);
        slots2, failed2, home2 := slots[k := Idle], failed + [i], home[i := Over];
      } else {
        StoreStep(w, w', o, ps, downloads, queue, slots, done, failed, home, k);
        RanksAt(slots, k, Uploaded(i));
        w2, slots2 := Upload(w', o, ps[i]), slots[k := Uploaded(i)];
      }
    case Uploaded(i) =>
      HandIs(|ps|, queue, slots, done, failed, home, k);
      FinishFacts(w, w', o, ps, downloads, slots, done, failed, home, k);
      var (next, ok) := Finish(w', o, ps[i], FetchOf(downloads, ps[i]));
      ThroughStep(w, w', next, o, ps, downloads, queue, slots, done, failed, home, k, ok);
      RanksAt(slots, k, Idle);
      w2, slots2, home2 := next, slots[k := Idle], home[i := Over];
      if ok {
        done2 := done + [i];
      } else {
        failed2 := failed + [i];
      }
  }

  /** What a finished import has done: each package once, decided by the object its filename ended up with. */
  ghost predicate Imported(w: World, w': World, o: Options, ps: seq<Upstream>, downloads: map<string, Download>,
      done: seq<nat>, failed: seq<nat>) {
    && multiset(done) + multiset(failed) == multiset(Upto(|ps|)) && Grows(w, w')
    && (forall i :: i in done ==> i < |ps| && Passes(w, w', o, ps[i], FetchOf(downloads, ps[i])))
    && (forall i :: i in failed ==> i < |ps| && !Passes(w, w', o, ps[i], FetchOf(downloads, ps[i])))
    && (forall i :: i in done && i < |ps| ==> Known(w'.db, o.arch, ps[i].sha))
    && RowsExplained(w, w', o, ps, done) && Uploads(w, w', o, ps, downloads)
  }

  /** Every accepted package's key is taken: by an earlier object, or by one of these packages. */
  ghost predicate Uploads(w: World, w': World, o: Options, ps: seq<Upstream>, downloads: map<string, Download>) {
    && (forall i :: 0 <= i < |ps| && Accepted(ps, downloads, i) ==> KeyFor(o, ps[i]) in w'.objects)
    && (forall k :: k in w'.objects && k !in w.objects ==>
          exists i :: 0 <= i < |ps| && Accepted(ps, downloads, i) && k == KeyFor(o, ps[i])
            && w'.objects[k] == ObjectOf(ps[i]))
  }

  lemma AllUploaded(w: World, w': World, o: Options, ps: seq<Upstream>, downloads: map<string, Download>,
      slots: seq<Slot>, home: seq<Home>)
    requires |home| == |ps| && (forall i :: 0 <= i < |ps| ==> home[i] == Over)
    requires ObjectsExplained(w, w', o, ps, downloads, slots, home)
    ensures Uploads(w, w', o, ps, downloads)
  {
    hide Accepted;
    forall i | 0 <= i < |ps| ensures Tried(slots, home, i) {}
  }

  lemma Ends(w: World, w': World, o: Options, ps: seq<Upstream>, downloads: map<string, Download>, queue: seq<nat>,
      slots: seq<Slot>, done: seq<nat>, failed: seq<nat>, home: seq<Home>)
    requires Working(w, w', o, ps, downloads, queue, slots, done, failed, home)
    requires slots != [] && forall k :: 0 <= k < |slots| ==> slots[k] == Stopped
    ensures Imported(w, w', o, ps, downloads, done, failed)
  {
    assert slots[0] in slots;
    NothingHeld(slots);
    hide Grows, Known, Passes, FetchOf, RowOf, InFlight, ObjectsExplained, RowsExplained, Uploads, Lasting;
    assert multiset(queue) == multiset{};
    forall i | 0 <= i < |ps| ensures home[i] == Over { InResults(|ps|, done, failed, i); }
    AllUploaded(w, w', o, ps, downloads, slots, home);
  }

  lemma InResults(n: nat, done: seq<nat>, failed: seq<nat>, i: nat)
    requires multiset(done) + multiset(failed) == multiset(Upto(n)) && i < n
    ensures i in done || i in failed
  {
    assert Upto(n)[i] == i;
    assert i in multiset(Upto(n));
    assert i in multiset(done) + multiset(failed);
  }

  // ---------- each package as if it were alone ----------

  ghost predicate Succeeds(w: World, o: Options, p: Upstream, d: Download) { ImportOne(w, o, p, d).1 }

  ghost predicate AsAlone(w: World, o: Options, ps: seq<Upstream>, downloads: map<string, Download>, done: seq<nat>,
      failed: seq<nat>) {
    && (forall i :: i in done ==> i < |ps| && Succeeds(w, o, ps[i], FetchOf(downloads, ps[i])))
    && (forall i :: i in failed ==> i < |ps| && !Succeeds(w, o, ps[i], FetchOf(downloads, ps[i])))
  }

  /** Alone, the object the package meets is the stored one or its own. */
  lemma AloneIs(w: World, o: Options, p: Upstream, d: Download)
    ensures Succeeds(w, o, p, d) <==>
      && !Refused(p, d) && TakenOver(if KeyFor(o, p) in w.objects then w.objects[KeyFor(o, p)] else ObjectOf(p), p, d)
      && (p.sha in w.db.index ==> w.db.index[p.sha].arch == o.arch)
  {
    hide Refused;
  }

  /** No other package's object lies under its filename: it is decided as alone. */
  lemma DecidedAlone(w: World, w': World, o: Options, ps: seq<Upstream>, downloads: map<string, Download>, p: Upstream)
    requires Apart(ps) && p in ps && Grows(w, w') && Uploads(w, w', o, ps, downloads)
    ensures Passes(w, w', o, p, FetchOf(downloads, p)) <==> Succeeds(w, o, p, FetchOf(downloads, p))
  {
    AloneIs(w, o, p, FetchOf(downloads, p));
    OwnObject(w, w', o, ps, downloads, p);
    hide Refused, Succeeds, FetchOf, TakenOver, Uploads, Apart;
  }

  lemma OwnObject(w: World, w': World, o: Options, ps: seq<Upstream>, downloads: map<string, Download>, p: Upstream)
    requires p in ps && Uploads(w, w', o, ps, downloads) && forall r :: r in ps && r.filename == p.filename ==> r == p
    ensures !Refused(p, FetchOf(downloads, p)) ==> KeyFor(o, p) in w'.objects
    ensures KeyFor(o, p) in w'.objects && KeyFor(o, p) !in w.objects ==> w'.objects[KeyFor(o, p)] == ObjectOf(p)
  {
    var i :| 0 <= i < |ps| && ps[i] == p;
    IsAccepted(ps, downloads, i);
    hide Refused, FetchOf, Accepted;
    var k := KeyFor(o, p);
    if k in w'.objects && k !in w.objects {
      var j :| 0 <= j < |ps| && Accepted(ps, downloads, j) && k == KeyFor(o, ps[j]) && w'.objects[k] == ObjectOf(ps[j]);
      assert ps[j] in ps && ps[j].filename == p.filename;
    }
  }

  lemma ImportedAsAlone(w: World, w': World, o: Options, ps: seq<Upstream>, downloads: map<string, Download>,
      done: seq<nat>, failed: seq<nat>)
    requires Apart(ps) && Imported(w, w', o, ps, downloads, done, failed)
    ensures AsAlone(w, o, ps, downloads, done, failed)
  {
    forall p | p in ps
      ensures Passes(w, w', o, p, FetchOf(downloads, p)) <==> Succeeds(w, o, p, FetchOf(downloads, p))
    {
      DecidedAlone(w, w', o, ps, downloads, p);
    }
    hide Passes, Succeeds, FetchOf, Known, Uploads, RowsExplained, Grows, Apart;
  }

  /**
   * The import of any list, whichever worker runs next: it ends, every package is exactly
   * once in `done` or in `failed`, as the object its filename ended up with decides; where
   * packages that share a filename or their bytes are one and the same, that is where it
   * would be had it been imported alone.
   */
  method ImportWorkers(w: World, o: Options, ps: seq<Upstream>, downloads: map<string, Download>, concurrency: nat)
    returns (w': World, done: seq<nat>, failed: seq<nat>)
    ensures Imported(w, w', o, ps, downloads, done, failed)
    ensures Apart(ps) ==> AsAlone(w, o, ps, downloads, done, failed)
  {
    var queue := Reversed(|ps|);
    var slots: seq<Slot> := seq(if concurrency == 0 then 1 else concurrency, _ => Idle);
    w', done, failed := w, [], [];
    ghost var home: seq<Home> := seq(|ps|, _ => Queued);
    StartsWorking(w, o, ps, downloads, |slots|);
    assert slots == seq(|slots|, _ => Idle);
    hide *;
    while exists k :: 0 <= k < |slots| && slots[k] != Stopped
      invariant Working(w, w', o, ps, downloads, queue, slots, done, failed, home) && slots != []
      decreases 3 * |queue| + Ranks(slots)
    {
      var k :| 0 <= k < |slots| && slots[k] != Stopped;
      w', queue, slots, done, failed, home := Turn(w, w', o, ps, downloads, queue, slots, done, failed, home, k);
    }
    Ends(w, w', o, ps, downloads, queue, slots, done, failed, home);
    if Apart(ps) { ImportedAsAlone(w, w', o, ps, downloads, done, failed); }
  }

  // ---------- the same as in order ----------

  /** Importing in order, too, takes every accepted package's key. */
  lemma {:induction false} InOrderUploads(w: World, o: Options, ps: seq<Upstream>, downloads: map<string, Download>)
    ensures Uploads(w, ImportAll(w, o, ps, downloads).0, o, ps, downloads)
  {
    if ps != [] {
      var n := |ps| - 1;
      var w1 := ImportAll(w, o, ps[..n], downloads).0;
      var d := FetchOf(downloads, ps[n]);
      InOrderUploads(w, o, ps[..n], downloads);
      TwoSteps(w1, o, ps[n], d);
      var w2 := ImportOne(w1, o, ps[n], d).0;
      assert w2.objects == if Refused(ps[n], d) then w1.objects else Upload(w1, o, ps[n]).objects;
      hide ImportAll, ImportOne, Refused, FetchOf, Finish;
      OneMoreUpload(w, w1, w2, o, ps, downloads);
    }
  }

  lemma OneMoreUpload(w: World, w1: World, w2: World, o: Options, ps: seq<Upstream>, downloads: map<string, Download>)
    requires ps != [] && Uploads(w, w1, o, ps[..|ps| - 1], downloads)
    requires w2.objects == if Accepted(ps, downloads, |ps| - 1) then Upload(w1, o, ps[|ps| - 1]).objects else w1.objects
    ensures Uploads(w, w2, o, ps, downloads)
  {
    var n := |ps| - 1;
    forall i | 0 <= i < n ensures Accepted(ps, downloads, i) <==> Accepted(ps[..n], downloads, i) {}
    UploadEffect(w1, o, ps[n]);
    hide Accepted, Upload, Grows;
    assert forall k :: k in w1.objects ==> k in w2.objects by { UploadKeeps(w1, o, ps[n]); }
    forall k | k in w2.objects && k !in w.objects
      ensures exists i :: 0 <= i < |ps| && Accepted(ps, downloads, i) && k == KeyFor(o, ps[i])
               && w2.objects[k] == ObjectOf(ps[i])
    {
      UploadKeeps(w1, o, ps[n]);
      if k in w1.objects {
        var i :| 0 <= i < n && Accepted(ps[..n], downloads, i) && k == KeyFor(o, ps[..n][i])
          && w1.objects[k] == ObjectOf(ps[..n][i]);
        assert Accepted(ps, downloads, i);
      }
    }
  }

  lemma UploadKeeps(w: World, o: Options, p: Upstream)
    ensures forall k :: k in w.objects ==> k in Upload(w, o, p).objects && Upload(w, o, p).objects[k] == w.objects[k]
    ensures forall k :: k in Upload(w, o, p).objects && k !in w.objects ==>
      k == KeyFor(o, p) && Upload(w, o, p).objects[k] == ObjectOf(p)
  {}

  /** Uploads of packages with filenames of their own leave one and the same set of objects. */
  lemma UploadsAgree(w: World, a: World, b: World, o: Options, ps: seq<Upstream>, downloads: map<string, Download>)
    requires Apart(ps) && Grows(w, a) && Grows(w, b) && Uploads(w, a, o, ps, downloads)
      && Uploads(w, b, o, ps, downloads)
    ensures a.objects == b.objects
  {
    assert forall k :: k in w.objects ==> k in a.objects && k in b.objects && a.objects[k] == b.objects[k];
    hide Accepted, Grows;
    forall k | k in a.objects ensures k in b.objects && b.objects[k] == a.objects[k] {
      if k !in w.objects { OneUpload(w, a, b, o, ps, downloads, k); }
    }
    forall k | k in b.objects ensures k in a.objects {
      if k !in w.objects { OneUpload(w, b, a, o, ps, downloads, k); }
    }
  }

  lemma OneUpload(w: World, a: World, b: World, o: Options, ps: seq<Upstream>, downloads: map<string, Download>,
      k: ObjectKey)
    requires Apart(ps) && Uploads(w, a, o, ps, downloads) && Uploads(w, b, o, ps, downloads) && k in a.objects
      && k !in w.objects
    ensures k in b.objects && b.objects[k] == a.objects[k]
  {
    hide Accepted;
    var i :| 0 <= i < |ps| && Accepted(ps, downloads, i) && k == KeyFor(o, ps[i]) && a.objects[k] == ObjectOf(ps[i]);
    var j :| 0 <= j < |ps| && Accepted(ps, downloads, j) && k == KeyFor(o, ps[j]) && b.objects[k] == ObjectOf(ps[j]);
    assert ps[i] in ps && ps[j] in ps && ps[i].filename == ps[j].filename;
  }

  /** A row without its number, which says when it was indexed. */
  function Unnumbered(r: Row): Row { r.(id := 0) }

  /** A row some package explains, on either side, is the same row but for its number. */
  lemma RowsAgree(w: World, a: World, b: World, o: Options, ps: seq<Upstream>, x: Sha)
    requires Apart(ps) && Grows(w, a) && Grows(w, b) && x in a.db.index && x in b.db.index
    requires x !in w.db.index ==> exists p :: p in ps && p.sha == x && RowOf(a.db.index[x], o, p)
    requires x !in w.db.index ==> exists p :: p in ps && p.sha == x && RowOf(b.db.index[x], o, p)
    ensures Unnumbered(a.db.index[x]) == Unnumbered(b.db.index[x])
  {
    if x !in w.db.index {
      var p :| p in ps && p.sha == x && RowOf(a.db.index[x], o, p);
      var q :| q in ps && q.sha == x && RowOf(b.db.index[x], o, q);
      assert p == q;
    }
  }

  /** Importing in order, too, is decided by the objects the filenames end up with. */
  lemma {:induction false} InOrderPasses(w: World, o: Options, ps: seq<Upstream>, downloads: map<string, Download>)
    ensures var (w', imported, failed) := ImportAll(w, o, ps, downloads);
            && (forall p :: p in imported <==> p in ps && Passes(w, w', o, p, FetchOf(downloads, p)))
            && RowsFor(w, w', o.arch)
  {
    if ps != [] {
      var n := |ps| - 1;
      var front, p, d := ps[..n], ps[n], FetchOf(downloads, ps[n]);
      var w1 := ImportAll(w, o, front, downloads).0;
      var (w2, ok) := ImportOne(w1, o, p, d);
      assert ps == front + [p];
      InOrderPasses(w, o, front, downloads);
      InOrderUploads(w, o, front, downloads);
      ImportAllGrows(w, o, front, downloads);
      ImportOneGrows(w1, o, p, d);
      LastPasses(w, w1, o, p, d);
      hide ImportOne, Passes, FetchOf, RowsFor, Grows, Accepted;
      forall q | q in front
        ensures Passes(w, w2, o, q, FetchOf(downloads, q)) == Passes(w, w1, o, q, FetchOf(downloads, q))
      {
        var i :| 0 <= i < n && front[i] == q;
        IsAccepted(front, downloads, i);
        PassesStays(w, w1, w2, o, q, FetchOf(downloads, q));
      }
    }
  }

  lemma LastPasses(w: World, w1: World, o: Options, p: Upstream, d: Download)
    requires Grows(w, w1) && RowsFor(w, w1, o.arch)
    ensures var (w2, ok) := ImportOne(w1, o, p, d);
            ok == Passes(w, w2, o, p, d) && RowsFor(w, w2, o.arch)
  {
    TwoSteps(w1, o, p, d);
    UploadEffect(w1, o, p);
    GrowsTransitive(w, w1, Upload(w1, o, p));
    if !Refused(p, d) { FinishEffect(w, Upload(w1, o, p), o, p, d); }
    hide ImportOne, Refused, Finish, Upload, Grows;
  }

  /** Importing in order decides each package as alone, even when one is listed twice. */
  lemma Decided(w: World, o: Options, ps: seq<Upstream>, downloads: map<string, Download>)
    requires Apart(ps)
    ensures forall p :: p in ImportAll(w, o, ps, downloads).1 <==> p in ps && Succeeds(w, o, p, FetchOf(downloads, p))
  {
    InOrderPasses(w, o, ps, downloads);
    InOrderUploads(w, o, ps, downloads);
    ImportAllGrows(w, o, ps, downloads);
    var w' := ImportAll(w, o, ps, downloads).0;
    forall p | p in ps
      ensures Passes(w, w', o, p, FetchOf(downloads, p)) <==> Succeeds(w, o, p, FetchOf(downloads, p))
    {
      DecidedAlone(w, w', o, ps, downloads, p);
    }
    hide ImportAll, Passes, Succeeds, FetchOf, Apart;
  }

  /**
   * An interleaving imports what importing in order does whenever both leave the same
   * objects; where packages that share a filename or their bytes are one and the same,
   * they do, and leave the same rows but for their numbers.
   */
  lemma InterleavingIsInOrder(w: World, w': World, o: Options, ps: seq<Upstream>, downloads: map<string, Download>,
      done: seq<nat>, failed: seq<nat>)
    requires Imported(w, w', o, ps, downloads, done, failed)
    ensures forall i :: i in done ==> i < |ps|
    ensures var (inOrder, imported, _) := ImportAll(w, o, ps, downloads);
            && w' == w.(db := w.db.(index := w'.db.index), objects := w'.objects)
            && (w'.objects == inOrder.objects ==>
                  (set i | i in done :: ps[i]) == (set p | p in imported)
                  && w'.db.index.Keys == inOrder.db.index.Keys)
            && (Apart(ps) ==>
                  && w'.objects == inOrder.objects
                  && forall x :: x in w'.db.index ==> Unnumbered(w'.db.index[x]) == Unnumbered(inOrder.db.index[x]))
  {
    hide *;
    var inOrder := ImportAll(w, o, ps, downloads).0;
    ImportedIs(w, w', o, ps, downloads, done, failed);
    OnlyGrown(w, w');
    if w'.objects == inOrder.objects { InterleavingImports(w, w', o, ps, downloads, done, failed); }
    if Apart(ps) {
      ImportAllGrows(w, o, ps, downloads);
      InOrderUploads(w, o, ps, downloads);
      UploadsAgree(w, w', inOrder, o, ps, downloads);
      InterleavingImports(w, w', o, ps, downloads, done, failed);
      forall x | x in w'.db.index ensures Unnumbered(w'.db.index[x]) == Unnumbered(inOrder.db.index[x]) {
        SameRow(w, w', o, ps, downloads, done, failed, x);
      }
    }
  }

  lemma OnlyGrown(w: World, w': World)
    requires Grows(w, w')
    ensures w' == w.(db := w.db.(index := w'.db.index), objects := w'.objects)
  {}

  lemma SameRow(w: World, w': World, o: Options, ps: seq<Upstream>, downloads: map<string, Download>, done: seq<nat>,
      failed: seq<nat>, x: Sha)
    requires Apart(ps) && Imported(w, w', o, ps, downloads, done, failed)
    requires x in w'.db.index && x in ImportAll(w, o, ps, downloads).0.db.index
    ensures Unnumbered(w'.db.index[x]) == Unnumbered(ImportAll(w, o, ps, downloads).0.db.index[x])
  {
    var inOrder := ImportAll(w, o, ps, downloads).0;
    ImportAllGrows(w, o, ps, downloads);
    ImportAllRows(w, o, ps, downloads);
    hide ImportAll, Uploads, RowOf, Passes, FetchOf, Apart;
    if x !in w.db.index {
      var i :| i in done && i < |ps| && ps[i].sha == x && RowOf(w'.db.index[x], o, ps[i]);
      assert ps[i] in ps;
    }
    RowsAgree(w, w', inOrder, o, ps, x);
  }

  /** With the same objects in the end, the packages and the bytes that importing in order indexes. */
  lemma InterleavingImports(w: World, w': World, o: Options, ps: seq<Upstream>, downloads: map<string, Download>,
      done: seq<nat>, failed: seq<nat>)
    requires Imported(w, w', o, ps, downloads, done, failed)
    requires w'.objects == ImportAll(w, o, ps, downloads).0.objects
    ensures forall i :: i in done ==> i < |ps|
    ensures (set i | i in done :: ps[i]) == (set p | p in ImportAll(w, o, ps, downloads).1)
    ensures w'.db.index.Keys == ImportAll(w, o, ps, downloads).0.db.index.Keys
  {
    hide *;
    var inOrder, imported := ImportAll(w, o, ps, downloads).0, ImportAll(w, o, ps, downloads).1;
    ImportedIs(w, w', o, ps, downloads, done, failed);
    InOrderPasses(w, o, ps, downloads);
    ImportAllGrows(w, o, ps, downloads);
    forall i | 0 <= i < |ps|
      ensures i in done || i in failed
      ensures Passes(w, w', o, ps[i], FetchOf(downloads, ps[i]))
        == Passes(w, inOrder, o, ps[i], FetchOf(downloads, ps[i]))
    {
      InResults(|ps|, done, failed, i);
      SameObjectsPass(w, w', inOrder, o, ps[i], FetchOf(downloads, ps[i]));
    }
    forall x | x in inOrder.db.index && x !in w.db.index ensures exists p :: p in imported && p.sha == x {
      SyncPool.AddedAreDone(w, o, ps, downloads, x);
    }
    forall p | p in imported ensures exists i :: i in done && i < |ps| && ps[i] == p {
      var i :| 0 <= i < |ps| && ps[i] == p;
      assert i in done || i in failed;
    }
    SameKeys(w, w', inOrder, o.arch, set p | p in imported);
  }

  lemma SameObjectsPass(w: World, a: World, b: World, o: Options, p: Upstream, d: Download)
    requires a.objects == b.objects
    ensures Passes(w, a, o, p, d) == Passes(w, b, o, p, d)
  {}

  lemma ImportedIs(w: World, w': World, o: Options, ps: seq<Upstream>, downloads: map<string, Download>,
      done: seq<nat>, failed: seq<nat>)
    requires Imported(w, w', o, ps, downloads, done, failed)
    ensures multiset(done) + multiset(failed) == multiset(Upto(|ps|)) && Grows(w, w')
    ensures forall i :: i in done ==>
      i < |ps| && Passes(w, w', o, ps[i], FetchOf(downloads, ps[i])) && Known(w'.db, o.arch, ps[i].sha)
    ensures forall i :: i in failed ==> i < |ps| && !Passes(w, w', o, ps[i], FetchOf(downloads, ps[i]))
    ensures forall x :: x in w'.db.index && x !in w.db.index ==> exists i :: i in done && i < |ps| && ps[i].sha == x
    ensures Uploads(w, w', o, ps, downloads)
  {
    hide Grows, Passes, FetchOf, Known, RowOf, Uploads, Upto;
  }

  /** Both indexed the same packages and nothing else. */
  lemma SameKeys(w: World, a: World, b: World, arch: Arch, imported: set<Upstream>)
    requires Grows(w, a) && Grows(w, b) && forall p :: p in imported ==>
      Known(a.db, arch, p.sha) && Known(b.db, arch, p.sha)
    requires forall x :: x in a.db.index && x !in w.db.index ==> exists p :: p in imported && p.sha == x
    requires forall x :: x in b.db.index && x !in w.db.index ==> exists p :: p in imported && p.sha == x
    ensures a.db.index.Keys == b.db.index.Keys
  {}
}
