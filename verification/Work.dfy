/**
 * The worker's jobs (`crates/pkg-repo/src/work.rs`) as steps on the pool: what each
 * leaves the rings serving and the databases pacman reads.
 */
module Work {
  import opened Common
  import opened Releases
  import opened Creation
  import opened Selections
  import opened Sync
  import opened SyncLaws

  // ---------- rendering ----------

  function SourcesIn(db: Db, ring: Ring, arch: Arch): set<string> {
    set p | p in In(db, db.Live(ring), arch) :: db.index[p].source
  }

  /** What the database of one source lists. */
  function Selection(db: Db, ring: Ring, arch: Arch, source: string): set<Sha> {
    set p | p in In(db, db.Live(ring), arch) && db.index[p].source == source
  }

  type Published = map<(Ring, Arch, string), set<Sha>>

  function BySource(db: Db, ring: Ring, arch: Arch): map<string, set<Sha>> {
    map s | s in SourcesIn(db, ring, arch) :: Selection(db, ring, arch, s)
  }

  function Databases(ring: Ring, arch: Arch, bySource: map<string, set<Sha>>): Published {
    map s | s in bySource :: (ring, arch, s) := bySource[s]
  }

  lemma DatabasesOf(ring: Ring, arch: Arch, g: map<string, set<Sha>>)
    ensures forall k: (Ring, Arch, string) :: k in Databases(ring, arch, g) <==> k.0 == ring && k.1 == arch && k.2 in g
    ensures forall s :: s in g ==>
      (ring, arch, s) in Databases(ring, arch, g) && Databases(ring, arch, g)[(ring, arch, s)] == g[s]
  {
    forall k: (Ring, Arch, string) | k.0 == ring && k.1 == arch && k.2 in g ensures k in Databases(ring, arch, g) {
      assert k == (ring, arch, k.2);
    }
  }

  /** Rendering writes one database per source that has a package; it needs a release. */
  function Render(w: World, ring: Ring, arch: Arch): Option<World> {
    if ring !in w.db.heads then None
    else Some(w.(published := w.published + Databases(ring, arch, BySource(w.db, ring, arch))))
  }

  function RenderAll(w: World, ring: Ring, arches: seq<Arch>): Option<World>
    decreases |arches|
  {
    if arches == [] then Some(w)
    else match Render(w, ring, arches[0])
      case Some(w') => RenderAll(w', ring, arches[1..])
      case None => None
  }

  /** Every source with a package has the database of its selection. */
  predicate RenderedAt(w: World, ring: Ring, arch: Arch) {
    forall s :: s in SourcesIn(w.db, ring, arch) ==>
      (ring, arch, s) in w.published && w.published[(ring, arch, s)] == Selection(w.db, ring, arch, s)
  }

  ghost predicate Rendered(w: World) {
    forall ring, arch :: RenderedAt(w, ring, arch)
  }

  /** A ring without a release has no databases. */
  predicate NoStrays(w: World) {
    forall k :: k in w.published ==> k.0 in w.db.heads
  }

  /** What every completed job keeps. */
  ghost predicate Good(w: World) {
    Inv(w.db) && NoStrays(w)
  }

  lemma RenderFixes(w: World, ring: Ring, arch: Arch)
    requires Good(w) && Render(w, ring, arch).Some?
    ensures var w' := Render(w, ring, arch).value;
            && Good(w') && w'.db == w.db && w'.objects == w.objects && RenderedAt(w', ring, arch)
            && (forall r, a :: RenderedAt(w, r, a) ==> RenderedAt(w', r, a))
            && (forall r, a, s :: (r, a) != (ring, arch) ==>
                  ((r, a, s) in w'.published <==> (r, a, s) in w.published))
  {
    var d := Databases(ring, arch, BySource(w.db, ring, arch));
    var w' := Render(w, ring, arch).value;
    DatabasesOf(ring, arch, BySource(w.db, ring, arch));
    assert w' == w.(published := w.published + d) && ring in w.db.heads;
    hide Inv, Databases, SourcesIn, Selection, RenderedAt, Render;
    assert RenderedAt(w', ring, arch) by { WrittenHere(w, ring, arch, d); }
    forall r, a | RenderedAt(w, r, a) ensures RenderedAt(w', r, a) {
      if (r, a) != (ring, arch) { KeptElsewhere(w, d, r, a); }
    }
  }

  lemma WrittenHere(w: World, ring: Ring, arch: Arch, d: Published)
    requires forall s :: s in BySource(w.db, ring, arch) ==>
      (ring, arch, s) in d && d[(ring, arch, s)] == BySource(w.db, ring, arch)[s]
    ensures RenderedAt(w.(published := w.published + d), ring, arch)
  {
    hide SourcesIn, Selection;
  }

  lemma KeptElsewhere(w: World, d: Published, r: Ring, a: Arch)
    requires RenderedAt(w, r, a) && forall k :: k in d ==> (k.0, k.1) != (r, a)
    ensures RenderedAt(w.(published := w.published + d), r, a)
  {
    hide SourcesIn, Selection;
  }

  lemma {:induction false} RenderAllFixes(w: World, ring: Ring, arches: seq<Arch>)
    requires Good(w)
    ensures RenderAll(w, ring, arches).Some? <==> arches == [] || ring in w.db.heads
    ensures RenderAll(w, ring, arches).Some? ==>
            var w' := RenderAll(w, ring, arches).value;
            && Good(w') && w'.db == w.db && w'.objects == w.objects
            && (forall a :: a in arches ==> RenderedAt(w', ring, a))
            && (forall r, a :: RenderedAt(w, r, a) ==> RenderedAt(w', r, a))
            && (forall r, a, s :: !(r == ring && a in arches) ==>
               ((r, a, s) in w'.published <==> (r, a, s) in w.published))
    decreases |arches|
  {
    hide RenderedAt, Good;
    if arches != [] && ring in w.db.heads {
      RenderFixes(w, ring, arches[0]);
      RenderAllFixes(Render(w, ring, arches[0]).value, ring, arches[1..]);
    }
  }

  // ---------- requests ----------

  /** What the service requires of its tables to answer a request. */
  predicate Ready(w: World) {
    WellParented(w.db.releases) && forall r :: r in w.db.heads ==> w.db.heads[r] < |w.db.releases|
  }

  function Post(w: World, q: Request): Option<(World, set<Arch>)>
    requires Ready(w)
  {
    match Create(w.db, q)
    case Ok(c) => Some((w.(db := c.db), c.kept))
    case Err(_) => None
  }

  /** The databases of a ring and architecture stay right as long as its rows do. */
  lemma RenderedSame(w: World, w': World, ring: Ring, arch: Arch)
    requires RenderedAt(w, ring, arch)
    requires In(w'.db, w'.db.Live(ring), arch) == In(w.db, w.db.Live(ring), arch)
    requires forall p :: p in In(w.db, w.db.Live(ring), arch) ==> w'.db.index[p] == w.db.index[p]
    requires forall s :: (ring, arch, s) in w.published ==>
      (ring, arch, s) in w'.published && w'.published[(ring, arch, s)] == w.published[(ring, arch, s)]
    ensures RenderedAt(w', ring, arch)
  {
    forall s | s in SourcesIn(w'.db, ring, arch)
      ensures s in SourcesIn(w.db, ring, arch) && Selection(w'.db, ring, arch, s) == Selection(w.db, ring, arch, s)
    {}
  }

  /** A request changes its own ring to what it asks for and leaves every other database right. */
  lemma PostEffect(w: World, q: Request)
    requires Good(w) && Post(w, q).Some?
    ensures SourceOf(w.db, q).Ok? && AllIndexed(w.db, q)
    ensures var (w', kept) := Post(w, q).value;
            && Good(w') && Continues(w.db.releases, w'.db.releases) && w'.db.index == w.db.index
            && w'.objects == w.objects && w'.published == w.published
            && w'.db.Live(q.ring) == Asked(w.db, q) && (forall r :: r != q.ring ==> w'.db.Live(r) == w.db.Live(r))
            && w'.db.heads == w.db.heads[q.ring := |w.db.releases|] && |w'.db.releases| == |w.db.releases| + 1
            && (forall r, a :: RenderedAt(w, r, a)
                               && (r == q.ring ==> In(w.db, Asked(w.db, q), a) == In(w.db, w.db.Live(r), a))
                               ==> RenderedAt(w', r, a))
            && (forall a :: a in kept ==> In(w.db, Asked(w.db, q), a) == In(w.db, w.db.Live(q.ring), a))
  {
    CreateKeeps(w.db, q);
    var (w', kept) := Post(w, q).value;
    forall a | a in kept ensures In(w.db, Asked(w.db, q), a) == In(w.db, w.db.Live(q.ring), a) {
      KeptIsUntouched(w.db, q, a);
    }
    hide Inv, Create, Asked;
    forall r, a | RenderedAt(w, r, a) && (r == q.ring ==> In(w.db, Asked(w.db, q), a) == In(w.db, w.db.Live(r), a))
      ensures RenderedAt(w', r, a)
    {
      assert In(w'.db, w'.db.Live(r), a) == In(w.db, w'.db.Live(r), a);
      RenderedSame(w, w', r, a);
    }
  }

  /** Importing more packages changes no selection and no database. */
  lemma GrowthEffect(w: World, w': World)
    requires Good(w) && Grows(w, w')
    ensures Good(w') && w'.db.releases == w.db.releases && w'.db.heads == w.db.heads
    ensures forall r :: w'.db.Live(r) == w.db.Live(r)
    ensures forall r, a :: In(w'.db, w'.db.Live(r), a) == In(w.db, w.db.Live(r), a)
    ensures forall r, a :: RenderedAt(w, r, a) ==> RenderedAt(w', r, a)
  {
    InvGrows(w, w');
    forall r, a ensures In(w'.db, w'.db.Live(r), a) == In(w.db, w.db.Live(r), a) {
      LiveIndexedInv(w.db, r);
    }
    hide Inv;
    forall r, a | RenderedAt(w, r, a) ensures RenderedAt(w', r, a) {
      RenderedSame(w, w', r, a);
    }
  }

  // ---------- the jobs ----------

  const BOTH: seq<Arch> := [X86_64, Aarch64]

  /** The architectures to render after a release: the given one, then the other, without the kept ones. */
  function ToRender(arch: Arch, kept: set<Arch>): seq<Arch> {
    (if arch in kept then [] else [arch]) + (if arch.Other() in kept then [] else [arch.Other()])
  }

  function OnlyOrBoth(only: Option<Arch>): seq<Arch> {
    if only.Some? then [only.value] else BOTH
  }

  function RollbackRequest(ring: Ring, to: nat, only: Option<Arch>): Request {
    Request(ring, None, Some(to), {}, {}, {}, None, only)
  }

  function PromoteRequest(from: Ring, to: Ring, only: Option<Arch>): Request {
    Request(to, Some(from), None, {}, {}, {}, None, only)
  }

  /** A request of adds: a fast-track, a publication or a re-pin. */
  function AddRequest(ring: Ring, add: set<Sha>, arch: Option<Arch>): Request {
    Request(ring, None, None, add, {}, {}, arch, None)
  }

  /** `rollback_job`: `worker` is the worker's own architecture, rendered first. */
  function RollbackJob(w: World, ring: Ring, to: nat, only: Option<Arch>, worker: Arch): Option<World>
    requires Ready(w)
  {
    match Post(w, RollbackRequest(ring, to, only))
    case None => None
    case Some((w1, _)) => RenderAll(w1, ring, ToRender(worker, if only.Some? then {only.value.Other()} else {}))
  }

  /** What reaching an upstream yields. */
  datatype Fetch = Unreachable | Fetched(ups: seq<Upstream>, downloads: map<string, Download>)

  /** A sync that pins its own release; its failures are swallowed by the caller. */
  ghost function Align(w: World, o: Options, f: Fetch): World {
    if f.Unreachable? then w
    else
      var out := Run(w, o, f.ups, f.downloads);
      if !out.changed then out.world
      else if !Ready(out.world) then out.world
      else match Post(out.world, PinRequest(o, out.add, out.remove))
        case Some((w', _)) => w'
        case None => out.world
  }

  function OprOptions(ring: Ring, arch: Arch): Options {
    Options("packages", arch, ring, 0, {})
  }

  ghost function AlignAll(w: World, ring: Ring, arches: seq<Arch>, fetch: Arch -> Fetch): World
    decreases |arches|
  {
    if arches == [] then w
    else AlignAll(Align(w, OprOptions(ring, arches[0]), fetch(arches[0])), ring, arches[1..], fetch)
  }

  predicate Healthy(arches: seq<Arch>, healthy: Arch -> bool) {
    forall a :: a in arches ==> healthy(a)
  }

  /** After a release on `ring`: render, check, and roll back to `previous` when a check fails. */
  function RenderAndVerify(w: World, ring: Ring, only: Option<Arch>, previous: Option<nat>,
      healthy: Arch -> bool): Option<World>
    requires Ready(w)
  {
    var arches := OnlyOrBoth(only);
    match RenderAll(w, ring, arches)
    case None => None
    case Some(w1) =>
      if Healthy(arches, healthy) then Some(w1)
      else if previous.None? || !Ready(w1) then None
      else match Post(w1, RollbackRequest(ring, previous.value, only))
        case None => None
        case Some((w2, _)) => RenderAll(w2, ring, arches)
  }

  /** `promote_job`, given the gate's verdict, the OPR channels and the health of each architecture. */
  ghost function PromoteJob(w: World, from: Ring, to: Ring, only: Option<Arch>, promote: bool, fetch: Arch -> Fetch,
      healthy: Arch -> bool): Option<World>
    requires Ready(w)
  {
    if !promote then Some(w)
    else match Post(w, PromoteRequest(from, to, only))
      case None => None
      case Some((w1, _)) =>
        var w2 := AlignAll(w1, to, OnlyOrBoth(only), fetch);
        if Ready(w2) then RenderAndVerify(w2, to, only, w.db.Parent(to), healthy) else None
  }

  /** One ring of `security_job`: nothing to fast-track leaves it alone. */
  function FastTrackJob(w: World, ring: Ring, add: set<Sha>, healthy: Arch -> bool): Option<World>
    requires Ready(w)
  {
    if add == {} then Some(w)
    else match Post(w, AddRequest(ring, add, None))
      case None => None
      case Some((w1, _)) => if Ready(w1) then RenderAndVerify(w1, ring, None, w.db.Parent(ring), healthy) else None
  }

  /** What a project's build publishes is stored as this source's. */
  function FactoryOptions(arch: Arch): Options {
    Options("factory", arch, Edge, 0, {})
  }

  /** One archive of a publication: the sha to pin; it is uploaded unless the index has it. */
  ghost function PublishOne(w: World, o: Options, p: Upstream, d: Download): Option<(World, Sha)> {
    var stored := ByFilename(w.db.index, KeyFor(o, p));
    var sha := if stored.Some? && stored.value != p.sha then stored.value else p.sha;
    if sha in w.db.index then Some((w, sha))
    else
      var (w1, ok) := ImportOne(w, o, p, d);
      if ok then Some((w1, sha)) else None
  }

  /** The archives of a publication one after another; the first that fails ends it. */
  ghost function PublishAll(w: World, o: Options, archives: seq<Upstream>, downloads: map<string, Download>):
    Option<(World, set<Sha>)>
  {
    if archives == [] then Some((w, {}))
    else
      var n := |archives| - 1;
      match PublishAll(w, o, archives[..n], downloads)
      case None => None
      case Some((w1, add)) =>
        match PublishOne(w1, o, archives[n], FetchOf(downloads, archives[n]))
        case None => None
        case Some((w2, sha)) => Some((w2, add + {sha}))
  }

  /** The release of a publication and its databases. */
  function PinPublished(w: World, arch: Arch, add: set<Sha>): Option<World>
    requires Ready(w)
  {
    match Post(w, AddRequest(Edge, add, Some(arch)))
    case None => None
    case Some((w1, _)) => RenderAll(w1, Edge, [arch, arch.Other()])
  }

  /** `publish_job`: the uploads, then edge pinned to them. */
  ghost function PublishJob(w: World, arch: Arch, archives: seq<Upstream>, downloads: map<string,
    Download>): Option<World> {
    if archives == [] then None
    else match PublishAll(w, FactoryOptions(arch), archives, downloads)
      case None => None
      case Some((w1, add)) => if Ready(w1) then PinPublished(w1, arch, add) else None
  }
}
