/**
 * Mirror sync: classify an upstream database against the pool, import what is
 * missing, and pin the result (`crates/pkg-repo/src/sync.rs`, steps 2 to 4).
 */
module Sync {
  import opened Common
  import opened Releases
  import opened Creation

  // ---------- the pool ----------

  /** A stored archive; objects of one upload carry a checksum, multipart ones do not. */
  datatype Object = Object(sha: Sha, size: nat, hashed: bool)

  type ObjectKey = (string, Arch, string)

  /** The index, the objects by (source, arch, filename), and the databases pacman reads. */
  datatype World = World(db: Db, objects: map<ObjectKey, Object>, published: map<(Ring, Arch, string), set<Sha>>)

  const SINGLE_PUT_MAX := 94371840

  function KeyOf(row: Row): ObjectKey { (row.source, row.arch, row.filename) }

  /** Whether an index row says `p` is stored under `key`. */
  predicate Names(index: map<Sha, Row>, p: Sha, key: ObjectKey) {
    p in index && !index[p].stale && KeyOf(index[p]) == key
  }

  predicate FirstNamed(index: map<Sha, Row>, p: Sha, key: ObjectKey) {
    Names(index, p, key) && forall r :: r in index && Names(index, r, key) ==> index[p].id <= index[r].id
  }

  lemma {:induction false} FirstNamedExists(index: map<Sha, Row>, p: Sha, key: ObjectKey)
    requires Names(index, p, key)
    ensures exists m :: FirstNamed(index, m, key)
    decreases index[p].id
  {
    if !FirstNamed(index, p, key) {
      var r :| r in index && Names(index, r, key) && index[r].id < index[p].id;
      FirstNamedExists(index, r, key);
    }
  }

  /** The index's answer to "which object sits under this filename": the first row that names it. */
  ghost function ByFilename(index: map<Sha, Row>, key: ObjectKey): Option<Sha> {
    if p :| FirstNamed(index, p, key) then Some(p) else None
  }

  /** Row numbers follow the order of indexing. */
  predicate RowsNumbered(index: map<Sha, Row>) {
    forall p :: p in index ==> index[p].id < |index|
  }

  predicate RowsDistinct(index: map<Sha, Row>) {
    forall p, r :: p in index && r in index && index[p].id == index[r].id ==> p == r
  }

  /** What the index answers for a filename is what the pool stores under it. */
  ghost predicate AnswersStored(w: World) {
    forall key :: ByFilename(w.db.index, key).Some? ==>
      key in w.objects && w.objects[key].sha == ByFilename(w.db.index, key).value
  }

  // ---------- a run ----------

  datatype Upstream = Upstream(name: string, version: string, filename: string, sha: Sha, size: nat)

  datatype Options = Options(source: string, arch: Arch, ring: Ring, limit: nat, deferTo: set<string>)

  /** What fetching a package and its signature yields. */
  datatype Download = Broken | Unsigned | Signed

  datatype Report = Report(
    add: seq<Sha>, remove: set<string>, changed: bool,
    uploaded: nat, known: nat, failed: nat, collisions: set<string>)

  /** Names the ring already serves from a source this one defers to. */
  function OwnedElsewhere(w: World, o: Options): set<string> {
    set p | p in In(w.db, w.db.Live(o.ring), o.arch) && w.db.index[p].source in o.deferTo :: w.db.index[p].name
  }

  function Wanted(w: World, o: Options, ups: seq<Upstream>): seq<Upstream> {
    var owned := OwnedElsewhere(w, o);
    Filter(ups, (p: Upstream) => p.name !in owned)
  }

  predicate Known(db: Db, arch: Arch, p: Sha) {
    p in db.index && db.index[p].arch == arch
  }

  /** The filename already holds a different object of this source. */
  ghost predicate Collides(w: World, o: Options, p: Upstream) {
    var stored := ByFilename(w.db.index, (o.source, o.arch, p.filename));
    stored.Some? && stored.value != p.sha
  }

  ghost function Colliding(w: World, o: Options, ups: seq<Upstream>): set<string> {
    set p | p in ups && Collides(w, o, p) :: p.filename
  }

  ghost function Reuse(w: World, o: Options, ups: seq<Upstream>): set<Sha> {
    set p | p in ups && Collides(w, o, p) :: ByFilename(w.db.index, (o.source, o.arch, p.filename)).value
  }

  ghost function Missing(w: World, o: Options, ups: seq<Upstream>): seq<Upstream> {
    var colliding := Colliding(w, o, ups);
    Filter(ups, (p: Upstream) => !Known(w.db, o.arch, p.sha) && p.filename !in colliding)
  }

  function NewRow(w: World, o: Options, p: Upstream): Row {
    Row(|w.db.index|, o.source, p.name, p.version, o.arch, p.filename, false)
  }

  function KeyFor(o: Options, p: Upstream): ObjectKey { (o.source, o.arch, p.filename) }

  /**
   * Registering a manifest: its object must be stored with the manifest's size, and
   * the index holds one row per sha, whatever the architecture.
   */
  function IndexManifest(w: World, o: Options, p: Upstream): (World, bool) {
    var key := (o.source, o.arch, p.filename);
    if key !in w.objects || w.objects[key].size != p.size then (w, false)
    else if p.sha in w.db.index then (w, w.db.index[p.sha].arch == o.arch)
    else (w.(db := w.db.(index := w.db.index[p.sha := NewRow(w, o, p)])), true)
  }

  predicate NameChar(c: char) {
    'A' <= c <= 'Z' || 'a' <= c <= 'z' || '0' <= c <= '9' || c in "@._+:-"
  }

  const PACKAGE_ENDINGS: seq<string> := [
    "-x86_64.pkg.tar.zst", "-aarch64.pkg.tar.zst", "-any.pkg.tar.zst",
    "-x86_64.pkg.tar.xz", "-aarch64.pkg.tar.xz", "-any.pkg.tar.xz"]

  predicate EndsIn(f: string, ending: string) {
    && |f| > |ending| && f[|f| - |ending|..] == ending
    && forall i :: 0 <= i < |f| - |ending| ==> NameChar(f[i])
  }

  /** The only filenames the pool stores anything under. */
  predicate PackageFilename(f: string) {
    exists e :: e in PACKAGE_ENDINGS && EndsIn(f, e)
  }

  /** The import stops before it stores anything: no package, or a name the pool refuses. */
  predicate Refused(p: Upstream, d: Download) {
    d.Broken? || !PackageFilename(p.filename)
  }

  /** The upload of an import: a stored object is left alone. */
  function Upload(w: World, o: Options, p: Upstream): World {
    var key := KeyFor(o, p);
    if key in w.objects then w
    else w.(objects := w.objects[key := Object(p.sha, p.size, p.size <= SINGLE_PUT_MAX)])
  }

  /**
   * Importing one package: the upload leaves a stored object alone, the signature
   * is refused for other bytes than a checksummed object's, then the manifest is registered.
   */
  function ImportOne(w: World, o: Options, p: Upstream, d: Download): (World, bool) {
    if Refused(p, d) then (w, false)
    else
      var w1 := Upload(w, o, p);
      var stored := w1.objects[KeyFor(o, p)];
      if d.Signed? && stored.hashed && stored.sha != p.sha then (w1, false)
      else IndexManifest(w1, o, p)
  }

  function FetchOf(downloads: map<string, Download>, p: Upstream): Download {
    if p.filename in downloads then downloads[p.filename] else Broken
  }

  /** Importing in order; the imported and the failed packages. */
  function ImportAll(w: World, o: Options, ps: seq<Upstream>, downloads: map<string, Download>): (World,
      seq<Upstream>, seq<Upstream>) {
    if ps == [] then (w, [], [])
    else
      var (w1, done, failed) := ImportAll(w, o, ps[..|ps| - 1], downloads);
      var p := ps[|ps| - 1];
      var (w2, ok) := ImportOne(w1, o, p, FetchOf(downloads, p));
      if ok then (w2, done + [p], failed) else (w2, done, failed + [p])
  }

  /** This source's rows of the ring. */
  function Current(w: World, o: Options): set<Sha> {
    set p | p in In(w.db, w.db.Live(o.ring), o.arch) && w.db.index[p].source == o.source
  }

  function Shas(ps: seq<Upstream>): set<Sha> { set p | p in ps :: p.sha }

  function Limited(o: Options, ps: seq<Upstream>): seq<Upstream> {
    if o.limit > 0 && |ps| > o.limit then ps[..o.limit] else ps
  }

  /** What the ring should serve of this source: known or just imported, or the stored object of a collision. */
  ghost function Pins(w: World, o: Options, wanted: seq<Upstream>, done: seq<Upstream>): set<Sha> {
    var colliding := Colliding(w, o, wanted);
    (set p | p in wanted && (Known(w.db, o.arch, p.sha) || p.sha in Shas(done)) && p.filename !in colliding :: p.sha)
    + Reuse(w, o, wanted)
  }

  /** Names this source's rows have and its upstream dropped. */
  function Dropped(w: World, o: Options, wanted: seq<Upstream>): set<string> {
    var names := set p | p in wanted :: p.name;
    set p | p in Current(w, o) && w.db.index[p].name !in names :: w.db.index[p].name
  }

  datatype Outcome = Outcome(world: World, add: set<Sha>, remove: set<string>, changed: bool, uploaded: nat,
    known: set<Sha>, failed: nat)

  /** One run of a source's sync: the pool after the imports, and what to pin and drop. */
  ghost function Run(w: World, o: Options, ups: seq<Upstream>, downloads: map<string, Download>): Outcome {
    var wanted := Wanted(w, o, ups);
    var (w', done, failed) := ImportAll(w, o, Limited(o, Missing(w, o, wanted)), downloads);
    var add, remove := Pins(w, o, wanted, done), Dropped(w, o, wanted);
    Outcome(w', add, remove, remove != {} || Current(w, o) != add,
            |done|, set p | p in wanted && Known(w.db, o.arch, p.sha) :: p.sha, |failed|)
  }

  // ---------- imports only add ----------

  /** Nothing is rewritten: rows, objects, releases and databases stay as they were. */
  ghost predicate Grows(w: World, w': World) {
    && (forall p :: p in w.db.index ==> p in w'.db.index && w'.db.index[p] == w.db.index[p])
    && w'.db == w.db.(index := w'.db.index)
    && (forall k :: k in w.objects ==> k in w'.objects && w'.objects[k] == w.objects[k])
    && w'.published == w.published
  }

  lemma ImportOneGrows(w: World, o: Options, p: Upstream, d: Download)
    ensures var (w', ok) := ImportOne(w, o, p, d);
            && Grows(w, w') && |w.db.index| <= |w'.db.index| && (ok ==> Known(w'.db, o.arch, p.sha))
            && (forall q :: q in w'.db.index && q !in w.db.index ==> q == p.sha && w'.db.index[q] == NewRow(w, o, p))
  {
    hide *;
    ImportSteps(w, o, p, d);
    UploadGrows(w, o, p);
    IndexEffect(Upload(w, o, p), o, p);
    SameNewRow(w, Upload(w, o, p), o, p);
    GrowsTransitive(w, Upload(w, o, p), IndexManifest(Upload(w, o, p), o, p).0);
    NothingGrows(w);
  }

  lemma NothingGrows(w: World)
    ensures Grows(w, w)
  {}

  lemma UploadGrows(w: World, o: Options, p: Upstream)
    ensures Grows(w, Upload(w, o, p)) && Upload(w, o, p).db == w.db
  {}

  /** An import is refused, or stops after its upload, or goes on to register the manifest. */
  lemma ImportSteps(w: World, o: Options, p: Upstream, d: Download)
    ensures || ImportOne(w, o, p, d) == (w, false)
            || ImportOne(w, o, p, d) == (Upload(w, o, p), false)
            || ImportOne(w, o, p, d) == IndexManifest(Upload(w, o, p), o, p)
  {
    hide Refused, IndexManifest;
  }

  lemma SameNewRow(w: World, w': World, o: Options, p: Upstream)
    requires w'.db == w.db
    ensures NewRow(w', o, p) == NewRow(w, o, p)
  {}

  lemma IndexEffect(w: World, o: Options, p: Upstream)
    ensures var (w', ok) := IndexManifest(w, o, p);
            && Grows(w, w') && |w.db.index| <= |w'.db.index| && (ok ==> Known(w'.db, o.arch, p.sha))
            && (forall q :: q in w'.db.index && q !in w.db.index ==> q == p.sha && w'.db.index[q] == NewRow(w, o, p))
  {}

  lemma GrowsTransitive(w: World, w1: World, w2: World)
    requires Grows(w, w1) && Grows(w1, w2)
    ensures Grows(w, w2)
    ensures forall p :: p in w.db.index ==> p in w1.db.index && w1.db.index[p] == w.db.index[p]
    ensures forall p :: p in w1.db.index ==> p in w2.db.index && w2.db.index[p] == w1.db.index[p]
  {}

  lemma {:induction false} ImportAllGrows(w: World, o: Options, ps: seq<Upstream>, downloads: map<string, Download>)
    ensures var (w', done, failed) := ImportAll(w, o, ps, downloads);
            && Grows(w, w') && |w.db.index| <= |w'.db.index|
            && multiset(done) + multiset(failed) == multiset(ps)
            && (forall p :: p in done ==> Known(w'.db, o.arch, p.sha))
  {
    if ps != [] {
      var n := |ps| - 1;
      var (w1, done, failed) := ImportAll(w, o, ps[..n], downloads);
      ImportAllGrows(w, o, ps[..n], downloads);
      ImportOneGrows(w1, o, ps[n], FetchOf(downloads, ps[n]));
      hide ImportOne, FetchOf, Grows;
      GrowsTransitive(w, w1, ImportOne(w1, o, ps[n], FetchOf(downloads, ps[n])).0);
      assert ps == ps[..n] + [ps[n]];
    }
  }

  /** A row as an import of `p` writes it. */
  predicate RowOf(r: Row, o: Options, p: Upstream) {
    r == Row(r.id, o.source, p.name, p.version, o.arch, p.filename, false)
  }

  lemma {:induction false} ImportAllRows(w: World, o: Options, ps: seq<Upstream>, downloads: map<string, Download>)
    ensures var w' := ImportAll(w, o, ps, downloads).0;
            forall q :: q in w'.db.index && q !in w.db.index ==>
              w'.db.index[q].id >= |w.db.index| && exists p :: p in ps && p.sha == q && RowOf(w'.db.index[q], o, p)
  {
    if ps != [] {
      var n := |ps| - 1;
      var p := ps[n];
      var w1 := ImportAll(w, o, ps[..n], downloads).0;
      var w2 := ImportOne(w1, o, p, FetchOf(downloads, p)).0;
      ImportAllRows(w, o, ps[..n], downloads);
      ImportAllGrows(w, o, ps[..n], downloads);
      ImportOneGrows(w1, o, p, FetchOf(downloads, p));
      hide ImportOne, FetchOf, ImportAll;
      forall q | q in w2.db.index && q !in w.db.index
        ensures w2.db.index[q].id >= |w.db.index| && exists p :: p in ps && p.sha == q && RowOf(w2.db.index[q], o, p)
      {
        if q !in w1.db.index { assert RowOf(w2.db.index[q], o, p); }
      }
    }
  }

  lemma ImportOneObjects(w: World, o: Options, p: Upstream, d: Download)
    ensures var (w', ok) := ImportOne(w, o, p, d);
            && (ok ==> KeyFor(o, p) in w'.objects)
            && (forall k :: k in w.objects ==> k in w'.objects && w'.objects[k] == w.objects[k])
            && (forall k :: k in w'.objects && k !in w.objects ==> k == KeyFor(o, p) && w'.objects[k].sha == p.sha)
  {}

  /** The index invariants do not depend on how many more packages are indexed. */
  lemma InvGrows(w: World, w': World)
    requires Inv(w.db) && Grows(w, w')
    ensures Inv(w'.db)
  {
    hide Members, Distance;
    assert forall r :: w'.db.Live(r) == w.db.Live(r);
    assert HeadsRight(w'.db);
    forall i | 0 <= i < |w.db.releases| ensures AtMostHead(w'.db, i) {
      assert AtMostHead(w.db, i);
    }
  }
}
