# A verified model of the package pool

This project models the logic of the Omarchy package pool - a package index with
three rings (edge, rc, stable), a worker that moves packages through them, and the
programs that read what the rings serve - and proves what the logic guarantees, for
every input, every schedule and every run. `dafny verify dfyconfig.toml` checks it.

The files follow the parts of the system:

- **Releases and selections** - `Releases`, `Creation`, `Selections`, `Checkpoints`: the
  append-only release history stored as deltas with checkpoints, the request that
  creates a release, and the reconstruction of an old one.
- **Syncing** - `Sync`, `SyncRun`, `SyncLaws`, `SyncPool`, `SyncTwice`, `Import`, `Leftovers`, `Stores`,
  `Batch`: classifying an upstream, importing with parallel workers, what is stored for what is
  pinned, and several sources pinned as one release.
- **The worker's jobs** - `Work` (their specifications), `WorkLaws`, `Promotions`, `Jobs`
  (what they guarantee, one by one and over whole runs), `Worker` (the jobs as they are
  written, as methods of a `Pool`), `PoolRuns` (the stored objects over whole runs), `Verify`,
  `Security`, and `Witnesses`, `VerifyWitness` (runs that show where a guarantee ends).
- **Decisions over time** - `Gate`, `Promoted`, `GateRun`, `GateWitness`, `Scheduler`, `Calendar`.
- **The version order** - `Digits`, `RpmVersion`, `ArchVersion`, and what depends on it:
  `Dependency`, `Extract`, `Check`.
- **Text and transfer** - `Desc`, `Paging`.
- **The same in plain terms** - `VersionLaws`, `RequestLaws`, `ImportLaws`, `ChannelLaws`, `PublishLaws`,
  `RepairLaws`, `SecurityLaws`, `GateLaws`, `HistoryLaws`, `ScheduleLaws`, `DependencyLaws`, `CheckLaws`, `DescLaws`,
  `CalendarLaws`: what the operations do, said of fields, characters, names, times and numbers spelled
  out as they are in the source, without the definitions the operations are built from.

A specification function says what an operation leaves; the method beside it has the
loops and assignments of the source and is proved to leave the same; the lemmas say what
that means. Steps over the whole pool go from one `World` to the next: the index with its
releases, the stored objects, and the databases pacman reads.

## Where the code and its promises differ

- `vercmp` is no order on all strings. Versions that carry a pkgrel and have no part ending in a
  separator are ordered, and any other version, added to them, breaks transitivity
  (`ArchVersion.OrderedIsTheExactDomain`); versions that all lack a pkgrel are ordered among
  themselves (`ArchVersion.OrderTransitive`).
- An epoch of 2^64 or more reads as 0, and so sorts below the smaller ones
  (`ArchVersion.EpochsOrder`, `ArchVersion.BeyondSixtyFourBits`).
- The four-digit year of formatted times cannot be read back from year 10000 on
  (`Calendar.TimestampRoundTrip`).
- Rendered databases follow the heads through every job but one kind: promoting or rolling
  back one architecture into a ring without a release copies both architectures and renders
  one (`Jobs.StepKeeps`, `Witnesses.PromotionOpensGap`).
- A sync repeats its release forever while bytes it lists are indexed under another source
  (`SyncTwice.SecondRunIsQuiet`, `Witnesses.ForeignRepeats`).
- The index answers "known" for every row of an architecture, stale ones included: a sync pins
  such a row although the pool holds nothing for it, which the sync's own comment rules out
  (`Stores.PinsAreStored`, `Witnesses.StaleRowIsPinned`).
- A batch of sources is not one release per source when one of them drops or replaces what
  another pins, as it can with bytes indexed under another source (`Batch.AnyOrderAgrees`,
  `Witnesses.BatchIsNotItsParts`).
- An upload answers "already present" for other bytes under the filename, and only the size
  is compared afterwards: a leftover object can be indexed as the new package
  (`Leftovers.LeftoverIs`, `PoolRuns.RunStores`, `Witnesses.VerificationStops`).
- The verification registers stored bytes under the name of its own download, `object.pkg`,
  which the pool stores nothing under: the index always refuses, and a second ring that pins the
  same row makes the run fail (`Verify.VerifyRun`, `Witnesses.VerificationStops`).
- Where stored bytes are indexed as another package, every verification pins them again beside the
  row it cannot replace (`Jobs.SecondVerificationIsQuiet`, `VerifyWitness.VerificationRepeats`).
- Of packages that share a filename the first upload decides the others' imports, and which is first
  depends on the workers' schedule (`Import.ImportWorkers`).
- Reconstruction reaches 95 parents back, one less than the text of its error suggests; no
  history the requests build comes near that (`Checkpoints.Index.EnsureCheckpoint`,
  `Selections.CreateErrors`).
- The gate looks for the last promotion among fifty history rows; after fifty releases without
  one it treats the ring as never promoted into: the soak does not apply, and a head the target
  already serves is promoted again (`GateRun.FiftyRowsDecide`, `GateWitness.SoakForgotten`,
  `GateWitness.PromotedAgain`).
- Reducing symbol needs loses one when an unnumbered symbol is also a namespace
  (`Extract.CollapsePreserves`, `Extract.PlainSymbolIsLost`).
- A fast-tracked fix from another source than the vulnerable build is served beside it, not
  instead of it (`Security.FixReplaces`, `Witnesses.VulnerableStays`).
- A package inserted twice into the local database keeps its earlier capabilities, which then
  answer for it (`Check.SatisfiersAgree`, `Check.ReplacedStillAnswers`).

## Model

| member | source | states |
|---|---|---|
| `Digits.StrippedComparisonIsNumeric` | `crates/pkg-manifest/src/vercmp.rs:124-160` | comparing two digit runs of any length - zeros stripped, then lengths, then bytes - is comparing the naturals they denote |
| `RpmVersion.RpmVercmp` | `crates/pkg-manifest/src/vercmp.rs:53-155` | the loop over the two slices answers as the recursive comparison of (separator count, kind, text) segments, in which the end of a string sorts above a word without separators and below everything else |
| `RpmVersion.CompareReverses` | `crates/pkg-manifest/src/vercmp.rs:53-155` | swapping two segment lists reverses the answer, for all lists |
| `RpmVersion.CompareTransitive` | `crates/pkg-manifest/src/vercmp.rs:53-155` | the segment order is transitive on lists that do not end in separators, equalities included |
| `VersionLaws.CommonPrefix` | `crates/pkg-manifest/src/vercmp.rs:53-155` | what two texts begin with alike decides nothing, when neither goes on with the run it ends in |
| `VersionLaws.WordsDecide` | `crates/pkg-manifest/src/vercmp.rs:120-134` | words - runs of `A`-`Z` and `a`-`z` - in one place compare byte by byte, in the order of their bytes; equal words leave it to what follows |
| `VersionLaws.NumbersDecide` | `crates/pkg-manifest/src/vercmp.rs:120-134` | numbers in one place compare as the naturals they denote; equal ones leave it to what follows |
| `VersionLaws.NumbersBeatWords` | `crates/pkg-manifest/src/vercmp.rs:111-118` | a number is newer than a word in its place |
| `VersionLaws.MoreSeparatorsAreNewer` | `crates/pkg-manifest/src/vercmp.rs:58-86` | behind more separators a version is newer, whatever they are and whatever follows |
| `VersionLaws.GoingOn` | `crates/pkg-manifest/src/vercmp.rs:137-155` | a version that goes on is newer, but older if it goes on with a letter |
| `ArchVersion.Vercmp` | `crates/pkg-manifest/src/vercmp.rs:18-50` | epoch, then pkgver, then pkgrel when both have one, in the steps of the source, equals the order on parsed versions |
| `VersionLaws.PartsDecide` | `crates/pkg-manifest/src/vercmp.rs:18-50` | a version written `epoch:pkgver-pkgrel` is compared by its epoch as a number, 0 when missing, then its pkgver, then its pkgrel when both have one |
| `VersionLaws.VersionWords` | `crates/pkg-manifest/src/vercmp.rs:38-50` | whole versions that differ in one word are ordered as the words: 1.1.1v before 1.1.1w |
| `VersionLaws.VersionNumbers` | `crates/pkg-manifest/src/vercmp.rs:38-50` | whole versions that differ in one number are ordered as the numbers |
| `Common.BytesOrder` | `crates/pkg-manifest/src/vercmp.rs:130` | byte strings compare by the first difference, a prefix before what it begins |
| `Common.Utf8Reads` | `crates/pkg-manifest/src/vercmp.rs:53-56` | the bytes a string is compared by are its UTF-8 form: they give each character back |
| `ArchVersion.OrderReverses` | `crates/pkg-manifest/src/vercmp.rs:38-50` | `vercmp(a, b)` is the reverse of `vercmp(b, a)` for all strings |
| `ArchVersion.RpmOrderTransitive` | `crates/pkg-manifest/src/vercmp.rs:53-155` | transitivity for all strings that do not end in a separator |
| `ArchVersion.TrailingSeparatorCycle` | `crates/pkg-manifest/src/vercmp.rs:53-155` | every string `z` that ends in a separator is in a cycle `z < z1 < z.a < z` |
| `ArchVersion.CleanIsTheExactDomain` | `crates/pkg-manifest/src/vercmp.rs:53-155` | a string fits among the strings without a trailing separator, keeping transitivity, if and only if it has none itself |
| `ArchVersion.OrderTransitive` | `crates/pkg-manifest/src/vercmp.rs:38-50` | full versions with clean parts that all carry a pkgrel, or all lack one, are ordered transitively |
| `ArchVersion.OrderedIsTheExactDomain` | `crates/pkg-manifest/src/vercmp.rs:18-50` | a version fits among the versions with a pkgrel and clean parts, keeping transitivity, if and only if it is one: a missing pkgrel or a trailing separator always breaks it |
| `ArchVersion.EpochIsTheNumber` | `crates/pkg-manifest/src/vercmp.rs:18-24` | the epoch read is the number written if and only if that is below 2^64 |
| `ArchVersion.EpochsOrder` | `crates/pkg-manifest/src/vercmp.rs:38-50` | of two different epochs the smaller comes first, whatever follows, if and only if the greater is below 2^64 |
| `ArchVersion.BeyondSixtyFourBits` | `crates/pkg-manifest/src/vercmp.rs:18-24` | the first number beyond 64 bits, as an epoch, sorts below epoch 1 |
| `Calendar.YearOfEraIsRight` | `crates/pkg-repo/src/work.rs:205-227` | for every day of a 400-year era the division formula names the year the day lies in |
| `Calendar.MonthOfDay` | `crates/pkg-repo/src/work.rs:205-227` | the (5d+2)/153 month formula and the (153m+2)/5 day formula invert each other |
| `Calendar.CivilRoundTrip` | `crates/pkg-repo/src/gate.rs:366-373` | days-from-civil of civil-from-days is the day, for every day since the epoch, and the date is a proper one |
| `Calendar.DatesAreOrdered` | `crates/pkg-repo/src/work.rs:205-227` | civil dates are ordered as the day numbers |
| `CalendarLaws.DayByDay` | `crates/pkg-repo/src/work.rs:205-227` | day 0 is 1970-01-01, and each day is followed by the next of the Gregorian calendar, with months of 28 to 31 days and its leap years |
| `CalendarLaws.TextOfTime` | `crates/pkg-repo/src/work.rs:205-227` | a time before year 10000 is written `YYYY-MM-DDThh:mm:ssZ`, every field where it belongs |
| `CalendarLaws.TimesRead` | `crates/pkg-repo/src/gate.rs:343-374` | any text with the fields of a day and a time in these places is read as that second, whatever follows, up to hour 23, minute 59 and second 60; beyond those it is not read |
| `Calendar.TimestampRoundTrip` | `crates/pkg-repo/src/gate.rs:343-374` | parsing the formatted time gives exactly the second count if and only if it lies before year 10000; after that the form cannot be read |
| `Calendar.TimestampsSort` | `crates/pkg-repo/src/security.rs:614-635` | formatted times compare as byte strings the way the second counts do, up to year 9999 |
| `Releases.MaterialiseKeeps` | `worker/src/db.ts:53-92` | writing out a release's membership keeps every invariant of the index and every release's membership, and doing it again changes nothing |
| `Checkpoints.ApplyRows` | `worker/src/db.ts:75-85` | the delta rows of a release, applied in any order, give its parent's members with the deltas applied |
| `Checkpoints.Index.EnsureCheckpoint` | `worker/src/db.ts:53-92` | the walk back, the replay and the write leave exactly the recursive membership and nothing else changed; it fails exactly for a release that does not exist, or has no checkpoint of its own, is no head, and has none within 95 parents |
| `Checkpoints.Index.ReleaseMembers` | `worker/src/db.ts:39-44` | the live rows of a head and the materialised rows of any other release are both its recursive membership |
| `Creation.DeltaReachesTarget` | `worker/src/routes/releases.ts:131-136` | applying the stored add and remove rows to the ring's live rows gives exactly the target selection |
| `Creation.AppendKeeps` | `worker/src/routes/releases.ts:130-145` | one more release keeps live rows equal to the head's recursive membership, numbering gapless, a checkpoint within 24 releases, every earlier release and every other ring |
| `RequestLaws.CheckpointRule` | `worker/src/routes/releases.ts:138-145` | a release is a checkpoint if and only if it is the first of its ring or the one before it lies 23 steps after one, so none lies further |
| `Selections.CreateKeeps` | `worker/src/routes/releases.ts:43-176` | a successful request makes the ring serve exactly base minus removals and replaced rows plus adds, with parent and source recorded, and changes no other ring, no earlier release and no invariant |
| `RequestLaws.RequestServes` | `worker/src/routes/releases.ts:84-136` | after a request the ring serves what it adds, and of what it starts from - its own rows or the copied release's, of one architecture or both - every row neither taken out by name, source and architecture nor replaced by an added build of the same source, name and architecture |
| `RequestLaws.KeptExactly` | `worker/src/routes/releases.ts:151-166` | an architecture is reported as unchanged if and only if the ring had a release and the request was confined to the other one |
| `Selections.CreateErrors` | `worker/src/routes/releases.ts:43-96` | a request fails exactly for a missing source release or ring, an add not indexed (for the architecture asked), or an architecture without a source; a source that exists can always be reconstructed |
| `RequestLaws.RequestFails` | `worker/src/routes/releases.ts:43-87` | a request fails exactly for a release or ring that does not exist, an add that is not indexed or of another architecture than it is scoped to, or an architecture without anything to copy |
| `Selections.SourceRowsAreMembers` | `worker/src/routes/releases.ts:90-96` | the rows copied from a source are its recursive membership, head or not |
| `Selections.KeptIsUntouched` | `worker/src/routes/releases.ts:151-159` | an architecture reported as unchanged serves exactly the rows the parent served, for every request |
| `Selections.WholeCopyIsExact` | `worker/src/routes/releases.ts:89-96` | a promotion or rollback of both architectures serves exactly the source's members |
| `Selections.OneArchCopyIsExact` | `worker/src/routes/releases.ts:97-101` | of one architecture: that one comes from the source, the other stays as the ring serves it |
| `Selections.KeysStayUnique` | `worker/src/routes/releases.ts:119-128` | a ring with one row per source, name and architecture still has one exactly when the adds name each key once |
| `SyncRun.YieldToOtherSources` | `crates/pkg-repo/src/sync.rs:321-346` | the loop keeps exactly the packages whose names no winning source serves, and counts the others |
| `SyncRun.ClassifyUpstream` | `crates/pkg-repo/src/sync.rs:280-316` | the loops yield exactly the colliding filenames, the stored objects to pin for them, and what is neither known nor colliding |
| `SyncRun.RunSync` | `crates/pkg-repo/src/sync.rs:163-262` | a run imports, pins, drops and reports exactly what the specification of a run says; its release request is always accepted |
| `ImportLaws.FilenamesStored` | `worker/src/routes/pool.ts:6-11` | the filenames the pool stores are a run of letters, digits and `@._+:-`, and one of six endings, spelled out |
| `ImportLaws.NewPackages` | `crates/pkg-repo/src/sync.rs:480-531` | a listed package the pool has nothing of is stored under its filename, indexed as the source's with its fields and pinned if and only if its filename is such a one and it was downloaded, signed or not |
| `ImportLaws.ImportedAre` | `crates/pkg-repo/src/sync.rs:280-316` | what is imported: listed packages neither yielded nor known for the architecture whose filename nothing is stored under |
| `ImportLaws.LimitIs` | `crates/pkg-repo/src/sync.rs:167-190` | with a limit only so many of them are, the first ones, and each either succeeds or fails |
| `ImportLaws.PinsMean` | `crates/pkg-repo/src/sync.rs:194-208` | a listed package that is not yielded pins the oldest package stored under its filename, or else its own bytes if they are known or were imported; nothing else is pinned |
| `ImportLaws.DropsMean` | `crates/pkg-repo/src/sync.rs:210-227` | a run drops exactly the names its source serves in the ring for the architecture and no listed package has |
| `ChannelLaws.SyncServes` | `crates/pkg-repo/src/sync.rs:190-262` | after a sync the ring serves of the source's rows those pinned and the earlier ones still listed and not pinned again, and of all others exactly what it did |
| `PublishLaws.SyncStops` | `crates/pkg-repo/src/ops.rs:41-48` | a sync stops if and only if its upstream is out of reach, or some import failed, none succeeded and no listed bytes are known |
| `SyncLaws.PinRequestRepins` | `crates/pkg-repo/src/sync.rs:249-256` | the request of a run replaces the rows its pins name and drops its own source's names of that architecture, and nothing else |
| `SyncLaws.PinsAreOwn` | `crates/pkg-repo/src/sync.rs:196-209` | everything a run pins is indexed as its own source's if and only if the known bytes it pins are |
| `SyncLaws.OwnPinsTouchOwnRows` | `worker/src/routes/releases.ts:119-128` | whatever the ring serves, pinning touches no row of another source or architecture if and only if the pins are the source's own |
| `Stores.PinsAreStored` | `crates/pkg-repo/src/sync.rs:287-303` | whatever the index knows and the upstream lists, every pinned sha is stored under its filename by a row that is not stale if and only if each known row pinned is the first to name its filename and no imported row is written over other bytes; both can be told before the run |
| `Stores.PoolStaysRight` | `worker/src/routes/packages.ts:161-177` | after a run of any list the first row for each filename still names the stored bytes if and only if no row written over other bytes is the first for its filename, told before the run |
| `Leftovers.LeftoverIs` | `worker/src/routes/packages.ts:65-77` | an import is registered over other bytes exactly when the stored object has its size, the sha is not indexed, and it is unsigned or the object has no checksum |
| `Leftovers.LeftoverTold` | `crates/pkg-repo/src/sync.rs:480-531` | which imports of a list will be registered over other bytes follows from the pool before and the list: the first object under each filename, and the first package of each sha it takes |
| `PoolRuns.StepAccounts` | `crates/pkg-repo/src/work.rs:437-508` | every completed job, from a pool whose rows are numbered in order and hold objects, leaves one, keeps filename answers right if and only if none of its imports spoils one, and every row stored if and only if none is accepted over a leftover |
| `PoolRuns.RunStores` | `worker/src/routes/packages.ts:161-177` | over every run of completed jobs from the empty pool: filename answers are what the pool stores, and every row is stored under its filename, exactly as long as no import spoils an answer, or is accepted over a leftover |
| `PoolRuns.ServedIsStored` | `crates/pkg-repo/src/sync.rs:287-303` | so, without such imports, whatever any ring serves at any time is stored under its filename |
| `SyncTwice.SecondRunIsQuiet` | `crates/pkg-repo/src/sync.rs:229-237` | after a complete first run of a list whose entries share a filename or bytes only when they are the same, a second one finds the selection unchanged if and only if the pool was steady before the first: what is not yielded is pinned by own rows, own rows pinned stay asked for, and no other own row stays under a listed name |
| `SyncTwice.SteadyAsListed` | `crates/pkg-repo/src/sync.rs:229-237` | where names are listed once and known rows carry them, that is: every package pinned by bytes already indexed is its own source's, or is yielded to a winning source and had no row |
| `Jobs.SyncSettles` | `crates/pkg-repo/src/work.rs:793-828` | a completed sync job leaves the imports and, if anything changed, the ring pinned again: the state the second run starts from |
| `Jobs.SecondSyncMakesNoRelease` | `crates/pkg-repo/src/work.rs:801-807` | a second sync job on the same upstream leaves the whole pool as it was, without a release, if and only if the pool was steady before the first |
| `Worker.KnownFilenames` | `worker/src/routes/packages.ts:161-177` | rows in order of indexing, stale ones skipped, the first per filename wins: the answer the classification relies on |
| `Import.ImportWorkers` | `crates/pkg-repo/src/sync.rs:424-479` | for every list and every schedule of any number of workers: it ends, each package is exactly once in done or failed, as the object its filename ended up with decides; where packages that share a filename or their bytes are one and the same, as an import of it alone would have decided |
| `Import.InOrderPasses` | `crates/pkg-repo/src/sync.rs:480-531` | importing any list in order is decided by the objects the filenames end up with, too |
| `Import.Decided` | `crates/pkg-repo/src/sync.rs:480-531` | where packages that share a filename or their bytes are one and the same, importing in order succeeds for each as importing it alone would |
| `Import.InterleavingIsInOrder` | `crates/pkg-repo/src/sync.rs:424-479` | a schedule that leaves the objects of importing in order imports the same packages and bytes; where packages that share a filename or their bytes are one and the same, every schedule does, and leaves the same rows but for their numbers |
| `Import.TakeConserved` | `crates/pkg-repo/src/sync.rs:447-450` | popping the queue keeps queue + in flight + done + failed the original multiset |
| `Import.OverConserved` | `crates/pkg-repo/src/sync.rs:460-470` | so does recording a package as done or failed |
| `Batch.Accumulate` | `crates/pkg-repo/src/work.rs:829-861` | the accumulators of one ring become the request of the whole batch |
| `PublishLaws.BatchLeaves` | `crates/pkg-repo/src/work.rs:793-870` | a batch leaves to pin, for each source in turn that was reached and did not stop, its pins and names to drop, if they change what its ring serves of it |
| `Batch.BatchRequestIsAtOnce` | `crates/pkg-repo/src/work.rs:864-872` | the batch's release serves all pins at once over the ring's rows |
| `Batch.OneMorePartAgrees` | `crates/pkg-repo/src/work.rs:857-872` | releasing one more source after a batch gives the larger batch's selection if and only if it neither drops nor replaces a pin of the batch |
| `Batch.AnyOrderAgrees` | `crates/pkg-repo/src/work.rs:829-872` | whatever the ring serves, one release for the batch equals one release per source in every order if and only if no source drops or replaces what another pins |
| `Batch.OwnPartsAgree` | `crates/pkg-repo/src/work.rs:829-872` | in particular when each source pins its own rows |
| `Witnesses.BatchIsNotItsParts` | `crates/pkg-repo/src/work.rs:829-872` | a pool a sync reaches and a batch of two sources - one dropped a package, the other lists its bytes - for which some order of single releases serves something else |
| `Jobs.BatchServes` | `crates/pkg-repo/src/work.rs:829-882` | a batch of one architecture always completes, and every ring serves at once what its sources left to pin |
| `Jobs.BatchIsItsParts` | `crates/pkg-repo/src/work.rs:829-882` | what a batched sync leaves a ring serving is what one release per source, in every order, would leave if and only if no source disturbs what another pins |
| `Worker.Pool.BatchJob` | `crates/pkg-repo/src/work.rs:829-882` | the loops over sources and rings - skipping failed sources, accumulating by ring, releasing, rendering what was not kept - leave what the specification of the batch says |
| `Worker.Pool.RenderRing` | `crates/pkg-repo/src/ops.rs:373-435` | filing rows by source and writing a database per source leaves exactly the databases of the ring's selection, and every other database as it was |
| `RequestLaws.RenderWrites` | `crates/pkg-repo/src/ops.rs:373-435` | a rendering writes, for each source the ring has a package of there, exactly those packages, and no other database |
| `Worker.Pool.RenderBoth` | `crates/pkg-repo/src/work.rs:643-664` | renders the given architecture and the other, except those a release kept |
| `Worker.Pool.Release` | `crates/pkg-repo/src/client.rs:500-521` | a release request either is refused and changes nothing, or leaves the created release and reports the architectures it kept |
| `Worker.Pool.RollbackJob` | `crates/pkg-repo/src/work.rs:934-971` | the rollback job's steps leave what its specification says |
| `Worker.Pool.PromoteJob` | `crates/pkg-repo/src/work.rs:1508-1601` | the promotion job's steps - head, release, channel by channel, rendering, health, rollback - leave what its specification says |
| `Worker.Pool.FastTrackJob` | `crates/pkg-repo/src/work.rs:1649-1692` | the fast-track's steps leave what its specification says |
| `Worker.Pool.PublishArchive` | `crates/pkg-repo/src/ops.rs:111-152` | one archive: what is stored under its filename is pinned instead, what the index has is not uploaded, anything else is uploaded and registered |
| `Worker.Pool.PublishJob` | `crates/pkg-repo/src/work.rs:705-761` | the archives in turn, the release and both renderings leave what the specification of a publication says |
| `PublishLaws.NewArchives` | `crates/pkg-repo/src/work.rs:705-782` | a publication of archives new to the pool completes if and only if there are any and all are downloaded under names that can be stored; they are indexed as the source `factory`'s, and edge serves them over what it served |
| `Worker.Pool.VerifyJob` | `crates/pkg-repo/src/work.rs:1047-1074` | a completed verification has pinned every place to what the pool stores but for rows the index refused, and rendered exactly those places; with nothing refused it completes with the pins of looking from scratch; without an object of the download's name it completes if and only if no two places pin the same refusable row |
| `WorkLaws.RollbackJobWhole` | `crates/pkg-repo/src/work.rs:934-971` | after a rollback of both architectures the ring serves exactly the old release's members, rendered; history only grew and no other ring changed |
| `WorkLaws.RollbackJobOneArch` | `crates/pkg-repo/src/work.rs:934-971` | of one architecture: that one is the old release's, rendered; the other keeps its rows and its databases |
| `WorkLaws.RollbackJobFails` | `crates/pkg-repo/src/work.rs:934-954` | it fails exactly for a release that does not exist |
| `WorkLaws.AlignEffect` | `crates/pkg-repo/src/work.rs:1518-1544` | a sync of one architecture, complete, refused or unreachable, changes nothing but that architecture of its ring |
| `WorkLaws.VerifyWhole` | `crates/pkg-repo/src/work.rs:1649-1692` | rendering and health of both architectures keep the release or restore exactly what the ring served; it fails exactly when unhealthy without a previous release |
| `WorkLaws.VerifyOneArch` | `crates/pkg-repo/src/work.rs:1545-1592` | of one architecture likewise, even after channel syncs ran in between: both architectures are restored exactly and the other's databases stay right |
| `Promotions.PromoteWhole` | `crates/pkg-repo/src/work.rs:1508-1601` | for every channel sync and health outcome: the promoted and aligned selection when healthy, exactly the previous selection when not, both rendered; it fails exactly without a source head, or unhealthy without a previous release |
| `Promotions.PromoteOneArch` | `crates/pkg-repo/src/work.rs:1508-1601` | of one architecture: its rows come from the source, the other's rows and databases stay; unhealthy restores the selection of both exactly |
| `ChannelLaws.PromotionServes` | `crates/pkg-repo/src/work.rs:1512-1601` | a healthy promotion, of both architectures or one, into any ring: of every source but `packages` each serves exactly the promoted rows, of `packages` what its channel pins and the promoted rows still listed - or the promoted ones when it is out of reach |
| `Promotions.PromoteIntoEmptyRing` | `crates/pkg-repo/src/work.rs:1508-1553` | into a ring without a release both architectures are copied and one is rendered: the other's databases are right if and only if it has no rows |
| `Jobs.FastTrackServes` | `crates/pkg-repo/src/work.rs:1649-1692` | healthy: the ring's rows with the fixes over them; unhealthy: exactly the rows before; it fails exactly for a fix not indexed, or unhealthy without a previous release |
| `Jobs.PublishServes` | `crates/pkg-repo/src/ops.rs:97-159` | a publication completes if and only if there are archives, each is taken, and all their bytes are indexed for the architecture; edge serves them over what it served, both architectures rendered |
| `Jobs.SyncKeeps` | `crates/pkg-repo/src/work.rs:793-828` | a sync job fails exactly without its upstream or by the failure rule; otherwise history grows and every right database stays right |
| `Jobs.StepKeeps` | `crates/pkg-repo/src/work.rs:437-508` | whatever job completes: the index stays sound, history grows, and a right database stays right if and only if it is not the gap: the other architecture, with packages in the source, of a one-architecture promotion or rollback into a ring without a release - told before the job |
| `Jobs.RunKeeps` | `crates/pkg-repo/src/work.rs:437-508` | over every run of completed jobs from an empty pool: every state is sound and continues the earlier ones; all databases are right at all times if and only if no job had a gap |
| `Witnesses.PromotionOpensGap` | `crates/pkg-repo/src/work.rs:1508-1553` | two syncs and a promotion of one architecture, from the empty pool, after which the other's packages have no database |
| `Witnesses.ForeignPinNeverSettles` | `crates/pkg-repo/src/sync.rs:196-237` | bytes indexed under another source make every sync of the same upstream want another release, whatever the pool |
| `Witnesses.TwoSourcesOfOnePackage` | `crates/pkg-repo/src/sync.rs:196-237` | a pool a sync reaches in which another source lists the same bytes |
| `Witnesses.ForeignRepeats` | `crates/pkg-repo/src/sync.rs:196-237` | from such a pool syncing that source makes a release and leaves such a pool, so it never ends |
| `Witnesses.StaleRowIsPinned` | `worker/src/routes/packages.ts:143-151` | a pool in which a row marked as naming no object is pinned although nothing is stored for it |
| `Verify.VerifyView` | `crates/pkg-repo/src/verify.rs:94-216` | one ring and architecture, each row once in any order: what was seen, cached, pinned again and refused |
| `Verify.VerifyRun` | `crates/pkg-repo/src/verify.rs:80-241` | unless the index refuses stored bytes the run completes and every place is pinned to exactly what looking at it from scratch would pin; with no object of that name a refusal stops it if and only if a second place pins the same row |
| `Verify.UnknownPin` | `crates/pkg-repo/src/verify.rs:102-117` | a re-pin the service refuses is one the cached branch repeats after the index refused its bytes for an earlier ring |
| `Verify.CachesChangeNothing` | `crates/pkg-repo/src/verify.rs:94-117` | with nothing refused the pins of every place equal the mismatches found from scratch |
| `Verify.CleanAfterRepair` | `crates/pkg-repo/src/verify.rs:217-236` | a second run finds no mismatch at a place if and only if every wrong row's source, name and architecture is pinned again and no pin is itself wrong |
| `Verify.FittingPinsReplace` | `crates/pkg-repo/src/verify.rs:142-175` | when stored bytes are indexed as the packages they are stored for, the repair leaves nothing to find |
| `RepairLaws.VerificationRepairs` | `crates/pkg-repo/src/verify.rs:80-241` | a completed verification pins at each place only bytes stored under the filename of a row of `packages` it serves, pins them for every such row unless it was refused, serves its earlier rows with the pins over them, and adds no row to the index unless something is stored as `object.pkg` |
| `Jobs.SecondVerificationPinsNothing` | `crates/pkg-repo/src/verify.rs:80-241` | a verification after one that refused nothing, where stored bytes are indexed as the packages they are stored for, pins nothing and finds no mismatch |
| `Jobs.SecondVerificationIsQuiet` | `crates/pkg-repo/src/verify.rs:80-241` | in general: after a verification that refused nothing, no place has a mismatch if and only if its pins replace all that is wrong and are right themselves, told before it; then the next pins nothing, and one that refuses nothing pins nothing only then |
| `VerifyWitness.StuckPool` | `crates/pkg-repo/src/verify.rs:80-241` | two syncs from the empty pool after which a row's object holds the bytes of another package |
| `VerifyWitness.VerificationRepeats` | `crates/pkg-repo/src/verify.rs:80-241` | there a verification of all rings completes, and every one that does pins the same ring again and leaves such a pool |
| `Jobs.VerifiedKeeps` | `crates/pkg-repo/src/work.rs:1070-1073` | after a verification job every right database is right, every place pinned again is rendered, and the others serve what they did |
| `Witnesses.VerificationStops` | `crates/pkg-repo/src/verify.rs:80-241` | two syncs, a batch with a failed import and a promotion, from the empty pool, after which no verification of all rings can complete |
| `Security.FastTrackAdds` | `crates/pkg-repo/src/security.rs:749-775` | the loops pull, per architecture, the first row of the source ring that offers the clean version of each candidate |
| `Security.FixesAreNewer` | `crates/pkg-repo/src/security.rs:749-775` | everything pulled is a row the source ring serves for the architecture, newer by `vercmp` than a vulnerable version severe enough |
| `Security.FixReplaces` | `crates/pkg-repo/src/work.rs:1649-1692` | after a healthy fast-track a row of the ring is gone if and only if a fix pulled for its package comes from its own source |
| `SecurityLaws.PullsExactly` | `crates/pkg-repo/src/security.rs:656-775` | a build is pulled if and only if it is the first the source ring lists of a clean version that is newer, for an advisory that matches by more than the name and is exploited or at least as severe as asked, the severities spelled out |
| `SecurityLaws.FixesServed` | `crates/pkg-repo/src/work.rs:1649-1692` | after a healthy fast-track the ring serves what was pulled and every row it served of another source, name or architecture; after an unhealthy one what it served |
| `Witnesses.VulnerableStays` | `crates/pkg-repo/src/security.rs:749-803` | two syncs from the empty pool after which a healthy fast-track serves the fix beside the vulnerable build |
| `Gate.Evaluate` | `crates/pkg-repo/src/gate.rs:86-201` | the loops over architectures and events collect exactly the reasons of the specification and the verdict over them |
| `Gate.VerdictIsCondition` | `crates/pkg-repo/src/gate.rs:86-222` | for distinct event ids the verdict is a condition on the set of events: block, skip and promote each if and only if |
| `GateLaws.PlainVerdict` | `crates/pkg-repo/src/gate.rs:86-222` | for distinct event ids, read off the fields of the events: the gate blocks if and only if the soak of so many days of 86400 seconds is not over, the ring has no release, or an architecture has a regression, no passed latest health check within so many hours of 3600 seconds, three failed ones within the soak, or a failed latest ABI check within those hours; it skips what the target was promoted from |
| `Gate.OrderDoesNotMatter` | `crates/pkg-repo/src/gate.rs:114-130` | the order of the events changes no answer |
| `Gate.OthersDoNotMatter` | `crates/pkg-repo/src/gate.rs:114-128` | events of other rings, architectures and kinds change no answer |
| `Gate.OneAloneDecides` | `crates/pkg-repo/src/gate.rs:108-185` | a list of architectures blocks if and only if one of them, asked alone, does |
| `Promoted.FindLastPromotion` | `crates/pkg-repo/src/gate.rs:318-327` | the walk over parents ends when parents have smaller ids, at what its specification says |
| `Promoted.WalkFindsNearest` | `crates/pkg-repo/src/gate.rs:318-327` | it stops at the nearest release with a source on the chain of parents, after passing only releases without one |
| `Promoted.LineageIsHistory` | `worker/src/routes/releases.ts:336-347` | the chain of parents of a ring's head holds every release of the ring |
| `Promoted.FiftyRowsSuffice` | `worker/src/routes/releases.ts:336-347` | the fifty rows the service returns give the answer of the whole history if and only if the last promotion is among them; otherwise they give none |
| `GateRun.FiftyRowsDecide` | `crates/pkg-repo/src/gate.rs:225-260` | the gate over fifty rows of each history blocks for the soak if and only if the last promotion into the source ring is among its newest fifty releases and too young, and skips only if that into the target ring is and copied the head |
| `HistoryLaws.LastCopyFound` | `crates/pkg-repo/src/gate.rs:318-333` | what the gate takes for the last promotion into a ring is its last release copied from another, if fewer than fifty came since, and none otherwise |
| `HistoryLaws.PromotionAsks` | `crates/pkg-repo/src/gate.rs:225-260` | the whole question of a promotion, said of releases and event fields: when it is blocked, and skipped if and only if that release of the target copied the head |
| `GateWitness.PromotedAgain` | `crates/pkg-repo/src/gate.rs:225-260` | a run of jobs after which the gate promotes what, over the whole history, it would skip as served |
| `GateWitness.SoakForgotten` | `crates/pkg-repo/src/gate.rs:225-260` | ... and promotes at once what, over the whole history, the soak blocks |
| `GateRun.EventRowsDecide` | `crates/pkg-repo/src/gate.rs:225-227` | over the newest 200 rows of each kind the gate blocks if and only if some architecture's latest health check of all is not among them or not good, three failures are, or its latest fresh ABI check of all is among them and failed |
| `Scheduler.TaskTable.RecentJobs` | `worker/src/scheduler.ts:109-114` | the newest rows of a job, at most ten |
| `Scheduler.TaskTable.RunScheduler` | `worker/src/scheduler.ts:277-297` | the loops over rules and jobs decide one job after another, each on the table the earlier ones left |
| `ScheduleLaws.TodaysJobs` | `worker/src/scheduler.ts:68-99` | the jobs of a tick: a sync per architecture, a health check per ring and architecture, the two promotions, and one each of the others, as their kinds are on and the cost guard allows |
| `ScheduleLaws.DueWhen` | `worker/src/scheduler.ts:109-178` | when a job is due, in minutes, hours and days of the week, from whether a task waits and when the newest was created |
| `ScheduleLaws.TickCreates` | `worker/src/scheduler.ts:202-297` | a tick appends one task of each job scheduled that does not wait and is due, and no other |
| `Scheduler.WindowDecides` | `worker/src/scheduler.ts:109-178` | ten rows decide as the full history would |
| `Scheduler.TimingsAgree` | `worker/src/scheduler.ts:68-83` | every job of a rule has that rule's timing, so a job has one |
| `Scheduler.RunKeeps` | `worker/src/scheduler.ts:159-178` | over all ticks and completions: at most one active row per job and it is the newest; interval jobs at least their interval and five minutes after the last was created; daily jobs once per UTC day |
| `Scheduler.DailyIsServed` | `worker/src/scheduler.ts:169-176` | after a tick past its slot a daily job is active or was created since the slot |
| `Scheduler.IntervalIsServed` | `worker/src/scheduler.ts:165-168` | after a tick an interval job is active or was created less than its interval and five minutes ago |
| `Paging.FetchRelease` | `crates/pkg-repo/src/client.rs:549-593` | for every page size of at least one the client's loop returns the rows in order, each exactly once, and ends |
| `Paging.PageMeans` | `worker/src/db.ts:100-150` | a page holds the next rows, as many as asked for if there are, and names a next cursor - its last row - if and only if it is full |
| `Paging.RestAfter` | `worker/src/db.ts:137-141` | after a row's name, architecture and source come exactly the rows after it |
| `Paging.EqualKeysAreLost` | `worker/src/db.ts:137-141` | a row with the key of the last one is never returned: keys must be unique |
| `Paging.KeyOrder` | `worker/src/db.ts:129-141` | rows are ordered by the bytes of the name, then the architecture, then the source |
| `Paging.SourcelessLoses` | `worker/src/db.ts:129-140` | a cursor without the source loses exactly the rows of the same name and architecture from later sources |
| `Paging.SourcelessKeepsOrder` | `worker/src/db.ts:129-140` | but it repeats no row: what it returns comes after the last one |
| `Paging.CursorRoundTrip` | `worker/src/routes/releases.ts:278-288` | the cursor the service prints reads back as the same name, architecture and source, slashes in the name included |
| `Dependency.RoundTrip` | `crates/pkg-manifest/src/dependency.rs:129-191` | for every string the parser accepts, parsing the printed rule gives the same rule |
| `DependencyLaws.OperatorsRead` | `crates/pkg-manifest/src/dependency.rs:129-176` | `>=`, `<=`, `=`, `>` and `<` between a name and a version are read as what they say |
| `DependencyLaws.NameReads` | `crates/pkg-manifest/src/dependency.rs:129-176` | a bare name reads as a rule without a version |
| `DependencyLaws.WhiteAround` | `crates/pkg-manifest/src/dependency.rs:129-176` | white space around a rule, the Unicode kinds included, is not part of it |
| `Dependency.RoundTripsIffParsed` | `crates/pkg-manifest/src/dependency.rs:129-191` | a rule survives printing and parsing if and only if it is readable: trimmed, no bracket before the symbol version, split where the operators split it |
| `Dependency.PrintingIsInjective` | `crates/pkg-manifest/src/dependency.rs:178-191` | printed forms tell exactly the distinct parsed rules apart |
| `Dependency.StrictIsStrict` | `crates/pkg-manifest/src/dependency.rs:133-141` | a rule read with `>` or `<` holds no `=` before its symbol version: the longer operators are never misread |
| `Dependency.BoundsAreMonotone` | `crates/pkg-manifest/src/dependency.rs:40-53` | among ordered versions a newer candidate keeps lower bounds satisfied, an older one upper bounds, an equal one exact versions |
| `Dependency.ExactRules` | `crates/pkg-manifest/src/dependency.rs:101-126` | an exact rule is satisfied by an exact capability if and only if the versions are equal, in both directions |
| `DependencyLaws.OperatorsMean` | `crates/pkg-manifest/src/dependency.rs:40-126` | a rule's text is satisfied by `name=x` if and only if the name is its own and the version order puts x where its operator says |
| `DependencyLaws.UnversionedProvides` | `crates/pkg-manifest/src/dependency.rs:101-126` | a capability without an exact version satisfies its bare name, and no rule that names a version |
| `DependencyLaws.SymbolsMean` | `crates/pkg-manifest/src/dependency.rs:101-126` | symbol versions are compared as texts when both sides have one |
| `Extract.CollapseVersionNeeds` | `crates/pkg-extract/src/lib.rs:296-324` | the loop over needs keeps exactly the best need of each library and namespace of the specification |
| `Extract.SymbolParts` | `crates/pkg-extract/src/lib.rs:326-334` | the number of a symbol is what follows its last underscore if that starts with a digit, the namespace what precedes it |
| `Extract.SplitIsInjective` | `crates/pkg-extract/src/lib.rs:327-334` | a namespace and a number name one symbol |
| `Extract.CollapsePreserves` | `crates/pkg-extract/src/lib.rs:290-324` | on every system downward-closed in each namespace all needs are met if and only if the kept ones are - exactly when no unnumbered symbol is also a numbered one's namespace |
| `Extract.PlainSymbolIsLost` | `crates/pkg-extract/src/lib.rs:302-321` | `FOO` beside `FOO_1`: a concrete pair of needs whose reduction loses one |
| `Extract.KeptIsHighest` | `crates/pkg-extract/src/lib.rs:290-324` | on numbers the version order orders, the kept need is a highest one |
| `Extract.RuleSet.Push` | `crates/pkg-extract/src/lib.rs:344-348` | a rule is appended unless one with its text is there |
| `Extract.RuleSet.ExtendParsed` | `crates/pkg-extract/src/lib.rs:352-361` | strings that cannot be read are skipped, the others pushed in order |
| `Extract.NoRuleIsLost` | `crates/pkg-extract/src/lib.rs:336-361` | the list holds exactly the rules read: keying by text loses none |
| `Check.LocalDb.Insert` | `crates/pkg-check/src/local.rs:55-74` | capabilities are filed by name after the earlier ones, also those of a package inserted before; the package itself is replaced |
| `Check.LocalDb.Satisfiers` | `crates/pkg-check/src/local.rs:85-95` | looking under the rule's name finds every package ever inserted with a satisfying capability, in order |
| `Check.SatisfiersAgree` | `crates/pkg-check/src/local.rs:55-95` | the answers are the installed packages that satisfy the rule if and only if each package that was replaced satisfied it only if its replacement does |
| `Check.DistinctNamesAgree` | `crates/pkg-check/src/local.rs:55-95` | so they are for every rule when no two inserted packages share a name |
| `Check.ReplacedStillAnswers` | `crates/pkg-check/src/local.rs:55-95` | a package inserted again without a capability still answers for it, and the check passes what nothing installed satisfies |
| `Check.BuildPlan` | `crates/pkg-check/src/check.rs:81-133` | the loops yield the actions, and the findings of the specification in their order |
| `CheckLaws.ActionsAre` | `crates/pkg-check/src/check.rs:81-133` | a candidate not installed is an installation, and otherwise an upgrade, a downgrade or nothing as its version is newer than, older than or equal to the installed one |
| `CheckLaws.PlanMeans` | `crates/pkg-check/src/check.rs:81-226` | the findings are exactly: for each package that changes the machine a blocker for each symbol version a present library lacks, and a warning for each requirement nothing installed answers for - neither when the plan brings it - blockers first, then by package |
| `Check.NothingIsSkipped` | `crates/pkg-check/src/check.rs:115-126` | skipping texts already seen drops no finding |
| `Check.SortedKeeps` | `crates/pkg-check/src/check.rs:127-131` | sorting keeps every finding, worst first, then by package |
| `Check.SafeIsSound` | `crates/pkg-check/src/check.rs:58-64` | a plan is safe if and only if no requirement of a package to install is blocked, defined without texts, memory or order |
| `Check.ReducedCheckAgrees` | `crates/pkg-check/src/check.rs:153-207` | checking the kept needs blocks if and only if checking all needs does, when no unnumbered symbol is a numbered one's namespace and both the machine's libraries and what the plan brings are downward-closed |
| `Check.WholeLibrariesAreClosed` | `crates/pkg-check/src/check.rs:153-207` | what a plan brings is downward-closed when it carries no symbol versions and the needs no constraints |
| `Desc.RenderDesc` | `crates/pkg-repo/src/desc.rs:9-34` | the entries are appended in their order, those without a first value left out |
| `DescLaws.TextIs` | `crates/pkg-repo/src/desc.rs:9-34` | the text of a package's entry: its 21 fields under their names in order, each between percent signs with one value a line and an empty line after it, those without a first value left out |
| `Desc.Entry` | `crates/pkg-repo/src/desc.rs:55-64` | the text of one entry |
| `Desc.EntryReadsBack` | `crates/pkg-repo/src/desc.rs:55-64` | an entry reads back as written if and only if its values are not empty, on one line and not of the form of a header |
| `Desc.ParseSyncDesc` | `crates/pkg-repo/src/syncdb.rs:41-73` | the loop collects the first value of each field the sync needs, and the size as an unsigned 64-bit number |
| `Desc.ParseLocalDesc` | `crates/pkg-check/src/local.rs:103-128` | the loop collects all values of each field |
| `Desc.FieldReads` | `crates/pkg-repo/src/desc.rs:9-34` | reading any field of a printable package gives its values, or none when the entry is left out |
| `Desc.SyncRoundTrip` | `crates/pkg-repo/src/syncdb.rs:41-73` | printing and reading in a sync gives the same name, version, filename, sha256 and download size |
| `Desc.LocalRoundTrip` | `crates/pkg-check/src/local.rs:103-128` | printing and reading from the local database gives the same rules, unless a list starts with an empty value and is left out |
| `Desc.RulesSurvive` | `crates/pkg-check/src/local.rs:117-127` | readable rules printed into a list are read back as the same rules |

## Left out

- HTTP, retries, D1, R2 and SQL mechanics, compression, tar and containers: a request either
  takes effect whole or not at all, and a download, an import, a health or ABI check is an input.
- Two writers at once: jobs change the index one after another, and scheduler ticks do not overlap.
- I/O errors inside a job: the laws of runs are about jobs that complete, as the source reports them.
- Garbage collection, the move of objects into source directories (which marks stale rows), leases,
  reviews and approvals; the list of sources the pool accepts.
- The rows and objects a failed job leaves, but for syncs inside batches and promotions, which complete.
- Signatures, tokens and keyrings, and the signature repair of a verification, which changes no selection.
- Verifications that only report: they change nothing.
- A database whose source no longer has a package in the ring stays as it was written last; the laws
  speak of sources with at least one package.
- The name, version and filename an import extracts from an archive are taken to be those its upstream lists.
- The order and wording of reasons, findings' details, events and summaries.
- Project builds, audits, recipe bumps and the rules the scheduler still starts elsewhere.
- Import.InterleavingIsInOrder: row numbers depend on the schedule, and are left out of the comparison;
  where different packages share a filename, so does which of them lies there.
- Import.Decided: different packages that share a filename or their bytes decide as `Import.InOrderPasses` says.
- SyncTwice.SecondRunIsQuiet: entries of the upstream that share a filename or their bytes are one and the same.
- Jobs.SecondSyncMakesNoRelease: likewise.
- SyncTwice.SteadyAsListed: each name is listed once, and known rows carry the listed names.
- Scheduler.RunKeeps: assumes, as the scheduler does, that nothing else creates its jobs.
- Gate.VerdictIsCondition: regressions enter as a count per architecture; the advisory matching is not modelled.
- Gate.Evaluate: the descending sort of the health checks, of which only the first is used, is a search for it.
- Check.BuildPlan: the library call that sorts findings is a stable insertion sort.
- Desc.SyncRoundTrip: about one entry; the archive around the entries is left out.
- Paging.FetchRelease: the release does not change between pages, which the pinned release id ensures.
- ImportLaws.NewPackages: about entries with a filename and bytes of their own, in a run without a limit;
  for the others `ImportLaws.PinsMean` and `Import.InOrderPasses` say what is pinned and imported.
- ImportLaws.PinsMean: the numbers of rows are distinct, which every run of jobs keeps.
- ChannelLaws.SyncServes: listed bytes the index has for the architecture are the source's own; what foreign
  ones do is in `SyncLaws.OwnPinsTouchOwnRows`.
- ChannelLaws.PromotionServes: likewise for the promoted channels.
- PublishLaws.NewArchives: the pool has nothing of the archives; for any others `Jobs.PublishServes` holds.
