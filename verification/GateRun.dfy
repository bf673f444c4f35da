/** The gate as a promotion consults it: the heads and last promotions come from fifty rows of each ring's history. */
module GateRun {
  import opened Common
  import opened Calendar
  import opened Releases
  import opened Promoted
  import opened Gate

  /** The last promotion into a ring, as far as the newest `limit` rows tell. */
  function LastPromoted(db: Db, ring: Ring, limit: nat): Option<HistoryEntry>
    requires Inv(db) && limit > 0
  {
    if ring !in db.heads then None
    else
      WindowFindsPromotion(db, ring, limit);
      LastPromotion(History(db, ring, limit))
  }

  /** The release the last promotion into the ring copied. */
  function ToSource(db: Db, to: Ring, limit: nat): Option<nat>
    requires Inv(db) && limit > 0
  {
    if LastPromoted(db, to, limit).Some? then LastPromoted(db, to, limit).value.source else None
  }

  /** When what the ring serves arrived there; `stamps` are the times the releases were recorded at. */
  function PromotedAt(db: Db, from: Ring, stamps: nat -> seq<byte>, limit: nat): Option<int>
    requires Inv(db) && limit > 0
  {
    if LastPromoted(db, from, limit).Some? then ParseIso(stamps(LastPromoted(db, from, limit).value.id)) else None
  }

  /** The gate's answer, reading `limit` rows of each history. */
  function AnswerOver(db: Db, from: Ring, to: Ring, stamps: nat -> seq<byte>, limit: nat, events: seq<Event>, now: int,
      security: seq<nat>, o: Options): Answer
    requires Inv(db) && limit > 0
  {
    Ask(events, now, db.Parent(from), ToSource(db, to, limit), PromotedAt(db, from, stamps, limit), security, o)
  }

  /** As many rows as the whole history has. */
  function Whole(db: Db): nat { |db.releases| + HISTORY_ROWS }

  /** Fewer than fifty releases were made since the last promotion, or there was none. */
  predicate SeesPromotion(db: Db, ring: Ring)
    requires Inv(db)
  {
    if ring !in db.heads then true
    else
      HeadExists(db, ring);
      var k := FirstSourced(db, Lineage(db.releases, db.heads[ring]));
      k.Some? ==> k.value < 50
  }

  lemma {:induction false} LineageLength(rs: seq<Release>, id: nat)
    requires WellParented(rs) && id < |rs|
    ensures |Lineage(rs, id)| <= id + 1
    decreases id
  {
    if rs[id].parent.Some? { LineageLength(rs, rs[id].parent.value); }
  }

  /** Fifty rows tell the last promotion exactly when they see it; otherwise they tell of none. */
  lemma FiftyRowsTell(db: Db, ring: Ring)
    requires Inv(db)
    ensures LastPromoted(db, ring, HISTORY_ROWS) == if SeesPromotion(db, ring) then LastPromoted(db, ring, Whole(db))
      else None
  {
    if ring in db.heads {
      HeadExists(db, ring);
      var ids := Lineage(db.releases, db.heads[ring]);
      LineageLength(db.releases, db.heads[ring]);
      WindowFindsPromotion(db, ring, HISTORY_ROWS);
      WindowFindsPromotion(db, ring, Whole(db));
      hide Inv, Lineage, History, LastPromotion, FirstSourced;
    }
  }

  /**
   * With fifty rows the soak applies only while the last promotion into `from` is among
   * its newest fifty releases, and a promotion is skipped only while that into `to` is:
   * beyond, a release blocks for no soak and is promoted again although it is served.
   */
  lemma FiftyRowsDecide(db: Db, from: Ring, to: Ring, stamps: nat -> seq<byte>, events: seq<Event>, now: int,
      security: seq<nat>, o: Options)
    requires Inv(db)
    ensures HISTORY_ROWS == 50
    ensures var answer := AnswerOver(db, from, to, stamps, 50, events, now, security, o);
            && (answer == Blocks <==>
                  || from !in db.heads || ReasonsUpto(events, now, security, o, |o.arches|) != []
                  || (SeesPromotion(db, from) && SoakTooShort(now, PromotedAt(db, from, stamps, Whole(db)), o)))
            && (answer == Skips <==>
                  && answer != Blocks && SeesPromotion(db, to) && ToSource(db, to, Whole(db)) == db.Parent(from))
  {
    assert HISTORY_ROWS == 50;
    hide *;
    FiftyRowsTellBoth(db, from, to, stamps);
    AnswerIs(db, from, to, stamps, HISTORY_ROWS, events, now, security, o);
    Parents(db, from);
    NoSoak(now, o);
  }

  lemma FiftyRowsTellBoth(db: Db, from: Ring, to: Ring, stamps: nat -> seq<byte>)
    requires Inv(db)
    ensures PromotedAt(db, from, stamps, HISTORY_ROWS) == if SeesPromotion(db, from)
      then PromotedAt(db, from, stamps, Whole(db)) else None
    ensures ToSource(db, to, HISTORY_ROWS) == if SeesPromotion(db, to) then ToSource(db, to, Whole(db)) else None
  {
    FiftyRowsTell(db, from);
    FiftyRowsTell(db, to);
    hide Inv, LastPromoted, SeesPromotion, ParseIso, Whole;
  }

  lemma AnswerIs(db: Db, from: Ring, to: Ring, stamps: nat -> seq<byte>, limit: nat, events: seq<Event>, now: int,
      security: seq<nat>, o: Options)
    requires Inv(db) && limit > 0
    ensures var answer := AnswerOver(db, from, to, stamps, limit, events, now, security, o);
            && (answer == Blocks <==>
                  || db.Parent(from).None? || ReasonsUpto(events, now, security, o, |o.arches|) != []
                  || SoakTooShort(now, PromotedAt(db, from, stamps, limit), o))
            && (answer == Skips <==> answer != Blocks && ToSource(db, to, limit) == db.Parent(from))
  {
    hide Inv, ReasonsUpto, SoakTooShort, ToSource, PromotedAt;
  }

  lemma Parents(db: Db, ring: Ring)
    ensures db.Parent(ring).None? <==> ring !in db.heads
  {}

  lemma NoSoak(now: int, o: Options)
    ensures !SoakTooShort(now, None, o)
  {}

  // ---------- the windows of events ----------

  const EVENT_ROWS := 200

  function Newer(log: set<Event>, e: Event): set<Event> { set f | f in log && f.kind == e.kind && f.id > e.id }

  /** The newest rows of each kind, which is all the gate fetches. */
  function Fetched(log: set<Event>): set<Event> { set e | e in log && |Newer(log, e)| < EVENT_ROWS }

  lemma {:induction false} FewerElements<T>(a: set<T>, b: set<T>)
    requires a <= b
    ensures |a| <= |b|
    decreases a
  {
    if x :| x in a {
      FewerElements(a - {x}, b - {x});
    }
  }

  /** What is newer than a fetched event of its kind is fetched too. */
  lemma NewerIsFetched(log: set<Event>, e: Event, f: Event)
    requires e in Fetched(log) && f in log && f.kind == e.kind && f.id >= e.id
    ensures f in Fetched(log)
  {
    FewerElements(Newer(log, f), Newer(log, e));
  }

  lemma FetchedHealth(log: set<Event>, e: Event, o: Options, arch: string)
    ensures NewestHealth(Fetched(log), e, o, arch) <==> e in Fetched(log) && NewestHealth(log, e, o, arch)
  {
    if NewestHealth(Fetched(log), e, o, arch) {
      forall f | f in log && Health(f, o, arch) ensures f.id <= e.id {
        if f.id > e.id { NewerIsFetched(log, e, f); }
      }
    }
  }

  lemma FetchedAbi(log: set<Event>, e: Event, now: int, o: Options, arch: string)
    ensures NewestAbi(Fetched(log), e, now, o, arch) <==> e in Fetched(log) && NewestAbi(log, e, now, o, arch)
  {
    hide Within;
    if NewestAbi(Fetched(log), e, now, o, arch) {
      forall f | f in log && FreshAbi(f, now, o, arch) ensures f.id <= e.id {
        if f.id > e.id { NewerIsFetched(log, e, f); }
      }
    }
  }

  /** What the whole log says of an architecture, as far as its newest rows of each kind show it. */
  predicate BlockedAsFetched(log: set<Event>, now: int, o: Options, arch: string, regressions: nat) {
    || regressions > 0
    || !(exists e :: e in Fetched(log) && NewestHealth(log, e, o, arch) && e.status != "error"
                     && Within(e, now, MaxAge(o)))
    || |FailuresIn(log, now, o, arch) * Fetched(log)| >= FLAPPING
    || (exists e :: e in Fetched(log) && NewestAbi(log, e, now, o, arch) && e.status == "error")
  }

  lemma FetchedBlocks(log: set<Event>, now: int, o: Options, arch: string, regressions: nat)
    ensures ArchBlocked(Fetched(log), now, o, arch, regressions) <==> BlockedAsFetched(log, now, o, arch, regressions)
  {
    forall e ensures NewestHealth(Fetched(log), e, o, arch) <==> e in Fetched(log) && NewestHealth(log, e, o, arch) {
      FetchedHealth(log, e, o, arch);
    }
    forall e
      ensures NewestAbi(Fetched(log), e, now, o, arch) <==> e in Fetched(log) && NewestAbi(log, e, now, o, arch)
    {
      FetchedAbi(log, e, now, o, arch);
    }
    assert FailuresIn(Fetched(log), now, o, arch) == FailuresIn(log, now, o, arch) * Fetched(log);
    hide NewestHealth, NewestAbi, FailuresIn, Fetched, Within;
  }

  lemma FetchedAre(all: seq<Event>, events: seq<Event>)
    requires forall e :: e in events <==>
               e in all && |set f | f in all && f.kind == e.kind && f.id > e.id| < 200
    ensures Log(events) == Fetched(Log(all))
  {
    forall e ensures Newer(Log(all), e) == set f | f in all && f.kind == e.kind && f.id > e.id {}
    forall e ensures e in Fetched(Log(all)) <==> e in events {
      assert |Newer(Log(all), e)| == |set f | f in all && f.kind == e.kind && f.id > e.id|;
    }
  }

  /**
   * Over the newest 200 rows of each kind the gate blocks exactly when one architecture's
   * latest health check of all is not among them or not good, three failures are, or its
   * latest fresh ABI check of all is among them and failed: a health check out of sight
   * blocks, failures and ABI checks out of sight do not.
   */
  lemma EventRowsDecide(all: seq<Event>, events: seq<Event>, now: int, fromHead: Option<nat>, toSource: Option<nat>,
      promotedAt: Option<int>, security: seq<nat>, o: Options)
    requires DistinctIds(events)
    requires forall e :: e in events <==>
               e in all && |set f | f in all && f.kind == e.kind && f.id > e.id| < 200
    ensures Ask(events, now, fromHead, toSource, promotedAt, security, o) == Blocks <==>
      || SoakTooShort(now, promotedAt, o) || fromHead.None?
      || exists i :: 0 <= i < |o.arches|
           && BlockedAsFetched(Log(all), now, o, o.arches[i], RegressionsAt(security, i))
  {
    FetchedAre(all, events);
    VerdictIsCondition(events, now, fromHead, toSource, promotedAt, security, o);
    forall i | 0 <= i < |o.arches|
      ensures ArchBlocked(Log(events), now, o, o.arches[i], RegressionsAt(security, i))
        <==> BlockedAsFetched(Log(all), now, o, o.arches[i], RegressionsAt(security, i))
    {
      FetchedBlocks(Log(all), now, o, o.arches[i], RegressionsAt(security, i));
    }
    hide ArchBlocked, BlockedAsFetched, Log, Fetched, Reasons, SoakTooShort;
  }
}
