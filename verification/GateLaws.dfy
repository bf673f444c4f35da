/** The gate in plain terms: what blocks a promotion, read off the fields of the events. */
module GateLaws {
  import opened Common
  import opened Calendar
  import opened Gate

  predicate Check(e: Event, kind: string, ring: string, arch: string) {
    e.kind == kind && e.ring == Some(ring) && e.source == Some(arch)
  }

  /** Recorded at a time that can be read, and no more than so many seconds ago. */
  predicate NoOlder(e: Event, now: int, seconds: int) {
    ParseIso(e.createdAt).Some? && now - ParseIso(e.createdAt).value <= seconds
  }

  /** The latest health check passed, no more than `hours` ago. */
  predicate GoodHealth(events: seq<Event>, ring: string, arch: string, now: int, hours: nat) {
    exists e :: e in events && Check(e, "health", ring, arch) && e.status != "error" && NoOlder(e, now, hours * 3600)
                && forall f :: f in events && Check(f, "health", ring, arch) ==> f.id <= e.id
  }

  predicate FailedWithin(events: seq<Event>, e: Event, ring: string, arch: string, now: int, days: nat) {
    e in events && Check(e, "health", ring, arch) && e.status == "error" && NoOlder(e, now, days * 86400)
  }

  /** Three health checks failed in the last `days`. */
  ghost predicate ThreeFailed(events: seq<Event>, ring: string, arch: string, now: int, days: nat) {
    exists e, f, g :: e != f && f != g && e != g
      && FailedWithin(events, e, ring, arch, now, days) && FailedWithin(events, f, ring, arch, now, days)
      && FailedWithin(events, g, ring, arch, now, days)
  }

  /** Of the ABI checks no more than `hours` old the latest failed. */
  predicate AbiBroken(events: seq<Event>, ring: string, arch: string, now: int, hours: nat) {
    exists e :: e in events && Check(e, "abi", ring, arch) && NoOlder(e, now, hours * 3600) && e.status == "error"
                && forall f :: f in events && Check(f, "abi", ring, arch) && NoOlder(f, now, hours * 3600) ==>
                  f.id <= e.id
  }

  ghost predicate Refused(events: seq<Event>, ring: string, arch: string, now: int, days: nat, hours: nat,
      regressions: nat) {
    || regressions > 0 || !GoodHealth(events, ring, arch, now, hours)
    || ThreeFailed(events, ring, arch, now, days) || AbiBroken(events, ring, arch, now, hours)
  }

  // ---------- three of a kind ----------

  lemma TwoOthers<T>(s: set<T>, x: T) returns (y: T, z: T)
    requires |s| >= 3 && x in s
    ensures y in s && z in s && x != y && y != z && x != z
  {
    var t := s - {x};
    assert |t| >= 2;
    y :| y in t;
    assert |t - {y}| >= 1;
    z :| z in t - {y};
  }

  lemma ThreeAtLeast<T>(s: set<T>, x: T, y: T, z: T)
    requires x in s && y in s && z in s && x != y && y != z && x != z
    ensures |s| >= 3
  {
    assert s == {x, y, z} + (s - {x, y, z});
    assert |{x, y, z}| == 3;
  }

  lemma FailuresAre(events: seq<Event>, now: int, o: Options, arch: string)
    ensures |FailuresIn(Log(events), now, o, arch)| >= 3 <==> ThreeFailed(events, o.from, arch, now, o.soakDays)
  {
    var s := FailuresIn(Log(events), now, o, arch);
    forall e ensures e in s <==> FailedWithin(events, e, o.from, arch, now, o.soakDays) {}
    hide *;
    if |s| >= 3 {
      var e :| e in s;
      var f, g := TwoOthers(s, e);
      AreThree(events, e, f, g, now, o, arch);
    }
    if ThreeFailed(events, o.from, arch, now, o.soakDays) { ThreeOf(s, events, now, o, arch); }
  }

  lemma AreThree(events: seq<Event>, e: Event, f: Event, g: Event, now: int, o: Options, arch: string)
    requires e != f && f != g && e != g && FailedWithin(events, e, o.from, arch, now, o.soakDays)
    requires FailedWithin(events, f, o.from, arch, now, o.soakDays)
    requires FailedWithin(events, g, o.from, arch, now, o.soakDays)
    ensures ThreeFailed(events, o.from, arch, now, o.soakDays)
  {
    hide FailedWithin;
  }

  lemma ThreeOf(s: set<Event>, events: seq<Event>, now: int, o: Options, arch: string)
    requires forall e :: FailedWithin(events, e, o.from, arch, now, o.soakDays) ==> e in s
    requires ThreeFailed(events, o.from, arch, now, o.soakDays)
    ensures |s| >= 3
  {
    hide FailedWithin;
    var e, f, g :| e != f && f != g && e != g && FailedWithin(events, e, o.from, arch, now, o.soakDays) &&
      FailedWithin(events, f, o.from, arch, now, o.soakDays) && FailedWithin(events, g, o.from, arch, now, o.soakDays);
    ThreeAtLeast(s, e, f, g);
  }

  // ---------- an architecture ----------

  lemma HealthIs(events: seq<Event>, now: int, o: Options, arch: string)
    ensures GoodHealth(events, o.from, arch, now, o.maxAgeHours) <==>
      exists e :: e in Log(events) && NewestHealth(Log(events), e, o, arch) && e.status != "error"
        && Within(e, now, MaxAge(o))
  {
    forall e
      ensures (Check(e, "health", o.from, arch) <==> Health(e, o, arch))
        && (NoOlder(e, now, o.maxAgeHours * 3600) <==> Within(e, now, MaxAge(o)))
    {}
    hide Check, Health, NoOlder, Within;
  }

  lemma AbiIs(events: seq<Event>, now: int, o: Options, arch: string)
    ensures AbiBroken(events, o.from, arch, now, o.maxAgeHours) <==>
      exists e :: e in Log(events) && NewestAbi(Log(events), e, now, o, arch) && e.status == "error"
  {
    forall e
      ensures (Check(e, "abi", o.from, arch) && NoOlder(e, now, o.maxAgeHours * 3600)) <==> FreshAbi(e, now, o, arch)
    {}
    hide Check, NoOlder, FreshAbi;
  }

  lemma ArchIs(events: seq<Event>, now: int, o: Options, arch: string, regressions: nat)
    ensures ArchBlocked(Log(events), now, o, arch, regressions)
      <==> Refused(events, o.from, arch, now, o.soakDays, o.maxAgeHours, regressions)
  {
    HealthIs(events, now, o, arch);
    AbiIs(events, now, o, arch);
    FailuresAre(events, now, o, arch);
    hide GoodHealth, AbiBroken, ThreeFailed, FailuresIn, NewestHealth, NewestAbi, Within, Log;
  }

  /**
   * The gate blocks exactly when what arrived last arrived less than the soak ago, the ring
   * has no release, or an architecture has a regression, no passed latest health check
   * young enough, three failed ones within the soak, or a failed latest ABI check among
   * the young ones; otherwise it skips what the target was promoted from, and promotes
   * anything else.
   */
  lemma PlainVerdict(events: seq<Event>, now: int, fromHead: Option<nat>, toSource: Option<nat>,
      promotedAt: Option<int>, security: seq<nat>, o: Options)
    requires DistinctIds(events)
    ensures var answer := Ask(events, now, fromHead, toSource, promotedAt, security, o);
            && (answer == Blocks <==>
                  || (promotedAt.Some? && o.soakDays > 0 && now - promotedAt.value < o.soakDays * 86400)
                  || fromHead == None
                  || exists i :: 0 <= i < |o.arches|
                       && Refused(events, o.from, o.arches[i], now, o.soakDays, o.maxAgeHours,
                            if i < |security| then security[i] else 0))
            && (answer == Skips <==> answer != Blocks && fromHead == toSource)
  {
    VerdictIsCondition(events, now, fromHead, toSource, promotedAt, security, o);
    forall i | 0 <= i < |o.arches|
      ensures ArchBlocked(Log(events), now, o, o.arches[i], RegressionsAt(security, i))
        <==> Refused(events, o.from, o.arches[i], now, o.soakDays, o.maxAgeHours,
               if i < |security| then security[i] else 0)
    {
      ArchIs(events, now, o, o.arches[i], RegressionsAt(security, i));
    }
    hide ArchBlocked, Refused, Log, Reasons;
  }
}
