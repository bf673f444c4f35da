/** The promotion gate (`crates/pkg-repo/src/gate.rs`): a verdict from an event log and a release history. */
module Gate {
  import opened Common
  import opened Calendar

  datatype Event = Event(id: nat, kind: string, ring: Option<string>, source: Option<string>, status: string,
    createdAt: seq<byte>)

  datatype Options = Options(from: string, arches: seq<string>, soakDays: nat, maxAgeHours: nat)

  datatype Reason =
    | Soak | Regression(arch: string,
      i: nat) | NoHealth(arch: string) | HealthFailed(arch: string) | HealthOld(arch: string)
    | Flapping(arch: string, errors: nat) | AbiFailed(arch: string) | NoRelease

  datatype Verdict = Promote | Skip | Block(reasons: seq<Reason>)

  const FLAPPING := 3

  // ---------- the evidence of one architecture ----------

  predicate About(e: Event, kind: string, o: Options, arch: string) {
    e.kind == kind && e.ring == Some(o.from) && e.source == Some(arch)
  }

  /** Recorded no longer ago than `limit`; a stamp that cannot be read is not. */
  predicate Within(e: Event, now: int, limit: int) {
    ParseIso(e.createdAt).Some? && now - ParseIso(e.createdAt).value <= limit
  }

  function Window(o: Options): int { o.soakDays * 86400 }

  function MaxAge(o: Options): int { o.maxAgeHours * 3600 }

  predicate Health(e: Event, o: Options, arch: string) { About(e, "health", o, arch) }

  predicate Failure(e: Event, now: int, o: Options, arch: string) {
    Health(e, o, arch) && Within(e, now, Window(o)) && e.status == "error"
  }

  predicate FreshAbi(e: Event, now: int, o: Options, arch: string) {
    About(e, "abi", o, arch) && Within(e, now, MaxAge(o))
  }

  /** The first of the events with the greatest id, which a stable descending sort puts first. */
  function FirstNewest(events: seq<Event>): Option<Event> {
    if events == [] then None
    else
      var m, last := FirstNewest(events[..|events| - 1]), events[|events| - 1];
      if m.None? || last.id > m.value.id then Some(last) else m
  }

  /** The last of the events with the greatest id. */
  function LastNewest(events: seq<Event>): Option<Event> {
    if events == [] then None
    else
      var m, last := LastNewest(events[..|events| - 1]), events[|events| - 1];
      if m.None? || last.id >= m.value.id then Some(last) else m
  }

  function HealthReasons(latest: Option<Event>, now: int, arch: string, o: Options): seq<Reason> {
    if latest.None? then [NoHealth(arch)]
    else if latest.value.status == "error" then [HealthFailed(arch)]
    else if !Within(latest.value, now, MaxAge(o)) then [HealthOld(arch)]
    else []
  }

  function Healths(events: seq<Event>, arch: string, o: Options): seq<Event> {
    Filter(events, (e: Event) => Health(e, o, arch))
  }

  function Failures(events: seq<Event>, now: int, arch: string, o: Options): seq<Event> {
    Filter(events, (e: Event) => Failure(e, now, o, arch))
  }

  function FreshAbis(events: seq<Event>, now: int, arch: string, o: Options): seq<Event> {
    Filter(events, (e: Event) => FreshAbi(e, now, o, arch))
  }

  /** Why one architecture blocks. */
  function ArchReasons(events: seq<Event>, now: int, arch: string, regressions: nat, o: Options): seq<Reason> {
    var errors := |Failures(events, now, arch, o)|;
    var abi := LastNewest(FreshAbis(events, now, arch, o));
    seq(regressions, i requires 0 <= i < regressions => Regression(arch, i))
    + HealthReasons(FirstNewest(Healths(events, arch, o)), now, arch, o)
    + (if errors >= FLAPPING then [Flapping(arch, errors)] else [])
    + (if abi.Some? && abi.value.status == "error" then [AbiFailed(arch)] else [])
  }

  /** What is in the ring must have been there for the whole soak. */
  predicate SoakTooShort(now: int, promotedAt: Option<int>, o: Options) {
    promotedAt.Some? && Window(o) != 0 && now - promotedAt.value < Window(o)
  }

  function RegressionsAt(security: seq<nat>, i: nat): nat { if i < |security| then security[i] else 0 }

  /** Why the architectures from the `i`-th on block. */
  function ReasonsUpto(events: seq<Event>, now: int, security: seq<nat>, o: Options, n: nat): seq<Reason>
    requires n <= |o.arches|
  {
    if n == 0 then []
    else
      ReasonsUpto(events, now, security, o, n - 1)
      + ArchReasons(events, now, o.arches[n - 1], RegressionsAt(security, n - 1), o)
  }

  function Reasons(events: seq<Event>, now: int, promotedAt: Option<int>, security: seq<nat>, o: Options): seq<Reason> {
    (if SoakTooShort(now, promotedAt, o) then [Soak] else []) + ReasonsUpto(events, now, security, o, |o.arches|)
  }

  function VerdictOf(reasons: seq<Reason>, fromHead: Option<nat>, toSource: Option<nat>): Verdict {
    if reasons != [] then Block(reasons)
    else if fromHead.Some? && toSource.Some? then if fromHead == toSource then Skip else Promote
    else if fromHead.None? then Block([NoRelease])
    else Promote
  }

  /** The evaluation, architecture by architecture. */
  method Evaluate(events: seq<Event>, now: int, fromHead: Option<nat>, toSource: Option<nat>,
      promotedAt: Option<int>, security: seq<nat>, o: Options)
    returns (verdict: Verdict)
    ensures verdict == VerdictOf(Reasons(events, now, promotedAt, security, o), fromHead, toSource)
  {
    hide Within, About, ArchReasons, SoakTooShort, VerdictOf;
    var reasons: seq<Reason> := [];
    if SoakTooShort(now, promotedAt, o) {
      reasons := [Soak];
    }
    ghost var soak := reasons;
    for i := 0 to |o.arches|
      invariant reasons == soak + ReasonsUpto(events, now, security, o, i)
    {
      var more := EvaluateArch(events, now, o.arches[i], RegressionsAt(security, i), o);
      assert soak + ReasonsUpto(events, now, security, o, i) + more
        == soak + (ReasonsUpto(events, now, security, o, i) + more);
      reasons := reasons + more;
    }
    verdict := VerdictOf(reasons, fromHead, toSource);
  }

  method EvaluateArch(events: seq<Event>, now: int, arch: string, regressions: nat,
      o: Options) returns (reasons: seq<Reason>)
    ensures reasons == ArchReasons(events, now, arch, regressions, o)
  {
    hide Within, About;
    reasons := [];
    for i := 0 to regressions
      invariant reasons == seq(i, k requires 0 <= k < i => Regression(arch, k))
    {
      reasons := reasons + [Regression(arch, i)];
    }
    var latest: Option<Event>, abi: Option<Event>, errors: nat := None, None, 0;
    for i := 0 to |events|
      invariant latest == FirstNewest(Healths(events[..i], arch, o))
      invariant errors == |Failures(events[..i], now, arch, o)|
      invariant abi == LastNewest(FreshAbis(events[..i], now, arch, o))
    {
      var e := events[i];
      OneMoreEvent(events, i, now, arch, o);
      hide Healths, Failures, FreshAbis, FirstNewest, LastNewest;
      if Health(e, o, arch) && (latest.None? || e.id > latest.value.id) {
        latest := Some(e);
      }
      if Failure(e, now, o, arch) {
        errors := errors + 1;
      }
      if FreshAbi(e, now, o, arch) && (abi.None? || e.id >= abi.value.id) {
        abi := Some(e);
      }
    }
    assert events[..|events|] == events;
    reasons := reasons + HealthReasons(latest, now, arch, o);
    if errors >= FLAPPING {
      reasons := reasons + [Flapping(arch, errors)];
    }
    if abi.Some? && abi.value.status == "error" {
      reasons := reasons + [AbiFailed(arch)];
    }
  }

  lemma NewestStep(events: seq<Event>, e: Event)
    ensures FirstNewest(events + [e]) == if FirstNewest(events).None?
      || e.id > FirstNewest(events).value.id then Some(e) else FirstNewest(events)
    ensures LastNewest(events + [e]) == if LastNewest(events).None?
      || e.id >= LastNewest(events).value.id then Some(e) else LastNewest(events)
  {
    assert (events + [e])[..|events|] == events;
  }

  lemma OneMoreEvent(events: seq<Event>, i: nat, now: int, arch: string, o: Options)
    requires i < |events|
    ensures var e := events[i];
            var latest, abi := FirstNewest(Healths(events[..i], arch, o)),
              LastNewest(FreshAbis(events[..i], now, arch, o));
            && FirstNewest(Healths(events[..i + 1], arch, o))
               == (if Health(e, o, arch) && (latest.None? || e.id > latest.value.id) then Some(e) else latest)
            && |Failures(events[..i + 1], now, arch, o)|
               == |Failures(events[..i], now, arch, o)| + (if Failure(e, now, o, arch) then 1 else 0)
            && LastNewest(FreshAbis(events[..i + 1], now, arch, o))
               == (if FreshAbi(e, now, o, arch) && (abi.None? || e.id >= abi.value.id) then Some(e) else abi)
  {
    SelectedStep(events, i, now, arch, o);
    NewestStep(Healths(events[..i], arch, o), events[i]);
    NewestStep(FreshAbis(events[..i], now, arch, o), events[i]);
    hide Health, Failure, FreshAbi, FirstNewest, LastNewest, Healths, Failures, FreshAbis;
  }

  lemma SelectedStep(events: seq<Event>, i: nat, now: int, arch: string, o: Options)
    requires i < |events|
    ensures var e := events[i];
            && Healths(events[..i + 1], arch, o)
               == (if Health(e, o, arch) then Healths(events[..i], arch, o) + [e] else Healths(events[..i], arch, o))
            && Failures(events[..i + 1], now, arch, o)
               == (if Failure(e, now, o, arch) then Failures(events[..i], now, arch, o) + [e]
                 else Failures(events[..i], now, arch, o))
            && FreshAbis(events[..i + 1], now, arch, o)
               == (if FreshAbi(e, now, o, arch) then FreshAbis(events[..i], now, arch, o) + [e]
                 else FreshAbis(events[..i], now, arch, o))
  {
    assert events[..i + 1][..i] == events[..i];
    hide Health, Failure, FreshAbi;
  }

  // ---------- the verdict as a condition on the events ----------

  predicate DistinctIds(events: seq<Event>) {
    forall i, j :: 0 <= i < j < |events| ==> events[i].id != events[j].id
  }

  function Log(events: seq<Event>): set<Event> { set e | e in events }

  /** The failures inside the window. */
  function FailuresIn(log: set<Event>, now: int, o: Options, arch: string): set<Event> {
    set e | e in log && Failure(e, now, o, arch)
  }

  /** No health check of the architecture is newer. */
  predicate NewestHealth(log: set<Event>, e: Event, o: Options, arch: string) {
    e in log && Health(e, o, arch) && forall f :: f in log && Health(f, o, arch) ==> f.id <= e.id
  }

  predicate NewestAbi(log: set<Event>, e: Event, now: int, o: Options, arch: string) {
    e in log && FreshAbi(e, now, o, arch) && forall f :: f in log && FreshAbi(f, now, o, arch) ==> f.id <= e.id
  }

  /** The architecture lacks a fresh, good latest health check, keeps failing, or its latest fresh ABI check failed. */
  predicate ArchBlocked(log: set<Event>, now: int, o: Options, arch: string, regressions: nat) {
    || regressions > 0
    || !(exists e :: e in log && NewestHealth(log, e, o, arch) && e.status != "error" && Within(e, now, MaxAge(o)))
    || |FailuresIn(log, now, o, arch)| >= FLAPPING
    || (exists e :: e in log && NewestAbi(log, e, now, o, arch) && e.status == "error")
  }

  predicate Blocked(log: set<Event>, now: int, fromHead: Option<nat>, promotedAt: Option<int>, security: seq<nat>,
      o: Options) {
    || SoakTooShort(now, promotedAt, o)
    || (exists i :: 0 <= i < |o.arches| && ArchBlocked(log, now, o, o.arches[i], RegressionsAt(security, i)))
    || fromHead.None?
  }

  lemma {:induction false} FirstNewestIs(events: seq<Event>)
    ensures FirstNewest(events).None? <==> events == []
    ensures FirstNewest(events).Some? ==> FirstNewest(events).value in events && forall f :: f in events ==>
      f.id <= FirstNewest(events).value.id
  {
    if events != [] { FirstNewestIs(events[..|events| - 1]); }
  }

  lemma {:induction false} LastNewestIs(events: seq<Event>)
    ensures LastNewest(events).None? <==> events == []
    ensures LastNewest(events).Some? ==> LastNewest(events).value in events && forall f :: f in events ==>
      f.id <= LastNewest(events).value.id
  {
    if events != [] { LastNewestIs(events[..|events| - 1]); }
  }

  lemma SameIdSame(events: seq<Event>, e: Event, f: Event)
    requires DistinctIds(events) && e in events && f in events && e.id == f.id
    ensures e == f
  {
    var i :| 0 <= i < |events| && events[i] == e;
    var j :| 0 <= j < |events| && events[j] == f;
  }

  /** The latest health check is the only newest one. */
  lemma LatestHealth(events: seq<Event>, o: Options, arch: string, e: Event)
    requires DistinctIds(events)
    ensures FirstNewest(Healths(events, arch, o)) == Some(e) <==> NewestHealth(Log(events), e, o, arch)
  {
    var hs := Healths(events, arch, o);
    FirstNewestIs(hs);
    assert forall f :: f in hs <==> f in Log(events) && Health(f, o, arch);
    hide Healths, FirstNewest, Health;
    if NewestHealth(Log(events), e, o, arch) {
      assert e in hs;
      SameIdSame(events, e, FirstNewest(hs).value);
    }
  }

  lemma LatestAbi(events: seq<Event>, now: int, o: Options, arch: string, e: Event)
    requires DistinctIds(events)
    ensures LastNewest(FreshAbis(events, now, arch, o)) == Some(e) <==> NewestAbi(Log(events), e, now, o, arch)
  {
    var hs := FreshAbis(events, now, arch, o);
    LastNewestIs(hs);
    assert forall f :: f in hs <==> f in Log(events) && FreshAbi(f, now, o, arch);
    hide FreshAbis, LastNewest, FreshAbi;
    if NewestAbi(Log(events), e, now, o, arch) {
      assert e in hs;
      SameIdSame(events, e, LastNewest(hs).value);
    }
  }

  lemma {:induction false} CountFailures(events: seq<Event>, now: int, o: Options, arch: string)
    requires DistinctIds(events)
    ensures |Failures(events, now, arch, o)| == |FailuresIn(Log(events), now, o, arch)|
  {
    if events == [] {
      assert FailuresIn(Log(events), now, o, arch) == {};
    } else {
      var n := |events| - 1;
      assert events[..n + 1] == events;
      CountFailures(events[..n], now, o, arch);
      SelectedStep(events, n, now, arch, o);
      hide *;
      OneMoreFailure(events, n, now, o, arch);
    }
  }

  lemma OneMoreFailure(events: seq<Event>, n: nat, now: int, o: Options, arch: string)
    requires DistinctIds(events) && n + 1 == |events|
    ensures |FailuresIn(Log(events), now, o, arch)|
      == |FailuresIn(Log(events[..n]), now, o, arch)| + if Failure(events[n], now, o, arch) then 1 else 0
  {
    hide Failure;
    var front, e := events[..n], events[n];
    assert events == front + [e];
    assert e !in front;
    var before, after := FailuresIn(Log(front), now, o, arch), FailuresIn(Log(events), now, o, arch);
    if Failure(e, now, o, arch) {
      assert after == before + {e};
    } else {
      assert after == before;
    }
  }

  /** An architecture gives reasons exactly when the log blocks it. */
  lemma ReasonsAreBlocks(events: seq<Event>, now: int, arch: string, regressions: nat, o: Options)
    requires DistinctIds(events)
    ensures ArchReasons(events, now, arch, regressions, o) != []
      <==> ArchBlocked(Log(events), now, o, arch, regressions)
  {
    CountFailures(events, now, o, arch);
    HealthPart(events, now, arch, o);
    AbiPart(events, now, arch, o);
    hide FirstNewest, LastNewest, Healths, Failures, FreshAbis, NewestHealth, NewestAbi, FailuresIn, Within, Log,
      HealthReasons;
  }

  lemma HealthPart(events: seq<Event>, now: int, arch: string, o: Options)
    requires DistinctIds(events)
    ensures HealthReasons(FirstNewest(Healths(events, arch, o)), now, arch, o) != [] <==>
      !(exists e :: e in Log(events) && NewestHealth(Log(events), e, o, arch) && e.status != "error"
         && Within(e, now, MaxAge(o)))
  {
    var latest := FirstNewest(Healths(events, arch, o));
    forall e ensures latest == Some(e) <==> NewestHealth(Log(events), e, o, arch) { LatestHealth(events, o, arch, e); }
    assert forall e :: NewestHealth(Log(events), e, o, arch) ==> e in Log(events);
    hide FirstNewest, Healths, NewestHealth, Within, Log;
  }

  lemma AbiPart(events: seq<Event>, now: int, arch: string, o: Options)
    requires DistinctIds(events)
    ensures var abi := LastNewest(FreshAbis(events, now, arch, o));
            (abi.Some? && abi.value.status == "error")
              <==> exists e :: e in Log(events) && NewestAbi(Log(events), e, now, o, arch) && e.status == "error"
  {
    var abi := LastNewest(FreshAbis(events, now, arch, o));
    forall e ensures abi == Some(e) <==> NewestAbi(Log(events), e, now, o, arch) { LatestAbi(events, now, o, arch, e); }
    assert forall e :: NewestAbi(Log(events), e, now, o, arch) ==> e in Log(events);
    hide LastNewest, FreshAbis, NewestAbi, Within, Log;
  }

  lemma {:induction false} SomeArchGivesReasons(events: seq<Event>, now: int, security: seq<nat>, o: Options, n: nat)
    requires DistinctIds(events) && n <= |o.arches|
    ensures ReasonsUpto(events, now, security, o, n) != [] <==>
      exists i :: 0 <= i < n && ArchBlocked(Log(events), now, o, o.arches[i], RegressionsAt(security, i))
  {
    hide ArchReasons, ArchBlocked, Log;
    if n > 0 {
      SomeArchGivesReasons(events, now, security, o, n - 1);
      ReasonsAreBlocks(events, now, o.arches[n - 1], RegressionsAt(security, n - 1), o);
    }
  }

  /** The verdict, for events with distinct ids, as a condition on the set of events. */
  lemma VerdictIsCondition(events: seq<Event>, now: int, fromHead: Option<nat>, toSource: Option<nat>,
      promotedAt: Option<int>, security: seq<nat>, o: Options)
    requires DistinctIds(events)
    ensures var v := VerdictOf(Reasons(events, now, promotedAt, security, o), fromHead, toSource);
            var blocked := Blocked(Log(events), now, fromHead, promotedAt, security, o);
            && (v.Block? <==> blocked) && (v == Skip <==> !blocked && fromHead == toSource)
               && (v == Promote <==> !blocked && fromHead != toSource)
  {
    SomeArchGivesReasons(events, now, security, o, |o.arches|);
    hide ArchReasons, ArchBlocked, ReasonsUpto;
  }

  /** The kind of a verdict, without its reasons. */
  datatype Answer = Promotes | Skips | Blocks

  function AnswerOf(v: Verdict): Answer {
    match v
    case Promote => Promotes
    case Skip => Skips
    case Block(_) => Blocks
  }

  function Ask(events: seq<Event>, now: int, fromHead: Option<nat>, toSource: Option<nat>, promotedAt: Option<int>,
      security: seq<nat>, o: Options): Answer {
    AnswerOf(VerdictOf(Reasons(events, now, promotedAt, security, o), fromHead, toSource))
  }

  /** The order of the events does not matter. */
  lemma OrderDoesNotMatter(events: seq<Event>, events': seq<Event>, now: int, fromHead: Option<nat>,
      toSource: Option<nat>, promotedAt: Option<int>, security: seq<nat>, o: Options)
    requires DistinctIds(events) && DistinctIds(events') && Log(events) == Log(events')
    ensures Ask(events, now, fromHead, toSource, promotedAt, security, o)
      == Ask(events', now, fromHead, toSource, promotedAt, security, o)
  {
    VerdictIsCondition(events, now, fromHead, toSource, promotedAt, security, o);
    VerdictIsCondition(events', now, fromHead, toSource, promotedAt, security, o);
    hide Blocked, Reasons, Log;
  }

  /** The event concerns the ring and one of the architectures. */
  predicate Relevant(e: Event, o: Options) {
    exists arch :: arch in o.arches && (About(e, "health", o, arch) || About(e, "abi", o, arch))
  }

  /** Events of other rings, architectures and kinds do not matter. */
  lemma OthersDoNotMatter(events: seq<Event>, events': seq<Event>, now: int, fromHead: Option<nat>,
      toSource: Option<nat>, promotedAt: Option<int>, security: seq<nat>, o: Options)
    requires DistinctIds(events) && DistinctIds(events')
    requires forall e :: Relevant(e, o) ==> (e in events <==> e in events')
    ensures Ask(events, now, fromHead, toSource, promotedAt, security, o)
      == Ask(events', now, fromHead, toSource, promotedAt, security, o)
  {
    VerdictIsCondition(events, now, fromHead, toSource, promotedAt, security, o);
    VerdictIsCondition(events', now, fromHead, toSource, promotedAt, security, o);
    forall i | 0 <= i < |o.arches|
      ensures ArchBlocked(Log(events), now, o, o.arches[i], RegressionsAt(security, i))
              <==> ArchBlocked(Log(events'), now, o, o.arches[i], RegressionsAt(security, i))
    {
      var arch := o.arches[i];
      forall e ensures (Health(e, o, arch) ==> (e in events <==> e in events'))
        && (About(e, "abi", o, arch) ==> (e in events <==> e in events')) {
        if About(e, "health", o, arch) || About(e, "abi", o, arch) { assert Relevant(e, o); }
      }
      SameEvidence(Log(events), Log(events'), now, o, arch, RegressionsAt(security, i));
    }
    hide ArchBlocked, Reasons, Log;
  }

  lemma SameEvidence(log: set<Event>, log': set<Event>, now: int, o: Options, arch: string, regressions: nat)
    requires forall e :: Health(e, o, arch) || About(e, "abi", o, arch) ==> (e in log <==> e in log')
    ensures ArchBlocked(log, now, o, arch, regressions) <==> ArchBlocked(log', now, o, arch, regressions)
  {
    assert FailuresIn(log, now, o, arch) == FailuresIn(log', now, o, arch);
    hide About, Within;
    assert forall e :: NewestHealth(log, e, o, arch) <==> NewestHealth(log', e, o, arch);
    assert forall e :: NewestAbi(log, e, now, o, arch) <==> NewestAbi(log', e, now, o, arch);
  }

  /** A list of architectures blocks exactly when one of them, asked alone, does. */
  lemma OneAloneDecides(events: seq<Event>, now: int, fromHead: Option<nat>, toSource: Option<nat>,
      promotedAt: Option<int>, security: seq<nat>, o: Options)
    requires DistinctIds(events) && o.arches != []
    ensures Ask(events, now, fromHead, toSource, promotedAt, security, o) == Blocks <==>
      exists i :: 0 <= i < |o.arches|
        && Ask(events, now, fromHead, toSource, promotedAt, [RegressionsAt(security, i)], o.(arches := [o.arches[i]]))
           == Blocks
  {
    VerdictIsCondition(events, now, fromHead, toSource, promotedAt, security, o);
    forall i | 0 <= i < |o.arches|
      ensures Ask(events, now, fromHead, toSource, promotedAt, [RegressionsAt(security, i)],
        o.(arches := [o.arches[i]])) == Blocks
              <==> || SoakTooShort(now, promotedAt, o)
                   || ArchBlocked(Log(events), now, o, o.arches[i], RegressionsAt(security, i)) || fromHead.None?
    {
      AloneIs(events, now, fromHead, toSource, promotedAt, security, o, i);
    }
    hide ArchBlocked, Reasons, Log, SoakTooShort, VerdictOf;
    if SoakTooShort(now, promotedAt, o) || fromHead.None? {
      assert Ask(events, now, fromHead, toSource, promotedAt, [RegressionsAt(security, 0)], o.(arches := [o.arches[0]]))
        == Blocks;
    }
  }

  lemma AloneIs(events: seq<Event>, now: int, fromHead: Option<nat>, toSource: Option<nat>, promotedAt: Option<int>,
      security: seq<nat>, o: Options, i: nat)
    requires DistinctIds(events) && i < |o.arches|
    ensures Ask(events, now, fromHead, toSource, promotedAt, [RegressionsAt(security, i)], o.(arches := [o.arches[i]]))
            == Blocks
            <==> || SoakTooShort(now, promotedAt, o)
                 || ArchBlocked(Log(events), now, o, o.arches[i], RegressionsAt(security, i)) || fromHead.None?
  {
    var alone := o.(arches := [o.arches[i]]);
    VerdictIsCondition(events, now, fromHead, toSource, promotedAt, [RegressionsAt(security, i)], alone);
    SameOptions(Log(events), now, o, alone, o.arches[i], RegressionsAt(security, i));
    hide ArchBlocked, Reasons, Log, VerdictOf;
    assert alone.arches[0] == o.arches[i]
      && RegressionsAt([RegressionsAt(security, i)], 0) == RegressionsAt(security, i);
  }

  lemma SameOptions(log: set<Event>, now: int, o: Options, p: Options, arch: string, regressions: nat)
    requires p == o.(arches := p.arches)
    ensures ArchBlocked(log, now, o, arch, regressions) <==> ArchBlocked(log, now, p, arch, regressions)
  {
    assert forall e :: Health(e, o, arch) <==> Health(e, p, arch);
    assert forall e :: FreshAbi(e, now, o, arch) <==> FreshAbi(e, now, p, arch);
    assert FailuresIn(log, now, o, arch) == FailuresIn(log, now, p, arch);
    hide Within;
    assert forall e :: NewestHealth(log, e, o, arch) <==> NewestHealth(log, e, p, arch);
    assert forall e :: NewestAbi(log, e, now, o, arch) <==> NewestAbi(log, e, now, p, arch);
  }
}
