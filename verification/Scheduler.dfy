/**
 * The pool's scheduler (`worker/src/scheduler.ts`): every ten minutes it decides which
 * jobs are due, from the last ten tasks of each.
 */
module Scheduler {
  import opened Common
  import opened Releases

  /** Milliseconds since 1970. */
  type Time = nat

  const MINUTE: nat := 60_000
  const DAY: nat := 86_400_000

  /** When a rule runs: so many minutes apart, or once a day after a time, perhaps on one weekday only. */
  datatype Timing = Every(minutes: nat) | At(hour: nat, minute: nat, weekday: Option<nat>)

  /** What identifies a task to the scheduler: its kind and parameters. */
  datatype Key = Sync(arch: Arch) | Security | Enqueue | Promote(from: Ring, to: Ring) | Health(ring: Ring,
    arch: Arch) | Gc | Verify

  datatype Status = Queued | Leased | Done | Failed | Cancelled

  /** A task; `decided` is the time of the tick that created it. */
  datatype Task = Task(key: Key, decided: Time, created: Time, status: Status) {
    predicate Active() { status == Queued || status == Leased }
  }

  // ---------- the rules ----------

  datatype Kind = SyncKind | SecurityKind | EnqueueKind | PromoteKind | HealthKind | GcKind | VerifyKind

  datatype Rule = Rule(timing: Timing, kind: Kind, from: Ring, to: Ring)

  const RULES: seq<Rule> := [
    Rule(Every(180), SyncKind, Edge, Edge), Rule(Every(180), SecurityKind, Edge, Edge),
      Rule(Every(60), EnqueueKind, Edge, Edge),
    Rule(At(6, 0, None), PromoteKind, Edge, Rc), Rule(At(9, 0, None), PromoteKind, Rc, Stable),
    Rule(At(8, 30, None), HealthKind, Edge, Edge), Rule(At(4, 0, Some(0)), GcKind, Edge, Edge),
      Rule(At(3, 0, Some(6)), VerifyKind, Edge, Edge)]

  function JobsOf(rule: Rule): seq<Key> {
    match rule.kind
    case SyncKind => [Sync(X86_64), Sync(Aarch64)]
    case HealthKind => [Health(Edge, X86_64), Health(Edge, Aarch64), Health(Rc, X86_64), Health(Rc, Aarch64),
      Health(Stable, X86_64), Health(Stable, Aarch64)]
    case SecurityKind => [Security]
    case EnqueueKind => [Enqueue]
    case PromoteKind => [Promote(rule.from, rule.to)]
    case GcKind => [Gc]
    case VerifyKind => [Verify]
  }

  /** The one timing of a job. */
  function TimingOf(key: Key): Timing {
    match key
    case Sync(_) => Every(180)
    case Security => Every(180)
    case Enqueue => Every(60)
    case Promote(_, to) => if to == Rc then At(6, 0, None) else At(9, 0, None)
    case Health(_, _) => At(8, 30, None)
    case Gc => At(4, 0, Some(0))
    case Verify => At(3, 0, Some(6))
  }

  /** Every job of the rules has the timing of its rule. */
  lemma TimingsAgree(i: nat, key: Key)
    requires i < |RULES| && key in JobsOf(RULES[i])
    ensures TimingOf(key) == RULES[i].timing
  {}

  // ---------- due or not ----------

  function Slot(now: Time, hour: nat, minute: nat): Time { now / DAY * DAY + (hour * 60 + minute) * MINUTE }

  /** Sunday is 0; the epoch was a Thursday. */
  function Weekday(now: Time): nat { (now / DAY + 4) % 7 }

  /** Whether a job is due, given its runs, newest first. */
  predicate IsDue(timing: Timing, runs: seq<Task>, now: Time) {
    var last := if runs == [] then 0 else runs[0].created;
    && (forall r :: r in runs ==> !r.Active())
    && match timing
       case Every(minutes) => now - last - minutes * MINUTE >= 5 * MINUTE
       case At(hour, minute, weekday) =>
         && (weekday.Some? ==> Weekday(now) == weekday.value)
         && now >= Slot(now, hour, minute) + 10 * MINUTE && last < Slot(now, hour, minute)
  }

  /** The newest tasks of a key, newest first, at most `limit`. */
  function Recent(tasks: seq<Task>, key: Key, limit: nat): seq<Task> {
    if tasks == [] || limit == 0 then []
    else
      var front, last := tasks[..|tasks| - 1], tasks[|tasks| - 1];
      if last.key == key then [last] + Recent(front, key, limit - 1) else Recent(front, key, limit)
  }

  const WINDOW := 10

  /** One decision: the table after it. */
  function Decide(tasks: seq<Task>, key: Key, now: Time, stamp: Time): seq<Task> {
    if IsDue(TimingOf(key), Recent(tasks, key, WINDOW), now) then tasks + [Task(key, now, stamp, Queued)] else tasks
  }

  function DecideAll(tasks: seq<Task>, keys: seq<Key>, now: Time, stamps: seq<Time>): seq<Task>
    requires |stamps| == |keys|
  {
    if keys == [] then tasks
    else
      var n := |keys| - 1;
      Decide(DecideAll(tasks, keys[..n], now, stamps[..n]), keys[n], now, stamps[n])
  }

  /** Kinds that wait while the cost guard is up. */
  predicate Guarded(kind: Kind) { kind in {SyncKind, PromoteKind, SecurityKind, EnqueueKind} }

  /** The jobs a tick looks at. */
  function JobsToday(rules: seq<Rule>, enabled: set<Kind>, guard: bool): seq<Key> {
    if rules == [] then []
    else
      var rest, last := JobsToday(rules[..|rules| - 1], enabled, guard), rules[|rules| - 1];
      if last.kind !in enabled || (guard && Guarded(last.kind)) then rest else rest + JobsOf(last)
  }

  // ---------- as it is written ----------

  class TaskTable {
    var tasks: seq<Task>

    constructor ()
      ensures tasks == []
    {
      tasks := [];
    }

    /** `ORDER BY id DESC LIMIT 10`. */
    method RecentJobs(key: Key) returns (runs: seq<Task>)
      ensures runs == Recent(tasks, key, 10)
    {
      runs := [];
      var i := |tasks|;
      assert tasks[..i] == tasks;
      while i > 0 && |runs| < WINDOW
        invariant 0 <= i <= |tasks| && |runs| <= WINDOW
        invariant Recent(tasks, key, WINDOW) == runs + Recent(tasks[..i], key, WINDOW - |runs|)
      {
        i := i - 1;
        assert tasks[..i + 1][..i] == tasks[..i];
        if tasks[i].key == key {
          runs := runs + [tasks[i]];
        }
      }
    }

    /** One tick over the rules; `stamps` are the times at which the tasks come to be written. */
    method RunScheduler(now: Time, enabled: set<Kind>, guard: bool, stamps: seq<Time>)
      requires |stamps| == |JobsToday(RULES, enabled, guard)|
      modifies this
      ensures tasks == DecideAll(old(tasks), JobsToday(RULES, enabled, guard), now, stamps)
    {
      var keys: seq<Key> := [];
      for i := 0 to |RULES|
        invariant keys == JobsToday(RULES[..i], enabled, guard) && tasks == old(tasks)
      {
        assert RULES[..i + 1][..i] == RULES[..i];
        var rule := RULES[i];
        if rule.kind in enabled && !(guard && Guarded(rule.kind)) {
          keys := keys + JobsOf(rule);
        }
      }
      assert RULES[..|RULES|] == RULES;
      hide JobsToday;
      for i := 0 to |keys|
        invariant tasks == DecideAll(old(tasks), keys[..i], now, stamps[..i])
      {
        assert keys[..i + 1][..i] == keys[..i] && stamps[..i + 1][..i] == stamps[..i];
        var runs := RecentJobs(keys[i]);
        hide IsDue, Recent, TimingOf;
        if IsDue(TimingOf(keys[i]), runs, now) {
          tasks := tasks + [Task(keys[i], now, stamps[i], Queued)];
        }
      }
      assert keys[..|keys|] == keys && stamps[..|keys|] == stamps;
    }
  }

  // ---------- the window decides as the whole history would ----------

  /** Only the newest task of a key may be queued or leased. */
  ghost predicate Single(tasks: seq<Task>) {
    forall i, j :: 0 <= i < j < |tasks| && tasks[i].key == tasks[j].key ==> !tasks[i].Active()
  }

  /** Where the newest task of a key is. */
  function Newest(tasks: seq<Task>, key: Key): (i: Option<nat>)
    ensures i.Some? ==> i.value < |tasks| && tasks[i.value].key == key && forall j :: i.value < j < |tasks| ==>
      tasks[j].key != key
    ensures i.None? ==> forall j :: 0 <= j < |tasks| ==> tasks[j].key != key
  {
    if tasks == [] then None
    else if tasks[|tasks| - 1].key == key then Some(|tasks| - 1)
    else Newest(tasks[..|tasks| - 1], key)
  }

  lemma {:induction false} RecentHolds(tasks: seq<Task>, key: Key, limit: nat)
    ensures forall r :: r in Recent(tasks, key, limit) ==>
      exists i :: 0 <= i < |tasks| && tasks[i].key == key && r == tasks[i]
    ensures limit > 0 && Newest(tasks, key).Some? ==>
      Recent(tasks, key, limit) != [] && Recent(tasks, key, limit)[0] == tasks[Newest(tasks, key).value]
    ensures Newest(tasks, key).None? ==> Recent(tasks, key, limit) == []
  {
    if tasks != [] && limit > 0 {
      var front, last := tasks[..|tasks| - 1], tasks[|tasks| - 1];
      RecentHolds(front, key, if last.key == key then limit - 1 else limit);
      forall i | 0 <= i < |front| ensures front[i] == tasks[i] {}
    }
  }

  /** With one active task at most, and that the newest, being due depends on the newest task alone. */
  lemma NewestDecides(tasks: seq<Task>, key: Key, limit: nat, now: Time)
    requires Single(tasks) && limit > 0
    ensures IsDue(TimingOf(key), Recent(tasks, key, limit), now)
            <==> IsDue(TimingOf(key), if Newest(tasks, key).None? then [] else [tasks[Newest(tasks, key).value]], now)
  {
    RecentHolds(tasks, key, limit);
    var runs := Recent(tasks, key, limit);
    hide Recent, TimingOf;
    if Newest(tasks, key).Some? {
      var k := Newest(tasks, key).value;
      forall r | r in runs ensures r == tasks[k] || !r.Active() {
        var i :| 0 <= i < |tasks| && tasks[i].key == key && r == tasks[i];
        assert i <= k;
      }
      assert runs[0] in runs;
    }
  }

  /** So the ten newest rows decide as the full history would. */
  lemma WindowDecides(tasks: seq<Task>, key: Key, now: Time)
    requires Single(tasks)
    ensures IsDue(TimingOf(key), Recent(tasks, key, 10), now)
      <==> IsDue(TimingOf(key), Recent(tasks, key, |tasks| + 1), now)
  {
    NewestDecides(tasks, key, WINDOW, now);
    NewestDecides(tasks, key, |tasks| + 1, now);
  }

  // ---------- what every tick and every completion keeps ----------

  /** A task was created when its timing allowed, not before the tick that decided it. */
  predicate Proper(t: Task) {
    && t.decided <= t.created
    && match TimingOf(t.key)
       case Every(_) => true
       case At(hour, minute, weekday) =>
         && t.decided >= Slot(t.decided, hour, minute) + 10 * MINUTE
         && (weekday.Some? ==> Weekday(t.decided) == weekday.value)
  }

  /** Two tasks of one key, in order: far enough apart, or decided on different days. */
  predicate Apart(a: Task, b: Task) {
    && a.created <= b.decided
    && match TimingOf(a.key)
       case Every(minutes) => b.decided - a.created >= (minutes + 5) * MINUTE
       case At(_, _, _) => a.decided / DAY < b.decided / DAY
  }

  ghost predicate Spaced(tasks: seq<Task>) {
    && (forall i :: 0 <= i < |tasks| ==> Proper(tasks[i]))
    && (forall i, j :: 0 <= i < j < |tasks| && tasks[i].key == tasks[j].key ==> Apart(tasks[i], tasks[j]))
  }

  /** During a tick: what is not from this tick was created before it. */
  ghost predicate Past(tasks: seq<Task>, now: Time) {
    forall i :: 0 <= i < |tasks| ==> tasks[i].created <= now || tasks[i].Active()
  }

  lemma SlotPassed(last: Task, now: Time)
    requires Proper(last) && TimingOf(last.key).At? && IsDue(TimingOf(last.key), [last], now) && last.created <= now
    ensures last.decided / DAY < now / DAY
  {
    var t := TimingOf(last.key);
    assert last.created < Slot(now, t.hour, t.minute);
  }

  lemma DecideKeeps(tasks: seq<Task>, key: Key, now: Time, stamp: Time)
    requires Single(tasks) && Spaced(tasks) && Past(tasks, now) && stamp >= now
    ensures var tasks' := Decide(tasks, key, now, stamp);
            Single(tasks') && Spaced(tasks') && Past(tasks', now)
  {
    if IsDue(TimingOf(key), Recent(tasks, key, WINDOW), now) {
      NewestDecides(tasks, key, WINDOW, now);
      var new_ := Task(key, now, stamp, Queued);
      assert Proper(new_);
      var k := Newest(tasks, key);
      hide Recent;
      if k.Some? {
        var last := tasks[k.value];
        assert IsDue(TimingOf(key), [last], now) && last in [last];
        assert !last.Active() && last.created <= now;
        if TimingOf(key).At? { SlotPassed(last, now); }
        assert Apart(last, new_);
        forall i | 0 <= i < |tasks| && tasks[i].key == key ensures Apart(tasks[i], new_) && !tasks[i].Active() {
          if i < k.value {
            assert Apart(tasks[i], last) && Proper(last);
            EarlierIsApart(tasks[i], last, new_);
          }
        }
      }
      hide IsDue, Proper, Apart, TimingOf;
    }
  }

  lemma EarlierIsApart(a: Task, b: Task, c: Task)
    requires a.key == b.key == c.key && Apart(a, b) && Proper(b) && Apart(b, c)
    ensures Apart(a, c)
  {}

  lemma {:induction false} TickKeeps(tasks: seq<Task>, keys: seq<Key>, now: Time, stamps: seq<Time>)
    requires |stamps| == |keys| && forall i :: 0 <= i < |stamps| ==> stamps[i] >= now
    requires Single(tasks) && Spaced(tasks) && Past(tasks, now)
    ensures var tasks' := DecideAll(tasks, keys, now, stamps);
            Single(tasks') && Spaced(tasks') && Past(tasks', now)
  {
    if keys != [] {
      var n := |keys| - 1;
      TickKeeps(tasks, keys[..n], now, stamps[..n]);
      DecideKeeps(DecideAll(tasks, keys[..n], now, stamps[..n]), keys[n], now, stamps[n]);
    }
  }

  // ---------- runs ----------

  /** A tick of the scheduler, or a worker or maintainer moving an active task on. */
  datatype Event = Tick(now: Time, enabled: set<Kind>, guard: bool, stamps: seq<Time>, end: Time) | Progress(i: nat,
    status: Status)

  datatype State = State(tasks: seq<Task>, clock: Time)

  /** Ticks do not overlap: one starts after everything the earlier ones wrote, and ends after what it writes. */
  ghost predicate Next(s: State, e: Event, s': State) {
    match e
    case Tick(now, enabled, guard, stamps, end) =>
      && now >= s.clock && end >= now && |stamps| == |JobsToday(RULES, enabled, guard)|
      && (forall i :: 0 <= i < |stamps| ==> now <= stamps[i] <= end)
      && s' == State(DecideAll(s.tasks, JobsToday(RULES, enabled, guard), now, stamps), end)
    case Progress(i, status) =>
      && i < |s.tasks| && s.tasks[i].Active()
      && s' == s.(tasks := s.tasks[i := s.tasks[i].(status := status)])
  }

  ghost predicate Good(s: State) {
    Single(s.tasks) && Spaced(s.tasks) && forall i :: 0 <= i < |s.tasks| ==> s.tasks[i].created <= s.clock
  }

  lemma {:induction false} CreatedBy(tasks: seq<Task>, keys: seq<Key>, now: Time, stamps: seq<Time>, end: Time)
    requires |stamps| == |keys| && (forall i :: 0 <= i < |stamps| ==> stamps[i] <= end)
    requires forall i :: 0 <= i < |tasks| ==> tasks[i].created <= end
    ensures forall i :: 0 <= i < |DecideAll(tasks, keys, now, stamps)| ==>
      DecideAll(tasks, keys, now, stamps)[i].created <= end
  {
    if keys != [] {
      CreatedBy(tasks, keys[..|keys| - 1], now, stamps[..|keys| - 1], end);
      hide IsDue, Recent, TimingOf;
    }
  }

  lemma NextKeeps(s: State, e: Event, s': State)
    requires Good(s) && Next(s, e, s')
    ensures Good(s') && s.clock <= s'.clock
  {
    match e
    case Tick(now, enabled, guard, stamps, end) =>
      var keys := JobsToday(RULES, enabled, guard);
      TickKeeps(s.tasks, keys, now, stamps);
      CreatedBy(s.tasks, keys, now, stamps, end);
    case Progress(i, status) =>
      var t := s.tasks[i].(status := status);
      assert Proper(s.tasks[i]) ==> Proper(t);
      forall j | 0 <= j < i && s.tasks[j].key
        == t.key ensures Apart(s.tasks[j], t) { assert Apart(s.tasks[j], s.tasks[i]); }
      forall j | i < j < |s.tasks| ensures s.tasks[j].key != t.key {}
      hide Proper, Apart;
  }

  ghost predicate Run(states: seq<State>, events: seq<Event>) {
    && |states| == |events| + 1 && states[0] == State([], 0)
    && forall i :: 0 <= i < |events| ==> Next(states[i], events[i], states[i + 1])
  }

  /**
   * Over every sequence of ticks and completions: at most one task per job is queued or
   * leased, and it is the newest; interval jobs are decided five minutes past their
   * interval after the last was created; daily jobs once per UTC day.
   */
  lemma {:induction false} RunKeeps(states: seq<State>, events: seq<Event>, n: nat)
    requires Run(states, events) && n < |states|
    ensures Good(states[n])
  {
    if n > 0 {
      RunKeeps(states, events, n - 1);
      assert Next(states[n - 1], events[n - 1], states[n - 1 + 1]);
      NextKeeps(states[n - 1], events[n - 1], states[n]);
    }
  }

  /** After a tick looked at a daily job past its slot, one is active or was created since the slot. */
  lemma DailyIsServed(tasks: seq<Task>, key: Key, now: Time, stamp: Time)
    requires Single(tasks) && stamp >= now && TimingOf(key).At?
    requires var t := TimingOf(key);
             (t.weekday.Some? ==> Weekday(now) == t.weekday.value) && now >= Slot(now, t.hour, t.minute) + 10 * MINUTE
    ensures var t := TimingOf(key);
            var tasks' := Decide(tasks, key, now, stamp);
            Newest(tasks', key).Some? && (tasks'[Newest(tasks', key).value].Active()
                                          || tasks'[Newest(tasks', key).value].created >= Slot(now, t.hour, t.minute))
  {
    NewestDecides(tasks, key, WINDOW, now);
    hide Recent, TimingOf;
  }

  /** After a tick over an interval job, one is active or was created less than the interval and five minutes ago. */
  lemma IntervalIsServed(tasks: seq<Task>, key: Key, now: Time, stamp: Time)
    requires Single(tasks) && stamp >= now && TimingOf(key).Every?
    ensures var tasks' := Decide(tasks, key, now, stamp);
            if Newest(tasks', key).None? then now < (TimingOf(key).minutes + 5) * MINUTE
            else
              var last := tasks'[Newest(tasks', key).value];
              last.Active() || now - last.created < (TimingOf(key).minutes + 5) * MINUTE
  {
    NewestDecides(tasks, key, WINDOW, now);
    hide Recent, TimingOf;
  }
}
