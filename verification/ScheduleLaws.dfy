/** A scheduler tick in plain terms: which jobs it creates, and when. */
module ScheduleLaws {
  import opened Common
  import opened Releases
  import opened Scheduler

  /** The jobs of a day: two syncs, a health check per ring and architecture, two promotions, and one of each other. */
  predicate Scheduled(key: Key, enabled: set<Kind>, guard: bool) {
    match key
    case Sync(_) => SyncKind in enabled && !guard
    case Security => SecurityKind in enabled && !guard
    case Enqueue => EnqueueKind in enabled && !guard
    case Promote(from, to) =>
      PromoteKind in enabled && !guard && ((from == Edge && to == Rc) || (from == Rc && to == Stable))
    case Health(_, _) => HealthKind in enabled
    case Gc => GcKind in enabled
    case Verify => VerifyKind in enabled
  }

  /** Minutes past midnight of a time in milliseconds since 1970, and of its midnight. */
  function MinuteOfDay(now: Time): int { now % 86_400_000 / 60_000 }

  function Midnight(now: Time): Time { now - now % 86_400_000 }

  /** Ten minutes past the slot of the day, and none created since the slot. */
  predicate PastSlot(now: Time, last: Time, hour: nat, minute: nat) {
    MinuteOfDay(now) >= hour * 60 + minute + 10 && last < Midnight(now) + (hour * 60 + minute) * 60_000
  }

  /** When a job is due, `last` being when its newest task was created; the first day of 1970 was a Thursday. */
  predicate DueAt(key: Key, last: Time, now: Time) {
    match key
    case Sync(_) => now - last >= 185 * 60_000
    case Security => now - last >= 185 * 60_000
    case Enqueue => now - last >= 65 * 60_000
    case Promote(from, to) => PastSlot(now, last, if to == Rc then 6 else 9, 0)
    case Health(_, _) => PastSlot(now, last, 8, 30)
    case Gc => now / 86_400_000 % 7 == 3 && PastSlot(now, last, 4, 0)
    case Verify => now / 86_400_000 % 7 == 2 && PastSlot(now, last, 3, 0)
  }

  predicate Waiting(tasks: seq<Task>, key: Key) {
    exists i :: 0 <= i < |tasks| && tasks[i].key == key && (tasks[i].status == Queued || tasks[i].status == Leased)
  }

  /** When the newest task of a key was created; zero if it has none. */
  function LastCreated(tasks: seq<Task>, key: Key): Time {
    if tasks == [] then 0
    else if tasks[|tasks| - 1].key == key then tasks[|tasks| - 1].created
    else LastCreated(tasks[..|tasks| - 1], key)
  }

  // ---------- which jobs ----------

  /** What one rule adds: nothing while its kind is off, or waits for the cost guard. */
  function Unless(kind: Kind, keys: seq<Key>, enabled: set<Kind>, guard: bool): seq<Key> {
    if kind in enabled && !(guard && kind in {SyncKind, SecurityKind, EnqueueKind, PromoteKind}) then keys else []
  }

  lemma OneRule(rules: seq<Rule>, r: Rule, enabled: set<Kind>, guard: bool)
    ensures JobsToday(rules + [r], enabled, guard)
      == JobsToday(rules, enabled, guard) + Unless(r.kind, JobsOf(r), enabled, guard)
  {
    assert (rules + [r])[..|rules|] == rules;
    hide JobsOf;
  }

  lemma {:induction false} RulesScheduled(rules: seq<Rule>, enabled: set<Kind>, guard: bool, key: Key)
    ensures key in JobsToday(rules, enabled, guard) <==>
      exists r :: r in rules && key in Unless(r.kind, JobsOf(r), enabled, guard)
  {
    if rules != [] {
      var front, last := rules[..|rules| - 1], rules[|rules| - 1];
      assert rules == front + [last];
      RulesScheduled(front, enabled, guard, key);
      OneRule(front, last, enabled, guard);
      hide Unless, JobsToday, JobsOf;
    }
  }

  lemma RuleKinds(r: Rule)
    ensures r in RULES ==>
      (r.kind == PromoteKind ==> (r.from == Edge && r.to == Rc) || (r.from == Rc && r.to == Stable))
  {}

  lemma RuleOf(key: Key) returns (r: Rule)
    requires key.Promote? ==> (key.from == Edge && key.to == Rc) || (key.from == Rc && key.to == Stable)
    ensures r in RULES && match key
      case Sync(_) => r.kind == SyncKind
      case Security => r.kind == SecurityKind
      case Enqueue => r.kind == EnqueueKind
      case Promote(from, to) => r.kind == PromoteKind && r.from == from && r.to == to
      case Health(_, _) => r.kind == HealthKind
      case Gc => r.kind == GcKind
      case Verify => r.kind == VerifyKind
  {
    r := RULES[match key case Sync(_) => 0 case Security => 1 case Enqueue => 2
      case Promote(from, _) => if from == Edge then 3 else 4 case Health(_, _) => 5 case Gc => 6 case Verify => 7];
  }

  lemma JobsAre(r: Rule, key: Key)
    ensures key in JobsOf(r) <==> match key
      case Sync(_) => r.kind == SyncKind
      case Security => r.kind == SecurityKind
      case Enqueue => r.kind == EnqueueKind
      case Promote(from, to) => r.kind == PromoteKind && r.from == from && r.to == to
      case Health(_, _) => r.kind == HealthKind
      case Gc => r.kind == GcKind
      case Verify => r.kind == VerifyKind
  {
    match key
    case Sync(a) => if r.kind == SyncKind { assert JobsOf(r)[if a == X86_64 then 0 else 1] == key; }
    case Health(ring, a) =>
      if r.kind == HealthKind {
        var i := match ring case Edge => 0 case Rc => 2 case Stable => 4;
        assert JobsOf(r)[if a == X86_64 then i else i + 1] == key;
      }
    case _ =>
  }

  lemma UnlessHas(r: Rule, enabled: set<Kind>, guard: bool, key: Key)
    ensures key in Unless(r.kind, JobsOf(r), enabled, guard) <==>
      && key in JobsOf(r) && r.kind in enabled
      && !(guard && r.kind in {SyncKind, SecurityKind, EnqueueKind, PromoteKind})
  {
    hide JobsOf;
  }

  /** The jobs a tick looks at are exactly those. */
  lemma TodaysJobs(enabled: set<Kind>, guard: bool, key: Key)
    ensures key in JobsToday(RULES, enabled, guard) <==> Scheduled(key, enabled, guard)
  {
    RulesScheduled(RULES, enabled, guard, key);
    hide JobsToday, JobsOf, RULES, Unless;
    forall r | r in RULES && key in Unless(r.kind, JobsOf(r), enabled, guard) ensures Scheduled(key, enabled, guard) {
      UnlessHas(r, enabled, guard, key);
      JobsAre(r, key);
      RuleKinds(r);
    }
    if Scheduled(key, enabled, guard) {
      var r := RuleOf(key);
      JobsAre(r, key);
      UnlessHas(r, enabled, guard, key);
    }
  }

  // ---------- when ----------

  lemma {:induction false} LastIsNewest(tasks: seq<Task>, key: Key)
    ensures LastCreated(tasks, key) == match Newest(tasks, key) case Some(i) => tasks[i].created case None => 0
  {
    if tasks != [] { LastIsNewest(tasks[..|tasks| - 1], key); }
  }

  lemma NewestWaits(tasks: seq<Task>, key: Key)
    requires Single(tasks)
    ensures Waiting(tasks, key) <==> Newest(tasks, key).Some? && tasks[Newest(tasks, key).value].Active()
  {}

  lemma DayParts(now: Time, hour: nat, minute: nat)
    ensures Slot(now, hour, minute) == Midnight(now) + (hour * 60 + minute) * 60_000
    ensures now >= Slot(now, hour, minute) + 600_000 <==> MinuteOfDay(now) >= hour * 60 + minute + 10
  {
    assert now == now / 86_400_000 * 86_400_000 + now % 86_400_000;
  }

  lemma OnDays(now: Time)
    ensures Weekday(now) == 0 <==> now / 86_400_000 % 7 == 3
    ensures Weekday(now) == 6 <==> now / 86_400_000 % 7 == 2
  {}

  lemma DueOn(key: Key, runs: seq<Task>, now: Time)
    requires |runs| <= 1
    ensures IsDue(TimingOf(key), runs, now) <==>
      (runs != [] ==> !runs[0].Active()) && DueAt(key, if runs == [] then 0 else runs[0].created, now)
  {
    var t := TimingOf(key);
    if t.At? { DayParts(now, t.hour, t.minute); }
    OnDays(now);
    hide Slot, Weekday, MinuteOfDay, Midnight;
  }

  /** With one waiting task of a job at most, its ten newest rows make it due exactly at those times. */
  lemma DueWhen(tasks: seq<Task>, key: Key, now: Time)
    requires Single(tasks)
    ensures IsDue(TimingOf(key), Recent(tasks, key, 10), now)
      <==> !Waiting(tasks, key) && DueAt(key, LastCreated(tasks, key), now)
  {
    hide *;
    NewestDecides(tasks, key, 10, now);
    LastIsNewest(tasks, key);
    NewestWaits(tasks, key);
    DueOn(key, if Newest(tasks, key).None? then [] else [tasks[Newest(tasks, key).value]], now);
  }

  // ---------- a tick ----------

  lemma Decided(tasks: seq<Task>, key: Key, now: Time, stamp: Time)
    requires Single(tasks)
    ensures var due := !Waiting(tasks, key) && DueAt(key, LastCreated(tasks, key), now);
            var tasks' := Decide(tasks, key, now, stamp);
            Single(tasks') && tasks' == if due then tasks + [Task(key, now, stamp, Queued)] else tasks
  {
    DueWhen(tasks, key, now);
    hide DueAt, LastCreated, Recent, IsDue, TimingOf;
  }

  lemma OthersUnmoved(tasks: seq<Task>, t: Task, key: Key)
    requires t.key != key
    ensures Waiting(tasks + [t], key) <==> Waiting(tasks, key)
    ensures LastCreated(tasks + [t], key) == LastCreated(tasks, key)
  {
    assert (tasks + [t])[..|tasks|] == tasks;
    if Waiting(tasks, key) {
      var i :| 0 <= i < |tasks| && tasks[i].key == key && (tasks[i].status == Queued || tasks[i].status == Leased);
      assert (tasks + [t])[i] == tasks[i];
    }
  }

  predicate Created(tasks: seq<Task>, after: seq<Task>, key: Key) {
    exists i :: |tasks| <= i < |after| && after[i].key == key
  }

  lemma {:induction false} TickDecides(tasks: seq<Task>, keys: seq<Key>, now: Time, stamps: seq<Time>, key: Key)
    requires |stamps| == |keys| && Single(tasks)
    ensures var after := DecideAll(tasks, keys, now, stamps);
            && Single(after) && tasks <= after
            && (forall i :: |tasks| <= i < |after| ==>
                  after[i].decided == now && after[i].status == Queued && after[i].created in stamps)
            && (Created(tasks, after, key)
                <==> key in keys && !Waiting(tasks, key) && DueAt(key, LastCreated(tasks, key), now))
            && (!Created(tasks, after, key) ==>
                  (Waiting(after, key) <==> Waiting(tasks, key)) && LastCreated(after, key) == LastCreated(tasks, key))
  {
    if keys != [] {
      hide LastCreated, DueAt;
      var n := |keys| - 1;
      TickDecides(tasks, keys[..n], now, stamps[..n], key);
      var before := DecideAll(tasks, keys[..n], now, stamps[..n]);
      Decided(before, keys[n], now, stamps[n]);
      assert key in keys <==> key in keys[..n] || key == keys[n];
      var t := Task(keys[n], now, stamps[n], Queued);
      Extends(tasks, before, t, key);
      if key != t.key { OthersUnmoved(before, t, key); }
      TickStep(tasks, keys, now, stamps);
      hide DecideAll, Decide, Created, Waiting, Single;
    }
  }

  lemma TickStep(tasks: seq<Task>, keys: seq<Key>, now: Time, stamps: seq<Time>)
    requires |stamps| == |keys| && keys != []
    ensures var n := |keys| - 1;
            DecideAll(tasks, keys, now, stamps)
            == Decide(DecideAll(tasks, keys[..n], now, stamps[..n]), keys[n], now, stamps[n])
  {
    hide Decide;
  }

  lemma Extends(tasks: seq<Task>, before: seq<Task>, t: Task, key: Key)
    requires tasks <= before
    ensures tasks <= before + [t]
    ensures Created(tasks, before + [t], key) <==> Created(tasks, before, key) || t.key == key
  {
    var after := before + [t];
    assert after[|before|] == t;
    if Created(tasks, before, key) {
      var i :| |tasks| <= i < |before| && before[i].key == key;
      assert after[i] == before[i];
    }
  }

  /**
   * A tick over a table with one waiting task of a job at most: it appends a task of exactly
   * the jobs scheduled that do not wait and are due, and one of each.
   */
  lemma TickCreates(tasks: seq<Task>, now: Time, enabled: set<Kind>, guard: bool, stamps: seq<Time>, key: Key)
    requires Single(tasks) && |stamps| == |JobsToday(RULES, enabled, guard)|
    ensures var after := DecideAll(tasks, JobsToday(RULES, enabled, guard), now, stamps);
            && tasks <= after && Single(after)
            && (forall i :: |tasks| <= i < |after| ==> after[i].decided == now && after[i].status == Queued)
            && (forall i, j :: |tasks| <= i < j < |after| ==> after[i].key != after[j].key)
            && ((exists i :: |tasks| <= i < |after| && after[i].key == key) <==>
                Scheduled(key, enabled, guard) && !Waiting(tasks, key) && DueAt(key, LastCreated(tasks, key), now))
  {
    TodaysJobs(enabled, guard, key);
    hide Scheduled, DueAt, JobsToday, DecideAll, LastCreated, Waiting;
    TickDecides(tasks, JobsToday(RULES, enabled, guard), now, stamps, key);
  }
}
