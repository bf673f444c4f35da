/**
 * The safety check of `pkg-check`: would handing these packages to pacman leave the
 * system with a library that lacks a needed symbol version?
 */
module Check {
  import opened Common
  import opened Dependency
  import opened Extract

  // ---------- the local database ----------

  datatype LocalPackage = LocalPackage(name: string, version: string, capabilities: seq<Rule>, dependencies: seq<Rule>)

  /** A package's capabilities: what it declares, and itself at its version. */
  function CapabilitiesOf(p: LocalPackage): seq<Rule> {
    p.capabilities + [Rule(p.name, Some(VersionConstraint(Eq, p.version)), None)]
  }

  type Provider = (string, Rule)

  function ProvidersOf(p: LocalPackage, rules: seq<Rule>): seq<Provider> {
    seq(|rules|, i requires 0 <= i < |rules| => (p.name, rules[i]))
  }

  /** Every capability of every package, in order of insertion. */
  function AllProviders(ps: seq<LocalPackage>): seq<Provider> {
    if ps == [] then []
    else AllProviders(ps[..|ps| - 1]) + ProvidersOf(ps[|ps| - 1], CapabilitiesOf(ps[|ps| - 1]))
  }

  function Named(vs: seq<Provider>, name: string): seq<Provider> {
    if vs == [] then []
    else if vs[|vs| - 1].1.name == name then Named(vs[..|vs| - 1], name) + [vs[|vs| - 1]]
    else Named(vs[..|vs| - 1], name)
  }

  function Satisfying(vs: seq<Provider>, rule: Rule): (names: seq<string>)
    ensures names == [] <==> forall v :: v in vs ==> !SatisfiedBy(rule, v.1)
  {
    if vs == [] then []
    else if SatisfiedBy(rule, vs[|vs| - 1].1) then Satisfying(vs[..|vs| - 1], rule) + [vs[|vs| - 1].0]
    else Satisfying(vs[..|vs| - 1], rule)
  }

  lemma OneMoreNamed(vs: seq<Provider>, v: Provider, name: string)
    ensures Named(vs + [v], name) == if v.1.name == name then Named(vs, name) + [v] else Named(vs, name)
  {
    assert (vs + [v])[..|vs|] == vs;
  }

  /** Looking only at the providers filed under the rule's name loses none. */
  lemma {:induction false} FilingLosesNone(vs: seq<Provider>, rule: Rule)
    ensures Satisfying(Named(vs, rule.name), rule) == Satisfying(vs, rule)
  {
    if vs != [] {
      var front, last := vs[..|vs| - 1], vs[|vs| - 1];
      FilingLosesNone(front, rule);
      var named := Named(front, rule.name) + [last];
      assert named[..|named| - 1] == Named(front, rule.name);
      hide SatisfiedBy;
      assert last.1.name != rule.name ==> !SatisfiedBy(rule, last.1) by { Unnamed(rule, last.1); }
    }
  }

  lemma Unnamed(rule: Rule, provided: Rule)
    ensures provided.name != rule.name ==> !SatisfiedBy(rule, provided)
  {}

  /** The packages by name; a later one replaces an earlier one of its name. */
  function Latest(ps: seq<LocalPackage>): map<string, LocalPackage> {
    if ps == [] then map[] else Latest(ps[..|ps| - 1])[ps[|ps| - 1].name := ps[|ps| - 1]]
  }

  /** Installed packages by name, and their capabilities filed by capability name. */
  class LocalDb {
    var packages: map<string, LocalPackage>
    var providers: map<string, seq<Provider>>
    ghost var inserted: seq<LocalPackage>

    ghost predicate Valid()
      reads this
    {
      && Filed(providers, AllProviders(inserted))
      && packages == Latest(inserted)
    }

    constructor ()
      ensures Valid() && inserted == []
    {
      packages, providers, inserted := map[], map[], [];
    }

    /** Inserting a package again replaces it, but its earlier capabilities stay filed. */
    method Insert(p: LocalPackage)
      requires Valid()
      modifies this
      ensures Valid() && inserted == old(inserted) + [p] && packages == old(packages)[p.name := p]
    {
      var rules := CapabilitiesOf(p);
      ghost var before := AllProviders(inserted);
      assert before + ProvidersOf(p, rules[..0]) == before;
      for i := 0 to |rules|
        invariant packages == old(packages) && inserted == old(inserted)
        invariant Filed(providers, before + ProvidersOf(p, rules[..i]))
      {
        var v := (p.name, rules[i]);
        assert before + ProvidersOf(p, rules[..i]) + [v] == before + ProvidersOf(p, rules[..i + 1]);
        OneMoreFiled(providers, before + ProvidersOf(p, rules[..i]), v);
        hide Filed, ProvidersOf;
        providers := providers[v.1.name := (if v.1.name in providers then providers[v.1.name] else []) + [v]];
      }
      assert rules[..|rules|] == rules;
      packages := packages[p.name := p];
      inserted := inserted + [p];
      assert inserted[..|inserted| - 1] == old(inserted);
      hide Filed, ProvidersOf;
    }

    /** The packages that satisfy a rule: of all ever inserted, those with a capability that does. */
    method Satisfiers(rule: Rule) returns (names: seq<string>)
      requires Valid()
      ensures names == Satisfying(AllProviders(inserted), rule)
    {
      FilingLosesNone(AllProviders(inserted), rule);
      hide AllProviders, SatisfiedBy;
      assert FiledAt(providers, AllProviders(inserted), rule.name);
      if rule.name in providers {
        names := Satisfying(providers[rule.name], rule);
      } else {
        names := [];
      }
    }
  }

  ghost predicate FiledAt(providers: map<string, seq<Provider>>, vs: seq<Provider>, name: string) {
    (name in providers <==> Named(vs, name) != []) && (name in providers ==> providers[name] == Named(vs, name))
  }

  ghost predicate Filed(providers: map<string, seq<Provider>>, vs: seq<Provider>) {
    forall name :: FiledAt(providers, vs, name)
  }

  lemma OneMoreFiled(providers: map<string, seq<Provider>>, vs: seq<Provider>, v: Provider)
    requires Filed(providers, vs)
    ensures Filed(providers[v.1.name := (if v.1.name in providers then providers[v.1.name] else []) + [v]], vs + [v])
  {
    var providers' := providers[v.1.name := (if v.1.name in providers then providers[v.1.name] else []) + [v]];
    hide Named;
    forall name ensures FiledAt(providers', vs + [v], name) {
      assert FiledAt(providers, vs, name);
      OneMoreNamed(vs, v, name);
    }
  }

  // ---------- when the answers are about what is installed ----------

  predicate Capable(p: LocalPackage, rule: Rule) {
    exists c :: c in CapabilitiesOf(p) && SatisfiedBy(rule, c)
  }

  lemma {:induction false} LatestIs(ps: seq<LocalPackage>)
    ensures forall n :: n in Latest(ps) ==> Latest(ps)[n] in ps && Latest(ps)[n].name == n
    ensures forall p :: p in ps ==> p.name in Latest(ps)
  {
    if ps != [] {
      LatestIs(ps[..|ps| - 1]);
      assert ps == ps[..|ps| - 1] + [ps[|ps| - 1]];
    }
  }

  lemma {:induction false} SatisfyingNames(vs: seq<Provider>, rule: Rule)
    ensures forall n :: n in Satisfying(vs, rule) <==> exists v :: v in vs && v.0 == n && SatisfiedBy(rule, v.1)
  {
    hide SatisfiedBy;
    if vs != [] {
      SatisfyingNames(vs[..|vs| - 1], rule);
      assert vs == vs[..|vs| - 1] + [vs[|vs| - 1]];
    }
  }

  lemma {:induction false} ProvidersAre(ps: seq<LocalPackage>)
    ensures forall v :: v in AllProviders(ps) <==> exists p :: p in ps && v.0 == p.name && v.1 in CapabilitiesOf(p)
  {
    hide CapabilitiesOf;
    if ps != [] {
      var front, last := ps[..|ps| - 1], ps[|ps| - 1];
      assert ps == front + [last];
      ProvidersAre(front);
      forall v: Provider
        ensures v in ProvidersOf(last, CapabilitiesOf(last)) <==> v.0 == last.name && v.1 in CapabilitiesOf(last)
      {
        if v.0 == last.name && v.1 in CapabilitiesOf(last) {
          var i :| 0 <= i < |CapabilitiesOf(last)| && CapabilitiesOf(last)[i] == v.1;
          assert ProvidersOf(last, CapabilitiesOf(last))[i] == v;
        }
      }
      hide ProvidersOf;
    }
  }

  /** The answers name every package ever inserted under a name with a capability that satisfies the rule. */
  lemma SatisfiersAre(ps: seq<LocalPackage>, rule: Rule)
    ensures forall n :: n in Satisfying(AllProviders(ps), rule)
             <==> exists p :: p in ps && p.name == n && Capable(p, rule)
  {
    hide CapabilitiesOf, SatisfiedBy, AllProviders, Satisfying;
    SatisfyingNames(AllProviders(ps), rule);
    ProvidersAre(ps);
    forall p | p in ps && Capable(p, rule)
      ensures exists v :: v in AllProviders(ps) && v.0 == p.name && SatisfiedBy(rule, v.1)
    {
      var c :| c in CapabilitiesOf(p) && SatisfiedBy(rule, c);
      assert (p.name, c) in AllProviders(ps);
    }
  }

  /** The installed packages that satisfy a rule. */
  function InstalledSatisfiers(packages: map<string, LocalPackage>, rule: Rule): set<string> {
    set n | n in packages && Capable(packages[n], rule)
  }

  /** A package that was replaced satisfied the rule only if what replaced it does. */
  ghost predicate Handed(ps: seq<LocalPackage>, rule: Rule) {
    forall p :: p in ps && Capable(p, rule) ==> p.name in Latest(ps) && Capable(Latest(ps)[p.name], rule)
  }

  /** The answers are the installed packages exactly when no replaced package alone satisfies the rule. */
  lemma SatisfiersAgree(ps: seq<LocalPackage>, rule: Rule)
    ensures (set n | n in Satisfying(AllProviders(ps), rule)) == InstalledSatisfiers(Latest(ps), rule)
      <==> Handed(ps, rule)
  {
    SatisfiersAre(ps, rule);
    LatestIs(ps);
    hide Capable, AllProviders, Satisfying, Latest;
    var names := set n | n in Satisfying(AllProviders(ps), rule);
    forall p | p in ps && Capable(p, rule) ensures p.name in names {}
  }

  /** So they are for every rule when no two packages share a name. */
  lemma DistinctNamesAgree(ps: seq<LocalPackage>, rule: Rule)
    requires forall i, j :: 0 <= i < j < |ps| ==> ps[i].name != ps[j].name
    ensures (set n | n in Satisfying(AllProviders(ps), rule)) == InstalledSatisfiers(Latest(ps), rule)
  {
    LatestIs(ps);
    hide Capable, AllProviders, Satisfying, Latest, InstalledSatisfiers;
    forall p | p in ps ensures Latest(ps)[p.name] == p {
      var i :| 0 <= i < |ps| && ps[i] == p;
      var j :| 0 <= j < |ps| && ps[j] == Latest(ps)[p.name];
    }
    SatisfiersAgree(ps, rule);
  }

  /** A package inserted again without a capability still answers for it, and a rule no package satisfies passes. */
  lemma ReplacedStillAnswers() returns (ps: seq<LocalPackage>, rule: Rule)
    ensures InstalledSatisfiers(Latest(ps), rule) == {} && Satisfying(AllProviders(ps), rule) != []
    ensures Classify(rule, [], Machine(Latest(ps), ps, map[])) == Satisfied
  {
    rule := Rule("cron", None, None);
    var old_ := LocalPackage("fcron", "3-1", [rule], []);
    var new_ := LocalPackage("fcron", "4-1", [], []);
    ps := [old_, new_];
    assert ps[..1] == [old_] && [old_][..0] == [] && Latest([]) == map[];
    assert Latest([old_]) == map["fcron" := old_] && Latest(ps) == Latest([old_])["fcron" := new_];
    assert Latest(ps) == map["fcron" := new_];
    assert CapabilitiesOf(new_) == [Rule("fcron", Some(VersionConstraint(Eq, "4-1")), None)];
    assert rule.name != "fcron";
    assert CapabilitiesOf(old_)[0] == rule && SatisfiedBy(rule, rule);
    assert Capable(old_, rule) && old_ in ps && !Capable(new_, rule);
    SatisfiersAre(ps, rule);
    assert "fcron" in Satisfying(AllProviders(ps), rule);
    hide Satisfying, AllProviders, Capable, CapabilitiesOf;
  }

  // ---------- the check ----------

  datatype Manifest = Manifest(name: string, version: string, capabilities: seq<Rule>, requirements: seq<Rule>)

  datatype Action = Install | Upgrade | Downgrade | Stay

  datatype Severity = Satisfied | Warning | Blocker {
    function Rank(): nat { match this case Satisfied => 0 case Warning => 1 case Blocker => 2 }
  }

  datatype Finding = Finding(package: string, requirement: string, severity: Severity)

  datatype Planned = Planned(name: string, version: string, installed: Option<string>, action: Action)

  datatype Plan = Plan(packages: seq<Planned>, findings: seq<Finding>)

  /** The machine: what is installed, whatever was ever inserted, and what its libraries define. */
  datatype Machine = Machine(packages: map<string, LocalPackage>, inserted: seq<LocalPackage>, libraries: Libraries)

  function ActionOn(m: Manifest, here: Machine): Action {
    if m.name !in here.packages then Install
    else match VersionOrder(m.version, here.packages[m.name].version)
      case Greater => Upgrade
      case Equal => Stay
      case Less => Downgrade
  }

  function PlannedAs(m: Manifest, here: Machine): Planned {
    Planned(m.name, m.version, if m.name in here.packages then Some(here.packages[m.name].version)
      else None, ActionOn(m, here))
  }

  /** The candidates pacman has to act on. */
  function ToInstall(candidates: seq<Manifest>, here: Machine): (r: seq<Manifest>)
    ensures forall m :: m in r <==> m in candidates && ActionOn(m, here) != Stay
  {
    if candidates == [] then []
    else
      var rest, last := ToInstall(candidates[..|candidates| - 1], here), candidates[|candidates| - 1];
      if ActionOn(last, here) == Stay then rest else rest + [last]
  }

  function Brought(ms: seq<Manifest>): (r: seq<Rule>)
    ensures forall c :: c in r <==> exists m :: m in ms && c in m.capabilities
  {
    if ms == [] then [] else Brought(ms[..|ms| - 1]) + ms[|ms| - 1].capabilities
  }

  predicate Contains(s: string, part: string) { Find(s, part, 0).Some? }

  function Classify(rule: Rule, brought: seq<Rule>, here: Machine): Severity {
    if exists c :: c in brought && SatisfiedBy(rule, c) then Satisfied
    else if Contains(rule.name, ".so") then
      if rule.name !in here.libraries then
        if Satisfying(AllProviders(here.inserted), Rule(rule.name, None, None)) == [] then Warning else Satisfied
      else if rule.symbolVersion.Some? && rule.symbolVersion.value !in here.libraries[rule.name] then Blocker
      else Satisfied
    else if Satisfying(AllProviders(here.inserted), rule) == [] then Warning
    else Satisfied
  }

  /** A requirement, as the check lists and remembers it. */
  type Requirement = (string, Rule)

  function TextOf(q: Requirement): (string, string) { (q.0, Print(q.1)) }

  function Requirements(ms: seq<Manifest>): seq<Requirement> {
    if ms == [] then [] else Requirements(ms[..|ms| - 1]) + RequirementsOf(ms[|ms| - 1].name, ms[|ms| - 1].requirements)
  }

  function RequirementsOf(name: string, rules: seq<Rule>): seq<Requirement> {
    seq(|rules|, i requires 0 <= i < |rules| => (name, rules[i]))
  }

  function TextsOf(qs: seq<Requirement>): set<(string, string)> { set q | q in qs :: TextOf(q) }

  function FindingOf(q: Requirement, brought: seq<Rule>, here: Machine): Finding {
    Finding(q.0, Print(q.1), Classify(q.1, brought, here))
  }

  /** The findings in the order they are made; a requirement with a text already seen is passed over. */
  function Findings(qs: seq<Requirement>, brought: seq<Rule>, here: Machine): seq<Finding> {
    if qs == [] then []
    else
      var rest, last := Findings(qs[..|qs| - 1], brought, here), qs[|qs| - 1];
      if TextOf(last) in TextsOf(qs[..|qs| - 1]) || Classify(last.1, brought, here) == Satisfied then rest
      else rest + [FindingOf(last, brought, here)]
  }

  predicate IsSafe(plan: Plan) {
    forall f :: f in plan.findings ==> f.severity != Blocker
  }

  // ---------- the order of the findings ----------

  /** Worst first, then by package name; equal ones keep their order. */
  predicate Before(a: Finding, b: Finding) {
    || a.severity.Rank() > b.severity.Rank()
    || (a.severity == b.severity && CompareSeq(Utf8(a.package), Utf8(b.package)) != Greater)
  }

  function InsertSorted(fs: seq<Finding>, f: Finding): seq<Finding> {
    if fs == [] then [f]
    else if Before(fs[|fs| - 1], f) then fs + [f]
    else InsertSorted(fs[..|fs| - 1], f) + [fs[|fs| - 1]]
  }

  /** The stable sort of the findings. */
  function Sorted(fs: seq<Finding>): seq<Finding> {
    if fs == [] then [] else InsertSorted(Sorted(fs[..|fs| - 1]), fs[|fs| - 1])
  }

  predicate InOrder(fs: seq<Finding>) {
    forall i, j :: 0 <= i < j < |fs| ==> Before(fs[i], fs[j])
  }

  lemma BeforeIsTotal(a: Finding, b: Finding)
    ensures Before(a, b) || Before(b, a)
  {
    CompareSeqReverses(Utf8(a.package), Utf8(b.package));
  }

  lemma BeforeIsTransitive(a: Finding, b: Finding, c: Finding)
    requires Before(a, b) && Before(b, c)
    ensures Before(a, c)
  {
    CompareSeqTransitive(Utf8(a.package), Utf8(b.package), Utf8(c.package));
    hide Utf8, CompareSeq;
  }

  lemma {:induction false} InsertKeepsAll(fs: seq<Finding>, f: Finding)
    ensures multiset(InsertSorted(fs, f)) == multiset(fs + [f])
    ensures forall g :: g in InsertSorted(fs, f) <==> g in fs || g == f
  {
    hide Before;
    if fs != [] {
      var front, last := fs[..|fs| - 1], fs[|fs| - 1];
      assert fs == front + [last];
      InsertKeepsAll(front, f);
    }
  }

  /** A finding that follows all others goes last. */
  lemma LastInOrder(fs: seq<Finding>, f: Finding)
    requires InOrder(fs) && forall g :: g in fs ==> Before(g, f)
    ensures InOrder(fs + [f])
  {
    hide Before;
  }

  lemma {:induction false} InsertKeeps(fs: seq<Finding>, f: Finding)
    requires InOrder(fs)
    ensures InOrder(InsertSorted(fs, f)) && multiset(InsertSorted(fs, f)) == multiset(fs + [f])
    ensures forall g :: g in InsertSorted(fs, f) <==> g in fs || g == f
  {
    hide Before;
    InsertKeepsAll(fs, f);
    if fs != [] {
      var front, last := fs[..|fs| - 1], fs[|fs| - 1];
      BeforeLast(fs);
      if Before(last, f) {
        forall g | g in fs ensures Before(g, f) {
          if g != last { BeforeIsTransitive(g, last, f); }
        }
        LastInOrder(fs, f);
      } else {
        BeforeIsTotal(last, f);
        InsertKeeps(front, f);
        LastInOrder(InsertSorted(front, f), last);
      }
    }
  }

  lemma BeforeLast(fs: seq<Finding>)
    requires InOrder(fs) && fs != []
    ensures var front, last := fs[..|fs| - 1], fs[|fs| - 1];
            InOrder(front) && (forall g :: g in front ==> Before(g, last)) && forall g :: g in fs
                                                                               <==> g in front || g == last
  {
    hide Before;
    var front, last := fs[..|fs| - 1], fs[|fs| - 1];
    assert fs == front + [last];
    forall g | g in front ensures Before(g, last) {
      var i :| 0 <= i < |front| && front[i] == g;
      assert fs[i] == g;
    }
  }

  /** Sorting keeps every finding and puts blockers first. */
  lemma {:induction false} SortedKeeps(fs: seq<Finding>)
    ensures InOrder(Sorted(fs)) && multiset(Sorted(fs)) == multiset(fs)
    ensures forall g :: g in Sorted(fs) <==> g in fs
  {
    hide Before, InsertSorted;
    if fs != [] {
      SortedKeeps(fs[..|fs| - 1]);
      InsertKeeps(Sorted(fs[..|fs| - 1]), fs[|fs| - 1]);
      assert fs == fs[..|fs| - 1] + [fs[|fs| - 1]];
    }
  }

  // ---------- the check as it is written ----------

  ghost function MachineOf(db: LocalDb, libraries: Libraries): Machine
    reads db
  {
    Machine(db.packages, db.inserted, libraries)
  }

  method ClassifyRule(rule: Rule, brought: seq<Rule>, db: LocalDb, libraries: Libraries) returns (severity: Severity)
    requires db.Valid()
    ensures severity == Classify(rule, brought, MachineOf(db, libraries))
  {
    hide SatisfiedBy, AllProviders, Satisfying, Contains;
    if exists c :: c in brought && SatisfiedBy(rule, c) {
      return Satisfied;
    }
    if Contains(rule.name, ".so") {
      if rule.name !in libraries {
        var names := db.Satisfiers(Rule(rule.name, None, None));
        return if names == [] then Warning else Satisfied;
      }
      if rule.symbolVersion.None? || rule.symbolVersion.value in libraries[rule.name] {
        return Satisfied;
      }
      return Blocker;
    }
    var names := db.Satisfiers(rule);
    severity := if names == [] then Warning else Satisfied;
  }

  lemma OneMoreFinding(qs: seq<Requirement>, q: Requirement, brought: seq<Rule>, here: Machine)
    ensures TextsOf(qs + [q]) == TextsOf(qs) + {TextOf(q)}
    ensures Findings(qs + [q], brought, here) ==
      if TextOf(q) in TextsOf(qs) || Classify(q.1, brought, here) == Satisfied then Findings(qs, brought, here)
      else Findings(qs, brought, here) + [FindingOf(q, brought, here)]
  {
    assert (qs + [q])[..|qs|] == qs;
    hide Classify, TextOf;
  }

  lemma RequirementsStep(ms: seq<Manifest>, i: nat)
    requires i < |ms|
    ensures Requirements(ms[..i + 1]) == Requirements(ms[..i]) + RequirementsOf(ms[i].name, ms[i].requirements)
  {
    assert ms[..i + 1][..i] == ms[..i];
  }

  /** Builds the plan: the actions, then what each planned package requires, each requirement once. */
  method BuildPlan(candidates: seq<Manifest>, db: LocalDb, libraries: Libraries) returns (plan: Plan)
    requires db.Valid()
    ensures var here := MachineOf(db, libraries);
            var planned := ToInstall(candidates, here);
            && plan.packages == PlannedPackages(candidates, here)
            && plan.findings == Sorted(Findings(Requirements(planned), Brought(planned), here))
  {
    ghost var here := MachineOf(db, libraries);
    hide *;
    NothingPlanned(candidates, here);
    var packages: seq<Planned>, planned: seq<Manifest>, brought: seq<Rule> := [], [], [];
    for i := 0 to |candidates|
      invariant packages == PlannedPackages(candidates[..i], here)
      invariant planned == ToInstall(candidates[..i], here) && brought == Brought(planned)
    {
      OneMorePlanned(candidates, i, here);
      var m := candidates[i];
      var p := PlanOne(m, db, libraries);
      packages := packages + [p];
      if p.action != Stay {
        planned, brought := planned + [m], brought + m.capabilities;
      }
    }
    assert candidates[..|candidates|] == candidates;
    var findings := CollectFindings(planned, brought, db, libraries);
    plan := Plan(packages, Sorted(findings));
  }

  method PlanOne(m: Manifest, db: LocalDb, libraries: Libraries) returns (p: Planned)
    ensures p == PlannedAs(m, MachineOf(db, libraries))
  {
    hide VersionOrder;
    var installed := if m.name in db.packages then Some(db.packages[m.name].version) else None;
    var action := if installed.None? then Install
                  else match VersionOrder(m.version, installed.value)
                       case Greater => Upgrade
                       case Equal => Stay
                       case Less => Downgrade;
    p := Planned(m.name, m.version, installed, action);
  }

  function PlannedPackages(candidates: seq<Manifest>, here: Machine): seq<Planned> {
    seq(|candidates|, i requires 0 <= i < |candidates| => PlannedAs(candidates[i], here))
  }

  lemma NothingPlanned(candidates: seq<Manifest>, here: Machine)
    ensures PlannedPackages(candidates[..0], here) == [] && ToInstall(candidates[..0], here) == [] && Brought([]) == []
  {}

  lemma OneMorePlanned(candidates: seq<Manifest>, i: nat, here: Machine)
    requires i < |candidates|
    ensures var m, ms := candidates[i], ToInstall(candidates[..i], here);
            && PlannedPackages(candidates[..i + 1], here)
               == PlannedPackages(candidates[..i], here) + [PlannedAs(m, here)]
            && ToInstall(candidates[..i + 1], here) == (if PlannedAs(m, here).action == Stay then ms else ms + [m])
            && Brought(ms + [m]) == Brought(ms) + m.capabilities
  {
    assert candidates[..i + 1][..i] == candidates[..i];
    var m, ms := candidates[i], ToInstall(candidates[..i], here);
    assert (ms + [m])[..|ms|] == ms;
    hide ActionOn;
  }

  /** The findings, requirement by requirement, skipping texts already seen. */
  method CollectFindings(planned: seq<Manifest>, brought: seq<Rule>, db: LocalDb,
      libraries: Libraries) returns (findings: seq<Finding>)
    requires db.Valid()
    ensures findings == Findings(Requirements(planned), brought, MachineOf(db, libraries))
  {
    ghost var here := MachineOf(db, libraries);
    findings := [];
    var seen: set<(string, string)> := {};
    ghost var qs: seq<Requirement> := [];
    assert Requirements(planned[..0]) == [];
    NothingFound(brought, here);
    hide *;
    for i := 0 to |planned|
      invariant qs == Requirements(planned[..i])
      invariant seen == TextsOf(qs) && findings == Findings(qs, brought, here)
    {
      var m := planned[i];
      ghost var before := qs;
      RequirementsStep(planned, i);
      RequirementsOfStep(before, m.name, m.requirements, 0);
      for j := 0 to |m.requirements|
        invariant qs == before + RequirementsOf(m.name, m.requirements[..j])
        invariant seen == TextsOf(qs) && findings == Findings(qs, brought, here)
      {
        var rule := m.requirements[j];
        OneMoreRule(qs, m.name, rule, brought, here);
        RequirementsOfStep(before, m.name, m.requirements, j);
        qs := qs + [(m.name, rule)];
        if (m.name, Print(rule)) !in seen {
          seen := seen + {(m.name, Print(rule))};
          var severity := ClassifyRule(rule, brought, db, libraries);
          if severity != Satisfied {
            findings := findings + [Finding(m.name, Print(rule), severity)];
          }
        }
      }
      assert m.requirements[..|m.requirements|] == m.requirements;
    }
    assert planned[..|planned|] == planned;
  }

  lemma RequirementsOfStep(before: seq<Requirement>, name: string, rules: seq<Rule>, j: nat)
    requires j <= |rules|
    ensures before + RequirementsOf(name, rules[..0]) == before
    ensures j < |rules| ==> before + RequirementsOf(name, rules[..j + 1])
                            == before + RequirementsOf(name, rules[..j]) + [(name, rules[j])]
  {}

  /** One more requirement: skipped if its text was seen, otherwise filed with its severity. */
  lemma OneMoreRule(qs: seq<Requirement>, name: string, rule: Rule, brought: seq<Rule>, here: Machine)
    ensures TextsOf(qs + [(name, rule)]) == TextsOf(qs) + {(name, Print(rule))}
    ensures (name, Print(rule)) in TextsOf(qs) ==> TextsOf(qs + [(name, rule)]) == TextsOf(qs)
    ensures Findings(qs + [(name, rule)], brought, here)
      == if (name, Print(rule)) in TextsOf(qs) || Classify(rule, brought, here) == Satisfied
         then Findings(qs, brought, here)
         else Findings(qs, brought, here) + [Finding(name, Print(rule), Classify(rule, brought, here))]
  {
    OneMoreFinding(qs, (name, rule), brought, here);
    hide Findings, TextsOf, Classify;
  }

  lemma NothingFound(brought: seq<Rule>, here: Machine)
    ensures TextsOf([]) == {} && Findings([], brought, here) == []
  {}

  // ---------- what the plan says ----------

  /** Skipping by text drops no finding: every requirement that is not satisfied has one with its severity. */
  lemma {:induction false} NothingIsSkipped(qs: seq<Requirement>, brought: seq<Rule>, here: Machine)
    requires forall q :: q in qs ==> Readable(q.1)
    ensures forall f :: f in Findings(qs, brought, here) <==>
      exists q :: q in qs && Classify(q.1, brought, here) != Satisfied && f == FindingOf(q, brought, here)
  {
    if qs != [] {
      var front, last := qs[..|qs| - 1], qs[|qs| - 1];
      assert qs == front + [last];
      NothingIsSkipped(front, brought, here);
      OneMoreFinding(front, last, brought, here);
      if TextOf(last) in TextsOf(front) {
        var q :| q in front && TextOf(q) == TextOf(last);
        SameTextSameRule(q.1, last.1);
      }
      hide Classify, Findings, TextsOf, TextOf, Readable, FindingOf;
    }
  }

  lemma SameTextSameRule(a: Rule, b: Rule)
    requires Readable(a) && Readable(b) && Print(a) == Print(b)
    ensures a == b
  {
    ReadableRoundTrip(a);
    ReadableRoundTrip(b);
  }

  lemma {:induction false} RequirementsHold(ms: seq<Manifest>)
    ensures forall q :: q in Requirements(ms) <==> exists m :: m in ms && q.0 == m.name && q.1 in m.requirements
  {
    if ms != [] {
      var front, last := ms[..|ms| - 1], ms[|ms| - 1];
      assert ms == front + [last];
      RequirementsHold(front);
      forall q: Requirement ensures q in RequirementsOf(last.name, last.requirements)
        <==> q.0 == last.name && q.1 in last.requirements {
        if q.0 == last.name && q.1 in last.requirements {
          var i :| 0 <= i < |last.requirements| && last.requirements[i] == q.1;
          assert RequirementsOf(last.name, last.requirements)[i] == q;
        }
      }
      hide RequirementsOf;
    }
  }

  /** The verdict, without sorting, texts or memory: no requirement of a package to install is blocked. */
  ghost predicate Sound(candidates: seq<Manifest>, here: Machine) {
    forall m, rule :: m in candidates && ActionOn(m, here) != Stay && rule in m.requirements ==>
      Classify(rule, Brought(ToInstall(candidates, here)), here) != Blocker
  }

  /** A plan is safe exactly when no requirement is blocked - for manifests whose rules were read from text. */
  lemma SafeIsSound(candidates: seq<Manifest>, here: Machine, plan: Plan)
    requires forall m, rule :: m in candidates && rule in m.requirements ==> Readable(rule)
    requires var planned := ToInstall(candidates, here);
             plan.findings == Sorted(Findings(Requirements(planned), Brought(planned), here))
    ensures IsSafe(plan) <==> Sound(candidates, here)
  {
    hide *;
    var planned := ToInstall(candidates, here);
    var brought := Brought(planned);
    var qs := Requirements(planned);
    RequirementsHold(planned);
    NothingIsSkipped(qs, brought, here);
    SortedKeeps(Findings(qs, brought, here));
    SafeIsUnblocked(qs, brought, here, plan);
    UnblockedIsSound(candidates, planned, qs, brought, here);
  }

  lemma SafeIsUnblocked(qs: seq<Requirement>, brought: seq<Rule>, here: Machine, plan: Plan)
    requires forall f :: f in plan.findings
              <==> exists q :: q in qs && Classify(q.1, brought, here) != Satisfied && f == FindingOf(q, brought, here)
    ensures IsSafe(plan) <==> forall q :: q in qs ==> Classify(q.1, brought, here) != Blocker
  {
    hide Classify;
    if q :| q in qs && Classify(q.1, brought, here) == Blocker {
      assert FindingOf(q, brought, here) in plan.findings;
    }
  }

  lemma UnblockedIsSound(candidates: seq<Manifest>, planned: seq<Manifest>, qs: seq<Requirement>,
      brought: seq<Rule>, here: Machine)
    requires planned == ToInstall(candidates, here) && brought == Brought(planned)
    requires forall q :: q in qs <==> exists m :: m in planned && q.0 == m.name && q.1 in m.requirements
    ensures (forall q :: q in qs ==> Classify(q.1, brought, here) != Blocker) <==> Sound(candidates, here)
  {
    hide Classify, ToInstall, Brought, ActionOn;
    if forall q :: q in qs ==> Classify(q.1, brought, here) != Blocker {
      forall m, rule | m in candidates && ActionOn(m, here) != Stay && rule in m.requirements
        ensures Classify(rule, brought, here) != Blocker
      {
        assert (m.name, rule) in qs;
      }
    }
  }

  /** When a symbol need is blocked. */
  lemma Blocked(n: Need, brought: seq<Rule>, here: Machine)
    ensures Classify(n, brought, here) == Blocker <==>
      && (forall c :: c in brought ==> !SatisfiedBy(n, c)) && Contains(n.name, ".so")
      && n.name in here.libraries && !Met(here.libraries, n)
  {}

  predicate BroughtAlong(n: Rule, brought: seq<Rule>) {
    exists c :: c in brought && SatisfiedBy(n, c)
  }

  /** A plan that brings a needed version along brings the needed versions it settles, like a library. */
  predicate BroughtClosed(needs: set<Rule>, brought: seq<Rule>) {
    forall a, b :: a in needs && b in needs && SettlesSymbol(b, a) && BroughtAlong(b, brought) ==>
      BroughtAlong(a, brought)
  }

  predicate SettlesSymbol(b: Rule, a: Rule) {
    a.symbolVersion.Some? && b.symbolVersion.Some? && Settles(b, a)
  }

  /** The symbol needs the machine, with the plan, does not block. */
  function Unblocked(needs: set<Rule>, brought: seq<Rule>, here: Machine): set<Rule> {
    set n | n in needs && n.symbolVersion.Some? && Classify(n, brought, here) != Blocker
  }

  lemma UnblockedIsClosed(needs: set<Rule>, brought: seq<Rule>, here: Machine)
    requires DownwardClosed(here.libraries, needs) && BroughtClosed(needs, brought)
    ensures ClosedUnder(Unblocked(needs, brought, here), needs)
  {
    var ok := Unblocked(needs, brought, here);
    forall a, b | a in needs && b in needs && a.symbolVersion.Some? && b.symbolVersion.Some? && Settles(b, a) && b in ok
      ensures a in ok
    {
      Blocked(a, brought, here);
      Blocked(b, brought, here);
      assert SettlesSymbol(b, a);
      assert BroughtAlong(b, brought) ==> BroughtAlong(a, brought);
      hide Classify, SatisfiedBy, Contains, SplitSymbol, VersionOrder;
    }
  }

  /**
   * Checking the reduced needs blocks exactly when checking all of them does, on every
   * machine and plan whose libraries, defined and brought along, are downward-closed.
   */
  lemma ReducedCheckAgrees(needs: seq<Rule>, brought: seq<Rule>, here: Machine)
    requires NoConfusion(Needs(needs)) && DownwardClosed(here.libraries, Needs(needs))
      && BroughtClosed(Needs(needs), brought)
    ensures (exists n :: n in needs && n.symbolVersion.Some? && Classify(n, brought, here) == Blocker)
            <==> (exists n :: n in BestOf(needs).Values && n.symbolVersion.Some?
                   && Classify(n, brought, here) == Blocker)
  {
    BestIsNeeded(needs);
    UnblockedIsClosed(Needs(needs), brought, here);
    var ok := Unblocked(Needs(needs), brought, here);
    forall n | n in needs && n.symbolVersion.Some? && Classify(n, brought, here) == Blocker
      ensures exists k :: k in BestOf(needs).Values && k.symbolVersion.Some? && Classify(k, brought, here) == Blocker
    {
      KeptSettles(ok, Needs(needs), needs, n);
      var k := BestOf(needs)[KeyOf(n)];
      assert k in BestOf(needs).Values && n !in ok && k !in ok;
    }
    forall k | k in BestOf(needs).Values ensures k in needs {
      var key :| key in BestOf(needs) && BestOf(needs)[key] == k;
    }
    hide Classify, BestOf, DownwardClosed, NoConfusion, BroughtClosed, ClosedUnder;
  }

  /** A plan that only brings libraries as a whole is closed in that sense, for needs without a constraint. */
  lemma WholeLibrariesAreClosed(needs: set<Rule>, brought: seq<Rule>)
    requires (forall n :: n in needs ==> n.constraint.None?) && (forall c :: c in brought ==> c.symbolVersion.None?)
    ensures BroughtClosed(needs, brought)
  {
    hide VersionOrder, SplitSymbol;
  }
}
