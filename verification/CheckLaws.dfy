/** A safety check in plain terms: what it plans for each package, and what it reports. */
module CheckLaws {
  import opened Common
  import opened Dependency
  import opened Check

  /** The name holds `.so` somewhere. */
  predicate NamesLibrary(name: string) {
    exists i :: 0 <= i <= |name| - 3 && name[i] == '.' && name[i + 1] == 's' && name[i + 2] == 'o'
  }

  /** A package answers for a rule by what it provides, or by its own name and version. */
  predicate Answers(p: LocalPackage, rule: Rule) {
    || (exists c :: c in p.capabilities && SatisfiedBy(rule, c))
    || SatisfiedBy(rule, Rule(p.name, Some(VersionConstraint(Eq, p.version)), None))
  }

  predicate AnsweredFor(here: Machine, rule: Rule) { exists p :: p in here.inserted && Answers(p, rule) }

  /** A candidate changes the machine unless it is installed in an equal version. */
  predicate Changes(m: Manifest, here: Machine) {
    m.name in here.packages ==> VersionOrder(m.version, here.packages[m.name].version) != Equal
  }

  predicate Brings(candidates: seq<Manifest>, here: Machine, rule: Rule) {
    exists m, c :: m in candidates && Changes(m, here) && c in m.capabilities && SatisfiedBy(rule, c)
  }

  /** The library is here, but without the symbol version, and nothing brings it. */
  predicate Blocks(candidates: seq<Manifest>, here: Machine, rule: Rule) {
    && !Brings(candidates, here, rule) && NamesLibrary(rule.name) && rule.name in here.libraries
    && rule.symbolVersion.Some? && rule.symbolVersion.value !in here.libraries[rule.name]
  }

  /** Neither the machine nor the plan has it: for a library whatever its version. */
  predicate Warns(candidates: seq<Manifest>, here: Machine, rule: Rule) {
    && !Brings(candidates, here, rule)
    && if NamesLibrary(rule.name) then
         rule.name !in here.libraries && !AnsweredFor(here, Rule(rule.name, None, None))
       else !AnsweredFor(here, rule)
  }

  // ---------- the severity of a requirement ----------

  lemma ContainsLibrary(name: string)
    ensures Contains(name, ".so") <==> NamesLibrary(name)
  {
    var token := ".so";
    assert token[0] == '.' && token[1] == 's' && token[2] == 'o' && |token| == 3;
    forall i | 0 <= i <= |name| - 3
      ensures TokenAt(name, token, i) <==> name[i] == '.' && name[i + 1] == 's' && name[i + 2] == 'o'
    {
      assert name[i..i + 3] == [name[i], name[i + 1], name[i + 2]];
    }
    hide TokenAt;
    if NamesLibrary(name) {
      var i :| 0 <= i <= |name| - 3 && name[i] == '.' && name[i + 1] == 's' && name[i + 2] == 'o';
      assert TokenAt(name, token, i);
    }
  }

  lemma AnswersIs(p: LocalPackage, rule: Rule)
    ensures Capable(p, rule) <==> Answers(p, rule)
  {
    var own := Rule(p.name, Some(VersionConstraint(Eq, p.version)), None);
    assert forall c :: c in CapabilitiesOf(p) <==> c in p.capabilities || c == own;
    hide SatisfiedBy, CapabilitiesOf;
  }

  lemma AnsweredIs(here: Machine, rule: Rule)
    ensures Satisfying(AllProviders(here.inserted), rule) == [] <==> !AnsweredFor(here, rule)
  {
    hide Satisfying, AllProviders, Capable, Answers;
    var names := Satisfying(AllProviders(here.inserted), rule);
    SatisfiersAre(here.inserted, rule);
    forall p ensures Capable(p, rule) <==> Answers(p, rule) { AnswersIs(p, rule); }
    if names != [] {
      assert names[0] in names;
    }
    if AnsweredFor(here, rule) {
      var p :| p in here.inserted && Answers(p, rule);
      assert p.name in names;
    }
  }

  lemma ChangesIs(m: Manifest, here: Machine)
    ensures ActionOn(m, here) != Stay <==> Changes(m, here)
  {
    hide VersionOrder;
  }

  lemma BringsIs(candidates: seq<Manifest>, here: Machine, rule: Rule)
    ensures (exists c :: c in Brought(ToInstall(candidates, here)) && SatisfiedBy(rule, c))
      <==> Brings(candidates, here, rule)
  {
    hide SatisfiedBy, Changes, ActionOn, Brought, ToInstall;
    forall m ensures ActionOn(m, here) != Stay <==> Changes(m, here) { ChangesIs(m, here); }
  }

  lemma SeverityIs(candidates: seq<Manifest>, here: Machine, rule: Rule)
    ensures Classify(rule, Brought(ToInstall(candidates, here)), here) ==
      if Blocks(candidates, here, rule) then Blocker else if Warns(candidates, here, rule) then Warning else Satisfied
  {
    BringsIs(candidates, here, rule);
    ContainsLibrary(rule.name);
    AnsweredIs(here, rule);
    AnsweredIs(here, Rule(rule.name, None, None));
    hide SatisfiedBy, Brought, ToInstall, Brings, AnsweredFor, Contains, NamesLibrary, Satisfying, AllProviders;
  }

  // ---------- the plan ----------

  lemma ActionsAre(candidates: seq<Manifest>, here: Machine, i: nat)
    requires i < |candidates|
    ensures |PlannedPackages(candidates, here)| == |candidates|
    ensures var m, p := candidates[i], PlannedPackages(candidates, here)[i];
            && p.name == m.name && p.version == m.version
            && (p.installed.None? <==> m.name !in here.packages)
            && (p.action == Install <==> p.installed.None?)
            && (p.installed.Some? ==>
                  && p.installed.value == here.packages[m.name].version
                  && (p.action == Upgrade <==> VersionOrder(m.version, p.installed.value) == Greater)
                  && (p.action == Downgrade <==> VersionOrder(m.version, p.installed.value) == Less)
                  && (p.action == Stay <==> VersionOrder(m.version, p.installed.value) == Equal))
  {
    hide VersionOrder;
  }

  lemma FoundFor(candidates: seq<Manifest>, here: Machine, f: Finding)
    requires forall m, rule :: m in candidates && rule in m.requirements ==> Readable(rule)
    ensures var planned := ToInstall(candidates, here);
            f in Sorted(Findings(Requirements(planned), Brought(planned), here)) <==>
            exists m, rule :: m in candidates && ActionOn(m, here) != Stay && rule in m.requirements
                              && Classify(rule, Brought(planned), here) != Satisfied
                              && f == Finding(m.name, Print(rule), Classify(rule, Brought(planned), here))
  {
    hide *;
    var planned := ToInstall(candidates, here);
    var brought := Brought(planned);
    RequirementsHold(planned);
    NothingIsSkipped(Requirements(planned), brought, here);
    SortedKeeps(Findings(Requirements(planned), brought, here));
    forall q: Requirement
      ensures FindingOf(q, brought, here) == Finding(q.0, Print(q.1), Classify(q.1, brought, here))
    {
      FindingIs(q, brought, here);
    }
    forall m, rule | m in planned && rule in m.requirements ensures (m.name, rule) in Requirements(planned) {}
  }

  lemma FindingIs(q: Requirement, brought: seq<Rule>, here: Machine)
    ensures FindingOf(q, brought, here) == Finding(q.0, Print(q.1), Classify(q.1, brought, here))
  {
    hide Classify, Print;
  }

  /**
   * What a check reports: for each package that changes the machine each of its requirements
   * that blocks or warns, the blockers first and then by package.
   */
  lemma PlanMeans(candidates: seq<Manifest>, here: Machine, plan: Plan)
    requires forall m, rule :: m in candidates && rule in m.requirements ==> Readable(rule)
    requires var planned := ToInstall(candidates, here);
             plan.findings == Sorted(Findings(Requirements(planned), Brought(planned), here))
    ensures forall f :: f in plan.findings <==>
              exists m, rule :: m in candidates && Changes(m, here) && rule in m.requirements
                && f.package == m.name && f.requirement == Print(rule)
                && ((Blocks(candidates, here, rule) && f.severity == Blocker)
                    || (Warns(candidates, here, rule) && f.severity == Warning))
    ensures forall i, j :: 0 <= i < j < |plan.findings| ==>
              && !(plan.findings[i].severity == Warning && plan.findings[j].severity == Blocker)
              && (plan.findings[i].severity == plan.findings[j].severity ==>
                    CompareSeq(Utf8(plan.findings[i].package), Utf8(plan.findings[j].package)) != Greater)
  {
    hide *;
    var planned := ToInstall(candidates, here);
    forall m ensures ActionOn(m, here) != Stay <==> Changes(m, here) { ChangesIs(m, here); }
    forall rule ensures Classify(rule, Brought(planned), here) ==
      if Blocks(candidates, here, rule) then Blocker else if Warns(candidates, here, rule) then Warning else Satisfied
    {
      SeverityIs(candidates, here, rule);
    }
    forall rule ensures !(Blocks(candidates, here, rule) && Warns(candidates, here, rule)) {
      NotBoth(candidates, here, rule);
    }
    forall f ensures f in plan.findings <==>
              exists m, rule :: m in candidates && Changes(m, here) && rule in m.requirements
                && f.package == m.name && f.requirement == Print(rule)
                && ((Blocks(candidates, here, rule) && f.severity == Blocker)
                    || (Warns(candidates, here, rule) && f.severity == Warning))
    {
      FoundFor(candidates, here, f);
    }
    SortedKeeps(Findings(Requirements(planned), Brought(planned), here));
    InOrderMeans(plan.findings);
  }

  lemma NotBoth(candidates: seq<Manifest>, here: Machine, rule: Rule)
    ensures !(Blocks(candidates, here, rule) && Warns(candidates, here, rule))
  {
    hide Brings, NamesLibrary, AnsweredFor;
  }

  lemma InOrderMeans(fs: seq<Finding>)
    requires InOrder(fs)
    ensures forall i, j :: 0 <= i < j < |fs| ==>
              && !(fs[i].severity == Warning && fs[j].severity == Blocker)
              && (fs[i].severity == fs[j].severity ==>
                    CompareSeq(Utf8(fs[i].package), Utf8(fs[j].package)) != Greater)
  {
    hide CompareSeq, Utf8;
  }
}
