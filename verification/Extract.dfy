/**
 * What a package's binaries need, reduced (`crates/pkg-extract/src/lib.rs`): the
 * highest symbol version per library and namespace, and rules told apart by their text.
 */
module Extract {
  import opened Common
  import opened Dependency
  import V = ArchVersion

  /** The namespace of a symbol version and its number, when it ends in one. */
  function SplitSymbol(sym: string): (string, Option<string>) {
    match FindLastChar(sym, '_')
    case Some(i) =>
      if i + 1 < |sym| && IsDigit(sym[i + 1] as int) then (sym[..i], Some(sym[i + 1..])) else (sym, None)
    case None => (sym, None)
  }

  /** A namespace and a number name one symbol. */
  lemma SplitIsInjective(a: string, b: string)
    ensures SplitSymbol(a) == SplitSymbol(b) <==> a == b
  {
    if SplitSymbol(a) == SplitSymbol(b) && SplitSymbol(a).1.Some? {
      var i, j := FindLastChar(a, '_').value, FindLastChar(b, '_').value;
      assert a == a[..i] + "_" + a[i + 1..];
      assert b == b[..j] + "_" + b[j + 1..];
    }
  }

  /** The number is what follows the last underscore, if that starts with a digit. */
  lemma SymbolParts(sym: string, namespace: string, number: string)
    ensures SplitSymbol(sym) == (namespace, Some(number)) <==>
      && sym == namespace + "_" + number && '_' !in number
      && number != "" && '0' <= number[0] <= '9'
    ensures SplitSymbol(sym).1 == None ==> SplitSymbol(sym).0 == sym
  {
    var i := FindLastChar(sym, '_');
    if i.Some? {
      assert sym == sym[..i.value] + "_" + sym[i.value + 1..];
    }
    if sym == namespace + "_" + number && '_' !in number {
      var k := |namespace|;
      assert sym[k] == '_' && sym[..k] == namespace && sym[k + 1..] == number;
      forall j | k < j < |sym| ensures sym[j] != '_' { assert sym[j] == number[j - k - 1]; }
    }
  }

  /** A need of a symbol version. */
  type Need = r: Rule | r.symbolVersion.Some? witness Rule("", None, Some(""))

  function Namespace(n: Need): string { SplitSymbol(n.symbolVersion.value).0 }

  function Number(n: Need): Option<string> { SplitSymbol(n.symbolVersion.value).1 }

  function KeyOf(n: Need): (string, string) { (n.name, Namespace(n)) }

  type Best = map<(string, string), Need>

  /** Whether `need` replaces the need kept for its key. */
  predicate Replaces(need: Need, current: Need) {
    Number(need).Some? &&
    VersionOrder(Number(need).value, if Number(current).Some? then Number(current).value else "") == Greater
  }

  function Keep(best: Best, rule: Rule): Best {
    if rule.symbolVersion.None? then best
    else if KeyOf(rule) in best && !Replaces(rule, best[KeyOf(rule)]) then best
    else best[KeyOf(rule) := rule]
  }

  function BestOf(needs: seq<Rule>): Best {
    if needs == [] then map[] else Keep(BestOf(needs[..|needs| - 1]), needs[|needs| - 1])
  }

  lemma BestStep(needs: seq<Rule>, i: nat)
    requires i < |needs|
    ensures BestOf(needs[..i + 1]) == Keep(BestOf(needs[..i]), needs[i])
  {
    assert needs[..i + 1][..i] == needs[..i] && needs[..i + 1][i] == needs[i];
    hide Keep;
  }

  /** The loop, need by need. */
  method CollapseVersionNeeds(needs: seq<Rule>) returns (kept: set<Rule>)
    ensures kept == BestOf(needs).Values
  {
    var best: Best := map[];
    for i := 0 to |needs|
      invariant best == BestOf(needs[..i])
    {
      var need := needs[i];
      BestStep(needs, i);
      hide BestOf, VersionOrder, SplitSymbol;
      if need.symbolVersion.Some? {
        var key := KeyOf(need);
        if key in best {
          if Number(need).Some? {
            var current := if Number(best[key]).Some? then Number(best[key]).value else "";
            if VersionOrder(Number(need).value, current) == Greater {
              best := best[key := need];
            }
          }
        } else {
          best := best[key := need];
        }
      }
    }
    assert needs[..|needs|] == needs;
    kept := best.Values;
  }

  // ---------- what a library defines ----------

  /** The symbol versions each library on the system defines. */
  type Libraries = map<string, set<string>>

  predicate Met(libs: Libraries, n: Need) {
    n.name in libs && n.symbolVersion.value in libs[n.name]
  }

  predicate AllMet(libs: Libraries, needs: set<Rule>) {
    forall n :: n in needs && n.symbolVersion.Some? ==> Met(libs, n)
  }

  function Needs(needs: seq<Rule>): set<Rule> { set n | n in needs }

  /** Both needs are numbered, in one namespace of one library, the first no higher than the second. */
  predicate NotAbove(a: Need, b: Need) {
    KeyOf(a) == KeyOf(b) && Number(a).Some? && Number(b).Some?
      && VersionOrder(Number(a).value, Number(b).value) != Greater
  }

  /** A library that defines a needed version defines the needed versions below it. */
  predicate DownwardClosed(libs: Libraries, needs: set<Rule>) {
    forall a, b :: a in needs && b in needs && a.symbolVersion.Some? && b.symbolVersion.Some? && NotAbove(a, b)
                   && Met(libs, b) ==>
      Met(libs, a)
  }

  /** An unnumbered symbol that is also the namespace of a numbered one. */
  predicate Confused(a: Need, b: Need) {
    KeyOf(a) == KeyOf(b) && Number(a).None? && Number(b).Some?
  }

  predicate NoConfusion(needs: set<Rule>) {
    forall a, b :: a in needs && b in needs && a.symbolVersion.Some? && b.symbolVersion.Some? ==> !Confused(a, b)
  }

  /** The reduced needs are needs, one for each key. */
  lemma {:induction false} BestIsNeeded(needs: seq<Rule>)
    ensures forall k :: k in BestOf(needs) ==> BestOf(needs)[k] in Needs(needs) && KeyOf(BestOf(needs)[k]) == k
    ensures forall n :: n in needs && n.symbolVersion.Some? ==> KeyOf(n) in BestOf(needs)
  {
    if needs != [] {
      BestIsNeeded(needs[..|needs| - 1]);
      assert needs == needs[..|needs| - 1] + [needs[|needs| - 1]];
      hide Replaces;
    }
  }

  /** The second need's being met settles the first: the same symbol, or one numbered no higher. */
  predicate Settles(b: Need, a: Need) {
    NotAbove(a, b) || (a.name == b.name && a.symbolVersion == b.symbolVersion)
  }

  /** With a need, whatever it settles is among `met`. */
  predicate ClosedUnder(met: set<Rule>, needs: set<Rule>) {
    forall a, b :: a in needs && b in needs && a.symbolVersion.Some? && b.symbolVersion.Some? ==>
      (Settles(b, a) && b in met ==> a in met)
  }

  /** Keeping one more need: what it is kept for, or against, is met with it. */
  lemma OneMoreNeed(met: set<Rule>, all: set<Rule>, current: Need, need: Need)
    requires ClosedUnder(met, all) && NoConfusion(all) && current in all && need in all && KeyOf(current) == KeyOf(need)
    ensures Replaces(need, current) && need in met ==> current in met
    ensures !Replaces(need, current) && current in met ==> need in met
  {
    hide VersionOrder, SplitSymbol;
    assert !Confused(current, need) && !Confused(need, current);
    if Number(need).Some? {
      Reverses(Number(need).value, Number(current).value);
      assert NotAbove(need, current) || NotAbove(current, need);
      assert Settles(need, current) || Settles(current, need);
    } else {
      SplitIsInjective(need.symbolVersion.value, current.symbolVersion.value);
      assert Settles(current, need);
    }
  }

  lemma Reverses(a: string, b: string)
    ensures VersionOrder(b, a) == VersionOrder(a, b).Reverse()
  {
    V.OrderReverses(Utf8(a), Utf8(b));
  }

  /** When the kept need of a key is met, so are all needs of that key. */
  lemma {:induction false} KeptSettles(met: set<Rule>, all: set<Rule>, needs: seq<Rule>, n: Need)
    requires ClosedUnder(met, all) && NoConfusion(all) && Needs(needs) <= all && n in needs
    ensures KeyOf(n) in BestOf(needs) && (BestOf(needs)[KeyOf(n)] in met ==> n in met)
  {
    var last := |needs| - 1;
    var front := needs[..last];
    assert needs == front + [needs[last]] && Needs(front) <= Needs(needs);
    BestIsNeeded(needs);
    BestIsNeeded(front);
    if n in front { KeptSettles(met, all, front, n); }
    if needs[last].symbolVersion.Some? && KeyOf(needs[last]) in BestOf(front) && KeyOf(needs[last]) == KeyOf(n) {
      OneMoreNeed(met, all, BestOf(front)[KeyOf(n)], needs[last]);
    }
    hide ClosedUnder, NoConfusion, Replaces;
  }

  /** A library that meets the kept need of a key meets all needs of that key. */
  lemma KeptDecides(libs: Libraries, needs: seq<Rule>, n: Need)
    requires DownwardClosed(libs, Needs(needs)) && NoConfusion(Needs(needs)) && n in needs
    ensures KeyOf(n) in BestOf(needs) && (Met(libs, BestOf(needs)[KeyOf(n)]) ==> Met(libs, n))
  {
    var met := set r | r in Needs(needs) && r.symbolVersion.Some? && Met(libs, r);
    assert ClosedUnder(met, Needs(needs)) by { hide NotAbove; }
    KeptSettles(met, Needs(needs), needs, n);
    BestIsNeeded(needs);
    hide DownwardClosed, NoConfusion, BestOf;
  }

  /** On every system, the reduced needs are met exactly when all needs are. */
  ghost predicate Preserves(needs: seq<Rule>) {
    forall libs :: DownwardClosed(libs, Needs(needs)) ==>
      (AllMet(libs, Needs(needs)) <==> AllMet(libs, BestOf(needs).Values))
  }

  function Names(needs: set<Rule>): set<string> { set n | n in needs :: n.name }

  /** A need of the given key that is numbered, or not, as asked. */
  predicate Kind(n: Need, key: (string, string), numbered: bool) {
    KeyOf(n) == key && Number(n).Some? == numbered
  }

  function SymbolsOf(needs: set<Rule>, name: string, key: (string, string), numbered: bool): set<string> {
    set n | n in needs && n.symbolVersion.Some? && n.name == name && !Kind(n, key, numbered) :: n.symbolVersion.value
  }

  /** A system that defines every needed symbol but those of one kind. */
  function Lacking(needs: set<Rule>, key: (string, string), numbered: bool): Libraries {
    map name | name in Names(needs) :: SymbolsOf(needs, name, key, numbered)
  }

  lemma LackingMeets(needs: set<Rule>, key: (string, string), numbered: bool, n: Need)
    requires n in needs
    ensures Met(Lacking(needs, key, numbered), n) <==> !Kind(n, key, numbered)
  {
    if !Kind(n, key, numbered) {
      assert n.symbolVersion.value in SymbolsOf(needs, n.name, key, numbered);
      assert n.name in Names(needs);
    }
  }

  lemma LackingIsClosed(needs: set<Rule>, key: (string, string), numbered: bool)
    ensures DownwardClosed(Lacking(needs, key, numbered), needs)
  {
    var libs := Lacking(needs, key, numbered);
    forall a, b | a in needs && b in needs && a.symbolVersion.Some? && b.symbolVersion.Some? && NotAbove(a, b)
      && Met(libs, b)
      ensures Met(libs, a)
    {
      LackingMeets(needs, key, numbered, a);
      LackingMeets(needs, key, numbered, b);
    }
  }

  /** The kept need of a confused key is of one kind only; a system without the other kind tells. */
  lemma ConfusionTells(needs: seq<Rule>, a: Need, b: Need)
    requires a in needs && b in needs && Confused(a, b)
    ensures !Preserves(needs)
  {
    var all, key := Needs(needs), KeyOf(a);
    BestIsNeeded(needs);
    var kept := BestOf(needs)[key];
    var lost := if Number(kept).Some? then a else b;
    var numbered := Number(lost).Some?;
    var libs := Lacking(all, key, numbered);
    LackingIsClosed(all, key, numbered);
    LackingMeets(all, key, numbered, lost);
    forall n | n in BestOf(needs).Values && n.symbolVersion.Some? ensures Met(libs, n) {
      var k :| k in BestOf(needs) && BestOf(needs)[k] == n;
      LackingMeets(all, key, numbered, n);
    }
    hide Met, Lacking, DownwardClosed, SplitSymbol, BestOf;
    assert lost in all && !Met(libs, lost);
    assert !AllMet(libs, all) && AllMet(libs, BestOf(needs).Values);
  }

  /**
   * Reducing the needs preserves the meaning of the check, on every system whose
   * libraries are downward-closed in each namespace, exactly when no unnumbered
   * symbol is also the namespace of a numbered one.
   */
  lemma CollapsePreserves(needs: seq<Rule>)
    ensures Preserves(needs) <==> NoConfusion(Needs(needs))
  {
    var all := Needs(needs);
    if NoConfusion(all) {
      BestIsNeeded(needs);
      forall libs | DownwardClosed(libs, all) ensures AllMet(libs, all) <==> AllMet(libs, BestOf(needs).Values) {
        forall n | n in all && n.symbolVersion.Some? ensures KeyOf(n) in BestOf(needs)
          && (Met(libs, BestOf(needs)[KeyOf(n)]) ==> Met(libs, n)) {
          KeptDecides(libs, needs, n);
        }
        forall n | n in BestOf(needs).Values ensures n in all {
          var k :| k in BestOf(needs) && BestOf(needs)[k] == n;
        }
        hide Met, DownwardClosed, SplitSymbol, BestOf, NoConfusion;
        forall n | n in all && n.symbolVersion.Some? && AllMet(libs, BestOf(needs).Values) ensures Met(libs, n) {
          assert BestOf(needs)[KeyOf(n)] in BestOf(needs).Values;
        }
      }
    } else {
      var a, b :| a in all && b in all && a.symbolVersion.Some? && b.symbolVersion.Some? && Confused(a, b);
      ConfusionTells(needs, a, b);
    }
  }

  /** `FOO` beside `FOO_1`: the numbered symbol takes the key and the plain one is no longer checked. */
  lemma PlainSymbolIsLost()
    ensures !Preserves([Rule("libx.so.1", None, Some("FOO")), Rule("libx.so.1", None, Some("FOO_1"))])
  {
    var a, b := Rule("libx.so.1", None, Some("FOO")), Rule("libx.so.1", None, Some("FOO_1"));
    hide FindLastChar;
    assert "FOO_1"[3] == '_' && "FOO_1"[4] == '1';
    assert SplitSymbol("FOO") == ("FOO", None);
    assert SplitSymbol("FOO_1") == ("FOO", Some("1")) by {
      assert "FOO_1"[..3] == "FOO" && "FOO_1"[4..] == "1";
    }
    assert [a, b][0] == a && [a, b][1] == b;
    ConfusionTells([a, b], a, b);
  }

  /** The numbers needed under one key. */
  function NumbersOf(needs: set<Rule>, key: (string, string)): set<string> {
    set n | n in needs && n.symbolVersion.Some? && Kind(n, key, true) :: Number(n).value
  }

  /** When the numbers are ones the version order orders, the need kept is a highest one. */
  lemma {:induction false} KeptIsHighest(needs: seq<Rule>, all: set<Rule>, n: Need)
    requires Needs(needs) <= all && NoConfusion(all) && n in needs && Number(n).Some?
      && Ordered(NumbersOf(all, KeyOf(n)))
    ensures KeyOf(n) in BestOf(needs) && Number(BestOf(needs)[KeyOf(n)]).Some?
            && VersionOrder(Number(n).value, Number(BestOf(needs)[KeyOf(n)]).value) != Greater
  {
    hide VersionOrder, SplitSymbol, Replaces;
    var last := |needs| - 1;
    var front := needs[..last];
    assert needs == front + [needs[last]] && Needs(front) <= Needs(needs);
    BestStep(needs, last);
    assert needs[..last + 1] == needs;
    BestIsNeeded(needs);
    BestIsNeeded(front);
    var key := KeyOf(n);
    if n in front { KeptIsHighest(front, all, n); }
    var x := needs[last];
    hide BestOf;
    if x.symbolVersion.Some? && KeyOf(x) == key {
      NumberedToo(all, key, n, x);
      if key in BestOf(front) {
        NumberedToo(all, key, n, BestOf(front)[key]);
        StaysHighest(all, key, n, BestOf(front)[key], x);
      } else {
        StaysHighest(all, key, n, x, x);
      }
    }
  }

  /** Beside a numbered need, every need of its key is numbered. */
  lemma NumberedToo(all: set<Rule>, key: (string, string), n: Need, m: Need)
    requires NoConfusion(all) && n in all && m in all && KeyOf(m) == key == KeyOf(n) && Number(n).Some?
    ensures Kind(m, key, true) && Kind(n, key, true)
  {
    hide SplitSymbol;
    assert !Confused(m, n);
  }

  lemma StaysHighest(all: set<Rule>, key: (string, string), n: Need, current: Need, last: Need)
    requires n in all && current in all && last in all && Ordered(NumbersOf(all, key))
    requires Kind(n, key, true) && Kind(current, key, true) && Kind(last, key, true)
    ensures VersionOrder(Number(n).value, Number(current).value) != Greater && Replaces(last, current) ==>
            VersionOrder(Number(n).value, Number(last).value) != Greater
    ensures VersionOrder(Number(last).value, Number(last).value) == Equal
    ensures !Replaces(last, current) ==> VersionOrder(Number(last).value, Number(current).value) != Greater
  {
    var a, b, c := Number(n).value, Number(current).value, Number(last).value;
    assert {a, b, c} <= NumbersOf(all, key);
    OrderedTransitive(a, b, c);
    Reverses(b, c);
    Reverses(c, c);
    hide VersionOrder, SplitSymbol;
  }

  // ---------- rules told apart by their text ----------

  /** An insertion-ordered list of rules without repetitions. */
  class RuleSet {
    var seen: set<string>
    var rules: seq<Rule>

    ghost predicate Valid()
      reads this
    {
      seen == Texts(rules) && forall i, j :: 0 <= i < j < |rules| ==> Print(rules[i]) != Print(rules[j])
    }

    constructor ()
      ensures Valid() && rules == []
    {
      seen, rules := {}, [];
    }

    method Push(rule: Rule)
      requires Valid()
      modifies this
      ensures Valid() && rules == Pushed(old(rules), rule)
    {
      hide Print;
      if Print(rule) !in seen {
        seen := seen + {Print(rule)};
        rules := rules + [rule];
      }
    }

    /** Strings that cannot be read as a rule are skipped. */
    method ExtendParsed(raw: seq<string>)
      requires Valid()
      modifies this
      ensures Valid() && rules == PushedAll(old(rules), ParsedOf(raw))
    {
      hide Parse, Print;
      for i := 0 to |raw|
        invariant Valid() && rules == PushedAll(old(rules), ParsedOf(raw[..i]))
      {
        assert raw[..i + 1][..i] == raw[..i];
        match Parse(raw[i])
        case Ok(rule) =>
          assert ParsedOf(raw[..i + 1]) == ParsedOf(raw[..i]) + [rule];
          assert ParsedOf(raw[..i + 1])[..|ParsedOf(raw[..i])|] == ParsedOf(raw[..i]);
          Push(rule);
        case Err(_) =>
      }
      assert raw[..|raw|] == raw;
    }
  }

  function Texts(rules: seq<Rule>): set<string> { set r | r in rules :: Print(r) }

  function Pushed(rules: seq<Rule>, rule: Rule): seq<Rule> {
    if Print(rule) in Texts(rules) then rules else rules + [rule]
  }

  function PushedAll(rules: seq<Rule>, more: seq<Rule>): seq<Rule> {
    if more == [] then rules else Pushed(PushedAll(rules, more[..|more| - 1]), more[|more| - 1])
  }

  function ParsedOf(raw: seq<string>): seq<Rule> {
    if raw == [] then []
    else match Parse(raw[|raw| - 1])
      case Ok(rule) => ParsedOf(raw[..|raw| - 1]) + [rule]
      case Err(_) => ParsedOf(raw[..|raw| - 1])
  }

  /** Every rule that was read is in the list, once, whatever its text was: keying by text loses none. */
  lemma {:induction false} NoRuleIsLost(raw: seq<string>)
    ensures forall r :: r in PushedAll([], ParsedOf(raw)) <==> exists s :: s in raw && Parse(s) == Ok(r)
  {
    if raw != [] {
      var front, last := raw[..|raw| - 1], raw[|raw| - 1];
      NoRuleIsLost(front);
      assert raw == front + [last];
      if Parse(last).Ok? {
        var rule := Parse(last).value;
        var ps := ParsedOf(front) + [rule];
        assert ps[..|ps| - 1] == ParsedOf(front);
        assert PushedAll([], ParsedOf(raw)) == Pushed(PushedAll([], ParsedOf(front)), rule);
        PushedHolds(front, PushedAll([], ParsedOf(front)), last);
      }
      hide Parse, Pushed;
    }
  }

  lemma PushedHolds(front: seq<string>, before: seq<Rule>, last: string)
    requires (forall r :: r in before <==> exists s :: s in front && Parse(s) == Ok(r)) && Parse(last).Ok?
    ensures forall r :: r in Pushed(before, Parse(last).value) <==> r in before || r == Parse(last).value
  {
    var rule := Parse(last).value;
    forall r | r in before && Print(r) == Print(rule) ensures r == rule {
      var s :| s in front && Parse(s) == Ok(r);
      PrintingIsInjective(s, last);
    }
    hide Parse, Print;
  }
}
