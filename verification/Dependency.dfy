/** Dependency rules in Arch syntax (`crates/pkg-manifest/src/dependency.rs`): reading, printing, satisfying. */
module Dependency {
  import opened Common
  import V = ArchVersion

  datatype VersionOp = Eq | Ge | Le | Gt | Lt {
    function Token(): string {
      match this
      case Eq => "="
      case Ge => ">="
      case Le => "<="
      case Gt => ">"
      case Lt => "<"
    }
  }

  datatype VersionConstraint = VersionConstraint(op: VersionOp, version: string)

  datatype Rule = Rule(name: string, constraint: Option<VersionConstraint>, symbolVersion: Option<string>)

  datatype ParseError = Empty | MissingVersion | UnterminatedSymbolVersion

  // ---------- reading and printing ----------

  /** The Unicode property White_Space. */
  predicate IsWhite(c: char) {
    var u := c as int;
    || 0x9 <= u <= 0xD || u == 0x20 || u == 0x85 || u == 0xA0 || u == 0x1680 || 0x2000 <= u <= 0x200A
    || u == 0x2028 || u == 0x2029 || u == 0x202F || u == 0x205F || u == 0x3000
  }

  predicate Trimmed(s: string) {
    s != [] ==> !IsWhite(s[0]) && !IsWhite(s[|s| - 1])
  }

  function TrimStart(s: string): (r: string)
    ensures r != [] ==> !IsWhite(r[0])
    ensures s != [] && !IsWhite(s[0]) ==> r == s
    ensures r != [] ==> s != [] && r[|r| - 1] == s[|s| - 1]
  {
    if s != [] && IsWhite(s[0]) then TrimStart(s[1..]) else s
  }

  function TrimEnd(s: string): (r: string)
    ensures r != [] ==> !IsWhite(r[|r| - 1]) && s != [] && r[0] == s[0]
    ensures s != [] && !IsWhite(s[|s| - 1]) ==> r == s
  {
    if s != [] && IsWhite(s[|s| - 1]) then TrimEnd(s[..|s| - 1]) else s
  }

  function Trim(s: string): (r: string)
    ensures Trimmed(r) && (Trimmed(s) ==> r == s)
  {
    TrimEnd(TrimStart(s))
  }

  /** The first place of `c`, and the last. */
  function FindChar(s: string, c: char): (i: Option<nat>)
    ensures i.None? <==> c !in s
    ensures i.Some? ==> i.value < |s| && s[i.value] == c && forall k :: 0 <= k < i.value ==> s[k] != c
  {
    if s == [] then None
    else if c in s[..|s| - 1] then FindChar(s[..|s| - 1], c)
    else if s[|s| - 1] == c then Some(|s| - 1)
    else None
  }

  function FindLastChar(s: string, c: char): (i: Option<nat>)
    ensures i.None? <==> c !in s
    ensures i.Some? ==> i.value < |s| && s[i.value] == c && forall k :: i.value < k < |s| ==> s[k] != c
  {
    if s == [] then None
    else if c in s[1..] then Some(1 + FindLastChar(s[1..], c).value)
    else if s[0] == c then Some(0)
    else None
  }

  predicate TokenAt(s: string, token: string, i: nat) {
    i + |token| <= |s| && s[i..i + |token|] == token
  }

  /** The first place where `token` occurs in `s` at or after `from`. */
  function Find(s: string, token: string, from: nat): (i: Option<nat>)
    ensures i.Some? ==> from <= i.value && TokenAt(s, token, i.value) && forall k :: from <= k < i.value ==>
      !TokenAt(s, token, k)
    ensures i.None? ==> forall k :: from <= k ==> !TokenAt(s, token, k)
    decreases |s| - from
  {
    if from + |token| > |s| then None
    else if TokenAt(s, token, from) then Some(from)
    else Find(s, token, from + 1)
  }

  /** Operators in the order they are looked for: the longer ones first. */
  const OPS: seq<VersionOp> := [Ge, Le, Eq, Gt, Lt]

  /** The name and constraint of a rule without its symbol version. */
  function ParseHead(head: string, ops: seq<VersionOp>): Result<(string, Option<VersionConstraint>), ParseError> {
    if ops == [] then Ok((head, None))
    else match Find(head, ops[0].Token(), 0)
      case Some(i) =>
        var name, version := head[..i], head[i + |ops[0].Token()|..];
        if name == "" || version == "" then Err(MissingVersion)
        else Ok((name, Some(VersionConstraint(ops[0], version))))
      case None => ParseHead(head, ops[1..])
  }

  function Parse(input: string): Result<Rule, ParseError> {
    var s := Trim(input);
    if s == "" then Err(Empty)
    else
      match FindChar(s, '(')
      case None => WithSymbol(s, None)
      case Some(open) =>
        match FindLastChar(s, ')')
        case Some(close) => if close > open then WithSymbol(s[..open], Some(s[open + 1..close]))
          else Err(UnterminatedSymbolVersion)
        case None => Err(UnterminatedSymbolVersion)
  }

  function WithSymbol(head: string, symbol: Option<string>): Result<Rule, ParseError> {
    match ParseHead(head, OPS)
    case Ok((name, constraint)) => Ok(Rule(name, constraint, symbol))
    case Err(e) => Err(e)
  }

  function Head(r: Rule): string {
    r.name + if r.constraint.Some? then r.constraint.value.op.Token() + r.constraint.value.version else ""
  }

  function Print(r: Rule): string {
    Head(r) + if r.symbolVersion.Some? then "(" + r.symbolVersion.value + ")" else ""
  }

  // ---------- the round trip ----------

  /** What a head is read as, it is printed as. */
  lemma {:induction false} HeadPrints(head: string, ops: seq<VersionOp>)
    requires ParseHead(head, ops).Ok?
    ensures var (name, constraint) := ParseHead(head, ops).value;
            Head(Rule(name, constraint, None)) == head && (head != "" ==> name != "")
  {
    if ops != [] {
      match Find(head, ops[0].Token(), 0)
      case Some(i) =>
      case None => HeadPrints(head, ops[1..]);
    }
  }

  /** Rules that come from text: exactly those whose printed form is trimmed, and read as their parts. */
  predicate Readable(r: Rule) {
    && '(' !in Head(r) && ParseHead(Head(r), OPS) == Ok((r.name, r.constraint))
    && (Head(r) != "" ==> !IsWhite(Head(r)[0]))
    && (r.symbolVersion.None? ==> Head(r) != "" && !IsWhite(Head(r)[|Head(r)| - 1]))
  }

  lemma ParsedIsReadable(input: string)
    requires Parse(input).Ok?
    ensures Readable(Parse(input).value)
  {
    var s := Trim(input);
    var open := FindChar(s, '(');
    var head := if open.None? then s else s[..open.value];
    HeadPrints(head, OPS);
    assert '(' !in head;
    assert head != "" ==> head[0] == s[0];
  }

  /** Reading what a readable rule prints gives the rule back. */
  lemma ReadableRoundTrip(r: Rule)
    requires Readable(r)
    ensures Parse(Print(r)) == Ok(r)
  {
    var head := Head(r);
    HeadReads(r);
    PrintIs(r);
    hide *;
    if r.symbolVersion.None? {
      ParsePlain(head);
    } else {
      var sym := r.symbolVersion.value;
      ParsePrinted(head, sym);
    }
  }

  lemma ParsePrinted(head: string, sym: string)
    requires '(' !in head && (head != "" ==> !IsWhite(head[0]))
    ensures Parse(head + "(" + sym + ")") == WithSymbol(head, Some(sym))
  {
    var s := head + "(" + sym + ")";
    OpenAt(head, sym);
    CloseAt(head, sym);
    hide *;
    ParseSymbol(s, |head|, |s| - 1);
  }

  lemma HeadReads(r: Rule)
    requires Readable(r)
    ensures WithSymbol(Head(r), r.symbolVersion) == Ok(r)
    ensures '(' !in Head(r) && (Head(r) != "" ==> !IsWhite(Head(r)[0]))
    ensures r.symbolVersion.None? ==> Head(r) != "" && Trimmed(Head(r))
  {
    hide ParseHead, Head;
  }

  lemma PrintIs(r: Rule)
    ensures Print(r) == if r.symbolVersion.Some? then Head(r) + "(" + r.symbolVersion.value + ")" else Head(r)
  {
    hide Head;
    assert r.symbolVersion.Some? ==> Print(r) == Head(r) + ("(" + r.symbolVersion.value + ")");
  }

  lemma ParsePlain(s: string)
    requires s != "" && Trimmed(s) && '(' !in s
    ensures Parse(s) == WithSymbol(s, None)
  {
    hide WithSymbol;
  }

  lemma ParseSymbol(s: string, open: nat, close: nat)
    requires s != "" && Trim(s) == s && FindChar(s, '(') == Some(open) && FindLastChar(s, ')') == Some(close)
      && open < close
    ensures Parse(s) == WithSymbol(s[..open], Some(s[open + 1..close]))
  {
    hide WithSymbol;
  }

  lemma OpenAt(head: string, sym: string)
    requires '(' !in head
    ensures var s := head + "(" + sym + ")";
            FindChar(s, '(') == Some(|head|) && s[..|head|] == head && s[|head| + 1..|s| - 1] == sym
  {
    var s := head + "(" + sym + ")";
    assert s[..|head|] == head && s[|head|] == '(';
    assert s[|head| + 1..|s| - 1] == sym;
    assert forall k :: 0 <= k < |head| ==> s[k] == head[k];
    hide FindChar;
  }

  lemma CloseAt(head: string, sym: string)
    requires head != "" ==> !IsWhite(head[0])
    ensures var s := head + "(" + sym + ")";
            s != "" && FindLastChar(s, ')') == Some(|s| - 1) && Trim(s) == s && |head| < |s| - 1
  {
    var s := head + "(" + sym + ")";
    assert s[|s| - 1] == ')' && s[0] == if head == "" then '(' else head[0];
    hide FindLastChar;
    assert Trimmed(s);
  }

  /** For every string the parser accepts, reading the printed rule gives the same rule. */
  lemma RoundTrip(input: string)
    requires Parse(input).Ok?
    ensures Parse(Print(Parse(input).value)) == Parse(input)
  {
    ParsedIsReadable(input);
    ReadableRoundTrip(Parse(input).value);
  }

  /** So a set keyed by printed rules tells exactly the distinct parsed rules apart. */
  lemma PrintingIsInjective(a: string, b: string)
    requires Parse(a).Ok? && Parse(b).Ok?
    ensures Print(Parse(a).value) == Print(Parse(b).value) <==> Parse(a) == Parse(b)
  {
    if Print(Parse(a).value) == Print(Parse(b).value) {
      RoundTrip(a);
      RoundTrip(b);
    }
  }

  /** A rule survives printing and reading exactly when some text reads as it. */
  lemma RoundTripsIffParsed(r: Rule)
    ensures Parse(Print(r)) == Ok(r) <==> Readable(r)
  {
    if Parse(Print(r)) == Ok(r) { ParsedIsReadable(Print(r)); }
    if Readable(r) { ReadableRoundTrip(r); }
  }

  // ---------- operators ----------

  lemma PassedOver(head: string, ops: seq<VersionOp>)
    requires ops != [] && ParseHead(head, ops).Ok?
    requires ParseHead(head, ops).value.1.Some? && ParseHead(head, ops).value.1.value.op != ops[0]
    ensures ParseHead(head, ops) == ParseHead(head, ops[1..]) && forall k: nat :: !TokenAt(head, ops[0].Token(), k)
  {}

  lemma NoSuchChar(head: string, c: char)
    requires forall k: nat :: !TokenAt(head, [c], k)
    ensures c !in head
  {
    forall k | 0 <= k < |head| ensures head[k] != c {
      assert !TokenAt(head, [c], k);
      assert head[k..k + 1] == [head[k]];
    }
  }

  /** A strict comparison is never a misread `>=`, `<=` or `=`: none of them occurs before the symbol version. */
  lemma StrictIsStrict(input: string)
    requires Parse(input).Ok? && Parse(input).value.constraint.Some?
      && Parse(input).value.constraint.value.op in {Gt, Lt}
    ensures '=' !in Head(Parse(input).value)
  {
    ParsedIsReadable(input);
    var head := Head(Parse(input).value);
    hide Parse, Head, Find, TokenAt;
    PassedOver(head, OPS);
    PassedOver(head, OPS[1..]);
    PassedOver(head, OPS[1..][1..]);
    NoSuchChar(head, '=');
  }

  // ---------- satisfying ----------

  function VersionOrder(a: string, b: string): Ordering { V.Order(Utf8(a), Utf8(b)) }

  /** Whether a version satisfies the constraint. */
  predicate Matches(c: VersionConstraint, candidate: string) {
    var ord := VersionOrder(candidate, c.version);
    match c.op
    case Eq => ord == Equal
    case Ge => ord != Less
    case Le => ord != Greater
    case Gt => ord == Greater
    case Lt => ord == Less
  }

  /** Whether the capability `provided` satisfies the rule; a version is compared only with an exact one. */
  predicate SatisfiedBy(rule: Rule, provided: Rule) {
    && rule.name == provided.name
    && (rule.symbolVersion.Some? && provided.symbolVersion.Some? ==> rule.symbolVersion == provided.symbolVersion)
    && (rule.constraint.Some? ==>
          && provided.constraint.Some? && provided.constraint.value.op == Eq
          && Matches(rule.constraint.value, provided.constraint.value.version))
  }

  /** Versions the order orders among each other. */
  predicate Ordered(versions: set<string>) {
    && (forall v :: v in versions ==> V.CleanVersion(V.Parse(Utf8(v))))
    && (forall v, w :: v in versions && w in versions ==>
       V.Parse(Utf8(v)).pkgrel.Some? == V.Parse(Utf8(w)).pkgrel.Some?)
  }

  lemma OrderedTransitive(a: string, b: string, c: string)
    requires Ordered({a, b, c})
    ensures Consistent(VersionOrder(a, b), VersionOrder(b, c), VersionOrder(a, c))
  {
    V.OrderTransitive(Utf8(a), Utf8(b), Utf8(c));
  }

  /** Upgrading what is provided keeps lower bounds satisfied, downgrading it upper bounds. */
  lemma BoundsAreMonotone(c: VersionConstraint, v: string, w: string)
    requires Ordered({v, w, c.version}) && Matches(c, v)
    ensures c.op in {Ge, Gt} && VersionOrder(w, v) != Less ==> Matches(c, w)
    ensures c.op in {Le, Lt} && VersionOrder(w, v) != Greater ==> Matches(c, w)
    ensures c.op == Eq ==> (Matches(c, w) <==> VersionOrder(w, v) == Equal)
  {
    OrderedTransitive(w, v, c.version);
    hide V.Order, Utf8;
  }

  /** A rule for an exact version is satisfied by its own kind of provider, and by an exact one of equal version. */
  lemma ExactRules(name: string, v: string, w: string)
    ensures var need := Rule(name, Some(VersionConstraint(Eq, v)), None);
            var have := Rule(name, Some(VersionConstraint(Eq, w)), None);
            (SatisfiedBy(need, have) <==> VersionOrder(v, w) == Equal)
              && (SatisfiedBy(need, have) <==> SatisfiedBy(have, need))
  {
    V.OrderReverses(Utf8(v), Utf8(w));
    hide V.Order, Utf8;
  }
}
