/** Dependency rules in plain terms: what a rule's text asks for, and what satisfies it. */
module DependencyLaws {
  import opened Common
  import opened Dependency

  /** White space: tabs, line ends and blanks, the Unicode ones included. */
  predicate White(c: char) {
    var u := c as int;
    || u in {9, 10, 11, 12, 13, 32, 133, 160, 5760, 8232, 8233, 8239, 8287, 12288}
    || u in {8192, 8193, 8194, 8195, 8196, 8197, 8198, 8199, 8200, 8201, 8202}
  }

  /** A name or a version: not empty, without operators, brackets or white space at its ends. */
  predicate Plain(s: string) {
    && s != "" && !White(s[0]) && !White(s[|s| - 1])
    && forall i :: 0 <= i < |s| ==> s[i] != '<' && s[i] != '=' && s[i] != '>' && s[i] != '('
  }

  predicate Blank(s: string) { forall i :: 0 <= i < |s| ==> White(s[i]) }

  lemma WhiteIs(c: char)
    ensures IsWhite(c) <==> White(c)
  {}

  lemma PlainIsTrimmed(s: string)
    requires s != "" && !White(s[0]) && !White(s[|s| - 1])
    ensures Trimmed(s)
  {
    WhiteIs(s[0]);
    WhiteIs(s[|s| - 1]);
    hide IsWhite, White;
  }

  lemma {:induction false} StartSkips(before: string, s: string)
    requires Blank(before)
    ensures TrimStart(before + s) == TrimStart(s)
  {
    hide IsWhite, White;
    if before == "" {
      assert before + s == s;
    } else {
      WhiteIs(before[0]);
      StartSkips(before[1..], s);
      assert (before + s)[0] == before[0] && (before + s)[1..] == before[1..] + s;
    }
  }

  lemma {:induction false} EndSkips(s: string, after: string)
    requires Blank(after)
    ensures TrimEnd(s + after) == TrimEnd(s)
  {
    hide IsWhite, White;
    if after == "" {
      assert s + after == s;
    } else {
      var n := |after| - 1;
      WhiteIs(after[n]);
      EndSkips(s, after[..n]);
      assert (s + after)[|s| + n] == after[n] && (s + after)[..|s| + n] == s + after[..n];
    }
  }

  lemma {:induction false} StartKeeps(s: string, after: string)
    requires Blank(after)
    ensures TrimStart(s + after) == if TrimStart(s) == "" then "" else TrimStart(s) + after
  {
    hide IsWhite, White;
    if s == "" {
      StartSkips(after, "");
      assert s + after == after && after + "" == after;
    } else {
      assert (s + after)[0] == s[0] && (s + after)[1..] == s[1..] + after;
      StartKeeps(s[1..], after);
    }
  }

  lemma TrimSkips(before: string, s: string, after: string)
    requires Blank(before) && Blank(after)
    ensures Trim(before + s + after) == Trim(s)
  {
    assert before + s + after == before + (s + after);
    StartSkips(before, s + after);
    StartKeeps(s, after);
    EndSkips(TrimStart(s), after);
    hide Blank, TrimStart, TrimEnd;
  }

  lemma SameTrimmed(a: string, b: string)
    requires Trim(a) == Trim(b)
    ensures Parse(a) == Parse(b)
  {
    hide Trim, WithSymbol, FindChar, FindLastChar;
  }

  /** White space around a rule is not part of it. */
  lemma WhiteAround(before: string, s: string, after: string)
    requires Blank(before) && Blank(after)
    ensures Parse(before + s + after) == Parse(s)
  {
    hide *;
    TrimSkips(before, s, after);
    SameTrimmed(before + s + after, s);
  }

  // ---------- reading ----------

  /** Where an operator's characters stand in `name`, operator, `version`. */
  lemma Around(n: string, op: string, v: string, k: nat)
    requires Plain(n) && Plain(v) && k < |n + op + v|
    ensures var head := n + op + v;
            if |n| <= k < |n| + |op| then head[k] == op[k - |n|]
            else head[k] != '<' && head[k] != '=' && head[k] != '>' && head[k] != '('
  {
    var head := n + op + v;
    assert head[k] == if k < |n| then n[k] else if k < |n| + |op| then op[k - |n|] else v[k - |n| - |op|];
  }

  lemma FoundAt(s: string, token: string, i: nat)
    requires TokenAt(s, token, i) && forall k: nat :: k < i ==> !TokenAt(s, token, k)
    ensures Find(s, token, 0) == Some(i)
  {
    var f := Find(s, token, 0);
    assert f.Some? ==> TokenAt(s, token, f.value);
  }

  lemma NotFound(s: string, token: string)
    requires forall k: nat :: !TokenAt(s, token, k)
    ensures Find(s, token, 0) == None
  {}

  lemma CharAt(s: string, token: string, k: nat, j: nat)
    requires TokenAt(s, token, k) && j < |token|
    ensures k + j < |s| && s[k + j] == token[j]
  {
    assert s[k..k + |token|][j] == s[k + j];
  }

  predicate Operators(token: string) { token != "" && forall j :: 0 <= j < |token| ==> token[j] in "<=>" }

  /** Outside the operator there is none of its characters. */
  lemma OnlyThere(n: string, op: string, v: string, token: string, k: nat)
    requires Plain(n) && Plain(v) && Operators(token) && TokenAt(n + op + v, token, k)
    ensures |n| <= k && TokenAt(op, token, k - |n|)
  {
    var last := |token| - 1;
    CharAt(n + op + v, token, k, 0);
    Around(n, op, v, k);
    CharAt(n + op + v, token, k, last);
    Around(n, op, v, k + last);
    assert token[0] in "<=>" && token[last] in "<=>";
    assert (n + op + v)[k..k + |token|] == op[k - |n|..k - |n| + |token|];
  }

  lemma OperatorThere(n: string, op: string, v: string)
    requires Plain(n) && Plain(v)
    ensures TokenAt(n + op + v, op, |n|) && (n + op + v)[..|n|] == n && (n + op + v)[|n| + |op|..] == v
  {
    assert (n + op + v)[|n|..|n| + |op|] == op;
  }

  lemma NoToken(n: string, op: string, v: string, token: string)
    requires Plain(n) && Plain(v) && Operators(token) && |op| <= |token| && op != token
    ensures Find(n + op + v, token, 0) == None
  {
    hide Plain, Operators;
    forall k: nat ensures !TokenAt(n + op + v, token, k) {
      if TokenAt(n + op + v, token, k) {
        OnlyThere(n, op, v, token, k);
      }
    }
    NotFound(n + op + v, token);
  }

  lemma FoundOperator(n: string, op: string, v: string)
    requires Plain(n) && Plain(v) && Operators(op)
    ensures Find(n + op + v, op, 0) == Some(|n|)
  {
    OperatorThere(n, op, v);
    forall k: nat | k < |n| ensures !TokenAt(n + op + v, op, k) {
      if TokenAt(n + op + v, op, k) { OnlyThere(n, op, v, op, k); }
    }
    FoundAt(n + op + v, op, |n|);
  }

  lemma Tokens()
    ensures Ge.Token() == ">=" && Le.Token() == "<=" && Eq.Token() == "=" && Gt.Token() == ">" && Lt.Token() == "<"
    ensures OPS[0] == Ge && OPS[1..][0] == Le && OPS[1..][1..][0] == Eq
    ensures OPS[1..][1..][1..][0] == Gt && OPS[1..][1..][1..][1..][0] == Lt && |OPS| == 5
  {}

  lemma AreOperators()
    ensures Operators(">=") && Operators("<=") && Operators("=") && Operators(">") && Operators("<")
    ensures ">=" != "<=" && ">" != "=" && "<" != "=" && ">" != "<"
  {
    assert ">="[0] != "<="[0] && ">"[0] != "="[0] && "<"[0] != "="[0] && ">"[0] != "<"[0];
  }

  lemma PassOver(head: string, ops: seq<VersionOp>)
    requires ops != [] && Find(head, ops[0].Token(), 0) == None
    ensures ParseHead(head, ops) == ParseHead(head, ops[1..])
  {}

  lemma StopAt(head: string, ops: seq<VersionOp>, i: nat)
    requires ops != [] && Find(head, ops[0].Token(), 0) == Some(i) && i + |ops[0].Token()| <= |head|
    requires head[..i] != "" && head[i + |ops[0].Token()|..] != ""
    ensures ParseHead(head, ops) == Ok((head[..i], Some(VersionConstraint(ops[0], head[i + |ops[0].Token()|..]))))
  {}

  lemma HeadIs(n: string, v: string, op: VersionOp)
    requires Plain(n) && Plain(v)
    ensures var text := match op case Ge => ">=" case Le => "<=" case Eq => "=" case Gt => ">" case Lt => "<";
            ParseHead(n + text + v, OPS) == Ok((n, Some(VersionConstraint(op, v))))
  {
    Tokens();
    AreOperators();
    var text := match op case Ge => ">=" case Le => "<=" case Eq => "=" case Gt => ">" case Lt => "<";
    var head := n + text + v;
    OperatorThere(n, text, v);
    FoundOperator(n, text, v);
    hide Plain, ParseHead, Find, TokenAt, Operators;
    if op == Ge {
      StopAt(head, OPS, |n|);
    } else {
      NoToken(n, text, v, ">=");
      PassOver(head, OPS);
      if op == Le {
        StopAt(head, OPS[1..], |n|);
      } else {
        NoToken(n, text, v, "<=");
        PassOver(head, OPS[1..]);
        if op == Eq {
          StopAt(head, OPS[1..][1..], |n|);
        } else {
          NoToken(n, text, v, "=");
          PassOver(head, OPS[1..][1..]);
          if op == Gt {
            StopAt(head, OPS[1..][1..][1..], |n|);
          } else {
            NoToken(n, text, v, ">");
            PassOver(head, OPS[1..][1..][1..]);
            StopAt(head, OPS[1..][1..][1..][1..], |n|);
          }
        }
      }
    }
  }

  lemma RuleIs(n: string, v: string, op: VersionOp)
    requires Plain(n) && Plain(v)
    ensures var text := match op case Ge => ">=" case Le => "<=" case Eq => "=" case Gt => ">" case Lt => "<";
            Parse(n + text + v) == Ok(Rule(n, Some(VersionConstraint(op, v)), None))
  {
    var text := match op case Ge => ">=" case Le => "<=" case Eq => "=" case Gt => ">" case Lt => "<";
    var s := n + text + v;
    HeadIs(n, v, op);
    forall k | 0 <= k < |s| ensures s[k] != '(' { Around(n, text, v, k); }
    assert s[0] == n[0] && s[|s| - 1] == v[|v| - 1];
    PlainIsTrimmed(s);
    hide ParseHead, IsWhite, White;
    ParsePlain(s);
  }

  /** What each operator of a rule's text is read as. */
  lemma OperatorsRead(n: string, v: string)
    requires Plain(n) && Plain(v)
    ensures Parse(n + ">=" + v) == Ok(Rule(n, Some(VersionConstraint(Ge, v)), None))
    ensures Parse(n + "<=" + v) == Ok(Rule(n, Some(VersionConstraint(Le, v)), None))
    ensures Parse(n + "=" + v) == Ok(Rule(n, Some(VersionConstraint(Eq, v)), None))
    ensures Parse(n + ">" + v) == Ok(Rule(n, Some(VersionConstraint(Gt, v)), None))
    ensures Parse(n + "<" + v) == Ok(Rule(n, Some(VersionConstraint(Lt, v)), None))
  {
    RuleIs(n, v, Ge);
    RuleIs(n, v, Le);
    RuleIs(n, v, Eq);
    RuleIs(n, v, Gt);
    RuleIs(n, v, Lt);
    hide Parse, Plain;
  }

  lemma NoneFound(n: string, token: string)
    requires Plain(n) && Operators(token)
    ensures Find(n, token, 0) == None
  {
    forall k: nat ensures !TokenAt(n, token, k) {
      if TokenAt(n, token, k) {
        CharAt(n, token, k, 0);
      }
    }
    NotFound(n, token);
  }

  /** A bare name asks for any version. */
  lemma NameReads(n: string)
    requires Plain(n)
    ensures Parse(n) == Ok(Rule(n, None, None))
  {
    Tokens();
    AreOperators();
    NoneFound(n, ">=");
    NoneFound(n, "<=");
    NoneFound(n, "=");
    NoneFound(n, ">");
    NoneFound(n, "<");
    hide Find, TokenAt;
    PassOver(n, OPS);
    PassOver(n, OPS[1..]);
    PassOver(n, OPS[1..][1..]);
    PassOver(n, OPS[1..][1..][1..]);
    PassOver(n, OPS[1..][1..][1..][1..]);
    assert OPS[1..][1..][1..][1..][1..] == [];
    ParsePlain(n);
    hide Parse;
  }

  // ---------- satisfying ----------

  /** The text `need` reads as a rule that the capability written `have` satisfies. */
  predicate Accepts(need: string, have: string) {
    Parse(need).Ok? && Parse(have).Ok? && SatisfiedBy(Parse(need).value, Parse(have).value)
  }

  /**
   * Against an exact capability each operator asks for what it says of the provided
   * version; a bare name accepts any, and another name's capability none.
   */
  lemma OperatorsMean(n: string, v: string, x: string, m: string)
    requires Plain(n) && Plain(v) && Plain(x) && Plain(m)
    ensures Accepts(n + ">=" + v, m + "=" + x) <==> n == m && VersionOrder(x, v) != Less
    ensures Accepts(n + "<=" + v, m + "=" + x) <==> n == m && VersionOrder(x, v) != Greater
    ensures Accepts(n + "=" + v, m + "=" + x) <==> n == m && VersionOrder(x, v) == Equal
    ensures Accepts(n + ">" + v, m + "=" + x) <==> n == m && VersionOrder(x, v) == Greater
    ensures Accepts(n + "<" + v, m + "=" + x) <==> n == m && VersionOrder(x, v) == Less
    ensures Accepts(n, m + "=" + x) <==> n == m
  {
    OperatorsRead(n, v);
    OperatorsRead(m, x);
    NameReads(n);
    hide *;
    var have := m + "=" + x;
    ExactMeans(n + ">=" + v, Ge, n, v, have, m, x);
    ExactMeans(n + "<=" + v, Le, n, v, have, m, x);
    ExactMeans(n + "=" + v, Eq, n, v, have, m, x);
    ExactMeans(n + ">" + v, Gt, n, v, have, m, x);
    ExactMeans(n + "<" + v, Lt, n, v, have, m, x);
    BareMeans(n, have, m, x);
  }

  lemma ExactMeans(need: string, op: VersionOp, n: string, v: string, have: string, m: string, x: string)
    requires Parse(need) == Ok(Rule(n, Some(VersionConstraint(op, v)), None))
    requires Parse(have) == Ok(Rule(m, Some(VersionConstraint(Eq, x)), None))
    ensures Accepts(need, have) <==> n == m && match op
      case Ge => VersionOrder(x, v) != Less
      case Le => VersionOrder(x, v) != Greater
      case Eq => VersionOrder(x, v) == Equal
      case Gt => VersionOrder(x, v) == Greater
      case Lt => VersionOrder(x, v) == Less
  {
    hide VersionOrder, Parse;
  }

  lemma BareMeans(need: string, have: string, m: string, x: string)
    requires Parse(need) == Ok(Rule(need, None, None))
    requires Parse(have) == Ok(Rule(m, Some(VersionConstraint(Eq, x)), None))
    ensures Accepts(need, have) <==> need == m
  {
    hide Parse;
  }

  /** A capability without an exact version satisfies a bare name, and no rule that names a version. */
  lemma UnversionedProvides(n: string, v: string, x: string, m: string)
    requires Plain(n) && Plain(v) && Plain(x) && Plain(m)
    ensures Accepts(n, m) <==> n == m
    ensures Accepts(n, m + ">=" + x) <==> n == m
    ensures !Accepts(n + ">=" + v, m) && !Accepts(n + "=" + v, m) && !Accepts(n + "<" + v, m)
    ensures !Accepts(n + ">=" + v, m + ">=" + x) && !Accepts(n + "=" + v, m + ">" + x)
  {
    OperatorsRead(n, v);
    OperatorsRead(m, x);
    NameReads(n);
    NameReads(m);
    hide Parse, Plain, VersionOrder;
  }

  // ---------- symbol versions ----------

  lemma SymbolReads(n: string, sym: string)
    requires Plain(n)
    ensures Parse(n + "(" + sym + ")") == Ok(Rule(n, None, Some(sym)))
  {
    NameReads(n);
    ParsePlain(n);
    ParsePrinted(n, sym);
    hide Parse, ParseHead;
  }

  /** Symbol versions are compared when both sides have one. */
  lemma SymbolsMean(n: string, sym: string, have: string)
    requires Plain(n)
    ensures Accepts(n + "(" + sym + ")", n + "(" + have + ")") <==> sym == have
    ensures Accepts(n + "(" + sym + ")", n) && Accepts(n, n + "(" + have + ")")
  {
    SymbolReads(n, sym);
    SymbolReads(n, have);
    NameReads(n);
    hide Parse, Plain;
  }
}
