/**
 * The `desc` entry of a pacman database: printed in one place
 * (`crates/pkg-repo/src/desc.rs`), read by the sync and by the local-database check.
 */
module Desc {
  import opened Common
  import opened Digits
  import opened Dependency
  import opened Extract
  import Check
  import Sync

  // ---------- text and lines ----------

  function JoinLines(lines: seq<string>): string {
    if lines == [] then "" else JoinLines(lines[..|lines| - 1]) + lines[|lines| - 1] + "\n"
  }

  /** A line without the carriage return it may end in. */
  function Chomp(line: string): string {
    if line != "" && line[|line| - 1] == '\r' then line[..|line| - 1] else line
  }

  /** The lines of a text, as Rust splits them: a return goes with its newline, no empty line follows a final one. */
  function Lines(text: string): seq<string>
    decreases |text|
  {
    match FindChar(text, '\n')
    case Some(i) => [Chomp(text[..i])] + Lines(text[i + 1..])
    case None => if text == "" then [] else [text]
  }

  predicate OneLine(s: string) {
    '\n' !in s && Chomp(s) == s
  }

  function Chomped(lines: seq<string>): seq<string> {
    seq(|lines|, i requires 0 <= i < |lines| => Chomp(lines[i]))
  }

  /** Joined lines without line breaks come apart again, each without the return it ends in. */
  lemma {:induction false} LinesOfJoined(lines: seq<string>, rest: string)
    requires forall l :: l in lines ==> '\n' !in l
    ensures Lines(JoinLines(lines) + rest) == Chomped(lines) + Lines(rest)
  {
    hide *;
    if lines == [] {
      NothingJoined(rest);
    } else {
      var front, last := lines[..|lines| - 1], lines[|lines| - 1];
      JoinStep(lines, rest);
      LinesOfJoined(front, last + "\n" + rest);
      FirstLine(last, rest);
      ChompedStep(lines, Lines(rest));
    }
  }

  lemma ChompedStep(lines: seq<string>, rest: seq<string>)
    requires lines != []
    ensures Chomped(lines[..|lines| - 1]) + ([Chomp(lines[|lines| - 1])] + rest) == Chomped(lines) + rest
  {
    hide Chomp;
  }

  lemma WholeLines(lines: seq<string>)
    requires forall l :: l in lines ==> OneLine(l)
    ensures Chomped(lines) == lines && forall l :: l in lines ==> '\n' !in l
  {
    forall i | 0 <= i < |lines| ensures Chomped(lines)[i] == lines[i] {
      assert lines[i] in lines;
    }
  }

  lemma NothingJoined(rest: string)
    ensures JoinLines([]) + rest == rest && Chomped([]) + Lines(rest) == Lines(rest)
  {
    assert Chomped([]) == [];
  }

  lemma JoinStep(lines: seq<string>, rest: string)
    requires lines != []
    ensures JoinLines(lines) + rest == JoinLines(lines[..|lines| - 1]) + (lines[|lines| - 1] + "\n" + rest)
  {
    Regroup(JoinLines(lines[..|lines| - 1]), lines[|lines| - 1], "\n", rest);
  }

  lemma Regroup<T>(a: seq<T>, b: seq<T>, c: seq<T>, d: seq<T>)
    ensures a + b + c + d == a + (b + c + d)
  {}

  lemma FirstLine(line: string, rest: string)
    requires '\n' !in line
    ensures Lines(line + "\n" + rest) == [Chomp(line)] + Lines(rest)
  {
    var text := line + "\n" + rest;
    assert text[|line|] == '\n' && forall k :: 0 <= k < |line| ==> text[k] == line[k];
    var i := FindChar(text, '\n');
    assert i == Some(|line|);
    assert text[..|line|] == line && text[|line| + 1..] == rest;
  }

  // ---------- fields ----------

  /** The field a line opens: `%FIELD%`. */
  function FieldOf(line: string): Option<string> {
    if |line| >= 2 && line[0] == '%' && line[|line| - 1] == '%' then Some(line[1..|line| - 1]) else None
  }

  /** The field open after some lines; an empty line closes it. */
  function Current(lines: seq<string>): Option<string> {
    if lines == [] then None
    else
      var last := lines[|lines| - 1];
      if FieldOf(last).Some? then FieldOf(last)
      else if last == "" then None
      else Current(lines[..|lines| - 1])
  }

  /** All values read under a field. */
  function ValuesOf(lines: seq<string>, field: string): seq<string> {
    if lines == [] then []
    else
      var front, last := lines[..|lines| - 1], lines[|lines| - 1];
      if FieldOf(last).None? && last != "" && Current(front) == Some(field) then ValuesOf(front, field) + [last]
      else ValuesOf(front, field)
  }

  lemma OneMoreLine(lines: seq<string>, line: string, field: string)
    ensures Current(lines + [line]) == if FieldOf(line).Some? then FieldOf(line) else if line == "" then None
      else Current(lines)
    ensures ValuesOf(lines + [line], field) == ValuesOf(lines, field)
      + if FieldOf(line).None? && line != "" && Current(lines) == Some(field) then [line] else []
  {
    assert (lines + [line])[..|lines|] == lines;
  }

  // ---------- entries ----------

  /** An entry is left out when it has no first value, or an empty one. */
  predicate Printed(values: seq<string>) { values != [] && values[0] != "" }

  function Header(field: string): string { "%" + field + "%" }

  function EntryLines(field: string, values: seq<string>): seq<string> {
    if Printed(values) then [Header(field)] + values + [""] else []
  }

  /** A value that reads as one value: not empty, one line, not a header. */
  predicate Plain(v: string) {
    v != "" && OneLine(v) && FieldOf(v).None?
  }

  predicate AllPlain(values: seq<string>) {
    forall v :: v in values ==> Plain(v)
  }

  lemma HeaderIsHeader(field: string)
    ensures FieldOf(Header(field)) == Some(field) && Header(field) != ""
    ensures OneLine(field) && '\n' !in field ==> OneLine(Header(field))
  {
    assert Header(field)[1..|Header(field)| - 1] == field;
  }

  lemma {:induction false} ValuesRead(before: seq<string>, values: seq<string>, field: string, f: string)
    requires AllPlain(values) && Current(before) == Some(field)
    ensures Current(before + values) == Some(field)
    ensures ValuesOf(before + values, f) == ValuesOf(before, f) + if f == field then values else []
  {
    if values == [] {
      assert before + values == before;
    } else {
      var front, last := values[..|values| - 1], values[|values| - 1];
      ValuesRead(before, front, field, f);
      OneMoreLine(before + front, last, f);
      assert values == front + [last] && before + values == before + front + [last];
      assert Plain(last);
      hide Current, ValuesOf, Plain;
    }
  }

  /** A printed entry of plain values adds them to its own field, and closes it. */
  lemma EntryRead(before: seq<string>, field: string, values: seq<string>, f: string)
    requires Printed(values) ==> AllPlain(values)
    requires Current(before) == None
    ensures Current(before + EntryLines(field, values)) == None
    ensures ValuesOf(before + EntryLines(field, values), f) == ValuesOf(before, f) + if f == field
      && Printed(values) then values else []
  {
    hide *;
    EntryLinesAre(before, field, values);
    if Printed(values) {
      var within := before + [Header(field)];
      HeaderIsHeader(field);
      OneMoreLine(before, Header(field), f);
      ValuesRead(within, values, field, f);
      EmptyLine();
      OneMoreLine(within + values, "", f);
    }
  }

  lemma EmptyLine()
    ensures FieldOf("") == None
  {}

  lemma EntryLinesAre(before: seq<string>, field: string, values: seq<string>)
    ensures before + EntryLines(field, values) == if Printed(values) then before + [Header(field)] + values + [""]
      else before
  {
    hide Header, Printed;
  }

  /** Entries in order. */
  type Entries = seq<(string, seq<string>)>

  function DescLines(entries: Entries): seq<string> {
    if entries == [] then []
    else DescLines(entries[..|entries| - 1]) + EntryLines(entries[|entries| - 1].0, entries[|entries| - 1].1)
  }

  /** What is written for a field. */
  function Written(entries: Entries, field: string): seq<string> {
    if entries == [] then []
    else
      var last := entries[|entries| - 1];
      Written(entries[..|entries| - 1], field) + if last.0 == field && Printed(last.1) then last.1 else []
  }

  predicate Readable(entries: Entries) {
    forall e :: e in entries ==> OneLine(e.0) && (Printed(e.1) ==> AllPlain(e.1))
  }

  /** Reading the lines of readable entries gives back what was written, for every field. */
  lemma {:induction false} EntriesRead(entries: Entries, f: string)
    requires Readable(entries)
    ensures Current(DescLines(entries)) == None && ValuesOf(DescLines(entries), f) == Written(entries, f)
  {
    if entries != [] {
      var front, last := entries[..|entries| - 1], entries[|entries| - 1];
      assert last in entries;
      assert Readable(front);
      EntriesRead(front, f);
      EntryRead(DescLines(front), last.0, last.1, f);
      hide EntryLines, Current, ValuesOf, AllPlain;
    }
  }

  lemma {:induction false} LinesAreWhole(entries: Entries)
    requires Readable(entries)
    ensures forall l :: l in DescLines(entries) ==> OneLine(l)
  {
    if entries != [] {
      var front, last := entries[..|entries| - 1], entries[|entries| - 1];
      assert last in entries;
      assert Readable(front);
      LinesAreWhole(front);
      HeaderIsHeader(last.0);
      forall l | l in EntryLines(last.0, last.1) ensures OneLine(l) {
        if l in last.1 { assert Plain(l); }
      }
      hide EntryLines;
    }
  }

  /** Lines hold no line break. */
  lemma {:induction false} LinesHoldNoBreak(text: string)
    ensures forall l :: l in Lines(text) ==> '\n' !in l
    decreases |text|
  {
    match FindChar(text, '\n')
    case Some(i) => LinesHoldNoBreak(text[i + 1..]);
    case None =>
  }

  /** Whatever the lines, what is read is one of them, not empty and not a header. */
  lemma {:induction false} ValuesAreLines(lines: seq<string>, field: string)
    ensures forall v :: v in ValuesOf(lines, field) ==> v in lines && v != "" && FieldOf(v).None?
  {
    if lines != [] { ValuesAreLines(lines[..|lines| - 1], field); }
  }

  lemma PlainReadsBack(field: string, values: seq<string>)
    requires OneLine(field) && Printed(values) && AllPlain(values)
    ensures ValuesOf(Lines(JoinLines(EntryLines(field, values))), field) == values
  {
    hide *;
    var lines := EntryLines(field, values);
    NothingRead(field);
    EntryRead([], field, values, field);
    EntryIsWhole(field, values);
    WholeLines(lines);
    LinesOfJoined(lines, "");
    NoLines();
    assert JoinLines(lines) + "" == JoinLines(lines) && lines + [] == lines;
    assert [] + lines == lines && [] + values == values;
  }

  lemma NothingRead(field: string)
    ensures Current([]) == None && ValuesOf([], field) == []
  {}

  lemma EntryIsWhole(field: string, values: seq<string>)
    requires OneLine(field) && AllPlain(values)
    ensures forall l :: l in EntryLines(field, values) ==> OneLine(l)
  {
    HeaderIsHeader(field);
    assert forall v :: v in values ==> Plain(v);
    hide FieldOf, Header;
  }

  /** An entry reads back as it was written exactly when its values are plain. */
  lemma EntryReadsBack(field: string, values: seq<string>)
    requires '\n' !in field && '\r' !in field && Printed(values)
    ensures ValuesOf(Lines(JoinLines(EntryLines(field, values))), field) == values <==> AllPlain(values)
  {
    FieldIsLine(field);
    hide *;
    var text := JoinLines(EntryLines(field, values));
    if AllPlain(values) {
      PlainReadsBack(field, values);
    } else if ValuesOf(Lines(text), field) == values {
      LinesHoldNoBreak(text);
      ValuesAreLines(Lines(text), field);
      EntryLinesOf(field, values);
      AtMostRead(field, Chomped(values));
      AllArePlain(values, Chomped(values));
    }
  }

  lemma FieldIsLine(field: string)
    requires '\n' !in field && '\r' !in field
    ensures OneLine(field)
  {}

  /** The lines of an entry whose values hold no line break. */
  lemma EntryLinesOf(field: string, values: seq<string>)
    requires OneLine(field) && Printed(values) && forall v :: v in values ==> '\n' !in v
    ensures |Chomped(values)| == |values|
    ensures ValuesOf(Lines(JoinLines(EntryLines(field, values))), field)
      == ValuesOf([Header(field)] + Chomped(values), field)
  {
    var lines := EntryLines(field, values);
    HeaderIsHeader(field);
    assert Chomped(lines) == [Header(field)] + Chomped(values) + [""];
    LinesOfJoined(lines, "");
    OneMoreLine([Header(field)] + Chomped(values), "", field);
    assert Lines("") == [];
    hide *;
    assert JoinLines(lines) + "" == JoinLines(lines) && Chomped(lines) + [] == Chomped(lines);
    EmptyLine();
    NothingMore(ValuesOf([Header(field)] + Chomped(values), field));
  }

  lemma NothingMore(s: seq<string>)
    ensures s + [] == s
  {}

  /** Under a header at most the lines that follow are read, and if as many, exactly they. */
  lemma {:induction false} AtMostRead(field: string, lines: seq<string>)
    ensures var read := ValuesOf([Header(field)] + lines, field);
            |read| <= |lines| && (|read| == |lines| ==> read == lines)
  {
    if lines == [] {
      HeaderIsHeader(field);
      assert [Header(field)] + lines == [] + [Header(field)];
      OneMoreLine([], Header(field), field);
    } else {
      var front, last := lines[..|lines| - 1], lines[|lines| - 1];
      assert [Header(field)] + lines == [Header(field)] + front + [last] && lines == front + [last];
      AtMostRead(field, front);
      OneMoreLine([Header(field)] + front, last, field);
      hide ValuesOf, Current, Header, FieldOf;
    }
  }

  lemma AllArePlain(values: seq<string>, chomped: seq<string>)
    requires chomped == Chomped(values) && chomped == values
    requires forall v :: v in values ==> '\n' !in v && v != "" && FieldOf(v).None?
    ensures AllPlain(values)
  {
    hide FieldOf;
    forall v | v in values ensures Chomp(v) == v {
      var i :| 0 <= i < |values| && values[i] == v;
      assert chomped[i] == Chomp(values[i]);
    }
  }

  // ---------- numbers ----------

  function Text(codes: seq<byte>): string
    requires AllDigits(codes)
  {
    seq(|codes|, i requires 0 <= i < |codes| => codes[i] as char)
  }

  function NumberText(n: nat): string { Text(Decimal(n)) }

  const U64_LIMIT := 0x1_0000_0000_0000_0000

  /** Reading an unsigned 64-bit number: an optional plus sign, then digits. */
  function ParseU64(s: string): Option<nat> {
    var digits := Codes(if s != "" && s[0] == '+' then s[1..] else s);
    if digits != [] && AllDigits(digits) && DigitsValue(digits) < U64_LIMIT then Some(DigitsValue(digits)) else None
  }

  lemma NumberReadsBack(n: nat)
    requires n < 0x1_0000_0000_0000_0000
    ensures ParseU64(NumberText(n)) == Some(n) && Plain(NumberText(n))
  {
    var d := Decimal(n);
    var s := NumberText(n);
    forall i | 0 <= i < |d| ensures s[i] as int == d[i] && IsDigit(d[i]) {}
    assert Codes(s) == d;
    hide Decimal, DigitsValue;
    assert s[0] as int == d[0] && s[|s| - 1] as int == d[|d| - 1];
  }

  // ---------- the manifest ----------

  datatype Manifest = Manifest(
    filename: string, name: string, base: string, version: string, description: Option<string>, groups: seq<string>,
    sizeDownload: nat, sizeInstalled: nat, sha256: string, url: Option<string>, licenses: seq<string>, arch: string,
    buildDate: nat, packager: string, replaced: seq<string>, conflicting: seq<string>, provided: seq<string>,
    depends: seq<string>, optdepends: seq<string>, makedepends: seq<string>, checkdepends: seq<string>)

  function AsSlice(o: Option<string>): seq<string> { if o.Some? then [o.value] else [] }

  const FIELDS: seq<string> := [
    "FILENAME", "NAME", "BASE", "VERSION", "DESC", "GROUPS", "CSIZE", "ISIZE", "SHA256SUM", "URL", "LICENSE", "ARCH",
    "BUILDDATE", "PACKAGER", "REPLACES", "CONFLICTS", "PROVIDES", "DEPENDS", "OPTDEPENDS", "MAKEDEPENDS",
      "CHECKDEPENDS"]

  function ValuesIn(m: Manifest): seq<seq<string>> {
    [[m.filename], [m.name], [m.base], [m.version], AsSlice(m.description), m.groups, [NumberText(m.sizeDownload)],
     [NumberText(m.sizeInstalled)], [m.sha256], AsSlice(m.url), m.licenses, [m.arch], [NumberText(m.buildDate)],
       [m.packager],
     m.replaced, m.conflicting, m.provided, m.depends, m.optdepends, m.makedepends, m.checkdepends]
  }

  function EntriesOf(m: Manifest): Entries {
    seq(21, i requires 0 <= i < 21 => (FIELDS[i], ValuesIn(m)[i]))
  }

  function Rendered(m: Manifest): string { JoinLines(DescLines(EntriesOf(m))) }

  /** The text of an entry, value by value. */
  method Entry(out: string, field: string, values: seq<string>) returns (out': string)
    ensures out' == out + JoinLines(EntryLines(field, values))
  {
    if values == [] || values[0] == "" {
      assert out + JoinLines(EntryLines(field, values)) == out;
      return out;
    }
    out' := out + "%" + field + "%" + "\n";
    JoinOne(out, [], Header(field));
    assert out' == out + JoinLines([Header(field)]) by {
      assert "%" + field + "%" + "\n" == Header(field) + "\n";
      assert JoinLines([Header(field)]) == "" + Header(field) + "\n";
    }
    hide JoinLines, Header;
    for i := 0 to |values|
      invariant out' == out + JoinLines([Header(field)] + values[..i])
    {
      JoinOne(out, [Header(field)] + values[..i], values[i]);
      assert [Header(field)] + values[..i] + [values[i]] == [Header(field)] + values[..i + 1];
      out' := out' + (values[i] + "\n");
    }
    JoinOne(out, [Header(field)] + values, "");
    assert values[..|values|] == values;
    assert [Header(field)] + values + [""] == EntryLines(field, values);
    out' := out' + ("" + "\n");
  }

  lemma JoinOne(out: string, lines: seq<string>, line: string)
    ensures out + JoinLines(lines + [line]) == out + JoinLines(lines) + (line + "\n")
  {
    assert (lines + [line])[..|lines|] == lines;
  }

  /** The entries of a package, in their order. */
  method RenderDesc(m: Manifest) returns (out: string)
    ensures out == Rendered(m)
  {
    var entries := EntriesOf(m);
    hide EntriesOf, JoinLines, EntryLines;
    out := "";
    JoinNothing();
    for i := 0 to |entries|
      invariant out == JoinLines(DescLines(entries[..i]))
    {
      assert entries[..i + 1][..i] == entries[..i];
      JoinAppends(DescLines(entries[..i]), EntryLines(entries[i].0, entries[i].1));
      out := Entry(out, entries[i].0, entries[i].1);
    }
    assert entries[..|entries|] == entries;
  }

  lemma JoinNothing()
    ensures JoinLines(DescLines([])) == ""
  {}

  lemma {:induction false} JoinAppends(a: seq<string>, b: seq<string>)
    ensures JoinLines(a + b) == JoinLines(a) + JoinLines(b)
  {
    if b == [] {
      assert a + b == a;
    } else {
      var front, last := b[..|b| - 1], b[|b| - 1];
      assert a + b == a + front + [last] && b == front + [last];
      hide *;
      JoinAppends(a, front);
      JoinOne("", a + front, last);
      JoinOne("", front, last);
      Regroup(JoinLines(a), JoinLines(front), last + "\n", "");
      Plainly(a + front, last);
      Plainly(front, last);
    }
  }

  lemma Plainly(lines: seq<string>, last: string)
    ensures "" + JoinLines(lines + [last]) == JoinLines(lines + [last])
    ensures "" + JoinLines(lines) + (last + "\n") == JoinLines(lines) + (last + "\n")
    ensures JoinLines(lines) + (last + "\n") + "" == JoinLines(lines) + (last + "\n")
  {}

  // ---------- the two readers ----------

  function First(values: seq<string>): Option<string> { if values == [] then None else Some(values[0]) }

  /** What the sync reads of an entry. */
  function SyncEntry(lines: seq<string>): Option<Sync.Upstream> {
    var name, version, filename :=
      First(ValuesOf(lines, "NAME")), First(ValuesOf(lines, "VERSION")), First(ValuesOf(lines, "FILENAME"));
    var sha, csize := First(ValuesOf(lines, "SHA256SUM")), First(ValuesOf(lines, "CSIZE"));
    if name.None? || version.None? || filename.None? || sha.None? || csize.None? then None
    else match ParseU64(csize.value)
      case Some(size) => Some(Sync.Upstream(name.value, version.value, filename.value, sha.value, size))
      case None => None
  }

  /** `get_or_insert`: the first value stays. */
  function OrInsert(o: Option<string>, v: string): Option<string> { if o.Some? then o else Some(v) }

  /** The fields the sync collects, line by line; later values of a field are passed over. */
  method ParseSyncDesc(text: string) returns (r: Option<Sync.Upstream>)
    ensures r == SyncEntry(Lines(text))
  {
    var lines := Lines(text);
    var field := "";
    var name: Option<string>, version: Option<string>, filename: Option<string> := None, None, None;
    var sha: Option<string>, csize: Option<string> := None, None;
    assert Firsts(lines[..0], field, name, version, filename, sha, csize);
    hide Lines, Firsts;
    for i := 0 to |lines|
      invariant Firsts(lines[..i], field, name, version, filename, sha, csize)
    {
      var line := lines[i];
      FirstsStep(lines, i, field, name, version, filename, sha, csize);
      hide FieldOf;
      if FieldOf(line).Some? {
        field := FieldOf(line).value;
      } else if line == "" {
        field := "";
      } else if field == "NAME" {
        name := OrInsert(name, line);
      } else if field == "VERSION" {
        version := OrInsert(version, line);
      } else if field == "FILENAME" {
        filename := OrInsert(filename, line);
      } else if field == "SHA256SUM" {
        sha := OrInsert(sha, line);
      } else if field == "CSIZE" {
        csize := OrInsert(csize, line);
      }
    }
    assert lines[..|lines|] == lines;
    FirstsAre(lines, field, name, version, filename, sha, csize);
    hide ValuesOf, ParseU64;
    if name.None? || version.None? || filename.None? || sha.None? || csize.None? {
      return None;
    }
    var size := ParseU64(csize.value);
    r := if size.None? then None
      else Some(Sync.Upstream(name.value, version.value, filename.value, sha.value, size.value));
  }

  /** The open field and the first values read so far. */
  ghost predicate Firsts(lines: seq<string>, field: string, name: Option<string>, version: Option<string>,
      filename: Option<string>, sha: Option<string>, csize: Option<string>) {
    && field == (if Current(lines).Some? then Current(lines).value else "")
    && name == First(ValuesOf(lines, "NAME")) && version == First(ValuesOf(lines, "VERSION"))
    && filename == First(ValuesOf(lines, "FILENAME")) && sha == First(ValuesOf(lines, "SHA256SUM"))
    && csize == First(ValuesOf(lines, "CSIZE"))
  }

  lemma FirstsAre(lines: seq<string>, field: string, name: Option<string>, version: Option<string>,
      filename: Option<string>, sha: Option<string>, csize: Option<string>)
    requires Firsts(lines, field, name, version, filename, sha, csize)
    ensures name == First(ValuesOf(lines, "NAME")) && version == First(ValuesOf(lines, "VERSION"))
    ensures filename == First(ValuesOf(lines, "FILENAME")) && sha == First(ValuesOf(lines, "SHA256SUM"))
    ensures csize == First(ValuesOf(lines, "CSIZE"))
  {}

  lemma FirstsStep(lines: seq<string>, i: nat, field: string, name: Option<string>, version: Option<string>,
      filename: Option<string>, sha: Option<string>, csize: Option<string>)
    requires i < |lines| && Firsts(lines[..i], field, name, version, filename, sha, csize)
    ensures var line := lines[i];
            var value := FieldOf(line).None? && line != "";
            Firsts(lines[..i + 1], if FieldOf(line).Some? then FieldOf(line).value else if line == "" then ""
              else field,
                   if value && field == "NAME" then OrInsert(name, line) else name,
                   if value && field == "VERSION" then OrInsert(version, line) else version,
                   if value && field == "FILENAME" then OrInsert(filename, line) else filename,
                   if value && field == "SHA256SUM" then OrInsert(sha, line) else sha,
                   if value && field == "CSIZE" then OrInsert(csize, line) else csize)
  {
    FirstStep(lines, i, "NAME");
    FirstStep(lines, i, "VERSION");
    FirstStep(lines, i, "FILENAME");
    FirstStep(lines, i, "SHA256SUM");
    FirstStep(lines, i, "CSIZE");
    OneMoreLine(lines[..i], lines[i], "");
    assert lines[..i + 1] == lines[..i] + [lines[i]];
    hide ValuesOf, Current, FieldOf, First;
  }

  lemma FirstStep(lines: seq<string>, i: nat, f: string)
    requires i < |lines|
    ensures var front, line := lines[..i], lines[i];
            First(ValuesOf(lines[..i + 1], f)) ==
              if FieldOf(line).None? && line != ""
                && Current(front) == Some(f) then OrInsert(First(ValuesOf(front, f)), line)
              else First(ValuesOf(front, f))
  {
    OneMoreLine(lines[..i], lines[i], f);
    assert lines[..i + 1] == lines[..i] + [lines[i]];
    hide ValuesOf, Current, FieldOf;
  }

  /** What the check reads of an entry of the local database. */
  function LocalEntry(lines: seq<string>): Option<Check.LocalPackage> {
    if ValuesOf(lines, "NAME") == [] || ValuesOf(lines, "VERSION") == [] then None
    else Some(Check.LocalPackage(ValuesOf(lines, "NAME")[0], ValuesOf(lines, "VERSION")[0],
                                 ParsedOf(ValuesOf(lines, "PROVIDES")), ParsedOf(ValuesOf(lines, "DEPENDS"))))
  }

  function Under(fields: map<string, seq<string>>, f: string): seq<string> { if f in fields then fields[f] else [] }

  method ParseLocalDesc(text: string) returns (r: Option<Check.LocalPackage>)
    ensures r == LocalEntry(Lines(text))
  {
    hide *;
    var lines := Lines(text);
    var fields: map<string, seq<string>> := map[];
    var current: Option<string> := None;
    NothingGathered();
    for i := 0 to |lines|
      invariant Gathered(lines[..i], current, fields)
    {
      var line := lines[i];
      assert lines[..i + 1] == lines[..i] + [line];
      GatherOne(lines[..i], current, fields, line);
      if FieldOf(line).Some? {
        current := FieldOf(line);
        if current.value !in fields {
          fields := fields[current.value := []];
        }
      } else if line == "" {
        current := None;
      } else if current.Some? {
        fields := fields[current.value := fields[current.value] + [line]];
      }
    }
    assert lines[..|lines|] == lines;
    LocalOf(lines, current, fields);
    if Under(fields, "NAME") == [] || Under(fields, "VERSION") == [] {
      return None;
    }
    r := Some(Check.LocalPackage(Under(fields, "NAME")[0], Under(fields, "VERSION")[0],
      ParsedOf(Under(fields, "PROVIDES")), ParsedOf(Under(fields, "DEPENDS"))));
  }

  /** The open field, and all values read so far. */
  ghost predicate Gathered(lines: seq<string>, current: Option<string>, fields: map<string, seq<string>>) {
    && current == Current(lines) && (current.Some? ==> current.value in fields)
    && forall f :: Under(fields, f) == ValuesOf(lines, f)
  }

  lemma NothingGathered()
    ensures forall lines: seq<string> :: Gathered(lines[..0], None, map[])
  {}

  lemma GatherOne(lines: seq<string>, current: Option<string>, fields: map<string, seq<string>>, line: string)
    requires Gathered(lines, current, fields)
    ensures current.Some? ==> current.value in fields
    ensures if FieldOf(line).Some? then
              var f := FieldOf(line).value;
              Gathered(lines + [line], Some(f), if f in fields then fields else fields[f := []])
            else if line == "" then Gathered(lines + [line], None, fields)
            else Gathered(lines + [line], current,
                          if current.Some? then fields[current.value := fields[current.value] + [line]] else fields)
  {
    hide *;
    GatheredIs(lines, current, fields);
    var lines' := lines + [line];
    forall g ensures ValuesOf(lines', g) ==
      if FieldOf(line).None? && line != "" && current == Some(g) then Under(fields, g) + [line] else Under(fields, g)
    {
      GatherAt(lines, current, fields, line, g);
    }
    OneMoreLine(lines, line, "");
    if FieldOf(line).Some? {
      var f := FieldOf(line).value;
      var fields' := if f in fields then fields else fields[f := []];
      forall g ensures Under(fields', g) == ValuesOf(lines', g) { UnderOpened(fields, f, g); }
      IsGathered(lines', Some(f), fields');
    } else if line != "" && current.Some? {
      var fields' := fields[current.value := fields[current.value] + [line]];
      forall g ensures Under(fields', g) == ValuesOf(lines', g) { UnderGrown(fields, current.value, line, g); }
      IsGathered(lines', current, fields');
    } else {
      IsGathered(lines', if line == "" then None else current, fields);
    }
  }

  lemma GatheredIs(lines: seq<string>, current: Option<string>, fields: map<string, seq<string>>)
    requires Gathered(lines, current, fields)
    ensures current == Current(lines) && (current.Some? ==> current.value in fields)
  {
    hide Current, ValuesOf, Under;
  }

  lemma IsGathered(lines: seq<string>, current: Option<string>, fields: map<string, seq<string>>)
    requires current == Current(lines) && (current.Some? ==> current.value in fields)
    requires forall f :: Under(fields, f) == ValuesOf(lines, f)
    ensures Gathered(lines, current, fields)
  {
    hide Current, ValuesOf, Under;
  }

  lemma UnderOpened(fields: map<string, seq<string>>, f: string, g: string)
    ensures Under(if f in fields then fields else fields[f := []], g) == Under(fields, g)
  {}

  lemma UnderGrown(fields: map<string, seq<string>>, f: string, line: string, g: string)
    requires f in fields
    ensures Under(fields[f := fields[f] + [line]], g) == if g == f then Under(fields, g) + [line] else Under(fields, g)
  {}

  /** One more line adds at most itself, under the open field. */
  lemma GatherAt(lines: seq<string>, current: Option<string>, fields: map<string, seq<string>>, line: string, g: string)
    requires Gathered(lines, current, fields)
    ensures ValuesOf(lines + [line], g) ==
      if FieldOf(line).None? && line != "" && current == Some(g) then Under(fields, g) + [line] else Under(fields, g)
  {
    OneMoreLine(lines, line, g);
    assert Under(fields, g) == ValuesOf(lines, g);
    hide ValuesOf, FieldOf, Under;
  }

  lemma LocalOf(lines: seq<string>, current: Option<string>, fields: map<string, seq<string>>)
    requires Gathered(lines, current, fields)
    ensures LocalEntry(lines) ==
      if Under(fields, "NAME") == [] || Under(fields, "VERSION") == [] then None
      else Some(Check.LocalPackage(Under(fields, "NAME")[0], Under(fields, "VERSION")[0],
                                   ParsedOf(Under(fields, "PROVIDES")), ParsedOf(Under(fields, "DEPENDS"))))
  {
    hide ValuesOf, Current, ParsedOf;
    assert forall f :: Under(fields, f) == ValuesOf(lines, f);
    hide Under;
    assert ValuesOf(lines, "NAME") == Under(fields, "NAME") && ValuesOf(lines, "VERSION") == Under(fields, "VERSION");
    assert ValuesOf(lines, "PROVIDES") == Under(fields, "PROVIDES")
      && ValuesOf(lines, "DEPENDS") == Under(fields, "DEPENDS");
  }

  // ---------- the round trips ----------

  lemma {:induction false} WrittenElsewhere(entries: Entries, f: string)
    requires forall j :: 0 <= j < |entries| ==> entries[j].0 != f
    ensures Written(entries, f) == []
  {
    if entries != [] { WrittenElsewhere(entries[..|entries| - 1], f); }
  }

  lemma {:induction false} WrittenOnce(entries: Entries, i: nat, f: string)
    requires i < |entries| && entries[i].0 == f && forall j :: 0 <= j < |entries| && j != i ==> entries[j].0 != f
    ensures Written(entries, f) == if Printed(entries[i].1) then entries[i].1 else []
  {
    var n := |entries| - 1;
    if i == n { WrittenElsewhere(entries[..n], f); } else { WrittenOnce(entries[..n], i, f); }
  }

  /** A length and two letters tell the field names apart. */
  lemma FieldsDiffer(i: nat, j: nat)
    requires i < 21 && j < 21 && i != j
    ensures FIELDS[i] != FIELDS[j]
  {
    assert |FIELDS[i]| == |FIELDS[j]| && FIELDS[i][0] == FIELDS[j][0] ==> FIELDS[i][1] != FIELDS[j][1];
  }

  /** What a package's entry holds for its `i`-th field. */
  lemma WrittenAt(m: Manifest, i: nat)
    requires i < 21
    ensures Written(EntriesOf(m), FIELDS[i]) == if Printed(ValuesIn(m)[i]) then ValuesIn(m)[i] else []
  {
    forall j | 0 <= j < 21 && j != i ensures EntriesOf(m)[j].0 != FIELDS[i] {
      FieldsDiffer(j, i);
    }
    WrittenOnce(EntriesOf(m), i, FIELDS[i]);
  }

  /** The printed values of the package are single lines that read as values. */
  predicate Printable(m: Manifest) {
    forall i :: 0 <= i < 21 && Printed(ValuesIn(m)[i]) ==> AllPlain(ValuesIn(m)[i])
  }

  lemma FieldsAreLines(i: nat)
    requires i < 21
    ensures OneLine(FIELDS[i])
  {}

  /** Reading any field of a printable package's entry. */
  lemma FieldReads(m: Manifest, i: nat)
    requires Printable(m) && i < 21
    ensures ValuesOf(Lines(Rendered(m)), FIELDS[i]) == if Printed(ValuesIn(m)[i]) then ValuesIn(m)[i] else []
  {
    var entries := EntriesOf(m);
    forall e | e in entries ensures OneLine(e.0) && (Printed(e.1) ==> AllPlain(e.1)) {
      var k :| 0 <= k < 21 && entries[k] == e;
      FieldsAreLines(k);
    }
    assert Readable(entries);
    WrittenAt(m, i);
    EntriesRead(entries, FIELDS[i]);
    LinesAreWhole(entries);
    WholeLines(DescLines(entries));
    LinesOfJoined(DescLines(entries), "");
    RenderedIs(m);
    hide *;
    assert JoinLines(DescLines(entries)) + "" == JoinLines(DescLines(entries))
      && DescLines(entries) + [] == DescLines(entries);
    NoLines();
  }

  lemma NoLines()
    ensures Lines("") == []
  {}

  lemma RenderedIs(m: Manifest)
    ensures Rendered(m) == JoinLines(DescLines(EntriesOf(m)))
  {}

  /** Printing a package and reading it back in a sync gives its name, version, filename, sha and download size. */
  lemma SyncRoundTrip(m: Manifest)
    requires Printable(m) && m.name != "" && m.version != "" && m.filename != "" && m.sha256 != ""
      && m.sizeDownload < 0x1_0000_0000_0000_0000
    ensures SyncEntry(Lines(Rendered(m)))
      == Some(Sync.Upstream(m.name, m.version, m.filename, m.sha256, m.sizeDownload))
  {
    hide *;
    var lines := Lines(Rendered(m));
    SingleFields(m);
    SingleReads(m, 0, "FILENAME", m.filename);
    SingleReads(m, 1, "NAME", m.name);
    SingleReads(m, 3, "VERSION", m.version);
    NumberReadsBack(m.sizeDownload);
    PlainIsPrinted(NumberText(m.sizeDownload));
    SingleReads(m, 6, "CSIZE", NumberText(m.sizeDownload));
    SingleReads(m, 8, "SHA256SUM", m.sha256);
    SyncEntryIs(lines, m.name, m.version, m.filename, m.sha256, NumberText(m.sizeDownload));
  }

  lemma PlainIsPrinted(v: string)
    requires Plain(v)
    ensures v != ""
  {}

  lemma SyncEntryIs(lines: seq<string>, name: string, version: string, filename: string, sha: string, csize: string)
    requires ValuesOf(lines, "NAME") == [name] && ValuesOf(lines, "VERSION") == [version]
      && ValuesOf(lines, "FILENAME") == [filename]
    requires ValuesOf(lines, "SHA256SUM") == [sha] && ValuesOf(lines, "CSIZE") == [csize]
    ensures SyncEntry(lines) == match ParseU64(csize)
                                case Some(size) => Some(Sync.Upstream(name, version, filename, sha, size))
                                case None => None
  {
    hide ValuesOf, ParseU64;
  }

  /** Reading a field that always holds one value. */
  lemma SingleReads(m: Manifest, i: nat, f: string, v: string)
    requires Printable(m) && i < 21 && v != ""
    requires FIELDS[i] == f && |ValuesIn(m)| == 21 && ValuesIn(m)[i] == [v]
    ensures ValuesOf(Lines(Rendered(m)), f) == [v]
  {
    FieldReads(m, i);
    hide Lines, Rendered, ValuesOf, NumberText, Printable, ValuesIn;
  }

  lemma SingleFields(m: Manifest)
    ensures |FIELDS| == 21 && |ValuesIn(m)| == 21
    ensures FIELDS[0] == "FILENAME" && FIELDS[1] == "NAME" && FIELDS[3] == "VERSION" && FIELDS[6] == "CSIZE"
      && FIELDS[8] == "SHA256SUM"
    ensures ValuesIn(m)[0] == [m.filename] && ValuesIn(m)[1] == [m.name] && ValuesIn(m)[3] == [m.version]
    ensures ValuesIn(m)[6] == [NumberText(m.sizeDownload)] && ValuesIn(m)[8] == [m.sha256]
  {
    hide NumberText;
  }

  /** Read back from the local database, a package keeps its rules, unless a list starts with an empty one. */
  lemma LocalRoundTrip(m: Manifest)
    requires Printable(m) && m.name != "" && m.version != ""
    ensures LocalEntry(Lines(Rendered(m))) ==
      Some(Check.LocalPackage(m.name, m.version, ParsedOf(if Printed(m.provided) then m.provided else []),
                              ParsedOf(if Printed(m.depends) then m.depends else [])))
  {
    hide Lines, Rendered, ValuesOf, ParsedOf, Printable, AllPlain, NumberText;
    SingleFields(m);
    SingleReads(m, 1, "NAME", m.name);
    SingleReads(m, 3, "VERSION", m.version);
    FieldReads(m, 16);
    FieldReads(m, 17);
    assert FIELDS[16] == "PROVIDES" && FIELDS[17] == "DEPENDS" && ValuesIn(m)[16] == m.provided
      && ValuesIn(m)[17] == m.depends;
    hide *;
    LocalEntryIs(Lines(Rendered(m)), m.name, m.version, if Printed(m.provided) then m.provided
      else [], if Printed(m.depends) then m.depends else []);
  }

  lemma LocalEntryIs(lines: seq<string>, name: string, version: string, provided: seq<string>, depends: seq<string>)
    requires ValuesOf(lines, "NAME") == [name] && ValuesOf(lines, "VERSION") == [version]
    requires ValuesOf(lines, "PROVIDES") == provided && ValuesOf(lines, "DEPENDS") == depends
    ensures LocalEntry(lines) == Some(Check.LocalPackage(name, version, ParsedOf(provided), ParsedOf(depends)))
  {
    hide ValuesOf, ParsedOf;
  }

  /** Rules printed by the same program survive the database: each is read as the rule it was printed from. */
  lemma {:induction false} RulesSurvive(rules: seq<Rule>)
    requires forall r :: r in rules ==> Dependency.Readable(r)
    ensures ParsedOf(Printings(rules)) == rules
  {
    if rules != [] {
      hide *;
      var front, last := rules[..|rules| - 1], rules[|rules| - 1];
      assert rules == front + [last];
      RulesSurvive(front);
      ReadableRoundTrip(last);
      OneMorePrinting(front, last);
    }
  }

  lemma OneMorePrinting(rules: seq<Rule>, r: Rule)
    requires Parse(Print(r)) == Ok(r)
    ensures ParsedOf(Printings(rules + [r])) == ParsedOf(Printings(rules)) + [r]
  {
    hide Parse, Print;
    var texts := Printings(rules + [r]);
    assert texts == Printings(rules) + [Print(r)];
    assert texts[..|texts| - 1] == Printings(rules);
  }

  function Printings(rules: seq<Rule>): seq<string> {
    seq(|rules|, i requires 0 <= i < |rules| => Print(rules[i]))
  }
}
