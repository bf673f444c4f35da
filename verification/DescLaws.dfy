/** The text of a package's database entry, spelled out. */
module DescLaws {
  import opened Common
  import opened Desc

  /** The values one a line. */
  function OnLines(values: seq<string>): string {
    if values == [] then "" else OnLines(values[..|values| - 1]) + (values[|values| - 1] + "\n")
  }

  /** A field between percent signs, its values and an empty line; nothing if the first value is empty or missing. */
  function Block(field: string, values: seq<string>): string {
    if values == [] || values[0] == "" then "" else "%" + field + "%" + "\n" + OnLines(values) + "\n"
  }

  function Blocks(entries: Entries): string {
    if entries == [] then ""
    else Blocks(entries[..|entries| - 1]) + Block(entries[|entries| - 1].0, entries[|entries| - 1].1)
  }

  lemma {:induction false} JoinsAre(lines: seq<string>)
    ensures JoinLines(lines) == OnLines(lines)
  {
    if lines != [] {
      JoinsAre(lines[..|lines| - 1]);
      assert JoinLines(lines[..|lines| - 1]) + lines[|lines| - 1] + "\n"
        == JoinLines(lines[..|lines| - 1]) + (lines[|lines| - 1] + "\n");
    }
  }

  lemma BlockIs(field: string, values: seq<string>)
    ensures JoinLines(EntryLines(field, values)) == Block(field, values)
  {
    if Printed(values) {
      var head := [Header(field)];
      assert head[..0] == [] && JoinLines(head) == "" + Header(field) + "\n";
      assert JoinLines(head) == "%" + field + "%" + "\n";
      JoinsAre(values);
      hide JoinLines, Header, OnLines;
      JoinAppends(head, values);
      JoinAppends(head + values, [""]);
      LastLine();
    }
  }

  lemma LastLine()
    ensures JoinLines([""]) == "\n"
  {
    assert [""][..0] == [];
  }

  lemma {:induction false} BlocksAre(entries: Entries)
    ensures JoinLines(DescLines(entries)) == Blocks(entries)
  {
    hide JoinLines, EntryLines, Block;
    if entries == [] {
      JoinNothing();
    } else {
      var n := |entries| - 1;
      BlocksAre(entries[..n]);
      JoinAppends(DescLines(entries[..n]), EntryLines(entries[n].0, entries[n].1));
      BlockIs(entries[n].0, entries[n].1);
    }
  }

  /** Every field under its own name, in this order. */
  function EntriesSpelled(m: Manifest): Entries {
    [("FILENAME", [m.filename]), ("NAME", [m.name]), ("BASE", [m.base]), ("VERSION", [m.version]),
     ("DESC", if m.description.Some? then [m.description.value] else []), ("GROUPS", m.groups),
     ("CSIZE", [NumberText(m.sizeDownload)]), ("ISIZE", [NumberText(m.sizeInstalled)]), ("SHA256SUM", [m.sha256]),
     ("URL", if m.url.Some? then [m.url.value] else []), ("LICENSE", m.licenses), ("ARCH", [m.arch]),
     ("BUILDDATE", [NumberText(m.buildDate)]), ("PACKAGER", [m.packager]), ("REPLACES", m.replaced),
     ("CONFLICTS", m.conflicting), ("PROVIDES", m.provided), ("DEPENDS", m.depends), ("OPTDEPENDS", m.optdepends),
     ("MAKEDEPENDS", m.makedepends), ("CHECKDEPENDS", m.checkdepends)]
  }

  lemma NamedAt(m: Manifest, i: nat)
    requires i < 21
    ensures |FIELDS| == |ValuesIn(m)| == |EntriesOf(m)| == |EntriesSpelled(m)| == 21
    ensures EntriesOf(m)[i] == (FIELDS[i], ValuesIn(m)[i])
  {
    hide NumberText;
  }

  lemma SameNames(m: Manifest, i: nat)
    requires i < 21
    ensures |FIELDS| == |EntriesSpelled(m)| == 21 && FIELDS[i] == EntriesSpelled(m)[i].0
  {
    hide NumberText;
  }

  lemma SameValues(m: Manifest, i: nat)
    requires i < 21
    ensures |ValuesIn(m)| == |EntriesSpelled(m)| == 21 && ValuesIn(m)[i] == EntriesSpelled(m)[i].1
  {
    hide NumberText;
  }

  lemma SpelledAt(m: Manifest, i: nat)
    requires i < 21
    ensures |EntriesOf(m)| == |EntriesSpelled(m)| == 21 && EntriesOf(m)[i] == EntriesSpelled(m)[i]
  {
    hide *;
    NamedAt(m, i);
    SameNames(m, i);
    SameValues(m, i);
  }

  /** The text of a package's entry. */
  lemma TextIs(m: Manifest)
    ensures Rendered(m) == Blocks(EntriesSpelled(m))
  {
    hide EntriesOf, EntriesSpelled, Blocks, DescLines, JoinLines;
    SameEntries(m);
    BlocksAre(EntriesOf(m));
  }

  lemma SameEntries(m: Manifest)
    ensures EntriesOf(m) == EntriesSpelled(m)
  {
    Lengths(m);
    hide EntriesOf, EntriesSpelled;
    forall i: nat | i < 21 ensures EntriesOf(m)[i] == EntriesSpelled(m)[i] { SpelledAt(m, i); }
  }

  lemma Lengths(m: Manifest)
    ensures |EntriesOf(m)| == |EntriesSpelled(m)| == 21
  {
    hide FIELDS, ValuesIn, NumberText;
  }
}
