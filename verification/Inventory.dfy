/** The inventory of a replacement pair: parsing, merging and printing its sections. */
module Inventory {
  import opened Wrappers

  /** One section, in the order of the file. */
  datatype Section = Section(name: string, rows: seq<string>)

  // ---------------------------------------------------------------- text

  /** Characters at which a line ends. */
  predicate Break(c: char) {
    c == '\n' || c == '\r' || c == 0x0B as char || c == 0x0C as char || (0x1C as char <= c <= 0x1E as char)
    || c == 0x85 as char || c == 0x2028 as char || c == 0x2029 as char
  }

  /** Characters stripped from the ends of a line. */
  predicate Space(c: char) {
    Break(c) || c == ' ' || c == '\t' || c == 0x1F as char || c == 0xA0 as char || c == 0x1680 as char
    || (0x2000 as char <= c <= 0x200A as char) || c == 0x202F as char || c == 0x205F as char || c == 0x3000 as char
  }

  /** The lines of a text; a two-character line end or a final one only adds an empty line. */
  function Lines(text: string): (lines: seq<string>)
    ensures |lines| > 0
  {
    if text == "" then [""]
    else
      var rest := Lines(text[1..]);
      if Break(text[0]) then [""] + rest else [[text[0]] + rest[0]] + rest[1..]
  }

  function StripLeft(line: string): string {
    if line != "" && Space(line[0]) then StripLeft(line[1..]) else line
  }

  function StripRight(line: string): string {
    if line != "" && Space(line[|line| - 1]) then StripRight(line[..|line| - 1]) else line
  }

  function Strip(line: string): string {
    StripRight(StripLeft(line))
  }

  // ---------------------------------------------------------------- parsing

  predicate Ignored(line: string) {
    line == "" || line[0] == '#' || line[0] == ';'
  }

  predicate Header(line: string) {
    |line| >= 2 && line[0] == '[' && line[|line| - 1] == ']'
  }

  predicate Has(sections: seq<Section>, name: string) {
    exists i :: 0 <= i < |sections| && sections[i].name == name
  }

  function WithRow(sections: seq<Section>, row: string): seq<Section>
    requires sections != []
  {
    var last := |sections| - 1;
    sections[last := sections[last].(rows := sections[last].rows + [row])]
  }

  /** One line: a comment, a header, or a row of the current section. */
  function Line(sections: seq<Section>, raw: string): Option<seq<Section>> {
    var line := Strip(raw);
    if Ignored(line) then Some(sections)
    else if Header(line) then
      var name := line[1..|line| - 1];
      if Has(sections, name) then None else Some(sections + [Section(name, [])])
    else if sections == [] then None
    else Some(WithRow(sections, line))
  }

  function ParsedFrom(sections: seq<Section>, lines: seq<string>): Option<seq<Section>>
    decreases |lines|
  {
    if lines == [] then Some(sections)
    else
      match Line(sections, lines[0])
      case None => None
      case Some(next) => ParsedFrom(next, lines[1..])
  }

  function Parsed(text: string): Option<seq<Section>> {
    ParsedFrom([], Lines(text))
  }

  method Sections(text: string) returns (r: Option<seq<Section>>)
    ensures r == Parsed(text)
  {
    hide Line, Lines;
    var lines := Lines(text);
    var sections := [];
    assert lines[0..] == lines;
    for i := 0 to |lines|
      invariant ParsedFrom(sections, lines[i..]) == Parsed(text)
    {
      assert lines[i..][1..] == lines[i + 1..];
      var next := Line(sections, lines[i]);
      if next.None? {
        return None;
      }
      sections := next.value;
    }
    r := Some(sections);
  }

  // ---------------------------------------------------------------- what parsing yields

  predicate Unbroken(text: string) {
    forall i | 0 <= i < |text| :: !Break(text[i])
  }

  predicate Stripped(text: string) {
    text != "" ==> !Space(text[0]) && !Space(text[|text| - 1])
  }

  predicate CleanRow(row: string) {
    Unbroken(row) && Stripped(row) && !Ignored(row) && !Header(row)
  }

  predicate CleanSection(section: Section) {
    Unbroken(section.name) && forall i | 0 <= i < |section.rows| :: CleanRow(section.rows[i])
  }

  predicate DistinctSections(sections: seq<Section>) {
    forall i, j | 0 <= i < j < |sections| :: sections[i].name != sections[j].name
  }

  predicate WellFormed(sections: seq<Section>) {
    DistinctSections(sections) && forall i | 0 <= i < |sections| :: CleanSection(sections[i])
  }

  lemma {:induction false} StripLeftClean(line: string)
    requires Unbroken(line)
    ensures Unbroken(StripLeft(line)) && (StripLeft(line) != "" ==> !Space(StripLeft(line)[0]))
  {
    hide Break, Space;
    if line != "" && Space(line[0]) {
      StripLeftClean(line[1..]);
    }
  }

  lemma {:induction false} StripRightClean(line: string)
    requires Unbroken(line) && (line != "" ==> !Space(line[0]))
    ensures Unbroken(StripRight(line)) && Stripped(StripRight(line))
  {
    hide Break, Space;
    if line != "" && Space(line[|line| - 1]) {
      StripRightClean(line[..|line| - 1]);
    }
  }

  lemma {:induction false} StripOfStripped(line: string)
    requires Stripped(line)
    ensures Strip(line) == line
  {
    hide Space;
  }

  lemma {:induction false} LinesUnbroken(text: string)
    ensures forall i | 0 <= i < |Lines(text)| :: Unbroken(Lines(text)[i])
  {
    hide Break;
    if text != "" {
      LinesUnbroken(text[1..]);
    }
  }

  lemma {:induction false} LineClean(sections: seq<Section>, raw: string)
    requires WellFormed(sections) && Unbroken(raw) && Line(sections, raw).Some?
    ensures WellFormed(Line(sections, raw).value)
  {
    hide Break, Space, Strip;
    assert Unbroken(Strip(raw)) && Stripped(Strip(raw)) by {
      StripOf(raw);
    }
    var line, after := Strip(raw), Line(sections, raw).value;
    hide Unbroken, Stripped;
    if !Ignored(line) {
      if Header(line) {
        InnerUnbroken(line);
        HeaderClean(sections, line[1..|line| - 1]);
      } else {
        RowClean(sections, line);
      }
    }
  }

  lemma {:induction false} StripOf(raw: string)
    requires Unbroken(raw)
    ensures Unbroken(Strip(raw)) && Stripped(Strip(raw))
  {
    hide Break, Space, StripLeft, StripRight;
    StripLeftClean(raw);
    StripRightClean(StripLeft(raw));
  }

  lemma {:induction false} InnerUnbroken(line: string)
    requires Unbroken(line) && |line| >= 2
    ensures Unbroken(line[1..|line| - 1])
  {
    hide Break;
  }

  lemma {:induction false} HeaderClean(sections: seq<Section>, name: string)
    requires WellFormed(sections) && Unbroken(name) && !Has(sections, name)
    ensures WellFormed(sections + [Section(name, [])])
  {
    hide CleanRow, Unbroken;
  }

  lemma {:induction false} RowClean(sections: seq<Section>, row: string)
    requires WellFormed(sections) && sections != [] && CleanRow(row)
    ensures WellFormed(WithRow(sections, row))
  {
    hide CleanRow, Unbroken;
    var last, after := |sections| - 1, WithRow(sections, row);
    forall i | 0 <= i < |after| ensures CleanSection(after[i]) && after[i].name == sections[i].name {
      assert CleanSection(sections[i]);
    }
  }

  lemma {:induction false} ParsedFromClean(sections: seq<Section>, lines: seq<string>)
    requires WellFormed(sections) && ParsedFrom(sections, lines).Some?
    requires forall i | 0 <= i < |lines| :: Unbroken(lines[i])
    ensures WellFormed(ParsedFrom(sections, lines).value)
    decreases |lines|
  {
    hide WellFormed, Line, Unbroken;
    if lines != [] {
      LineClean(sections, lines[0]);
      ParsedFromClean(Line(sections, lines[0]).value, lines[1..]);
    }
  }

  /** Whatever is parsed is well formed: distinct sections of clean rows. */
  lemma {:induction false} ParsedClean(text: string)
    requires Parsed(text).Some?
    ensures WellFormed(Parsed(text).value)
  {
    hide Lines, Unbroken, ParsedFrom, CleanSection;
    LinesUnbroken(text);
    ParsedFromClean([], Lines(text));
  }

  // ---------------------------------------------------------------- printing

  function Joined(rows: seq<string>): string {
    if rows == [] then "" else if |rows| == 1 then rows[0] else rows[0] + "\n" + Joined(rows[1..])
  }

  function PrintedSection(section: Section): string {
    "[" + section.name + "]\n" + Joined(section.rows) + "\n\n"
  }

  function Printed(sections: seq<Section>): string {
    if sections == [] then "" else PrintedSection(sections[0]) + Printed(sections[1..])
  }

  lemma {:induction false} FirstLine(line: string, rest: string)
    requires Unbroken(line)
    ensures Lines(line + "\n" + rest) == [line] + Lines(rest)
  {
    hide Break;
    var text := line + "\n" + rest;
    if line == "" {
      assert text[1..] == rest;
      assert Break('\n') by { NewlineBreaks(); }
    } else {
      assert text[1..] == line[1..] + "\n" + rest;
      FirstLine(line[1..], rest);
      assert text[0] == line[0] && !Break(line[0]);
      assert ([line[1..]] + Lines(rest))[1..] == Lines(rest);
      assert [line[0]] + line[1..] == line;
    }
  }

  lemma {:induction false} NewlineBreaks()
    ensures Break('\n') && Space('\n')
  {
  }

  lemma {:induction false} EmptyLine(sections: seq<Section>, rest: string)
    ensures ParsedFrom(sections, Lines("\n" + rest)) == ParsedFrom(sections, Lines(rest))
  {
    hide Break, Space, Lines;
    FirstLine("", rest);
    assert "" + "\n" + rest == "\n" + rest;
    StripOfStripped("");
    assert ([""] + Lines(rest))[1..] == Lines(rest);
  }

  /** The sections with more rows in the last one. */
  function WithRows(sections: seq<Section>, rows: seq<string>): (r: seq<Section>)
    requires sections != []
    ensures |r| == |sections|
  {
    var last := |sections| - 1;
    sections[last := sections[last].(rows := sections[last].rows + rows)]
  }

  lemma {:induction false} RowLine(sections: seq<Section>, row: string, rest: string)
    requires sections != [] && CleanRow(row)
    ensures ParsedFrom(sections, Lines(row + "\n" + rest)) == ParsedFrom(WithRow(sections, row), Lines(rest))
  {
    hide Break, Space, Lines, Strip;
    FirstLine(row, rest);
    StripOfStripped(row);
    assert ([row] + Lines(rest))[1..] == Lines(rest);
  }

  lemma {:induction false} RowLines(sections: seq<Section>, rows: seq<string>, rest: string)
    requires sections != [] && forall i | 0 <= i < |rows| :: CleanRow(rows[i])
    ensures ParsedFrom(sections, Lines(Joined(rows) + "\n" + rest)) == ParsedFrom(WithRows(sections, rows), Lines(rest))
    decreases |rows|
  {
    hide CleanRow, Lines, ParsedFrom;
    var last := |sections| - 1;
    if rows == [] {
      EmptyLine(sections, rest);
      assert "" + "\n" + rest == "\n" + rest;
      assert sections[last].rows + [] == sections[last].rows;
      assert WithRows(sections, rows) == sections;
    } else if |rows| == 1 {
      RowLine(sections, rows[0], rest);
      assert rows == [rows[0]];
    } else {
      var next := WithRow(sections, rows[0]);
      RowLine(sections, rows[0], Joined(rows[1..]) + "\n" + rest);
      assert Joined(rows) + "\n" + rest == rows[0] + "\n" + (Joined(rows[1..]) + "\n" + rest);
      RowLines(next, rows[1..], rest);
      assert sections[last].rows + [rows[0]] + rows[1..] == sections[last].rows + rows by {
        assert [rows[0]] + rows[1..] == rows;
      }
      assert WithRows(next, rows[1..]) == WithRows(sections, rows);
    }
  }

  lemma {:induction false} HeaderLine(sections: seq<Section>, name: string, rest: string)
    requires Unbroken(name) && !Has(sections, name)
    ensures ParsedFrom(sections, Lines("[" + name + "]" + "\n" + rest)) == ParsedFrom(sections + [Section(name, [])], Lines(rest))
  {
    hide Lines, Strip, StripLeft, StripRight;
    var line := "[" + name + "]";
    assert Unbroken(line);
    FirstLine(line, rest);
    StripOfStripped(line);
    assert line[1..|line| - 1] == name;
    assert ([line] + Lines(rest))[1..] == Lines(rest);
  }

  lemma {:induction false} SectionLines(sections: seq<Section>, section: Section, rest: string)
    requires CleanSection(section) && !Has(sections, section.name)
    ensures ParsedFrom(sections, Lines(PrintedSection(section) + rest)) == ParsedFrom(sections + [section], Lines(rest))
  {
    hide Lines, ParsedFrom, CleanRow, Unbroken, Has;
    var body := Joined(section.rows) + "\n" + ("\n" + rest);
    assert PrintedSection(section) + rest == "[" + section.name + "]" + "\n" + body;
    HeaderLine(sections, section.name, body);
    var started := sections + [Section(section.name, [])];
    RowLines(started, section.rows, "\n" + rest);
    assert [] + section.rows == section.rows;
    assert WithRows(started, section.rows) == sections + [section];
    EmptyLine(sections + [section], rest);
  }

  lemma {:induction false} PrintedLines(before: seq<Section>, sections: seq<Section>)
    requires WellFormed(before + sections)
    ensures ParsedFrom(before, Lines(Printed(sections))) == Some(before + sections)
    decreases |sections|
  {
    hide Lines, CleanSection, ParsedFrom;
    if sections == [] {
      NothingLeft(before);
      assert before + [] == before;
    } else {
      var all := before + sections;
      assert all[|before|] == sections[0];
      forall i | 0 <= i < |before| ensures before[i].name != sections[0].name {
        assert all[i] == before[i];
      }
      SectionLines(before, sections[0], Printed(sections[1..]));
      assert before + [sections[0]] + sections[1..] == before + sections;
      PrintedLines(before + [sections[0]], sections[1..]);
    }
  }

  lemma {:induction false} NothingLeft(sections: seq<Section>)
    ensures ParsedFrom(sections, Lines("")) == Some(sections)
  {
    StripOfStripped("");
    assert [""][1..] == [];
  }

  /** Parsing what was printed gives back every well-formed inventory. */
  lemma {:induction false} PrintThenParse(sections: seq<Section>)
    requires WellFormed(sections)
    ensures Parsed(Printed(sections)) == Some(sections)
  {
    hide Lines, ParsedFrom, WellFormed;
    assert [] + sections == sections;
    PrintedLines([], sections);
  }

  // ---------------------------------------------------------------- merging

  predicate Variables(name: string) {
    |name| >= 5 && name[|name| - 5..] == ":vars"
  }

  predicate Supported(name: string) {
    name == "vpn" || (|name| >= 4 && name[..4] == "vpn-")
  }

  /** The rows of a section, none when it is missing. */
  function RowsOf(sections: seq<Section>, name: string): seq<string> {
    if sections == [] then []
    else if sections[|sections| - 1].name == name then sections[|sections| - 1].rows
    else RowsOf(sections[..|sections| - 1], name)
  }

  /** `first` is the first shell word of a row, if it has one. */
  predicate AllNamed(rows: seq<string>, first: string -> Option<string>) {
    forall i | 0 <= i < |rows| :: first(rows[i]).Some?
  }

  predicate AllAmong(rows: seq<string>, pair: set<string>, first: string -> Option<string>) {
    forall i | 0 <= i < |rows| :: first(rows[i]).Some? && first(rows[i]).value in pair
  }

  predicate Names(rows: seq<string>, pair: set<string>, first: string -> Option<string>) {
    AllAmong(rows, pair, first) && forall name | name in pair :: exists i :: 0 <= i < |rows| && first(rows[i]) == Some(name)
  }

  /** The rows of hosts outside the pair, in order. */
  function Retained(rows: seq<string>, pair: set<string>, first: string -> Option<string>): seq<string> {
    if rows == [] then []
    else
      var last := rows[|rows| - 1];
      Retained(rows[..|rows| - 1], pair, first) + if first(last).Some? && first(last).value in pair then [] else [last]
  }

  /** Sections of the original in its order, then those only the rendering has. */
  function Order(original: seq<Section>, rendered: seq<Section>): seq<string> {
    if rendered == [] then seq(|original|, i requires 0 <= i < |original| => original[i].name)
    else
      var name := rendered[|rendered| - 1].name;
      var before := Order(original, rendered[..|rendered| - 1]);
      if Has(original, name) then before else before + [name]
  }

  /** The two inventories agree on every variable section. */
  predicate SameVariables(original: seq<Section>, rendered: seq<Section>) {
    && (forall i | 0 <= i < |original| && Variables(original[i].name) ::
          RowsOf(original, original[i].name) == RowsOf(rendered, original[i].name))
    && (forall i | 0 <= i < |rendered| && Variables(rendered[i].name) ::
          RowsOf(original, rendered[i].name) == RowsOf(rendered, rendered[i].name))
  }

  /** One section merged onto the result, or a refusal. */
  function MergeSection(original: seq<Section>, rendered: seq<Section>, pair: set<string>, first: string -> Option<string>,
                        result: seq<Section>, name: string): Option<seq<Section>>
  {
    if Variables(name) then
      if Has(original, name) then Some(result + [Section(name, RowsOf(original, name))]) else None
    else if !Supported(name) || !AllNamed(RowsOf(original, name), first) || !AllAmong(RowsOf(rendered, name), pair, first) then None
    else
      var rows := Retained(RowsOf(original, name), pair, first) + RowsOf(rendered, name);
      Some(if rows == [] then result else result + [Section(name, rows)])
  }

  function MergedOver(original: seq<Section>, rendered: seq<Section>, pair: set<string>, first: string -> Option<string>,
                      names: seq<string>): Option<seq<Section>>
  {
    if names == [] then Some([])
    else
      match MergedOver(original, rendered, pair, first, names[..|names| - 1])
      case None => None
      case Some(result) => MergeSection(original, rendered, pair, first, result, names[|names| - 1])
  }

  function Merged(original: seq<Section>, rendered: seq<Section>, pair: set<string>, first: string -> Option<string>)
    : Option<seq<Section>>
  {
    if !Names(RowsOf(rendered, "vpn"), pair, first) || !SameVariables(original, rendered) then None
    else MergedOver(original, rendered, pair, first, Order(original, rendered))
  }

  lemma {:induction false} MergeRefused(
    original: seq<Section>, rendered: seq<Section>, pair: set<string>, first: string -> Option<string>, names: seq<string>, i: nat)
    requires i <= |names| && MergedOver(original, rendered, pair, first, names[..i]).None?
    ensures MergedOver(original, rendered, pair, first, names).None?
    decreases |names| - i
  {
    hide MergeSection;
    if i == |names| {
      assert names[..i] == names;
    } else {
      assert names[..i + 1][..i] == names[..i];
      MergeRefused(original, rendered, pair, first, names, i + 1);
    }
  }

  /** The text written in place of the inventory, or a refusal. */
  method Merge(original: seq<Section>, rendered: seq<Section>, pair: set<string>, first: string -> Option<string>)
    returns (text: Option<string>)
    ensures text.Some? <==> Merged(original, rendered, pair, first).Some?
    ensures text.Some? ==> text.value == Printed(Merged(original, rendered, pair, first).value)
  {
    hide Names, SameVariables, MergeSection, Order, Printed;
    if !Names(RowsOf(rendered, "vpn"), pair, first) || !SameVariables(original, rendered) {
      return None;
    }
    var names := Order(original, rendered);
    var result := [];
    for i := 0 to |names|
      invariant MergedOver(original, rendered, pair, first, names[..i]) == Some(result)
    {
      assert names[..i + 1][..i] == names[..i];
      var next := MergeSection(original, rendered, pair, first, result, names[i]);
      if next.None? {
        MergeRefused(original, rendered, pair, first, names, i + 1);
        return None;
      }
      result := next.value;
    }
    assert names[..|names|] == names;
    text := Some(Printed(result));
  }
}
