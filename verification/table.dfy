/** The report table: a fixed header line and separator line, then one
    pipe-delimited row per service, in service-list order; each row holds the
    service name and its version in each of the four categories, in the fixed
    category order, with "-" for a missing cell. */
module Table {
  import opened Text
  import opened Classifier
  import opened Aggregation

  /** The column order of the report. */
  const CategoryOrder: seq<Category> := [FEService, BEInternalAPI, BEStandardAPI, BEGateway]

  /** The column titles: the service column, then the category labels. */
  const HeaderCells: seq<string> := ["Service", "FE Service", "BE internal-API", "BE Standard API", "BE Gateway"]

  /** One run of dashes per column, as wide as the padded column title. */
  const SeparatorDashes: seq<string> :=
    ["---------", "------------", "-----------------", "-----------------", "------------"]

  /** "| Service | FE Service | BE internal-API | BE Standard API | BE Gateway |" */
  const HeaderLine: string := "| " + Join(HeaderCells, " | ") + " |"

  /** "|---------|------------|-----------------|-----------------|------------|" */
  const SeparatorLine: string := "|" + Join(SeparatorDashes, "|") + "|"

  /** The version of `service` in category `c`, or "-" when there is none. */
  function Cell(cells: Matrix, c: Category, service: string): (v: string)
    requires HasAllCategories(cells)
    ensures service in cells[c] ==> v == cells[c][service]
    ensures service !in cells[c] ==> v == "-"
  {
    if service in cells[c] then cells[c][service] else "-"
  }

  /** The five cells of a service's row: the service, then its cell in each
      category in column order. */
  function RowCells(service: string, cells: Matrix): (row: seq<string>)
    requires HasAllCategories(cells)
    ensures |row| == 5 && row[0] == service
    ensures forall k :: 0 <= k < 4 ==> row[k + 1] == Cell(cells, CategoryOrder[k], service)
  {
    [service] + seq(4, k requires 0 <= k < 4 => Cell(cells, CategoryOrder[k], service))
  }

  /** A row opens and closes with a bar. */
  function RowLine(service: string, cells: Matrix): (line: string)
    requires HasAllCategories(cells)
    ensures |line| >= 4 && line[..2] == "| " && line[|line| - 2..] == " |"
  {
    "| " + Join(RowCells(service, cells), " | ") + " |"
  }

  /** The whole table text of a summary: the header and separator lines, then
      one row line per listed service, each ended by a newline. With no
      service, only the two fixed lines. */
  function Render(s: Summary): (table: string)
    requires HasAllCategories(s.cells)
    ensures var top := HeaderLine + "\n" + SeparatorLine + "\n";
      |table| >= |top| && table[..|top|] == top && (s.services == [] ==> table == top)
  {
    HeaderLine + "\n" + SeparatorLine + "\n" + Terminated(RowLines(s.services, s.cells))
  }

  /** The table-building loop: the header, the separator, then one row per
      service. */
  method BuildTable(services: seq<string>, cells: Matrix) returns (table: string)
    requires HasAllCategories(cells)
    ensures table == Render(Summary(services, cells))
  {
    table := HeaderLine + "\n";
    table := table + SeparatorLine + "\n";
    assert services[..0] == [];
    for i := 0 to |services|
      invariant table == Render(Summary(services[..i], cells))
    {
      var row := BuildRow(services[i], cells);
      var line := "| " + Join(row, " | ") + " |\n";
      RowText(row, services[i], cells);
      RenderStep(services, i, cells);
      table := table + line;
    }
    assert services[..|services|] == services;
  }

  /** The row-building loop: the service, then its cell in each category in
      column order. */
  method BuildRow(service: string, cells: Matrix) returns (row: seq<string>)
    requires HasAllCategories(cells)
    ensures row == RowCells(service, cells)
  {
    row := [service];
    for k := 0 to 4
      invariant |row| == k + 1 && row[0] == service
      invariant forall j :: 0 <= j < k ==> row[j + 1] == Cell(cells, CategoryOrder[j], service)
    {
      row := row + [Cell(cells, CategoryOrder[k], service)];
    }
  }

  lemma RowText(row: seq<string>, service: string, cells: Matrix)
    requires HasAllCategories(cells) && row == RowCells(service, cells)
    ensures "| " + Join(row, " | ") + " |\n" == RowLine(service, cells) + "\n"
  {
  }

  lemma RenderStep(services: seq<string>, i: nat, cells: Matrix)
    requires HasAllCategories(cells) && i < |services|
    ensures Render(Summary(services[..i + 1], cells)) ==
      Render(Summary(services[..i], cells)) + (RowLine(services[i], cells) + "\n")
  {
    var lines := RowLines(services[..i + 1], cells);
    assert lines[..i] == RowLines(services[..i], cells);
    assert lines[i] == RowLine(services[i], cells);
  }

  // ---------------------------------------------------------------------------
  // The shape of the table
  // ---------------------------------------------------------------------------

  /** A text that cannot break a line or a cell. */
  predicate Plain(s: string) {
    '\n' !in s && '|' !in s
  }

  predicate PlainCells(cells: Matrix) {
    forall c, x :: c in cells && x in cells[c] ==> Plain(cells[c][x])
  }

  function RowLines(services: seq<string>, cells: Matrix): seq<string>
    requires HasAllCategories(cells)
  {
    seq(|services|, i requires 0 <= i < |services| => RowLine(services[i], cells))
  }

  /** The pieces between separators, each with the one space either side. */
  function Padded(xs: seq<string>): seq<string> {
    seq(|xs|, k requires 0 <= k < |xs| => " " + xs[k] + " ")
  }

  lemma {:induction false} JoinedFields(xs: seq<string>)
    requires |xs| >= 1
    requires forall i :: 0 <= i < |xs| ==> '|' !in xs[i]
    ensures SplitOn(" " + Join(xs, " | ") + " ", '|') == Padded(xs)
  {
    if |xs| == 1 {
      SplitOnNone(" " + xs[0] + " ", '|');
    } else {
      var first := " " + xs[0] + " ";
      var rest := " " + Join(xs[1..], " | ") + " ";
      assert " " + Join(xs, " | ") + " " == first + ['|'] + rest;
      assert '|' !in first;
      SplitOnNone(first, '|');
      SplitOnAround(first, rest, '|');
      JoinedFields(xs[1..]);
      assert Padded(xs) == [first] + Padded(xs[1..]);
    }
  }

  lemma CellsArePlain(service: string, cells: Matrix)
    requires HasAllCategories(cells) && Plain(service) && PlainCells(cells)
    ensures forall i :: 0 <= i < 5 ==> Plain(RowCells(service, cells)[i])
  {
  }

  /** A text between two separators splits into its own pieces between two
      empty ones. */
  lemma Enclosed(m: string, d: char)
    ensures SplitOn([d] + m + [d], d) == [""] + SplitOn(m, d) + [""]
  {
    var none: string := [];
    SplitOnAround(m, none, d);
    assert m + [d] + none == m + [d];
    assert SplitOn(none, d) == [none];
    SplitOnAround(none, m + [d], d);
    assert none + [d] + (m + [d]) == [d] + m + [d];
  }

  lemma BarredLine(xs: seq<string>)
    ensures SplitOn("| " + Join(xs, " | ") + " |", '|') == [""] + SplitOn(" " + Join(xs, " | ") + " ", '|') + [""]
  {
    var middle := " " + Join(xs, " | ") + " ";
    assert "| " + Join(xs, " | ") + " |" == ['|'] + middle + ['|'];
    Enclosed(middle, '|');
  }

  /** Cells joined into a barred line read back as the padded cells between
      two empty pieces. */
  lemma BarredFields(xs: seq<string>)
    requires |xs| >= 1
    requires forall i :: 0 <= i < |xs| ==> '|' !in xs[i]
    ensures SplitOn("| " + Join(xs, " | ") + " |", '|') == [""] + Padded(xs) + [""]
  {
    BarredLine(xs);
    JoinedFields(xs);
  }

  /** Read back by cutting at '|', a row is an empty piece, the service name,
      the four category cells in column order ("-" where absent), and an
      empty piece: exactly five cells between the outer bars. */
  lemma RowFields(service: string, cells: Matrix)
    requires HasAllCategories(cells) && Plain(service) && PlainCells(cells)
    ensures var f := SplitOn(RowLine(service, cells), '|');
      |f| == 7 && f[0] == "" && f[6] == "" && f[1] == " " + service + " " &&
      forall k :: 0 <= k < 4 ==> f[k + 2] == " " + Cell(cells, CategoryOrder[k], service) + " "
  {
    var row := RowCells(service, cells);
    CellsArePlain(service, cells);
    BarredFields(row);
    var f := SplitOn(RowLine(service, cells), '|');
    assert f == [""] + Padded(row) + [""];
    forall k | 0 <= k < 4 ensures f[k + 2] == " " + Cell(cells, CategoryOrder[k], service) + " " {
      assert f[k + 2] == Padded(row)[k + 1];
    }
  }

  lemma RowLineHasNoNewline(service: string, cells: Matrix)
    requires HasAllCategories(cells) && Plain(service) && PlainCells(cells)
    ensures '\n' !in RowLine(service, cells)
  {
    CellsArePlain(service, cells);
    assert NotInAny(RowCells(service, cells), '\n');
  }

  /** Lines, each ended by a newline. */
  function Terminated(lines: seq<string>): string {
    if lines == [] then "" else Terminated(lines[..|lines| - 1]) + lines[|lines| - 1] + "\n"
  }

  /** Newline-terminated lines followed by a newline-free tail split into the
      lines and the tail. */
  lemma {:induction false} TerminatedSplit(lines: seq<string>, tail: string)
    requires forall i :: 0 <= i < |lines| ==> '\n' !in lines[i]
    requires '\n' !in tail
    ensures SplitOn(Terminated(lines) + tail, '\n') == lines + [tail]
  {
    if lines != [] {
      var n := |lines|;
      var init, line := lines[..n - 1], lines[n - 1];
      assert forall i :: 0 <= i < |init| ==> init[i] == lines[i];
      assert Terminated(lines) + tail == (Terminated(init) + line) + ['\n'] + tail;
      SplitOnAround(Terminated(init) + line, tail, '\n');
      TerminatedSplit(init, line);
      SplitOnNone(tail, '\n');
      assert lines == init + [line];
    } else {
      assert Terminated(lines) + tail == tail;
      SplitOnNone(tail, '\n');
    }
  }

  lemma FixedLinesHaveNoNewline()
    ensures '\n' !in HeaderLine && '\n' !in SeparatorLine
  {
    assert NotInAny(HeaderCells, '\n');
    assert NotInAny(SeparatorDashes, '\n');
  }

  /** Read back by cutting at '|', the header holds the five column titles,
      the category labels in the order the rows use, and the separator's
      dash runs are as wide as the padded titles. */
  lemma HeaderFields()
    ensures SplitOn(HeaderLine, '|') == [""] + Padded(HeaderCells) + [""]
    ensures HeaderCells[0] == "Service"
    ensures forall k :: 0 <= k < 4 ==> HeaderCells[k + 1] == Label(CategoryOrder[k])
    ensures forall k :: 0 <= k < 5 ==> |SeparatorDashes[k]| == |Padded(HeaderCells)[k]|
  {
    BarredFields(HeaderCells);
  }

  /** Cut at newlines, the table is the header line, the separator line,
      exactly one line per listed service in list order, and the empty text
      after the final newline. */
  lemma TableLines(services: seq<string>, cells: Matrix)
    requires HasAllCategories(cells) && PlainCells(cells)
    requires forall i :: 0 <= i < |services| ==> Plain(services[i])
    ensures SplitOn(Render(Summary(services, cells)), '\n') ==
      [HeaderLine, SeparatorLine] + RowLines(services, cells) + [""]
  {
    var lines := RowLines(services, cells);
    forall i | 0 <= i < |services| ensures '\n' !in lines[i] {
      RowLineHasNoNewline(services[i], cells);
    }
    var rows := Terminated(lines);
    TerminatedSplit(lines, "");
    assert rows + "" == rows;
    FixedLinesHaveNoNewline();
    TwoFixedLines(HeaderLine, SeparatorLine, rows);
  }

  lemma TwoFixedLines(first: string, second: string, rest: string)
    requires '\n' !in first && '\n' !in second
    ensures SplitOn(first + "\n" + second + "\n" + rest, '\n') == [first, second] + SplitOn(rest, '\n')
  {
    var tail := second + "\n" + rest;
    assert first + "\n" + second + "\n" + rest == first + "\n" + tail;
    OneFixedLine(first, tail);
    OneFixedLine(second, rest);
  }

  lemma OneFixedLine(line: string, rest: string)
    requires '\n' !in line
    ensures SplitOn(line + "\n" + rest, '\n') == [line] + SplitOn(rest, '\n')
  {
    SplitOnAround(line, rest, '\n');
    SplitOnNone(line, '\n');
  }
}
