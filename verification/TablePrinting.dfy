/** A table written the natural way, and read back by `parse_tables` of
    scripts/coverage_to_xlsx.py. */
module TablePrinting {
  import opened Text
  import opened Cells
  import opened Tables

  /** ` --- | --- ` */
  function Dashes(n: nat): string
    requires n >= 1
  {
    " --- " + (if n == 1 then "" else "|" + Dashes(n - 1))
  }

  function PrintSeparator(n: nat): string
    requires n >= 1
  {
    "|" + (Dashes(n) + "|")
  }

  predicate NoneEmpty(rows: seq<seq<string>>) { forall i :: 0 <= i < |rows| ==> rows[i] != [] }

  function PrintRows(rows: seq<seq<string>>): seq<string>
    requires NoneEmpty(rows)
  {
    seq(|rows|, i requires 0 <= i < |rows| => PrintRow(rows[i]))
  }

  function PrintTable(header: seq<string>, rows: seq<seq<string>>): seq<string>
    requires header != [] && NoneEmpty(rows)
  {
    [PrintRow(header), PrintSeparator(|header|)] + PrintRows(rows)
  }

  // ---- the separator

  lemma DashPiece()
    ensures DashCell(" --- ")
  {
  }

  lemma PipeAt(s: string, rest: string)
    requires '|' !in s
    ensures PipeIndex(s + ("|" + rest)) == |s|
  {
    if s == "" {
      assert s + ("|" + rest) == "|" + rest;
    } else {
      assert (s + ("|" + rest))[1..] == s[1..] + ("|" + rest);
      PipeAt(s[1..], rest);
    }
  }

  lemma NoPipe(s: string)
    requires '|' !in s
    ensures PipeIndex(s) == |s|
  {
  }

  lemma DashCellsCons(piece: string, rest: string)
    requires '|' !in piece && DashCell(piece) && DashCells(rest)
    ensures DashCells(piece + ("|" + rest))
  {
    var s := piece + ("|" + rest);
    PipeAt(piece, rest);
    assert s[..|piece|] == piece && s[|piece| + 1..] == rest;
  }

  lemma {:induction false} DashesRead(n: nat)
    requires n >= 1
    ensures DashCells(Dashes(n)) && Dashes(n)[0] == ' '
  {
    DashPiece();
    if n == 1 {
      NoPipe(" --- ");
      assert Dashes(1) == " --- " && " --- "[..5] == " --- ";
    } else {
      DashesRead(n - 1);
      DashCellsCons(" --- ", Dashes(n - 1));
    }
  }

  lemma FramedStrip(body: string)
    ensures var s := "|" + (body + "|"); Strip(s) == s && RowLine(s)
  {
  }

  lemma SeparatorRead(n: nat)
    requires n >= 1
    ensures SeparatorLine(PrintSeparator(n))
  {
    DashesRead(n);
    FramedStrip(Dashes(n));
    SeparatorOf(PrintSeparator(n), Dashes(n));
  }

  lemma SeparatorOf(s: string, body: string)
    requires s == "|" + (body + "|") && Strip(s) == s && body != "" && body[0] != '|' && DashCells(body)
    ensures SeparatorLine(s)
  {
  }

  // ---- the table

  lemma {:induction false} AllRowLines(lines: seq<string>, j: nat)
    requires j <= |lines| && forall k :: j <= k < |lines| ==> RowLine(lines[k])
    ensures RowsEnd(lines, j) == |lines|
    decreases |lines| - j
  {
    if j < |lines| { AllRowLines(lines, j + 1); }
  }

  function Numbered(rows: seq<seq<string>>): seq<Row> {
    seq(|rows|, i requires 0 <= i < |rows| => Row(i + 3, rows[i]))
  }

  predicate Splits(cells: seq<string>) { Trimmed(cells) && SpansClosed(cells) }

  lemma RowsReadBack(header: seq<string>, rows: seq<seq<string>>)
    requires header != [] && NoneEmpty(rows)
    ensures var lines := PrintTable(header, rows);
            RowsFrom(lines, 2, |lines|) == Numbered(rows) <==> forall i :: 0 <= i < |rows| ==> Splits(rows[i])
  {
    var lines := PrintTable(header, rows);
    var read := RowsFrom(lines, 2, |lines|);
    forall i | 0 <= i < |rows|
      ensures read[i] == Numbered(rows)[i] <==> Splits(rows[i])
    {
      assert lines[2 + i] == PrintRow(rows[i]);
      RowRoundTrip(rows[i]);
    }
    if forall i :: 0 <= i < |rows| ==> Splits(rows[i]) {
      assert forall i :: 0 <= i < |rows| ==> read[i] == Numbered(rows)[i];
    }
  }

  lemma PrintedIsOneTable(header: seq<string>, rows: seq<seq<string>>, clean: string -> string)
    requires header != [] && NoneEmpty(rows)
    ensures var lines := PrintTable(header, rows);
            TablesFrom(lines, 0, false, map[], clean) == [TableHere(lines, 0, map[], clean)] && RowsEnd(lines, 2) == |lines|
  {
    var lines := PrintTable(header, rows);
    FramedStrip(Body(header));
    SeparatorRead(|header|);
    NoMark(lines[0]);
    forall k | 2 <= k < |lines|
      ensures RowLine(lines[k])
    {
      FramedStrip(Body(rows[k - 2]));
    }
    AllRowLines(lines, 2);
  }

  lemma LinesRoundTrip(header: seq<string>, rows: seq<seq<string>>, clean: string -> string)
    requires header != [] && NoneEmpty(rows) && Splits(header)
    ensures TablesFrom(PrintTable(header, rows), 0, false, map[], clean) == [AsPrinted(header, rows, clean)]
       <==> forall i :: 0 <= i < |rows| ==> Splits(rows[i])
  {
    var lines := PrintTable(header, rows);
    PrintedIsOneTable(header, rows, clean);
    RowRoundTrip(header);
    RowsReadBack(header, rows);
    NoValues(6);
  }

  function AsPrinted(header: seq<string>, rows: seq<seq<string>>, clean: string -> string): Table {
    Table(CleanAll(header, clean), Numbered(rows), "", [], 1)
  }

  // ---- line breaks in cells

  predicate OneLiners(cells: seq<string>) { forall k :: 0 <= k < |cells| ==> OneLine(cells[k]) }

  lemma OneLineJoin(a: string, b: string)
    ensures OneLine(a + b) <==> OneLine(a) && OneLine(b)
  {
    if OneLine(a + b) {
      assert forall i :: 0 <= i < |a| ==> (a + b)[i] == a[i];
      assert forall i :: 0 <= i < |b| ==> (a + b)[|a| + i] == b[i];
    }
  }

  lemma {:induction false} EscapeBreaks(cell: string)
    ensures OneLine(Escape(cell)) <==> OneLine(cell)
  {
    if cell != "" {
      EscapeBreaks(cell[1..]);
      OneLineJoin(if cell[0] == '|' then "\\|" else [cell[0]], Escape(cell[1..]));
      OneLineJoin([cell[0]], cell[1..]);
      assert cell == [cell[0]] + cell[1..];
    }
  }

  lemma {:induction false} BodyBreaks(cells: seq<string>)
    requires cells != []
    ensures OneLine(Body(cells)) <==> OneLiners(cells)
  {
    var rest := if |cells| == 1 then "" else "|" + Body(cells[1..]);
    EscapeBreaks(cells[0]);
    OneLineJoin(" ", Escape(cells[0]) + (" " + rest));
    OneLineJoin(Escape(cells[0]), " " + rest);
    OneLineJoin(" ", rest);
    if |cells| > 1 {
      BodyBreaks(cells[1..]);
      OneLineJoin("|", Body(cells[1..]));
      OneLinersCons(cells);
    }
  }

  lemma OneLinersCons(cells: seq<string>)
    requires cells != []
    ensures OneLiners(cells) <==> OneLine(cells[0]) && OneLiners(cells[1..])
  {
  }

  lemma RowBreaks(cells: seq<string>)
    requires cells != []
    ensures OneLine(PrintRow(cells)) <==> OneLiners(cells)
  {
    BodyBreaks(cells);
    OneLineJoin("|", Body(cells) + "|");
    OneLineJoin(Body(cells), "|");
  }

  lemma {:induction false} DashesOneLine(n: nat)
    requires n >= 1
    ensures OneLine(Dashes(n))
  {
    if n > 1 {
      DashesOneLine(n - 1);
      OneLineJoin("|", Dashes(n - 1));
      OneLineJoin(" --- ", "|" + Dashes(n - 1));
    }
  }

  lemma SeparatorOneLine(n: nat)
    requires n >= 1
    ensures OneLine(PrintSeparator(n))
  {
    DashesOneLine(n);
    OneLineJoin("|", Dashes(n) + "|");
    OneLineJoin(Dashes(n), "|");
  }

  lemma {:induction false} ScanOneLine(s: string, inCode: bool, buf: string)
    requires OneLine(s) && OneLine(buf)
    ensures OneLiners(Scan(s, inCode, buf))
    decreases |s|
  {
    if s == "" {
    } else if EscapedPipe(s) {
      ScanOneLine(s[2..], inCode, buf + "|");
    } else if s[0] == '|' && !inCode {
      ScanOneLine(s[1..], inCode, "");
      var rest := Scan(s[1..], inCode, "");
      assert ([buf] + rest)[1..] == rest;
      OneLinersCons([buf] + rest);
    } else {
      ScanOneLine(s[1..], if s[0] == '`' then !inCode else inCode, buf + [s[0]]);
    }
  }

  lemma {:induction false} LStripOneLine(s: string)
    requires OneLine(s)
    ensures OneLine(LStrip(s))
  {
    if s != "" && IsSpace(s[0]) { LStripOneLine(s[1..]); }
  }

  lemma {:induction false} RStripOneLine(s: string)
    requires OneLine(s)
    ensures OneLine(RStrip(s))
  {
    if s != "" && IsSpace(s[|s| - 1]) { RStripOneLine(s[..|s| - 1]); }
  }

  lemma StripOneLine(s: string)
    requires OneLine(s)
    ensures OneLine(Strip(s))
  {
    LStripOneLine(s);
    RStripOneLine(LStrip(s));
  }

  /** No cell of one line holds a line break. */
  lemma SplitRowOneLine(line: string)
    requires OneLine(line)
    ensures OneLiners(SplitRowOf(line))
  {
    StripOneLine(line);
    var cells := Scan(Unframed(line), false, "");
    ScanOneLine(Unframed(line), false, "");
    forall k | 0 <= k < |cells|
      ensures OneLine(Strip(cells[k]))
    {
      StripOneLine(cells[k]);
    }
  }

  lemma {:induction false} FirstBroken(rows: seq<seq<string>>) returns (i: nat)
    requires exists k :: 0 <= k < |rows| && !OneLiners(rows[k])
    ensures i < |rows| && !OneLiners(rows[i]) && forall k :: 0 <= k < i ==> OneLiners(rows[k])
  {
    if !OneLiners(rows[0]) {
      i := 0;
    } else {
      assert forall k :: 0 < k < |rows| ==> rows[1..][k - 1] == rows[k];
      i := FirstBroken(rows[1..]);
      i := i + 1;
    }
  }

  /** What stands before a broken row is read as printed, and its own first line holds no break. */
  lemma BrokenLines(header: seq<string>, rows: seq<seq<string>>, i: nat)
    requires header != [] && NoneEmpty(rows) && OneLiners(header)
    requires i < |rows| && !OneLiners(rows[i]) && forall k :: 0 <= k < i ==> OneLiners(rows[k])
    ensures var lines, read := PrintTable(header, rows), SplitLines(LinesText(PrintTable(header, rows)));
            |read| > i + 2 && read[..i + 2] == lines[..i + 2] && OneLine(read[i + 2])
  {
    var lines := PrintTable(header, rows);
    RowBreaks(header);
    SeparatorOneLine(|header|);
    forall k | 0 <= k < i + 2
      ensures OneLine(lines[k])
    {
      if k >= 2 { RowBreaks(rows[k - 2]); }
    }
    SplitLinesPrefix(lines, i + 2);
    var line := PrintRow(rows[i]);
    RowBreaks(rows[i]);
    assert lines[i + 2..][0] == line;
    BrokenHead(line, "\n" + LinesText(lines[i + 2..][1..]));
  }

  lemma BrokenHead(line: string, more: string)
    requires !OneLine(line)
    ensures var read := SplitLines(line + more); read != [] && OneLine(read[0])
  {
  }

  lemma BrokenRowDiffers(header: seq<string>, rows: seq<seq<string>>, clean: string -> string, i: nat)
    requires header != [] && NoneEmpty(rows) && OneLiners(header)
    requires i < |rows| && !OneLiners(rows[i]) && forall k :: 0 <= k < i ==> OneLiners(rows[k])
    ensures TablesFrom(SplitLines(LinesText(PrintTable(header, rows))), 0, false, map[], clean) != [AsPrinted(header, rows, clean)]
  {
    var lines, read := PrintTable(header, rows), SplitLines(LinesText(PrintTable(header, rows)));
    BrokenLines(header, rows, i);
    assert read[0] == read[..i + 2][0] == lines[0] && read[1] == read[..i + 2][1] == lines[1];
    FirstIsTable(header, read, clean);
    SplitRowOneLine(read[i + 2]);
    var found := TableHere(read, 0, map[], clean).rows;
    if |found| == |rows| {
      assert found[i].cells == SplitRowOf(read[i + 2]) && Numbered(rows)[i].cells == rows[i];
    }
  }

  /** Lines that begin with a printed header and separator begin with a table. */
  lemma FirstIsTable(header: seq<string>, read: seq<string>, clean: string -> string)
    requires header != [] && |read| >= 2 && read[0] == PrintRow(header) && read[1] == PrintSeparator(|header|)
    ensures var tables := TablesFrom(read, 0, false, map[], clean); tables != [] && tables[0] == TableHere(read, 0, map[], clean)
  {
    FramedStrip(Body(header));
    SeparatorRead(|header|);
    NoMark(read[0]);
  }

  /** The lines are read as the one table printed, with no heading above it and its rows numbered
      from the third line, and its header's cells before they are cleaned are the ones printed. */
  predicate ReadBack(read: seq<string>, header: seq<string>, rows: seq<seq<string>>, clean: string -> string) {
    && read != [] && SplitRowOf(read[0]) == header
    && TablesFrom(read, 0, false, map[], clean) == [AsPrinted(header, rows, clean)]
  }

  lemma RowsRoundTrip(header: seq<string>, rows: seq<seq<string>>, clean: string -> string)
    requires header != [] && NoneEmpty(rows) && Splits(header) && OneLiners(header)
    ensures TablesFrom(SplitLines(LinesText(PrintTable(header, rows))), 0, false, map[], clean) == [AsPrinted(header, rows, clean)]
       <==> forall i :: 0 <= i < |rows| ==> Splits(rows[i]) && OneLiners(rows[i])
  {
    if exists k :: 0 <= k < |rows| && !OneLiners(rows[k]) {
      var i := FirstBroken(rows);
      BrokenRowDiffers(header, rows, clean, i);
    } else {
      AllReadBack(header, rows);
      LinesRoundTrip(header, rows, clean);
    }
  }

  /** The header's cells are read back exactly when they are trimmed, close their code spans and
      hold no line break. */
  lemma HeaderReadBack(header: seq<string>, rows: seq<seq<string>>)
    requires header != [] && NoneEmpty(rows)
    ensures var read := SplitLines(LinesText(PrintTable(header, rows)));
            read != [] && (SplitRowOf(read[0]) == header <==> Splits(header) && OneLiners(header))
  {
    var lines := PrintTable(header, rows);
    var line, rest := PrintRow(header), "\n" + LinesText(lines[1..]);
    RowBreaks(header);
    RowRoundTrip(header);
    if OneLine(line) {
      SplitLinesFirst(lines);
    } else {
      BrokenHead(line, rest);
      SplitRowOneLine(SplitLines(line + rest)[0]);
    }
  }

  /** The text of a printed table is read back exactly when every cell of its header and its rows
      is trimmed and holds no line break, and every cell but the last of each closes its code
      spans. */
  lemma TableRoundTrip(header: seq<string>, rows: seq<seq<string>>, clean: string -> string)
    requires header != [] && NoneEmpty(rows)
    ensures ReadBack(SplitLines(LinesText(PrintTable(header, rows))), header, rows, clean)
       <==> Splits(header) && OneLiners(header) && forall i :: 0 <= i < |rows| ==> Splits(rows[i]) && OneLiners(rows[i])
  {
    HeaderReadBack(header, rows);
    if Splits(header) && OneLiners(header) { RowsRoundTrip(header, rows, clean); }
  }

  lemma AllReadBack(header: seq<string>, rows: seq<seq<string>>)
    requires header != [] && NoneEmpty(rows) && OneLiners(header)
    requires forall k :: 0 <= k < |rows| ==> OneLiners(rows[k])
    ensures SplitLines(LinesText(PrintTable(header, rows))) == PrintTable(header, rows)
  {
    var lines := PrintTable(header, rows);
    RowBreaks(header);
    SeparatorOneLine(|header|);
    forall k | 0 <= k < |lines|
      ensures OneLine(lines[k])
    {
      if k >= 2 { RowBreaks(rows[k - 2]); }
    }
    SplitLinesPrefix(lines, |lines|);
    assert lines[|lines|..] == [] && lines[..|lines|] == lines;
  }
}
