/** scripts/coverage_to_xlsx.py, `parse_tables`: the tables of a Markdown document, found line
    by line. */
module Tables {
  import opened Text
  import opened Cells
  import opened Tiling

  // ---- the kinds of line

  predicate FenceLine(line: string) {
    var t := LStrip(line);
    |t| >= 3 && t[0] == '`' && t[1] == '`' && t[2] == '`'
  }

  predicate RowLine(line: string) { StartsPipe(Strip(line)) }

  function Hashes(line: string): (n: nat)
    ensures n <= |line|
  {
    if line == "" || line[0] != '#' then 0 else 1 + Hashes(line[1..])
  }

  /** `^(#{1,6})\s+(.*)$` */
  function HeadingOf(line: string): (h: Option<(nat, string)>)
    ensures h.Some? ==> 1 <= h.value.0 <= 6
  {
    var n := Hashes(line);
    if 1 <= n <= 6 && n < |line| && IsSpace(line[n]) then Some((n, LStrip(line[n..]))) else None
  }

  predicate AllDashes(s: string) { |s| >= 2 && forall i :: 0 <= i < |s| ==> s[i] == '-' }

  /** `\s*:?-{2,}:?\s*` */
  predicate DashCell(piece: string) {
    var p := Strip(piece);
    var q := if p != "" && p[0] == ':' then p[1..] else p;
    AllDashes(if q != "" && q[|q| - 1] == ':' then q[..|q| - 1] else q)
  }

  function PipeIndex(s: string): (k: nat)
    ensures k <= |s|
  {
    if s == "" || s[0] == '|' then 0 else 1 + PipeIndex(s[1..])
  }

  /** Dash cells joined by pipes. */
  predicate DashCells(s: string) {
    var k := PipeIndex(s);
    DashCell(s[..k]) && (k == |s| || DashCells(s[k + 1..]))
  }

  predicate SeparatorLine(line: string) {
    var s := Strip(line);
    var t := if StartsPipe(s) then s[1..] else s;
    DashCells(if StartsPipe(t) || t == "" || t[|t| - 1] != '|' then t else t[..|t| - 1])
  }

  // ---- what each table is

  datatype Row = Row(number: nat, cells: seq<string>)

  datatype Table = Table(header: seq<string>, rows: seq<Row>, heading: string, headings: seq<string>, line: nat)

  /** A header with its separator. */
  predicate Opens(lines: seq<string>, i: nat) {
    i + 1 < |lines| && !InFence(lines, i) && RowLine(lines[i]) && SeparatorLine(lines[i + 1])
  }

  /** The first line from j on that is no row. */
  function RowsEnd(lines: seq<string>, j: nat): (e: nat)
    requires j <= |lines|
    ensures j <= e <= |lines|
    decreases |lines| - j
  {
    if j == |lines| || !RowLine(lines[j]) then j else RowsEnd(lines, j + 1)
  }

  lemma {:induction false} RowsEndIs(lines: seq<string>, j: nat)
    requires j <= |lines|
    ensures forall k :: j <= k < RowsEnd(lines, j) ==> RowLine(lines[k])
    ensures RowsEnd(lines, j) < |lines| ==> !RowLine(lines[RowsEnd(lines, j)])
    decreases |lines| - j
  {
    if j < |lines| && RowLine(lines[j]) { RowsEndIs(lines, j + 1); }
  }

  predicate InFence(lines: seq<string>, i: nat)
    requires i <= |lines|
  {
    i > 0 && (if FenceLine(lines[i - 1]) then !InFence(lines, i - 1) else InFence(lines, i - 1))
  }

  /** The heading a line sets: not within a fence. */
  function HeadingAt(lines: seq<string>, i: nat): (h: Option<(nat, string)>)
    requires i < |lines|
    ensures h.Some? ==> 1 <= h.value.0 <= 6
  {
    if InFence(lines, i) || FenceLine(lines[i]) then None else HeadingOf(lines[i])
  }

  /** Going up from line i: the nearest heading below this level, then the nearest below that
      one's, and so on; outermost first. */
  function Above(lines: seq<string>, i: nat, level: nat, clean: string -> string): seq<string>
    requires i <= |lines|
  {
    if i == 0 then []
    else match HeadingAt(lines, i - 1)
      case Some(h) =>
        if h.0 < level then Above(lines, i - 1, h.0, clean) + [clean(h.1)] else Above(lines, i - 1, level, clean)
      case None => Above(lines, i - 1, level, clean)
  }

  function CleanAll(cells: seq<string>, clean: string -> string): seq<string> {
    seq(|cells|, k requires 0 <= k < |cells| => clean(cells[k]))
  }

  function RowsFrom(lines: seq<string>, j: nat, e: nat): seq<Row>
    requires j <= e <= |lines|
  {
    seq(e - j, k requires 0 <= k < e - j => Row(j + k + 1, SplitRowOf(lines[j + k])))
  }

  function LastOf(s: seq<string>): string { if s == [] then "" else s[|s| - 1] }

  function TableAt(lines: seq<string>, i: nat, clean: string -> string): Table
    requires i + 2 <= |lines|
  {
    var heads := Above(lines, i, 7, clean);
    Table(CleanAll(SplitRowOf(lines[i]), clean), RowsFrom(lines, i + 2, RowsEnd(lines, i + 2)), LastOf(heads), heads, i + 1)
  }

  /** The lines that open a table, and where a table that starts at a line ends. */
  function Openings(lines: seq<string>): Opener { (i: nat) => Opens(lines, i) }

  function Endings(lines: seq<string>): Ender {
    (i: nat) => if i + 2 <= |lines| then RowsEnd(lines, i + 2) else i + 1
  }

  /** Tables in order without overlap, every header with its separator opening one or lying
      inside one. */
  ghost predicate AllTables(lines: seq<string>, starts: seq<nat>) {
    Tiles(Openings(lines), Endings(lines), 0, starts, |lines|)
  }

  /** That leaves no choice of where the tables are. */
  lemma TablesOneWay(lines: seq<string>, starts: seq<nat>, others: seq<nat>)
    requires AllTables(lines, starts) && AllTables(lines, others)
    ensures starts == others
  {
    EndingsAhead(lines);
    TilesOneWay(Openings(lines), Endings(lines), 0, starts, others, |lines|);
  }

  lemma EndingsAhead(lines: seq<string>)
    ensures Ahead(Endings(lines))
  {
  }

  // ---- the source's algorithm

  /** The headings in force, by level. */
  type Path = map<nat, string>

  function Under(path: Path, level: nat): Path { map k | k in path && k < level :: path[k] }

  function PathAt(lines: seq<string>, i: nat, clean: string -> string): Path
    requires i <= |lines|
  {
    if i == 0 then map[]
    else match HeadingAt(lines, i - 1)
      case Some(h) => Under(PathAt(lines, i - 1, clean), h.0)[h.0 := clean(h.1)]
      case None => PathAt(lines, i - 1, clean)
  }

  /** `[path[k] for k in sorted(path)]` for levels up to this one */
  function Values(path: Path, level: nat): seq<string> {
    if level == 0 then [] else Values(path, level - 1) + (if level in path then [path[level]] else [])
  }

  function TablesAt(lines: seq<string>, starts: seq<nat>, clean: string -> string): seq<Table>
    requires Roomy(lines, starts)
  {
    if starts == [] then [] else [TableAt(lines, starts[0], clean)] + TablesAt(lines, starts[1..], clean)
  }

  lemma FirstChar(line: string)
    requires Strip(line) != ""
    ensures LStrip(line) != "" && LStrip(line)[0] == Strip(line)[0]
  {
    RStripHead(LStrip(line));
  }

  lemma NoMark(line: string)
    requires Strip(line) != "" && Strip(line)[0] != '`' && Strip(line)[0] != '#'
    ensures !FenceLine(line) && HeadingOf(line) == None
  {
    FirstChar(line);
    assert line[0] == '#' ==> LStrip(line) == line;
  }

  lemma DashCellHead(piece: string)
    requires DashCell(piece) && piece != "" && !IsSpace(piece[0])
    ensures piece[0] == ':' || piece[0] == '-'
  {
    RStripHead(piece);
  }

  lemma StripNoSpace(line: string)
    requires Strip(line) != ""
    ensures !IsSpace(Strip(line)[0])
  {
    FirstChar(line);
  }

  /** A separator opens with a pipe, a colon or a dash. */
  lemma SeparatorHead(line: string)
    requires SeparatorLine(line)
    ensures Strip(line) != "" && (Strip(line)[0] == '|' || Strip(line)[0] == ':' || Strip(line)[0] == '-')
  {
    var s := Strip(line);
    if !StartsPipe(s) {
      var v := if s == "" || s[|s| - 1] != '|' then s else s[..|s| - 1];
      var piece := v[..PipeIndex(v)];
      assert DashCell(piece);
      if piece != "" {
        StripNoSpace(line);
        assert piece[0] == s[0];
        DashCellHead(piece);
      }
    }
  }

  predicate Unmarked(lines: seq<string>, i: nat, j: nat)
    requires i <= j <= |lines|
  {
    forall k :: i <= k < j ==> !FenceLine(lines[k]) && HeadingOf(lines[k]) == None
  }

  lemma {:induction false} UnmarkedSkipped(lines: seq<string>, i: nat, j: nat, clean: string -> string)
    requires i <= j <= |lines| && Unmarked(lines, i, j)
    ensures InFence(lines, j) == InFence(lines, i) && PathAt(lines, j, clean) == PathAt(lines, i, clean)
  {
    if i < j { UnmarkedSkipped(lines, i, j - 1, clean); }
  }

  /** A table changes neither the fences nor the headings. */
  lemma TableSkipped(lines: seq<string>, i: nat, j: nat, clean: string -> string)
    requires Opens(lines, i) && i + 2 <= j <= |lines|
    requires forall k :: i + 2 <= k < j ==> RowLine(lines[k])
    ensures InFence(lines, j) == InFence(lines, i) && PathAt(lines, j, clean) == PathAt(lines, i, clean)
  {
    forall k | i <= k < j
      ensures !FenceLine(lines[k]) && HeadingOf(lines[k]) == None
    {
      if k == i + 1 {
        SeparatorHead(lines[k]);
      }
      NoMark(lines[k]);
    }
    UnmarkedSkipped(lines, i, j, clean);
  }

  lemma {:induction false} ValuesUnder(path: Path, at: nat, title: string, level: nat)
    requires at >= 1
    ensures level < at ==> Values(Under(path, at)[at := title], level) == Values(path, level)
    ensures level >= at ==> Values(Under(path, at)[at := title], level) == Values(path, at - 1) + [title]
  {
    if level > 0 {
      ValuesUnder(path, at, title, level - 1);
    }
  }

  lemma AboveStep(lines: seq<string>, i: nat, level: nat, clean: string -> string)
    requires i < |lines|
    ensures Above(lines, i + 1, level, clean)
         == match HeadingAt(lines, i)
            case Some(h) =>
              if h.0 < level then Above(lines, i, h.0, clean) + [clean(h.1)] else Above(lines, i, level, clean)
            case None => Above(lines, i, level, clean)
    ensures PathAt(lines, i + 1, clean)
         == match HeadingAt(lines, i)
            case Some(h) => Under(PathAt(lines, i, clean), h.0)[h.0 := clean(h.1)]
            case None => PathAt(lines, i, clean)
  {
  }

  /** The dictionary pruned at each heading holds, in level order, what the scan upwards
      finds. */
  lemma {:induction false} PathIsAbove(lines: seq<string>, i: nat, level: nat, clean: string -> string)
    requires i <= |lines|
    ensures Values(PathAt(lines, i, clean), level) == Above(lines, i, level + 1, clean)
    decreases i
  {
    if i == 0 {
      NoValues(level);
    } else {
      AboveStep(lines, i - 1, level + 1, clean);
      var h := HeadingAt(lines, i - 1);
      if h.Some? {
        ValuesUnder(PathAt(lines, i - 1, clean), h.value.0, clean(h.value.1), level);
      }
      PathIsAbove(lines, i - 1, if h.Some? && h.value.0 <= level then h.value.0 - 1 else level, clean);
    }
  }

  lemma {:induction false} NoValues(level: nat)
    ensures Values(map[], level) == []
  {
    if level > 0 { NoValues(level - 1); }
  }

  /** The table at line i under the headings in force. */
  function TableHere(lines: seq<string>, i: nat, path: Path, clean: string -> string): Table
    requires i + 2 <= |lines|
  {
    var heads := Values(path, 6);
    Table(CleanAll(SplitRowOf(lines[i]), clean), RowsFrom(lines, i + 2, RowsEnd(lines, i + 2)), LastOf(heads), heads, i + 1)
  }

  /** The tables from line i on. */
  function TablesFrom(lines: seq<string>, i: nat, inFence: bool, path: Path, clean: string -> string): seq<Table>
    requires i <= |lines|
    decreases |lines| - i
  {
    if i == |lines| then []
    else if FenceLine(lines[i]) then TablesFrom(lines, i + 1, !inFence, path, clean)
    else if inFence then TablesFrom(lines, i + 1, inFence, path, clean)
    else match HeadingOf(lines[i])
      case Some(h) => TablesFrom(lines, i + 1, inFence, Under(path, h.0)[h.0 := clean(h.1)], clean)
      case None =>
        if RowLine(lines[i]) && i + 1 < |lines| && SeparatorLine(lines[i + 1]) then
          [TableHere(lines, i, path, clean)] + TablesFrom(lines, RowsEnd(lines, i + 2), inFence, path, clean)
        else TablesFrom(lines, i + 1, inFence, path, clean)
  }

  method ParseTables(text: string, clean: string -> string) returns (tables: seq<Table>)
    ensures tables == TablesFrom(SplitLines(text), 0, false, map[], clean)
  {
    var lines := SplitLines(text);
    var path: Path, inFence, i := map[], false, 0;
    tables := [];
    while i < |lines|
      invariant 0 <= i <= |lines|
      invariant tables + TablesFrom(lines, i, inFence, path, clean) == TablesFrom(lines, 0, false, map[], clean)
      decreases |lines| - i
    {
      var line := lines[i];
      if FenceLine(line) {
        inFence := !inFence;
        i := i + 1;
        continue;
      }
      if inFence {
        i := i + 1;
        continue;
      }
      var h := HeadingOf(line);
      if h.Some? {
        path := Under(path, h.value.0)[h.value.0 := clean(h.value.1)];
        i := i + 1;
        continue;
      }
      if RowLine(line) && i + 1 < |lines| && SeparatorLine(lines[i + 1]) {
        var table, j := ParseTable(lines, i, path, clean);
        tables := tables + [table];
        i := j;
        continue;
      }
      i := i + 1;
    }
  }

  method ParseTable(lines: seq<string>, i: nat, path: Path, clean: string -> string) returns (table: Table, j: nat)
    requires i + 2 <= |lines|
    ensures table == TableHere(lines, i, path, clean) && j == RowsEnd(lines, i + 2)
  {
    var cells := SplitRow(lines[i]);
    var header := CleanAll(cells, clean);
    var rows: seq<Row>;
    rows, j := ParseRows(lines, i + 2);
    var heads := Values(path, 6);
    table := Table(header, rows, LastOf(heads), heads, i + 1);
  }

  method ParseRows(lines: seq<string>, from: nat) returns (rows: seq<Row>, j: nat)
    requires from <= |lines|
    ensures j == RowsEnd(lines, from) && rows == RowsFrom(lines, from, j)
  {
    rows := [];
    j := from;
    while j < |lines| && RowLine(lines[j])
      invariant from <= j <= |lines|
      invariant RowsEnd(lines, j) == RowsEnd(lines, from)
      invariant rows == RowsFrom(lines, from, j)
    {
      var cells := SplitRow(lines[j]);
      OneMoreRow(lines, from, j);
      rows := rows + [Row(j + 1, cells)];
      j := j + 1;
    }
  }

  lemma OneMoreRow(lines: seq<string>, from: nat, j: nat)
    requires from <= j < |lines|
    ensures RowsFrom(lines, from, j + 1) == RowsFrom(lines, from, j) + [Row(j + 1, SplitRowOf(lines[j]))]
  {
  }

  // ---- what was found

  /** The tables from line i on are those at some starting lines, which cover them. */
  ghost predicate FoundFrom(lines: seq<string>, i: nat, starts: seq<nat>, tables: seq<Table>, clean: string -> string) {
    && Tiles(Openings(lines), Endings(lines), i, starts, |lines|)
    && Roomy(lines, starts)
    && tables == TablesAt(lines, starts, clean)
  }

  lemma NothingFrom(lines: seq<string>, clean: string -> string)
    ensures FoundFrom(lines, |lines|, [], [], clean)
  {
  }

  lemma FoundLineBefore(lines: seq<string>, i: nat, starts: seq<nat>, tables: seq<Table>, clean: string -> string)
    requires i < |lines| && FoundFrom(lines, i + 1, starts, tables, clean) && !Opens(lines, i)
    ensures FoundFrom(lines, i, starts, tables, clean)
  {
  }

  lemma TilesTable(lines: seq<string>, i: nat, starts: seq<nat>)
    requires Opens(lines, i) && Tiles(Openings(lines), Endings(lines), RowsEnd(lines, i + 2), starts, |lines|)
    ensures Tiles(Openings(lines), Endings(lines), i, [i] + starts, |lines|)
  {
    OneStretchBefore(Openings(lines), Endings(lines), i, starts, |lines|);
  }

  predicate Roomy(lines: seq<string>, starts: seq<nat>) { forall k :: 0 <= k < |starts| ==> starts[k] + 2 <= |lines| }

  lemma RoomyCons(lines: seq<string>, i: nat, starts: seq<nat>)
    requires i + 2 <= |lines| && Roomy(lines, starts)
    ensures Roomy(lines, [i] + starts)
  {
  }

  lemma FoundTableBefore(lines: seq<string>, i: nat, starts: seq<nat>, tables: seq<Table>, clean: string -> string)
    requires Opens(lines, i) && FoundFrom(lines, RowsEnd(lines, i + 2), starts, tables, clean)
    ensures FoundFrom(lines, i, [i] + starts, [TableAt(lines, i, clean)] + tables, clean)
  {
    TilesTable(lines, i, starts);
    RoomyCons(lines, i, starts);
    TablesAtCons(lines, i, starts, clean);
  }

  lemma TablesAtCons(lines: seq<string>, i: nat, starts: seq<nat>, clean: string -> string)
    requires i + 2 <= |lines| && Roomy(lines, starts)
    ensures TablesAt(lines, [i] + starts, clean) == [TableAt(lines, i, clean)] + TablesAt(lines, starts, clean)
  {
  }

  /** One line that is no table. */
  lemma LineSkipped(lines: seq<string>, i: nat, path: Path, clean: string -> string)
    requires i < |lines| && path == PathAt(lines, i, clean) && !Opens(lines, i)
    ensures TablesFrom(lines, i, InFence(lines, i), path, clean)
         == TablesFrom(lines, i + 1, InFence(lines, i + 1), PathAt(lines, i + 1, clean), clean)
  {
  }

  lemma TableSkippedTo(lines: seq<string>, i: nat, clean: string -> string)
    requires Opens(lines, i)
    ensures var j := RowsEnd(lines, i + 2);
            InFence(lines, j) == InFence(lines, i) && PathAt(lines, j, clean) == PathAt(lines, i, clean)
  {
    RowsEndIs(lines, i + 2);
    TableSkipped(lines, i, RowsEnd(lines, i + 2), clean);
  }

  lemma OpensIsFound(lines: seq<string>, i: nat, clean: string -> string)
    requires Opens(lines, i)
    ensures TablesFrom(lines, i, InFence(lines, i), PathAt(lines, i, clean), clean)
         == [TableAt(lines, i, clean)] + TablesFrom(lines, RowsEnd(lines, i + 2), InFence(lines, i), PathAt(lines, i, clean), clean)
  {
    NoMark(lines[i]);
    PathIsAbove(lines, i, 6, clean);
  }

  lemma {:induction false} TablesFromAre(lines: seq<string>, i: nat, clean: string -> string) returns (starts: seq<nat>)
    requires i <= |lines|
    ensures FoundFrom(lines, i, starts, TablesFrom(lines, i, InFence(lines, i), PathAt(lines, i, clean), clean), clean)
    decreases |lines| - i
  {
    if i == |lines| {
      starts := [];
      NothingFrom(lines, clean);
    } else if Opens(lines, i) {
      TableSkippedTo(lines, i, clean);
      OpensIsFound(lines, i, clean);
      var j := RowsEnd(lines, i + 2);
      var rest := TablesFromAre(lines, j, clean);
      FoundTableBefore(lines, i, rest, TablesFrom(lines, j, InFence(lines, j), PathAt(lines, j, clean), clean), clean);
      starts := [i] + rest;
    } else {
      LineSkipped(lines, i, PathAt(lines, i, clean), clean);
      starts := TablesFromAre(lines, i + 1, clean);
      FoundLineBefore(lines, i, starts, TablesFrom(lines, i + 1, InFence(lines, i + 1), PathAt(lines, i + 1, clean), clean), clean);
    }
  }

  /** Every table of the document and nothing else, in order; each with its cells, its line
      numbers and the headings above it. The starting lines are the only ones there can be. */
  lemma TablesAreAll(lines: seq<string>, clean: string -> string) returns (starts: seq<nat>)
    ensures AllTables(lines, starts) && Roomy(lines, starts)
    ensures TablesFrom(lines, 0, false, map[], clean) == TablesAt(lines, starts, clean)
    ensures forall others :: AllTables(lines, others) ==> others == starts
  {
    starts := TablesFromAre(lines, 0, clean);
    forall others | AllTables(lines, others)
      ensures others == starts
    {
      TablesOneWay(lines, others, starts);
    }
  }
}
