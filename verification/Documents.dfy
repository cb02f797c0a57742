/** scripts/coverage_to_xlsx.py, `parse_tables`: the headings each table stands under, and a
    document of headings, tables and code blocks written out and read back. */
module Documents {
  import opened Text
  import opened Cells
  import opened Tables
  import opened TablePrinting
  import opened LineForms

  /** Line by line, or item by item, the heading there, with its level. */
  type Heads = seq<Option<(nat, string)>>

  predicate Levelled(heads: Heads) {
    forall j :: 0 <= j < |heads| && heads[j].Some? ==> 1 <= heads[j].value.0 <= 6
  }

  /** A heading is open at the end when only deeper ones have followed it. */
  predicate StaysOpen(heads: Heads, j: nat)
    requires j < |heads|
  {
    heads[j].Some? && forall m :: j < m < |heads| && heads[m].Some? ==> heads[m].value.0 > heads[j].value.0
  }

  /** The titles, in order, of the first n headings that are open at the end and no deeper than a
      level. */
  function OpenTo(heads: Heads, n: nat, level: nat, clean: string -> string): seq<string>
    requires n <= |heads|
  {
    if n == 0 then []
    else OpenTo(heads, n - 1, level, clean)
         + (if StaysOpen(heads, n - 1) && heads[n - 1].value.0 <= level then [clean(heads[n - 1].value.1)] else [])
  }

  function OpenTitles(heads: Heads, clean: string -> string): seq<string> { OpenTo(heads, |heads|, 6, clean) }

  /** The dictionary of the source after these headings. */
  function PathOf(heads: Heads, clean: string -> string): Path {
    if heads == [] then map[]
    else
      var n := |heads| - 1;
      var path := PathOf(heads[..n], clean);
      if heads[n].Some? then Under(path, heads[n].value.0)[heads[n].value.0 := clean(heads[n].value.1)] else path
  }

  lemma OpenAfter(heads: Heads, h: Option<(nat, string)>, j: nat)
    requires j < |heads|
    ensures StaysOpen(heads + [h], j) <==> StaysOpen(heads, j) && (h.Some? ==> h.value.0 > heads[j].value.0)
  {
    var all := heads + [h];
    assert all[|heads|] == h && forall m :: 0 <= m < |heads| ==> all[m] == heads[m];
  }

  /** One heading more closes those that are not above it. */
  lemma {:induction false} OpenToAfter(heads: Heads, h: Option<(nat, string)>, n: nat, level: nat, clean: string -> string)
    requires n <= |heads| && (h.Some? ==> h.value.0 >= 1)
    ensures OpenTo(heads + [h], n, level, clean)
         == OpenTo(heads, n, if h.Some? && h.value.0 <= level then h.value.0 - 1 else level, clean)
  {
    if n > 0 {
      OpenToAfter(heads, h, n - 1, level, clean);
      OpenAfter(heads, h, n - 1);
      assert (heads + [h])[n - 1] == heads[n - 1];
    }
  }

  /** What the dictionary holds, in level order, is the titles of the open headings. */
  lemma {:induction false} PathIsOpen(heads: Heads, level: nat, clean: string -> string)
    requires Levelled(heads)
    ensures Values(PathOf(heads, clean), level) == OpenTo(heads, |heads|, level, clean)
    decreases |heads|
  {
    if heads == [] {
      NoValues(level);
    } else {
      var n := |heads| - 1;
      var front, h := heads[..n], heads[n];
      assert heads == front + [h] && Levelled(front);
      OpenToAfter(front, h, n, level, clean);
      if h.Some? {
        ValuesUnder(PathOf(front, clean), h.value.0, clean(h.value.1), level);
        PathIsOpen(front, if h.value.0 <= level then h.value.0 - 1 else level, clean);
        assert StaysOpen(heads, n);
      } else {
        PathIsOpen(front, level, clean);
        var titles := OpenTo(front, n, level, clean);
        assert titles + [] == titles;
      }
    }
  }

  // ---- in any document

  /** The headings of the first lines, those in fences left out. */
  function LineHeads(lines: seq<string>, i: nat): (heads: Heads)
    requires i <= |lines|
    ensures |heads| == i
  {
    seq(i, k requires 0 <= k < i => HeadingAt(lines, k))
  }

  lemma {:induction false} PathOfLines(lines: seq<string>, i: nat, clean: string -> string)
    requires i <= |lines|
    ensures PathAt(lines, i, clean) == PathOf(LineHeads(lines, i), clean) && Levelled(LineHeads(lines, i))
  {
    if i > 0 {
      PathOfLines(lines, i - 1, clean);
      assert LineHeads(lines, i)[..i - 1] == LineHeads(lines, i - 1);
    }
  }

  /** Each table found carries the titles of the headings above it that no heading of the same or
      a higher rank has closed, outermost first, and the last of them as its own. */
  lemma HeadingsOfTable(lines: seq<string>, clean: string -> string, k: nat)
    requires k < |TablesFrom(lines, 0, false, map[], clean)|
    ensures var t := TablesFrom(lines, 0, false, map[], clean)[k];
            && 1 <= t.line <= |lines|
            && t.headings == OpenTitles(LineHeads(lines, t.line - 1), clean)
            && t.heading == (if t.headings == [] then "" else t.headings[|t.headings| - 1])
  {
    var i := FoundAt(lines, clean, k);
    AboveIsOpen(lines, i, clean);
  }

  lemma AboveIsOpen(lines: seq<string>, i: nat, clean: string -> string)
    requires i <= |lines|
    ensures Above(lines, i, 7, clean) == OpenTitles(LineHeads(lines, i), clean)
  {
    PathIsAbove(lines, i, 6, clean);
    PathOfLines(lines, i, clean);
    PathIsOpen(LineHeads(lines, i), 6, clean);
  }

  // ---- a printed document

  datatype Item =
    | Section(level: nat, title: string)
    | Grid(header: seq<string>, rows: seq<seq<string>>)
    | Code(lines: seq<string>)

  /** What can be written so that it is read back. */
  predicate Writable(item: Item) {
    match item
    case Section(level, title) => 1 <= level <= 6 && OneLine(title) && NoLeadingSpace(title)
    case Grid(header, rows) =>
      header != [] && NoneEmpty(rows) && Splits(header) && OneLiners(header)
      && forall i :: 0 <= i < |rows| ==> Splits(rows[i]) && OneLiners(rows[i])
    case Code(lines) => forall i :: 0 <= i < |lines| ==> OneLine(lines[i]) && !FenceLine(lines[i])
  }

  /** A table ends with an empty line, so that the next one does not go on with its rows. */
  function ItemLines(item: Item): (own: seq<string>)
    requires Writable(item)
    ensures item.Code? ==> |own| == |item.lines| + 2
    ensures item.Grid? ==> |own| == |item.rows| + 3
  {
    match item
    case Section(level, title) => [Signs(level) + (" " + title)]
    case Grid(header, rows) => PrintTable(header, rows) + [""]
    case Code(lines) => ["```"] + lines + ["```"]
  }

  predicate AllWritable(items: seq<Item>) { forall i :: 0 <= i < |items| ==> Writable(items[i]) }

  function PrintDocument(items: seq<Item>): seq<string>
    requires AllWritable(items)
  {
    if items == [] then [] else ItemLines(items[0]) + PrintDocument(items[1..])
  }

  function RowsAt(rows: seq<seq<string>>, at: nat): seq<Row> {
    seq(|rows|, i requires 0 <= i < |rows| => Row(at + i + 1, rows[i]))
  }

  /** A table written from line `at` on, under the titles that are open there. */
  function GridTable(header: seq<string>, rows: seq<seq<string>>, heads: Heads, at: nat, clean: string -> string): Table {
    var titles := OpenTitles(heads, clean);
    var heading := if titles == [] then "" else titles[|titles| - 1];
    Table(CleanAll(header, clean), RowsAt(rows, at + 2), heading, titles, at + 1)
  }

  /** The tables of a document whose first line is line `at`, under the headings met so far. */
  function Expected(items: seq<Item>, heads: Heads, at: nat, clean: string -> string): seq<Table>
    requires AllWritable(items)
    decreases |items|
  {
    if items == [] then [] else
      match items[0]
      case Section(level, title) => Expected(items[1..], heads + [Some((level, title))], at + 1, clean)
      case Code(lines) => Expected(items[1..], heads, at + |lines| + 2, clean)
      case Grid(header, rows) =>
        [GridTable(header, rows, heads, at, clean)] + Expected(items[1..], heads, at + |rows| + 3, clean)
  }

  // ---- reading it line by line

  /** The tables found from a line on, in or out of a fence, under these headings. */
  type Reader = (nat, bool, Path) -> seq<Table>

  /** What the reading of one line comes to. */
  ghost predicate LineAt(read: Reader, lines: seq<string>, clean: string -> string, i: nat, inFence: bool, path: Path)
    requires i < |lines|
  {
    if FenceLine(lines[i]) then read(i, inFence, path) == read(i + 1, !inFence, path)
    else if inFence then read(i, inFence, path) == read(i + 1, inFence, path)
    else match HeadingOf(lines[i])
      case Some(h) => read(i, inFence, path) == read(i + 1, inFence, Under(path, h.0)[h.0 := clean(h.1)])
      case None =>
        if RowLine(lines[i]) && i + 1 < |lines| && SeparatorLine(lines[i + 1])
        then read(i, inFence, path) == [TableHere(lines, i, path, clean)] + read(RowsEnd(lines, i + 2), inFence, path)
        else read(i, inFence, path) == read(i + 1, inFence, path)
  }

  ghost predicate Law(read: Reader, lines: seq<string>, clean: string -> string) {
    && (forall path :: AtEnd(read, lines, path))
    && forall i: nat, inFence, path :: i < |lines| ==> LineAt(read, lines, clean, i, inFence, path)
  }

  ghost predicate AtEnd(read: Reader, lines: seq<string>, path: Path) { read(|lines|, false, path) == [] }

  function ReaderOf(lines: seq<string>, clean: string -> string): Reader {
    (i: nat, inFence: bool, path: Path) => if i <= |lines| then TablesFrom(lines, i, inFence, path, clean) else []
  }

  lemma ReaderKeepsLaw(lines: seq<string>, clean: string -> string)
    ensures Law(ReaderOf(lines, clean), lines, clean)
  {
    var read := ReaderOf(lines, clean);
    forall path: Path
      ensures AtEnd(read, lines, path)
    {
    }
    forall i: nat, inFence: bool, path: Path | i < |lines|
      ensures LineAt(read, lines, clean, i, inFence, path)
    {
      ReaderAt(lines, clean, i, inFence, path);
    }
  }

  lemma ReaderAt(lines: seq<string>, clean: string -> string, i: nat, inFence: bool, path: Path)
    requires i < |lines|
    ensures LineAt(ReaderOf(lines, clean), lines, clean, i, inFence, path)
  {
  }

  lemma SectionRead(read: Reader, lines: seq<string>, i: nat, level: nat, title: string, path: Path, clean: string -> string)
    requires Law(read, lines, clean)
    requires i < |lines| && lines[i] == Signs(level) + (" " + title) && 1 <= level <= 6 && NoLeadingSpace(title)
    ensures read(i, false, path)
         == read(i + 1, false, Under(path, level)[level := clean(title)])
  {
    assert HeadingParts(lines[i], level, " ", title);
    HeadingExactly(lines[i], level, title);
    assert lines[i][0] == '#' && !IsSpace('#');
    assert LStrip(lines[i]) == lines[i];
    assert LineAt(read, lines, clean, i, false, path);
  }

  lemma {:induction false} FenceSkipped(read: Reader, lines: seq<string>, i: nat, j: nat, path: Path, clean: string -> string)
    requires Law(read, lines, clean)
    requires i <= j <= |lines| && NoFence(lines, i, j)
    ensures read(i, true, path) == read(j, true, path)
    decreases j - i
  {
    if i < j {
      assert LineAt(read, lines, clean, i, true, path);
      FenceSkipped(read, lines, i + 1, j, path, clean);
    }
  }

  /** The lines of a code block. */
  predicate CodeAt(lines: seq<string>, i: nat, code: seq<string>) {
    && i + |code| + 2 <= |lines| && lines[i] == "```" && lines[i + |code| + 1] == "```"
    && lines[i + 1..i + 1 + |code|] == code
  }

  predicate NoFence(lines: seq<string>, i: nat, j: nat)
    requires i <= j <= |lines|
  {
    forall k :: i <= k < j ==> !FenceLine(lines[k])
  }

  lemma CodeUnfenced(lines: seq<string>, i: nat, code: seq<string>)
    requires CodeAt(lines, i, code) && forall k :: 0 <= k < |code| ==> !FenceLine(code[k])
    ensures NoFence(lines, i + 1, i + |code| + 1)
  {
    forall k | i + 1 <= k < i + |code| + 1
      ensures !FenceLine(lines[k])
    {
      assert lines[k] == lines[i + 1..i + 1 + |code|][k - i - 1];
    }
  }

  lemma FenceRead(read: Reader, lines: seq<string>, i: nat, inFence: bool, path: Path, clean: string -> string)
    requires Law(read, lines, clean)
    requires i < |lines| && lines[i] == "```"
    ensures read(i, inFence, path) == read(i + 1, !inFence, path)
  {
    FenceOf("", "");
    assert "" + ("```" + "") == "```";
    assert LineAt(read, lines, clean, i, inFence, path);
  }

  lemma CodeEntered(read: Reader, lines: seq<string>, i: nat, code: seq<string>, path: Path, clean: string -> string)
    requires Law(read, lines, clean)
    requires CodeAt(lines, i, code) && NoFence(lines, i + 1, i + |code| + 1)
    ensures read(i, false, path) == read(i + |code| + 1, true, path)
  {
    FenceRead(read, lines, i, false, path, clean);
    FenceSkipped(read, lines, i + 1, i + |code| + 1, path, clean);
  }

  lemma CodeRead(read: Reader, lines: seq<string>, i: nat, code: seq<string>, path: Path, clean: string -> string)
    requires Law(read, lines, clean)
    requires CodeAt(lines, i, code) && NoFence(lines, i + 1, i + |code| + 1)
    ensures read(i, false, path) == read(i + |code| + 2, false, path)
  {
    CodeEntered(read, lines, i, code, path, clean);
    FenceRead(read, lines, i + |code| + 1, true, path, clean);
  }

  lemma EmptyLineRead(read: Reader, lines: seq<string>, i: nat, path: Path, clean: string -> string)
    requires Law(read, lines, clean)
    requires i < |lines| && lines[i] == ""
    ensures read(i, false, path) == read(i + 1, false, path) && !RowLine(lines[i])
  {
    assert LineAt(read, lines, clean, i, false, path);
  }

  lemma {:induction false} RowsEndAt(lines: seq<string>, j: nat, e: nat)
    requires j <= e < |lines| && !RowLine(lines[e]) && forall k :: j <= k < e ==> RowLine(lines[k])
    ensures RowsEnd(lines, j) == e
    decreases e - j
  {
    if j < e { RowsEndAt(lines, j + 1, e); }
  }

  /** The lines of a table, and an empty one after them. */
  predicate GridAt(lines: seq<string>, i: nat, header: seq<string>, rows: seq<seq<string>>)
    requires header != [] && NoneEmpty(rows)
  {
    && i + |rows| + 3 <= |lines| && lines[i] == PrintRow(header) && lines[i + 1] == PrintSeparator(|header|)
    && lines[i + |rows| + 2] == ""
    && forall k :: 0 <= k < |rows| ==> lines[i + 2 + k] == PrintRow(rows[k])
  }

  lemma GridRows(lines: seq<string>, i: nat, header: seq<string>, rows: seq<seq<string>>)
    requires header != [] && NoneEmpty(rows) && GridAt(lines, i, header, rows)
    requires forall k :: 0 <= k < |rows| ==> Splits(rows[k])
    ensures RowsEnd(lines, i + 2) == i + |rows| + 2 && RowsFrom(lines, i + 2, i + |rows| + 2) == RowsAt(rows, i + 2)
  {
    var e := i + |rows| + 2;
    forall k | i + 2 <= k < e
      ensures RowLine(lines[k]) && SplitRowOf(lines[k]) == rows[k - i - 2]
    {
      assert lines[i + 2 + (k - i - 2)] == PrintRow(rows[k - i - 2]);
      FramedStrip(Body(rows[k - i - 2]));
      RowRoundTrip(rows[k - i - 2]);
    }
    RowsEndAt(lines, i + 2, e);
  }

  predicate GridSplits(header: seq<string>, rows: seq<seq<string>>) {
    Splits(header) && forall k :: 0 <= k < |rows| ==> Splits(rows[k])
  }

  lemma GridOpens(lines: seq<string>, i: nat, header: seq<string>, rows: seq<seq<string>>)
    requires header != [] && NoneEmpty(rows) && GridAt(lines, i, header, rows) && Splits(header)
    ensures RowLine(lines[i]) && SeparatorLine(lines[i + 1]) && !FenceLine(lines[i]) && HeadingOf(lines[i]) == None
    ensures SplitRowOf(lines[i]) == header
  {
    FramedStrip(Body(header));
    SeparatorRead(|header|);
    NoMark(lines[i]);
    RowRoundTrip(header);
  }

  lemma TableRead(read: Reader, lines: seq<string>, i: nat, e: nat, header: seq<string>, rows: seq<Row>, path: Path, clean: string -> string)
    requires Law(read, lines, clean) && i + 2 <= |lines| && RowsEnd(lines, i + 2) == e && e < |lines| && lines[e] == ""
    requires RowLine(lines[i]) && SeparatorLine(lines[i + 1]) && !FenceLine(lines[i]) && HeadingOf(lines[i]) == None
    requires SplitRowOf(lines[i]) == header && RowsFrom(lines, i + 2, e) == rows
    ensures var titles := Values(path, 6);
            read(i, false, path) == [Table(CleanAll(header, clean), rows, LastOf(titles), titles, i + 1)] + read(e + 1, false, path)
  {
    EmptyLineRead(read, lines, e, path, clean);
    assert LineAt(read, lines, clean, i, false, path);
  }

  lemma GridRead(read: Reader, lines: seq<string>, i: nat, header: seq<string>, rows: seq<seq<string>>, path: Path, clean: string -> string)
    requires Law(read, lines, clean)
    requires header != [] && NoneEmpty(rows) && GridAt(lines, i, header, rows) && GridSplits(header, rows)
    ensures var titles := Values(path, 6);
            read(i, false, path)
            == [Table(CleanAll(header, clean), RowsAt(rows, i + 2), LastOf(titles), titles, i + 1)]
               + read(i + |rows| + 3, false, path)
  {
    GridRows(lines, i, header, rows);
    GridOpens(lines, i, header, rows);
    TableRead(read, lines, i, i + |rows| + 2, header, RowsAt(rows, i + 2), path, clean);
  }

  // ---- the whole document

  lemma WritableTail(items: seq<Item>)
    requires items != [] && AllWritable(items)
    ensures Writable(items[0]) && AllWritable(items[1..])
  {
  }

  lemma PathAfter(heads: Heads, level: nat, title: string, clean: string -> string)
    ensures PathOf(heads + [Some((level, title))], clean) == Under(PathOf(heads, clean), level)[level := clean(title)]
  {
    assert (heads + [Some((level, title))])[..|heads|] == heads;
  }

  /** The item's lines stand at line i. */
  predicate StandsAt(lines: seq<string>, i: nat, item: Item)
    requires Writable(item)
  {
    var own := ItemLines(item);
    i + |own| <= |lines| && forall k :: 0 <= k < |own| ==> lines[i + k] == own[k]
  }

  lemma SectionStands(lines: seq<string>, i: nat, item: Item)
    requires item.Section? && Writable(item) && StandsAt(lines, i, item)
    ensures i < |lines| && lines[i] == Signs(item.level) + (" " + item.title)
  {
    assert lines[i + 0] == ItemLines(item)[0];
  }

  lemma CodeStands(lines: seq<string>, i: nat, item: Item)
    requires item.Code? && Writable(item) && StandsAt(lines, i, item)
    ensures CodeAt(lines, i, item.lines)
  {
    var own, n := ItemLines(item), |item.lines|;
    assert own[0] == "```" && own[n + 1] == "```";
    assert lines[i + 0] == own[0] && lines[i + (n + 1)] == own[n + 1];
    forall k | 0 <= k < n
      ensures lines[i + 1 + k] == item.lines[k]
    {
      assert lines[i + (1 + k)] == own[1 + k];
    }
  }

  lemma GridStands(lines: seq<string>, i: nat, item: Item)
    requires item.Grid? && Writable(item) && StandsAt(lines, i, item)
    ensures GridAt(lines, i, item.header, item.rows)
  {
    var own, n := ItemLines(item), |item.rows|;
    assert lines[i + 0] == own[0] && lines[i + 1] == own[1] && lines[i + (n + 2)] == own[n + 2];
    forall k | 0 <= k < n
      ensures lines[i + 2 + k] == PrintRow(item.rows[k])
    {
      assert lines[i + (2 + k)] == own[2 + k];
    }
  }

  /** From line i on the tables found are those expected. */
  ghost predicate Reads(read: Reader, lines: seq<string>, i: nat, items: seq<Item>, heads: Heads, clean: string -> string)
    requires AllWritable(items)
  {
    i <= |lines| && read(i, false, PathOf(heads, clean)) == Expected(items, heads, i, clean)
  }

  /** From line i on stand these items and no more. */
  predicate Follows(lines: seq<string>, i: nat, items: seq<Item>)
    requires AllWritable(items)
  {
    i <= |lines| && lines[i..] == PrintDocument(items)
  }

  function Size(item: Item): nat {
    match item
    case Section(_, _) => 1
    case Grid(_, rows) => |rows| + 3
    case Code(lines) => |lines| + 2
  }

  lemma FirstFollows(lines: seq<string>, i: nat, items: seq<Item>)
    requires items != [] && AllWritable(items) && Follows(lines, i, items)
    ensures StandsAt(lines, i, items[0]) && Follows(lines, i + Size(items[0]), items[1..])
  {
    WritableTail(items);
    SizeOf(items[0]);
    ItemStands(lines, i, items[0], PrintDocument(items[1..]));
  }

  lemma SizeOf(item: Item)
    requires Writable(item)
    ensures |ItemLines(item)| == Size(item)
  {
  }

  /** What its reading needs of the lines of an item. */
  predicate ItemAt(lines: seq<string>, i: nat, item: Item) {
    match item
    case Section(level, title) =>
      i < |lines| && lines[i] == Signs(level) + (" " + title) && 1 <= level <= 6 && NoLeadingSpace(title)
    case Code(code) => CodeAt(lines, i, code) && NoFence(lines, i + 1, i + |code| + 1)
    case Grid(header, rows) => header != [] && NoneEmpty(rows) && GridAt(lines, i, header, rows) && GridSplits(header, rows)
  }

  predicate ItemsAt(lines: seq<string>, i: nat, items: seq<Item>)
    decreases |items|
  {
    if items == [] then i == |lines| else ItemAt(lines, i, items[0]) && ItemsAt(lines, i + Size(items[0]), items[1..])
  }

  lemma {:induction false} AllPlaced(lines: seq<string>, i: nat, items: seq<Item>)
    requires AllWritable(items) && Follows(lines, i, items)
    ensures ItemsAt(lines, i, items)
    decreases |items|
  {
    if items == [] {
      NothingFollows(lines, i);
    } else {
      WritableTail(items);
      FirstFollows(lines, i, items);
      ItemPlaced(lines, i, items[0]);
      AllPlaced(lines, i + Size(items[0]), items[1..]);
      PlacedCons(lines, i, items);
    }
  }

  lemma NothingFollows(lines: seq<string>, i: nat)
    requires i <= |lines| && lines[i..] == PrintDocument([])
    ensures i == |lines|
  {
  }

  lemma PlacedCons(lines: seq<string>, i: nat, items: seq<Item>)
    requires items != [] && ItemAt(lines, i, items[0]) && ItemsAt(lines, i + Size(items[0]), items[1..])
    ensures ItemsAt(lines, i, items)
  {
  }

  lemma ItemPlaced(lines: seq<string>, i: nat, item: Item)
    requires Writable(item) && StandsAt(lines, i, item)
    ensures ItemAt(lines, i, item)
  {
    match item
    case Section(_, _) => SectionStands(lines, i, item);
    case Code(code) =>
      CodeStands(lines, i, item);
      CodeUnfenced(lines, i, code);
    case Grid(_, _) => GridStands(lines, i, item);
  }

  lemma SectionFound(read: Reader, lines: seq<string>, i: nat, item: Item, heads: Heads, clean: string -> string)
    requires Law(read, lines, clean)
    requires item.Section? && ItemAt(lines, i, item)
    ensures read(i, false, PathOf(heads, clean))
         == read(i + 1, false, PathOf(After(item, heads), clean))
  {
    SectionRead(read, lines, i, item.level, item.title, PathOf(heads, clean), clean);
    PathAfter(heads, item.level, item.title, clean);
  }

  lemma GridFound(read: Reader, lines: seq<string>, i: nat, item: Item, heads: Heads, clean: string -> string)
    requires Law(read, lines, clean)
    requires item.Grid? && ItemAt(lines, i, item) && Levelled(heads)
    ensures read(i, false, PathOf(heads, clean))
         == [GridTable(item.header, item.rows, heads, i, clean)]
            + read(i + |item.rows| + 3, false, PathOf(heads, clean))
  {
    GridRead(read, lines, i, item.header, item.rows, PathOf(heads, clean), clean);
    PathIsOpen(heads, 6, clean);
  }

  lemma ItemEnds(lines: seq<string>, i: nat, item: Item)
    requires ItemAt(lines, i, item)
    ensures i + Size(item) <= |lines|
  {
  }

  // The three ways in which the reading goes on with the next item.

  lemma AfterSection(read: Reader, lines: seq<string>, i: nat, items: seq<Item>, heads: Heads, clean: string -> string)
    requires Law(read, lines, clean) && items != [] && AllWritable(items) && items[0].Section? && ItemAt(lines, i, items[0])
    requires Reads(read, lines, i + 1, items[1..], After(items[0], heads), clean)
    ensures Reads(read, lines, i, items, heads, clean)
  {
    SectionFound(read, lines, i, items[0], heads, clean);
  }

  lemma AfterCode(read: Reader, lines: seq<string>, i: nat, items: seq<Item>, heads: Heads, clean: string -> string)
    requires Law(read, lines, clean) && items != [] && AllWritable(items) && items[0].Code? && ItemAt(lines, i, items[0])
    requires Reads(read, lines, i + |items[0].lines| + 2, items[1..], heads, clean)
    ensures Reads(read, lines, i, items, heads, clean)
  {
    CodeRead(read, lines, i, items[0].lines, PathOf(heads, clean), clean);
  }

  lemma AfterGrid(read: Reader, lines: seq<string>, i: nat, items: seq<Item>, heads: Heads, clean: string -> string)
    requires Law(read, lines, clean) && items != [] && AllWritable(items) && items[0].Grid? && ItemAt(lines, i, items[0])
    requires Levelled(heads) && Reads(read, lines, i + |items[0].rows| + 3, items[1..], heads, clean)
    ensures Reads(read, lines, i, items, heads, clean)
  {
    GridFound(read, lines, i, items[0], heads, clean);
  }

  lemma {:induction false} DocumentRead(read: Reader, lines: seq<string>, i: nat, items: seq<Item>, heads: Heads, clean: string -> string)
    requires Law(read, lines, clean)
    requires AllWritable(items) && ItemsAt(lines, i, items) && Levelled(heads)
    ensures Reads(read, lines, i, items, heads, clean)
    decreases |items|
  {
    if items == [] {
      assert AtEnd(read, lines, PathOf(heads, clean));
    } else {
      WritableTail(items);
      LevelledAfter(items[0], heads);
      ItemEnds(lines, i, items[0]);
      match items[0]
      case Section(_, _) =>
        DocumentRead(read, lines, i + 1, items[1..], After(items[0], heads), clean);
        AfterSection(read, lines, i, items, heads, clean);
      case Code(code) =>
        DocumentRead(read, lines, i + |code| + 2, items[1..], heads, clean);
        AfterCode(read, lines, i, items, heads, clean);
      case Grid(_, rows) =>
        DocumentRead(read, lines, i + |rows| + 3, items[1..], heads, clean);
        AfterGrid(read, lines, i, items, heads, clean);
    }
  }

  lemma LevelledAfter(item: Item, heads: Heads)
    requires Writable(item) && Levelled(heads)
    ensures Levelled(After(item, heads))
  {
  }

  function After(item: Item, heads: Heads): Heads {
    if item.Section? then heads + [Some((item.level, item.title))] else heads
  }

  lemma ItemStands(lines: seq<string>, i: nat, item: Item, more: seq<string>)
    requires i <= |lines| && Writable(item) && lines[i..] == ItemLines(item) + more
    ensures StandsAt(lines, i, item) && lines[i + |ItemLines(item)|..] == more
  {
    var own := ItemLines(item);
    forall k | 0 <= k < |own|
      ensures lines[i + k] == own[k]
    {
      assert lines[i..][k] == own[k];
    }
    assert lines[i..][|own|..] == more;
  }

  predicate AllOneLine(lines: seq<string>) { forall k :: 0 <= k < |lines| ==> OneLine(lines[k]) }

  lemma ItemOneLine(item: Item)
    requires Writable(item)
    ensures AllOneLine(ItemLines(item))
  {
    match item
    case Section(level, title) =>
      OneLineJoin(Signs(level), " " + title);
      OneLineJoin(" ", title);
    case Code(lines) =>
      assert OneLine("```");
    case Grid(header, rows) =>
      RowBreaks(header);
      SeparatorOneLine(|header|);
      forall k | 0 <= k < |rows|
        ensures OneLine(PrintRow(rows[k]))
      {
        RowBreaks(rows[k]);
      }
      TableOneLine(header, rows);
  }

  lemma TableOneLine(header: seq<string>, rows: seq<seq<string>>)
    requires header != [] && NoneEmpty(rows) && OneLine(PrintRow(header)) && OneLine(PrintSeparator(|header|))
    requires forall k :: 0 <= k < |rows| ==> OneLine(PrintRow(rows[k]))
    ensures AllOneLine(PrintTable(header, rows) + [""])
  {
    var lines := PrintTable(header, rows) + [""];
    forall k | 0 <= k < |lines|
      ensures OneLine(lines[k])
    {
      if 2 <= k < |rows| + 2 { assert lines[k] == PrintRow(rows[k - 2]); }
    }
  }

  lemma {:induction false} DocumentOneLine(items: seq<Item>)
    requires AllWritable(items)
    ensures AllOneLine(PrintDocument(items))
  {
    if items != [] {
      WritableTail(items);
      ItemOneLine(items[0]);
      DocumentOneLine(items[1..]);
    }
  }

  /** The text of a document of nested headings, tables and code blocks is read back as its
      tables, each with its cells, its line numbers and the titles it stands under; nothing in a
      code block is taken for a table or a heading. */
  lemma DocumentRoundTrip(items: seq<Item>, clean: string -> string)
    requires AllWritable(items)
    ensures TablesFrom(SplitLines(LinesText(PrintDocument(items))), 0, false, map[], clean) == Expected(items, [], 0, clean)
  {
    var lines := PrintDocument(items);
    DocumentLines(items);
    assert lines[0..] == lines;
    AllPlaced(lines, 0, items);
    ReaderKeepsLaw(lines, clean);
    DocumentRead(ReaderOf(lines, clean), lines, 0, items, [], clean);
  }

  lemma DocumentLines(items: seq<Item>)
    requires AllWritable(items)
    ensures SplitLines(LinesText(PrintDocument(items))) == PrintDocument(items)
  {
    var lines := PrintDocument(items);
    DocumentOneLine(items);
    SplitLinesPrefix(lines, |lines|);
    AllOfThem(lines);
  }

  lemma AllOfThem(lines: seq<string>)
    ensures lines[|lines|..] == [] && lines[..|lines|] == lines && LinesText(lines[|lines|..]) == ""
    ensures lines[..|lines|] + SplitLines("") == lines
  {
  }
}
