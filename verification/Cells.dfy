/** scripts/coverage_to_xlsx.py, `split_row`: the cells of a Markdown table row. */
module Cells {
  import opened Text

  function LStrip(s: string): (r: string)
    ensures r == "" || !IsSpace(r[0])
  {
    if s == "" || !IsSpace(s[0]) then s else LStrip(s[1..])
  }

  function RStrip(s: string): (r: string)
    ensures r == "" || !IsSpace(r[|r| - 1])
  {
    if s == "" || !IsSpace(s[|s| - 1]) then s else RStrip(s[..|s| - 1])
  }

  function Strip(s: string): string { RStrip(LStrip(s)) }

  predicate StartsPipe(s: string) { s != "" && s[0] == '|' }

  predicate EndsPipe(s: string) { s != "" && s[|s| - 1] == '|' && !(|s| >= 2 && s[|s| - 2] == '\\') }

  function Unframed(line: string): string {
    var s := Strip(line);
    var t := if StartsPipe(s) then s[1..] else s;
    if EndsPipe(t) then t[..|t| - 1] else t
  }

  predicate EscapedPipe(s: string) { |s| >= 2 && s[0] == '\\' && s[1] == '|' }

  /** The cells of what remains, given the cell so far and whether a code span is open. */
  function Scan(s: string, inCode: bool, buf: string): seq<string> {
    if s == "" then [buf]
    else if EscapedPipe(s) then Scan(s[2..], inCode, buf + "|")
    else if s[0] == '|' && !inCode then [buf] + Scan(s[1..], inCode, "")
    else Scan(s[1..], if s[0] == '`' then !inCode else inCode, buf + [s[0]])
  }

  function StripAll(cells: seq<string>): (r: seq<string>)
    ensures |r| == |cells| && forall k :: 0 <= k < |cells| ==> r[k] == Strip(cells[k])
  {
    seq(|cells|, k requires 0 <= k < |cells| => Strip(cells[k]))
  }

  function SplitRowOf(line: string): seq<string> { StripAll(Scan(Unframed(line), false, "")) }

  method SplitRow(line: string) returns (r: seq<string>)
    ensures r == SplitRowOf(line)
  {
    var s := Strip(line);
    if StartsPipe(s) {
      s := s[1..];
    }
    if EndsPipe(s) {
      s := s[..|s| - 1];
    }
    var cells: seq<string>, buf, inCode, i := [], "", false, 0;
    while i < |s|
      invariant 0 <= i <= |s|
      invariant cells + Scan(s[i..], inCode, buf) == Scan(s, false, "")
    {
      var ch := s[i];
      assert s[i..][0] == ch && s[i..][1..] == s[i + 1..];
      if ch == '\\' && i + 1 < |s| && s[i + 1] == '|' {
        assert EscapedPipe(s[i..]) && s[i..][2..] == s[i + 2..];
        buf := buf + "|";
        i := i + 2;
        continue;
      }
      assert !EscapedPipe(s[i..]);
      if ch == '`' {
        inCode := !inCode;
      }
      if ch == '|' && !inCode {
        cells := cells + [buf];
        buf := "";
      } else {
        buf := buf + [ch];
      }
      i := i + 1;
    }
    cells := cells + [buf];
    r := seq(|cells|, k requires 0 <= k < |cells| => Strip(cells[k]));
  }

  // ---- the natural printer

  function Escape(cell: string): string {
    if cell == "" then "" else (if cell[0] == '|' then "\\|" else [cell[0]]) + Escape(cell[1..])
  }

  /** ` c1 | c2 | … | cn ` */
  function Body(cells: seq<string>): string
    requires cells != []
  {
    " " + (Escape(cells[0]) + (" " + (if |cells| == 1 then "" else "|" + Body(cells[1..]))))
  }

  /** `| c1 | c2 |` */
  function PrintRow(cells: seq<string>): string
    requires cells != []
  {
    "|" + (Body(cells) + "|")
  }

  predicate OddTicks(s: string) {
    s != "" && (if s[0] == '`' then !OddTicks(s[1..]) else OddTicks(s[1..]))
  }

  /** No cell but the last leaves a code span open. */
  predicate SpansClosed(cells: seq<string>) {
    |cells| <= 1 || (!OddTicks(cells[0]) && SpansClosed(cells[1..]))
  }

  predicate Trimmed(cells: seq<string>) { forall k :: 0 <= k < |cells| ==> Strip(cells[k]) == cells[k] }

  // ---- scanning what was printed

  lemma EscapeHead(cell: string)
    ensures Escape(cell) != "" ==> Escape(cell)[0] != '|'
  {
  }

  lemma ScanPlain(c: char, rest: string, inCode: bool, buf: string)
    requires c != '|' && (c == '\\' ==> rest == "" || rest[0] != '|')
    ensures Scan([c] + rest, inCode, buf) == Scan(rest, if c == '`' then !inCode else inCode, buf + [c])
  {
  }

  lemma ScanEscaped(rest: string, inCode: bool, buf: string)
    ensures Scan("\\|" + rest, inCode, buf) == Scan(rest, inCode, buf + "|")
  {
  }

  lemma ScanSplit(rest: string, buf: string)
    ensures Scan("|" + rest, false, buf) == [buf] + Scan(rest, false, "")
  {
  }

  lemma ScanSwallow(rest: string, buf: string)
    ensures Scan("|" + rest, true, buf) == Scan(rest, true, buf + "|")
  {
  }

  function Flip(inCode: bool, cell: string): bool { if OddTicks(cell) then !inCode else inCode }

  /** An escaped cell is read back as it was, whatever it holds. */
  lemma {:induction false} ScanCell(cell: string, rest: string, inCode: bool, buf: string)
    requires rest != "" && rest[0] != '|'
    ensures Scan(Escape(cell) + rest, inCode, buf) == Scan(rest, Flip(inCode, cell), buf + cell)
  {
    if cell == "" {
      assert Escape(cell) + rest == rest && buf + cell == buf;
    } else {
      var c, more := cell[0], cell[1..];
      ScanStep(c, more, rest, inCode, buf);
      ScanCell(more, rest, if c == '`' then !inCode else inCode, buf + [c]);
      Assoc(buf, [c], more);
      assert [c] + more == cell;
    }
  }

  lemma ScanStep(c: char, more: string, rest: string, inCode: bool, buf: string)
    requires rest != "" && rest[0] != '|'
    ensures Scan(Escape([c] + more) + rest, inCode, buf)
         == Scan(Escape(more) + rest, if c == '`' then !inCode else inCode, buf + [c])
  {
    assert ([c] + more)[1..] == more;
    EscapeHead(more);
    if c == '|' {
      Assoc("\\|", Escape(more), rest);
      ScanEscaped(Escape(more) + rest, inCode, buf);
    } else {
      Assoc([c], Escape(more), rest);
      ScanPlain(c, Escape(more) + rest, inCode, buf);
    }
  }

  function Padded(cell: string): string { " " + (cell + " ") }

  /** A printed cell with its blanks. */
  lemma ScanPadded(cell: string, tail: string, inCode: bool, buf: string)
    ensures Scan(" " + (Escape(cell) + (" " + tail)), inCode, buf) == Scan(tail, Flip(inCode, cell), buf + Padded(cell))
  {
    ScanPlain(' ', Escape(cell) + (" " + tail), inCode, buf);
    ScanCell(cell, " " + tail, inCode, buf + " ");
    ScanPlain(' ', tail, Flip(inCode, cell), (buf + " ") + cell);
    assert ((buf + " ") + cell) + " " == buf + Padded(cell);
  }

  function PadAll(cells: seq<string>): seq<string> {
    if cells == [] then [] else [Padded(cells[0])] + PadAll(cells[1..])
  }

  lemma {:induction false} ScanClosed(cells: seq<string>)
    requires cells != [] && SpansClosed(cells)
    ensures Scan(Body(cells), false, "") == PadAll(cells)
  {
    var tail := if |cells| == 1 then "" else "|" + Body(cells[1..]);
    ScanPadded(cells[0], tail, false, "");
    assert "" + Padded(cells[0]) == Padded(cells[0]);
    if |cells| > 1 {
      ScanSplit(Body(cells[1..]), Padded(cells[0]));
      ScanClosed(cells[1..]);
    } else {
      assert PadAll(cells[1..]) == [];
    }
  }

  /** At most one cell is found for each printed. */
  lemma {:induction false} ScanAtMost(cells: seq<string>, inCode: bool, buf: string)
    requires cells != []
    ensures |Scan(Body(cells), inCode, buf)| <= |cells|
  {
    var tail := if |cells| == 1 then "" else "|" + Body(cells[1..]);
    ScanPadded(cells[0], tail, inCode, buf);
    if |cells| > 1 {
      if Flip(inCode, cells[0]) {
        ScanSwallow(Body(cells[1..]), buf + Padded(cells[0]));
        ScanAtMost(cells[1..], true, buf + Padded(cells[0]) + "|");
      } else {
        ScanSplit(Body(cells[1..]), buf + Padded(cells[0]));
        ScanAtMost(cells[1..], false, "");
      }
    }
  }

  /** A span left open swallows a separator. */
  lemma {:induction false} ScanFewer(cells: seq<string>, buf: string)
    requires cells != [] && !SpansClosed(cells)
    ensures |Scan(Body(cells), false, buf)| < |cells|
  {
    ScanPadded(cells[0], "|" + Body(cells[1..]), false, buf);
    if OddTicks(cells[0]) {
      ScanSwallow(Body(cells[1..]), buf + Padded(cells[0]));
      ScanAtMost(cells[1..], true, buf + Padded(cells[0]) + "|");
    } else {
      ScanSplit(Body(cells[1..]), buf + Padded(cells[0]));
      ScanFewer(cells[1..], "");
    }
  }

  // ---- stripping

  lemma {:induction false} RStripSpace(s: string)
    ensures RStrip(s + " ") == RStrip(s)
  {
  }

  lemma LStripAppend(s: string, t: string)
    requires LStrip(s) != ""
    ensures LStrip(s + t) == LStrip(s) + t
  {
    if !IsSpace(s[0]) {
      assert (s + t)[0] == s[0];
    } else {
      assert (s + t)[1..] == s[1..] + t;
      LStripAppend(s[1..], t);
    }
  }

  lemma {:induction false} LStripBlank(s: string)
    requires LStrip(s) == ""
    ensures LStrip(s + " ") == ""
  {
    if s == "" {
      assert " "[1..] == "";
    } else {
      assert (s + " ")[1..] == s[1..] + " ";
      LStripBlank(s[1..]);
    }
  }

  lemma StripPadded(cell: string)
    ensures Strip(Padded(cell)) == Strip(cell)
  {
    assert Padded(cell)[1..] == cell + " ";
    if LStrip(cell) == "" {
      LStripBlank(cell);
    } else {
      LStripAppend(cell, " ");
      RStripSpace(LStrip(cell));
    }
  }

  lemma {:induction false} StripPadAll(cells: seq<string>)
    ensures StripAll(PadAll(cells)) == StripAll(cells)
  {
    if cells != [] {
      StripPadded(cells[0]);
      StripPadAll(cells[1..]);
      StripAllCons(Padded(cells[0]), PadAll(cells[1..]));
      StripAllCons(cells[0], cells[1..]);
      assert [cells[0]] + cells[1..] == cells;
    } else {
      assert PadAll(cells) == cells;
    }
  }

  lemma StripAllCons(cell: string, cells: seq<string>)
    ensures StripAll([cell] + cells) == [Strip(cell)] + StripAll(cells)
  {
  }

  lemma TrimmedIs(cells: seq<string>)
    ensures StripAll(cells) == cells <==> Trimmed(cells)
  {
  }

  lemma {:induction false} RStripTwice(s: string)
    ensures RStrip(RStrip(s)) == RStrip(s)
  {
  }

  lemma {:induction false} RStripHead(s: string)
    requires s != "" && !IsSpace(s[0])
    ensures RStrip(s) != "" && RStrip(s)[0] == s[0]
  {
    if IsSpace(s[|s| - 1]) { RStripHead(s[..|s| - 1]); }
  }

  lemma StripTwice(s: string)
    ensures Strip(Strip(s)) == Strip(s)
  {
    var t := LStrip(s);
    if t != "" {
      RStripHead(t);
    }
    assert LStrip(RStrip(t)) == RStrip(t);
    RStripTwice(t);
  }

  // ---- the round trip

  lemma FrameRemoved(cells: seq<string>)
    requires cells != []
    ensures Unframed(PrintRow(cells)) == Body(cells)
  {
    var s := PrintRow(cells);
    assert s[0] == '|' && s[|s| - 1] == '|';
    assert Strip(s) == s;
    var t := s[1..];
    assert t == Body(cells) + "|";
    BodyEnd(cells);
    assert t[|t| - 2] == ' ' && t[..|t| - 1] == Body(cells);
  }

  lemma {:induction false} BodyEnd(cells: seq<string>)
    requires cells != []
    ensures Body(cells) != "" && Body(cells)[|Body(cells)| - 1] == ' '
  {
    if |cells| > 1 { BodyEnd(cells[1..]); }
  }

  /** Splitting undoes printing exactly when every cell is trimmed and every cell but the last
      closes its code spans. */
  lemma RowRoundTrip(cells: seq<string>)
    requires cells != []
    ensures SplitRowOf(PrintRow(cells)) == cells <==> Trimmed(cells) && SpansClosed(cells)
  {
    FrameRemoved(cells);
    if SpansClosed(cells) {
      ScanClosed(cells);
      StripPadAll(cells);
      TrimmedIs(cells);
    } else {
      ScanFewer(cells, "");
    }
  }

  /** Whatever the row, the cells found are trimmed, so printing and splitting them again
      changes nothing unless one leaves a span open. */
  lemma SplitIsStable(line: string)
    ensures var cells := SplitRowOf(line);
            && cells != [] && Trimmed(cells)
            && (SplitRowOf(PrintRow(cells)) == cells <==> SpansClosed(cells))
  {
    var cells := SplitRowOf(line);
    var raw := Scan(Unframed(line), false, "");
    ScanFinds(Unframed(line), false, "");
    forall k | 0 <= k < |cells|
      ensures Strip(cells[k]) == cells[k]
    {
      StripTwice(raw[k]);
    }
    RowRoundTrip(cells);
  }

  lemma {:induction false} ScanFinds(s: string, inCode: bool, buf: string)
    ensures Scan(s, inCode, buf) != []
    decreases |s|
  {
    if s != "" {
      if EscapedPipe(s) {
        ScanFinds(s[2..], inCode, buf + "|");
      } else if s[0] != '|' || inCode {
        ScanFinds(s[1..], if s[0] == '`' then !inCode else inCode, buf + [s[0]]);
      }
    }
  }
}
