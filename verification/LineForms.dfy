/** scripts/coverage_to_xlsx.py: the forms of a Markdown line, each said as its parts written one
    after the other, with the reading of it exactly for the lines of that form. */
module LineForms {
  import opened Text
  import opened Cells
  import opened Tables
  import opened TablePrinting
  import Tiling

  // ---- blanks taken off

  predicate NoLeadingSpace(s: string) { s == "" || !IsSpace(s[0]) }

  predicate NoTrailingSpace(s: string) { s == "" || !IsSpace(s[|s| - 1]) }

  lemma {:induction false} LStripOf(gap: string, t: string)
    requires Blank(gap) && NoLeadingSpace(t)
    ensures LStrip(gap + t) == t
  {
    if gap == "" {
      assert gap + t == t;
    } else {
      assert (gap + t)[1..] == gap[1..] + t && IsSpace(gap[0]);
      LStripOf(gap[1..], t);
    }
  }

  lemma {:induction false} LStripForm(s: string) returns (gap: string)
    ensures Blank(gap) && s == gap + LStrip(s)
    ensures s != "" && IsSpace(s[0]) ==> gap != ""
  {
    if s == "" || !IsSpace(s[0]) {
      gap := "";
    } else {
      var more := LStripForm(s[1..]);
      gap := [s[0]] + more;
      assert s == [s[0]] + s[1..];
    }
  }

  lemma {:induction false} RStripOf(t: string, gap: string)
    requires Blank(gap) && NoTrailingSpace(t)
    ensures RStrip(t + gap) == t
  {
    if gap == "" {
      assert t + gap == t;
    } else {
      var n := |gap| - 1;
      assert IsSpace(gap[n]) && (t + gap)[..|t + gap| - 1] == t + gap[..n] && (t + gap)[|t + gap| - 1] == gap[n];
      RStripOf(t, gap[..n]);
    }
  }

  lemma {:induction false} RStripForm(s: string) returns (gap: string)
    ensures Blank(gap) && s == RStrip(s) + gap
  {
    if s == "" || !IsSpace(s[|s| - 1]) {
      gap := "";
    } else {
      var n := |s| - 1;
      var more := RStripForm(s[..n]);
      gap := more + [s[n]];
      assert s == s[..n] + [s[n]];
    }
  }

  lemma StripOf(front: string, t: string, back: string)
    requires Blank(front) && Blank(back) && NoLeadingSpace(t) && NoTrailingSpace(t) && t != ""
    ensures Strip(front + (t + back)) == t
  {
    assert (t + back)[0] == t[0];
    LStripOf(front, t + back);
    RStripOf(t, back);
  }

  lemma StripForm(s: string) returns (front: string, back: string)
    ensures Blank(front) && Blank(back) && s == front + (Strip(s) + back)
  {
    front := LStripForm(s);
    back := RStripForm(LStrip(s));
  }

  // ---- fences and rows

  ghost predicate Fenced(line: string) { exists gap, rest :: FenceParts(line, gap, rest) }

  predicate FenceParts(line: string, gap: string, rest: string) { Blank(gap) && line == gap + ("```" + rest) }

  /** A fence: blanks, three backticks, anything. */
  lemma FenceExactly(line: string)
    ensures FenceLine(line) <==> Fenced(line)
  {
    if FenceLine(line) { FenceForm(line); }
    if Fenced(line) {
      var gap, rest :| FenceParts(line, gap, rest);
      FenceOf(gap, rest);
    }
  }

  lemma FenceForm(line: string)
    requires FenceLine(line)
    ensures Fenced(line)
  {
    var gap := LStripForm(line);
    var t := LStrip(line);
    assert t == "```" + t[3..];
    assert FenceParts(line, gap, t[3..]);
  }

  lemma FenceOf(gap: string, rest: string)
    requires Blank(gap)
    ensures FenceLine(gap + ("```" + rest))
  {
    var t := "```" + rest;
    assert t[0] == '`' && t[1] == '`' && t[2] == '`';
    LStripOf(gap, t);
  }

  ghost predicate Rowed(line: string) { exists gap, rest :: RowParts(line, gap, rest) }

  predicate RowParts(line: string, gap: string, rest: string) { Blank(gap) && line == gap + ("|" + rest) }

  /** A row: blanks, a pipe, anything. */
  lemma RowExactly(line: string)
    ensures RowLine(line) <==> Rowed(line)
  {
    var t := LStrip(line);
    if RowLine(line) {
      FirstChar(line);
      var gap := LStripForm(line);
      assert t == "|" + t[1..];
      assert RowParts(line, gap, t[1..]);
    }
    if Rowed(line) {
      var gap, rest :| RowParts(line, gap, rest);
      LStripOf(gap, "|" + rest);
      RStripHead("|" + rest);
    }
  }

  // ---- headings

  /** That many number signs. */
  function Signs(n: nat): string { seq(n, i => '#') }

  predicate HeadingParts(line: string, n: nat, gap: string, title: string) {
    line == Signs(n) + (gap + title) && gap != "" && Blank(gap) && NoLeadingSpace(title)
  }

  ghost predicate Headed(line: string, n: nat, title: string) {
    1 <= n <= 6 && exists gap :: HeadingParts(line, n, gap, title)
  }

  lemma {:induction false} HashesOf(n: nat, rest: string)
    requires rest == "" || rest[0] != '#'
    ensures Hashes(Signs(n) + rest) == n
  {
    if n == 0 {
      assert Signs(0) + rest == rest;
    } else {
      assert (Signs(n) + rest)[1..] == Signs(n - 1) + rest;
      HashesOf(n - 1, rest);
    }
  }

  lemma {:induction false} HashesForm(line: string)
    ensures line == Signs(Hashes(line)) + line[Hashes(line)..]
  {
    if line != "" && line[0] == '#' {
      HashesForm(line[1..]);
      var n := Hashes(line[1..]);
      assert line == ['#'] + (Signs(n) + line[1..][n..]);
      assert Signs(n + 1) == ['#'] + Signs(n) && line[n + 1..] == line[1..][n..];
    }
  }

  /** A heading: one to six number signs, which are its level, at least one blank, and the title
      as far as the line goes. Every other line is none. */
  lemma HeadingExactly(line: string, n: nat, title: string)
    ensures HeadingOf(line) == Some((n, title)) <==> Headed(line, n, title)
  {
    if HeadingOf(line) == Some((n, title)) {
      HashesForm(line);
      var gap := LStripForm(line[n..]);
      assert line[n..][0] == line[n];
      assert HeadingParts(line, n, gap, title);
    }
    if Headed(line, n, title) {
      var gap :| HeadingParts(line, n, gap, title);
      assert IsSpace(gap[0]);
      HashesOf(n, gap + title);
      assert line[n..] == gap + title && line[n] == gap[0];
      LStripOf(gap, title);
    }
  }

  lemma NoHeading(line: string)
    ensures HeadingOf(line) == None <==> forall n: nat, title :: !Headed(line, n, title)
  {
    if HeadingOf(line).Some? {
      var (n, title) := HeadingOf(line).value;
      HeadingExactly(line, n, title);
    } else {
      forall n: nat, title: string
        ensures !Headed(line, n, title)
      {
        HeadingExactly(line, n, title);
      }
    }
  }

  // ---- separators

  function Dashed(n: nat): string { seq(n, i => '-') }

  predicate IsColon(s: string) { s == "" || s == ":" }

  /** Blanks, perhaps a colon, two dashes or more, perhaps a colon, blanks. */
  predicate DashParts(piece: string, front: string, left: string, n: nat, right: string, back: string) {
    && piece == front + ((left + (Dashed(n) + right)) + back)
    && Blank(front) && Blank(back) && IsColon(left) && IsColon(right) && n >= 2
  }

  ghost predicate DashForm(piece: string) { exists front, left, n, right, back :: DashParts(piece, front, left, n, right, back) }

  lemma AllDashesAre(s: string)
    ensures AllDashes(s) <==> |s| >= 2 && s == Dashed(|s|)
  {
    if AllDashes(s) { assert s == Dashed(|s|); }
    if s == Dashed(|s|) { assert forall i :: 0 <= i < |s| ==> s[i] == '-'; }
  }

  /** The core of a dash cell, without its blanks. */
  predicate DashCore(p: string) {
    var q := if p != "" && p[0] == ':' then p[1..] else p;
    AllDashes(if q != "" && q[|q| - 1] == ':' then q[..|q| - 1] else q)
  }

  lemma CoreForm(p: string) returns (left: string, n: nat, right: string)
    requires DashCore(p)
    ensures p == left + (Dashed(n) + right) && IsColon(left) && IsColon(right) && n >= 2
  {
    var q := if p != "" && p[0] == ':' then p[1..] else p;
    var d := if q != "" && q[|q| - 1] == ':' then q[..|q| - 1] else q;
    AllDashesAre(d);
    left := if p != "" && p[0] == ':' then ":" else "";
    right := if q != "" && q[|q| - 1] == ':' then ":" else "";
    n := |d|;
    assert q == d + right;
    assert p == left + q;
  }

  lemma CoreOf(left: string, n: nat, right: string)
    requires IsColon(left) && IsColon(right) && n >= 2
    ensures DashCore(left + (Dashed(n) + right))
  {
    var p := left + (Dashed(n) + right);
    var q := Dashed(n) + right;
    assert q[0] == '-';
    assert (if p[0] == ':' then p[1..] else p) == q;
    assert q[|q| - 1] == if right == "" then '-' else ':';
    assert (if q[|q| - 1] == ':' then q[..|q| - 1] else q) == Dashed(n);
    AllDashesAre(Dashed(n));
  }

  lemma DashCellExactly(piece: string)
    ensures DashCell(piece) <==> DashForm(piece)
  {
    if DashCell(piece) {
      var front, back := StripForm(piece);
      var left, n, right := CoreForm(Strip(piece));
      assert DashParts(piece, front, left, n, right, back);
    }
    if DashForm(piece) {
      var front, left, n, right, back :| DashParts(piece, front, left, n, right, back);
      var core := left + (Dashed(n) + right);
      assert !IsSpace(core[0]) && !IsSpace(core[|core| - 1]);
      StripOf(front, core, back);
      CoreOf(left, n, right);
    }
  }

  predicate BarOrNot(s: string) { s == "" || s == "|" }

  ghost predicate AllDashForms(pieces: seq<string>) { forall k :: 0 <= k < |pieces| ==> DashForm(pieces[k]) }

  lemma {:induction false} DashCellsForm(s: string) returns (pieces: seq<string>)
    requires DashCells(s)
    ensures pieces != [] && AllDashForms(pieces) && s == Join("|", pieces)
    decreases |s|
  {
    var k := PipeIndex(s);
    var first := s[..k];
    DashCellExactly(first);
    if k == |s| {
      pieces := [first];
      OneDashForm(first);
    } else {
      AtPipe(s);
      var rest := s[k + 1..];
      var more := DashCellsForm(rest);
      pieces := [first] + more;
      MoreDashForms(first, more);
      CutAt(s, k, rest);
    }
  }

  lemma CutAt(s: string, k: nat, rest: string)
    requires k < |s| && s[k] == '|' && rest == s[k + 1..]
    ensures s == s[..k] + ("|" + rest)
  {
  }

  lemma OneDashForm(piece: string)
    requires DashForm(piece)
    ensures AllDashForms([piece]) && Join("|", [piece]) == piece
  {
  }

  lemma MoreDashForms(piece: string, more: seq<string>)
    requires DashForm(piece) && AllDashForms(more) && more != []
    ensures AllDashForms([piece] + more) && Join("|", [piece] + more) == piece + ("|" + Join("|", more))
  {
    JoinCons("|", piece, more);
  }

  lemma {:induction false} AtPipe(s: string)
    requires PipeIndex(s) < |s|
    ensures s[PipeIndex(s)] == '|'
  {
    if s[0] != '|' { AtPipe(s[1..]); }
  }

  /** No pipe inside one. */
  lemma DashFormPlain(piece: string)
    requires DashForm(piece)
    ensures piece != "" && '|' !in piece
  {
    var front, left, n, right, back :| DashParts(piece, front, left, n, right, back);
    assert '|' !in front && '|' !in back && '|' !in left && '|' !in right && '|' !in Dashed(n);
  }

  lemma {:induction false} DashCellsOf(pieces: seq<string>)
    requires pieces != [] && AllDashForms(pieces)
    ensures DashCells(Join("|", pieces))
  {
    DashFormPlain(pieces[0]);
    DashCellExactly(pieces[0]);
    if |pieces| == 1 {
      NoPipe(pieces[0]);
      assert pieces[0][..|pieces[0]|] == pieces[0];
    } else {
      DashCellsOf(pieces[1..]);
      DashCellsCons(pieces[0], Join("|", pieces[1..]));
      JoinCons("|", pieces[0], pieces[1..]);
      assert [pieces[0]] + pieces[1..] == pieces;
    }
  }

  lemma {:induction false} JoinEnds(pieces: seq<string>)
    requires pieces != [] && AllDashForms(pieces)
    ensures var s := Join("|", pieces); s != "" && s[0] != '|' && s[|s| - 1] != '|'
  {
    DashFormPlain(pieces[0]);
    if |pieces| > 1 {
      JoinEnds(pieces[1..]);
      JoinCons("|", pieces[0], pieces[1..]);
      assert [pieces[0]] + pieces[1..] == pieces;
    }
  }

  predicate SeparatorParts(s: string, lead: string, pieces: seq<string>, trail: string) {
    s == lead + (Join("|", pieces) + trail) && BarOrNot(lead) && BarOrNot(trail) && pieces != []
  }

  /** Dash cells with pipes between them, and perhaps one at either end. */
  ghost predicate SeparatorForm(s: string) {
    exists lead, pieces, trail :: SeparatorParts(s, lead, pieces, trail) && AllDashForms(pieces)
  }

  lemma SeparatorExactly(line: string)
    ensures SeparatorLine(line) <==> SeparatorForm(Strip(line))
  {
    if SeparatorLine(line) { SeparatorParsed(line); }
    if SeparatorForm(Strip(line)) {
      var lead, pieces, trail :| SeparatorParts(Strip(line), lead, pieces, trail) && AllDashForms(pieces);
      SeparatorOfParts(line, lead, pieces, trail);
    }
  }

  lemma SeparatorParsed(line: string)
    requires SeparatorLine(line)
    ensures SeparatorForm(Strip(line))
  {
    var s := Strip(line);
    var t := if StartsPipe(s) then s[1..] else s;
    var body := if StartsPipe(t) || t == "" || t[|t| - 1] != '|' then t else t[..|t| - 1];
    assert DashCells(body);
    var pieces := DashCellsForm(body);
    var lead, trail := (if StartsPipe(s) then "|" else ""), (if t == body then "" else "|");
    Unframing(s, t, body, lead, trail);
    assert SeparatorParts(s, lead, pieces, trail);
  }

  lemma Unframing(s: string, t: string, body: string, lead: string, trail: string)
    requires t == if StartsPipe(s) then s[1..] else s
    requires body == if StartsPipe(t) || t == "" || t[|t| - 1] != '|' then t else t[..|t| - 1]
    requires lead == (if StartsPipe(s) then "|" else "") && trail == (if t == body then "" else "|")
    ensures s == lead + (body + trail)
  {
    assert t == body + trail;
    assert s == lead + t;
  }

  lemma SeparatorOfParts(line: string, lead: string, pieces: seq<string>, trail: string)
    requires SeparatorParts(Strip(line), lead, pieces, trail) && AllDashForms(pieces)
    ensures SeparatorLine(line)
  {
    var s, body := Strip(line), Join("|", pieces);
    JoinEnds(pieces);
    DashCellsOf(pieces);
    Framing(s, body, lead, trail);
  }

  lemma Framing(s: string, body: string, lead: string, trail: string)
    requires s == lead + (body + trail) && BarOrNot(lead) && BarOrNot(trail)
    requires body != "" && body[0] != '|' && body[|body| - 1] != '|'
    ensures var t := if StartsPipe(s) then s[1..] else s;
            t != "" && !StartsPipe(t) && (if t[|t| - 1] != '|' then t else t[..|t| - 1]) == body
  {
    var t := body + trail;
    assert (if StartsPipe(s) then s[1..] else s) == t;
    assert t[0] == body[0];
  }

  // ---- which lines stand in a fence

  /** The fences above a line. */
  function FencesAbove(lines: seq<string>, i: nat): set<nat>
    requires i <= |lines|
  {
    set k | 0 <= k < i && FenceLine(lines[k])
  }

  /** A line stands in a fence when an odd number of fences stands above it. */
  lemma {:induction false} InFenceExactly(lines: seq<string>, i: nat)
    requires i <= |lines|
    ensures InFence(lines, i) <==> |FencesAbove(lines, i)| % 2 == 1
    decreases i
  {
    if i == 0 {
      assert FencesAbove(lines, 0) == {};
    } else {
      InFenceExactly(lines, i - 1);
      OneFenceMore(lines, i - 1);
    }
  }

  lemma OneFenceMore(lines: seq<string>, i: nat)
    requires i < |lines|
    ensures |FencesAbove(lines, i + 1)| == |FencesAbove(lines, i)| + if FenceLine(lines[i]) then 1 else 0
  {
    var before := FencesAbove(lines, i);
    if FenceLine(lines[i]) {
      assert FencesAbove(lines, i + 1) == before + {i};
    } else {
      assert FencesAbove(lines, i + 1) == before;
    }
  }

  lemma {:induction false} TablesAtLines(lines: seq<string>, starts: seq<nat>, clean: string -> string, k: nat)
    requires Roomy(lines, starts) && k < |starts|
    ensures k < |TablesAt(lines, starts, clean)| && TablesAt(lines, starts, clean)[k] == TableAt(lines, starts[k], clean)
  {
    if k > 0 { TablesAtLines(lines, starts[1..], clean, k - 1); }
  }

  lemma {:induction false} TablesAtSize(lines: seq<string>, starts: seq<nat>, clean: string -> string)
    requires Roomy(lines, starts)
    ensures |TablesAt(lines, starts, clean)| == |starts|
  {
    if starts != [] { TablesAtSize(lines, starts[1..], clean); }
  }

  /** A table between two fence lines is not found: every table stands on a row line above a
      separator, with an even number of fences above it. */
  lemma NoneInFence(lines: seq<string>, clean: string -> string, k: nat)
    requires k < |TablesFrom(lines, 0, false, map[], clean)|
    ensures var i := TablesFrom(lines, 0, false, map[], clean)[k].line - 1;
            && 0 <= i < |lines| - 1 && |FencesAbove(lines, i)| % 2 == 0
            && Rowed(lines[i]) && SeparatorForm(Strip(lines[i + 1]))
  {
    var i := FoundAt(lines, clean, k);
    OpensForms(lines, i);
  }

  /** Where a table was found. */
  lemma FoundAt(lines: seq<string>, clean: string -> string, k: nat) returns (i: nat)
    requires k < |TablesFrom(lines, 0, false, map[], clean)|
    ensures Opens(lines, i) && TablesFrom(lines, 0, false, map[], clean)[k] == TableAt(lines, i, clean)
  {
    var starts := TablesAreAll(lines, clean);
    TablesAtSize(lines, starts, clean);
    TablesAtLines(lines, starts, clean, k);
    StartsOpen(lines, 0, starts, k);
    i := starts[k];
  }

  lemma OpensForms(lines: seq<string>, i: nat)
    requires Opens(lines, i)
    ensures |FencesAbove(lines, i)| % 2 == 0 && Rowed(lines[i]) && SeparatorForm(Strip(lines[i + 1]))
  {
    InFenceExactly(lines, i);
    RowExactly(lines[i]);
    SeparatorExactly(lines[i + 1]);
  }

  lemma {:induction false} StartsOpen(lines: seq<string>, from: nat, starts: seq<nat>, k: nat)
    requires Tiling.Tiles(Openings(lines), Endings(lines), from, starts, |lines|) && k < |starts|
    ensures Opens(lines, starts[k])
    decreases |starts|
  {
    if k > 0 { StartsOpen(lines, Endings(lines)(starts[0]), starts[1..], k - 1); }
  }
}
