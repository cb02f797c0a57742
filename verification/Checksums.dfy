/** The bundle's checksum file: written by deploy/make_bundle.py (`build_manifest`, `main`) and
    read back by deploy/kit.py (`Bundle.verify`). */
module Checksums {
  import opened Text

  datatype Entry = Entry(digest: string, path: string)

  /** The files below a directory, by relative path. */
  type Tree = map<string, string>

  const SUMS: string := "SHA256SUMS"
  const GAP: string := "  "

  // ---- the writer

  function EntriesOf(paths: seq<string>, tree: Tree, sha: string -> string): seq<Entry>
    requires forall i :: 0 <= i < |paths| ==> paths[i] in tree
  {
    seq(|paths|, i requires 0 <= i < |paths| => Entry(sha(tree[paths[i]]), paths[i]))
  }

  method BuildManifest(paths: seq<string>, tree: Tree, sha: string -> string) returns (entries: seq<Entry>)
    requires forall i :: 0 <= i < |paths| ==> paths[i] in tree
    ensures entries == EntriesOf(paths, tree, sha)
  {
    entries := [];
    for i := 0 to |paths|
      invariant entries == EntriesOf(paths[..i], tree, sha)
    {
      entries := entries + [Entry(sha(tree[paths[i]]), paths[i])];
    }
    assert paths[..|paths|] == paths;
  }

  function SumsText(entries: seq<Entry>): string {
    if entries == [] then "" else entries[0].digest + (GAP + (entries[0].path + ("\n" + SumsText(entries[1..]))))
  }

  // ---- the reader

  /** Where the first gap starts, or the length. */
  function GapIndex(s: string): (k: nat)
    ensures k <= |s|
  {
    if |s| < 2 then |s| else if s[0] == ' ' && s[1] == ' ' then 0 else 1 + GapIndex(s[1..])
  }

  /** `line.partition("  ")` without its middle. */
  function ParseLine(line: string): Entry {
    var k := GapIndex(line);
    if k + 2 <= |line| then Entry(line[..k], line[k + 2..]) else Entry(line, "")
  }

  function ParseLines(lines: seq<string>): seq<Entry> {
    if lines == [] then []
    else (if Blank(lines[0]) then [] else [ParseLine(lines[0])]) + ParseLines(lines[1..])
  }

  function ReadSums(text: string): seq<Entry> { ParseLines(SplitLines(text)) }

  datatype Problem = Missing(path: string) | Mismatch(path: string)
  datatype Error = NoSums | Bad(first: seq<Problem>)

  predicate Matches(e: Entry, tree: Tree, sha: string -> string) {
    e.path in tree && sha(tree[e.path]) == e.digest
  }

  function ProblemOf(e: Entry, tree: Tree, sha: string -> string): seq<Problem> {
    if e.path !in tree then [Missing(e.path)] else if sha(tree[e.path]) != e.digest then [Mismatch(e.path)] else []
  }

  function Problems(entries: seq<Entry>, tree: Tree, sha: string -> string): seq<Problem> {
    if entries == [] then [] else ProblemOf(entries[0], tree, sha) + Problems(entries[1..], tree, sha)
  }

  function LineProblems(lines: seq<string>, tree: Tree, sha: string -> string): seq<Problem> {
    Problems(ParseLines(lines), tree, sha)
  }

  method Verify(tree: Tree, sha: string -> string) returns (r: Result<nat, Error>)
    ensures SUMS !in tree ==> r == Failure(NoSums)
    ensures SUMS in tree ==>
      var entries := ReadSums(tree[SUMS]);
      var bad := Problems(entries, tree, sha);
      r == if bad == [] then Success(|entries|) else Failure(Bad(if |bad| <= 10 then bad else bad[..10]))
  {
    if SUMS !in tree {
      return Failure(NoSums);
    }
    var lines := SplitLines(tree[SUMS]);
    var bad: seq<Problem> := [];
    var count := 0;
    for i := 0 to |lines|
      invariant bad + LineProblems(lines[i..], tree, sha) == LineProblems(lines, tree, sha)
      invariant count + |ParseLines(lines[i..])| == |ParseLines(lines)|
    {
      OneMoreLine(lines, i, bad, tree, sha);
      if Blank(lines[i]) {
        continue;
      }
      var e := ParseLine(lines[i]);
      count := count + 1;
      var found: seq<Problem> := [];
      if e.path !in tree {
        found := [Missing(e.path)];
      } else if sha(tree[e.path]) != e.digest {
        found := [Mismatch(e.path)];
      }
      bad := bad + found;
    }
    AllLines(lines, bad, tree, sha);
    if bad != [] {
      return Failure(Bad(if |bad| <= 10 then bad else bad[..10]));
    }
    r := Success(count);
  }

  lemma AllLines(lines: seq<string>, bad: seq<Problem>, tree: Tree, sha: string -> string)
    ensures bad + LineProblems(lines[|lines|..], tree, sha) == bad && |ParseLines(lines[|lines|..])| == 0
  {
  }

  /** What one line adds to the problems and to the count. */
  lemma OneMoreLine(lines: seq<string>, i: nat, bad: seq<Problem>, tree: Tree, sha: string -> string)
    requires i < |lines|
    ensures var more := if Blank(lines[i]) then [] else ProblemOf(ParseLine(lines[i]), tree, sha);
            bad + LineProblems(lines[i..], tree, sha) == (bad + more) + LineProblems(lines[i + 1..], tree, sha)
    ensures bad + [] == bad
    ensures |ParseLines(lines[i..])| == (if Blank(lines[i]) then 0 else 1) + |ParseLines(lines[i + 1..])|
  {
    assert lines[i..][0] == lines[i] && lines[i..][1..] == lines[i + 1..];
    if Blank(lines[i]) {
      assert ParseLines(lines[i..]) == ParseLines(lines[i + 1..]);
      assert bad + [] == bad;
    } else {
      ParsedHead(lines[i..]);
      Assoc(bad, ProblemOf(ParseLine(lines[i]), tree, sha), LineProblems(lines[i + 1..], tree, sha));
    }
  }

  lemma ParsedHead(lines: seq<string>)
    requires lines != [] && !Blank(lines[0])
    ensures ParseLines(lines) == [ParseLine(lines[0])] + ParseLines(lines[1..])
    ensures ParseLines(lines)[0] == ParseLine(lines[0]) && ParseLines(lines)[1..] == ParseLines(lines[1..])
  {
  }

  /** No two blanks stand together in front of this position. */
  predicate NoGapBefore(line: string, n: nat)
    requires n <= |line|
  {
    forall i :: 0 <= i < n && i + 1 < |line| ==> !(line[i] == ' ' && line[i + 1] == ' ')
  }

  lemma {:induction false} GapIsFirst(line: string)
    ensures var k := GapIndex(line); NoGapBefore(line, k) && (k + 2 <= |line| ==> line[k] == ' ' && line[k + 1] == ' ')
    ensures GapIndex(line) + 2 > |line| ==> GapIndex(line) == |line|
  {
    if |line| >= 2 && !(line[0] == ' ' && line[1] == ' ') {
      GapIsFirst(line[1..]);
      forall i | 0 <= i < GapIndex(line) && i + 1 < |line|
        ensures !(line[i] == ' ' && line[i + 1] == ' ')
      {
        assert i > 0 ==> line[i] == line[1..][i - 1] && line[i + 1] == line[1..][i];
      }
    }
  }

  lemma GapAt(line: string, n: nat)
    requires n + 2 <= |line| && line[n] == ' ' && line[n + 1] == ' ' && NoGapBefore(line, n)
    ensures GapIndex(line) == n
  {
    GapIsFirst(line);
  }

  /** A line is cut at its first gap; without a gap all of it is the digest. */
  lemma ParseLineExactly(digest: string, path: string)
    ensures NoGapBefore(digest + ("  " + path), |digest|) ==> ParseLine(digest + ("  " + path)) == Entry(digest, path)
    ensures NoGapBefore(digest, |digest|) ==> ParseLine(digest) == Entry(digest, "")
  {
    var line := digest + ("  " + path);
    GapIsFirst(digest);
    assert line[|digest|] == ' ' && line[|digest| + 1] == ' ';
    assert line[..|digest|] == digest && line[|digest| + 2..] == path;
    if NoGapBefore(line, |digest|) { GapAt(line, |digest|); }
  }

  lemma LineAlone(line: string)
    ensures ParseLines([line]) == if Blank(line) then [] else [ParseLine(line)]
  {
    assert [line][1..] == [];
  }

  /** Line after line; a blank one is passed over. */
  lemma {:induction false} LinesJoin(a: seq<string>, b: seq<string>)
    ensures ParseLines(a + b) == ParseLines(a) + ParseLines(b)
  {
    if a == [] {
      assert a + b == b;
    } else {
      assert (a + b)[0] == a[0] && (a + b)[1..] == a[1..] + b;
      LinesJoin(a[1..], b);
    }
  }

  /** An entry is reported when its file is missing and when the file has another digest. */
  lemma ProblemAlone(e: Entry, tree: Tree, sha: string -> string)
    ensures Problems([e], tree, sha) ==
            if e.path !in tree then [Missing(e.path)] else if sha(tree[e.path]) != e.digest then [Mismatch(e.path)] else []
  {
    assert [e][1..] == [];
  }

  /** Entry after entry. */
  lemma {:induction false} ProblemsJoin(a: seq<Entry>, b: seq<Entry>, tree: Tree, sha: string -> string)
    ensures Problems(a + b, tree, sha) == Problems(a, tree, sha) + Problems(b, tree, sha)
  {
    if a == [] {
      assert a + b == b;
    } else {
      assert (a + b)[0] == a[0] && (a + b)[1..] == a[1..] + b;
      ProblemsJoin(a[1..], b, tree, sha);
      Assoc(ProblemOf(a[0], tree, sha), Problems(a[1..], tree, sha), Problems(b, tree, sha));
    }
  }

  // ---- reading back

  predicate IsHex(s: string) {
    s != "" && forall i :: 0 <= i < |s| ==> '0' <= s[i] <= '9' || 'a' <= s[i] <= 'f'
  }

  predicate HexDigests(entries: seq<Entry>) { forall i :: 0 <= i < |entries| ==> IsHex(entries[i].digest) }

  predicate OneLinePaths(entries: seq<Entry>) { forall i :: 0 <= i < |entries| ==> OneLine(entries[i].path) }

  lemma {:induction false} GapAfter(digest: string, path: string)
    requires IsHex(digest) || digest == ""
    ensures GapIndex(digest + (GAP + path)) == |digest|
  {
    var s := digest + (GAP + path);
    if digest == "" {
      assert s[0] == ' ' && s[1] == ' ';
    } else {
      assert s[0] == digest[0] && s[1..] == digest[1..] + (GAP + path);
      GapAfter(digest[1..], path);
    }
  }

  lemma ParseLineOf(digest: string, path: string)
    requires IsHex(digest)
    ensures ParseLine(digest + (GAP + path)) == Entry(digest, path) && !Blank(digest + (GAP + path))
  {
    var s := digest + (GAP + path);
    GapAfter(digest, path);
    assert s[..|digest|] == digest && s[|digest| + 2..] == path && s[0] == digest[0];
  }

  lemma HexOneLine(digest: string, path: string)
    requires IsHex(digest) && OneLine(path)
    ensures OneLine(digest + (GAP + path))
  {
  }

  lemma EntryAssoc(digest: string, gap: string, path: string, rest: string)
    ensures (digest + (gap + path)) + rest == digest + (gap + (path + rest))
  {
  }

  /** One entry read off the front of the file. */
  lemma ReadEntry(e: Entry, rest: string)
    requires IsHex(e.digest) && OneLine(e.path)
    ensures ReadSums(e.digest + (GAP + (e.path + ("\n" + rest)))) == [e] + ReadSums(rest)
  {
    var line := e.digest + (GAP + e.path);
    HexOneLine(e.digest, e.path);
    SplitLinesCons(line, rest);
    EntryAssoc(e.digest, GAP, e.path, "\n" + rest);
    ParseLineOf(e.digest, e.path);
    assert ([line] + SplitLines(rest))[1..] == SplitLines(rest);
  }

  /** A path with a break is cut there. */
  lemma ReadBrokenEntry(e: Entry, rest: string)
    requires IsHex(e.digest) && !OneLine(e.path)
    ensures var read := ReadSums(e.digest + (GAP + (e.path + rest))); read != [] && read[0] != e
  {
    var k := BreakIndex(e.path);
    assert e.path[..k] + e.path[k..] == e.path;
    assert e.path[..|e.path|] == e.path;
    ReadCutEntry(e.digest, e.path[..k], e.path[k..], rest);
    assert e.path == e.path[..k] + e.path[k..];
  }

  lemma ReadCutEntry(digest: string, path: string, more: string, rest: string)
    requires IsHex(digest) && OneLine(path) && more != "" && IsBreak(more[0])
    ensures var read := ReadSums(digest + (GAP + ((path + more) + rest))); read != [] && read[0] == Entry(digest, path)
  {
    var line := digest + (GAP + path);
    HexOneLine(digest, path);
    assert line + (more + rest) == digest + (GAP + ((path + more) + rest));
    SplitLinesHead(line, more + rest);
    ParseLineOf(digest, path);
    ParsedHead(SplitLines(line + (more + rest)));
  }

  /** What the bundler wrote is what the installer reads, exactly when no path holds a line
      break. */
  lemma {:induction false} SumsRoundTrip(entries: seq<Entry>)
    requires HexDigests(entries)
    ensures ReadSums(SumsText(entries)) == entries <==> OneLinePaths(entries)
  {
    if entries != [] {
      var e, rest := entries[0], entries[1..];
      if OneLine(e.path) {
        ReadEntry(e, SumsText(rest));
        SumsRoundTrip(rest);
        SplitOff(e, ReadSums(SumsText(rest)), entries);
      } else {
        ReadBrokenEntry(e, "\n" + SumsText(rest));
      }
    }
  }

  lemma SplitOff(e: Entry, read: seq<Entry>, entries: seq<Entry>)
    requires entries != [] && e == entries[0] && OneLine(e.path)
    ensures [e] + read == entries <==> read == entries[1..]
    ensures OneLinePaths(entries) <==> OneLinePaths(entries[1..])
  {
  }

  // ---- accepting

  lemma {:induction false} NoProblems(entries: seq<Entry>, tree: Tree, sha: string -> string)
    ensures Problems(entries, tree, sha) == [] <==> forall i :: 0 <= i < |entries| ==> Matches(entries[i], tree, sha)
  {
    if entries != [] {
      NoProblems(entries[1..], tree, sha);
      assert forall i :: 1 <= i < |entries| ==> entries[i] == entries[1..][i - 1];
    }
  }

  /** A tree is accepted against the checksums of another exactly when each file recorded
      there is present here with the digest it had there. */
  lemma AcceptsExactly(paths: seq<string>, built: Tree, arrived: Tree, sha: string -> string)
    requires forall i :: 0 <= i < |paths| ==> paths[i] in built && OneLine(paths[i])
    requires forall s :: IsHex(sha(s))
    requires SUMS in arrived && arrived[SUMS] == SumsText(EntriesOf(paths, built, sha))
    ensures Problems(ReadSums(arrived[SUMS]), arrived, sha) == []
       <==> forall i :: 0 <= i < |paths| ==> paths[i] in arrived && sha(arrived[paths[i]]) == sha(built[paths[i]])
  {
    var entries := EntriesOf(paths, built, sha);
    SumsRoundTrip(entries);
    NoProblems(entries, arrived, sha);
    assert forall i :: 0 <= i < |paths| ==> (Matches(entries[i], arrived, sha) <==>
      paths[i] in arrived && sha(arrived[paths[i]]) == sha(built[paths[i]]));
  }
}
