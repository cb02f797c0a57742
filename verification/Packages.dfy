/** deploy/make_bundle.py, `canonical` and `requirement_name`. */
module Packages {
  import opened Text
  import Cells

  predicate IsDash(c: char) { c == '-' || c == '_' || c == '.' }

  /** `re.sub(r"[-_.]+", "-", name).lower()`; `dashed` when the character before was one of
      the three. */
  function CanonicalFrom(name: string, dashed: bool): string {
    if name == "" then ""
    else if IsDash(name[0]) then (if dashed then "" else "-") + CanonicalFrom(name[1..], true)
    else [LowerChar(name[0])] + CanonicalFrom(name[1..], false)
  }

  function Canonical(name: string): string { CanonicalFrom(name, false) }

  lemma {:induction false} CanonicalFromTwice(name: string, dashed: bool)
    ensures CanonicalFrom(CanonicalFrom(name, dashed), dashed) == CanonicalFrom(name, dashed)
    ensures dashed && CanonicalFrom(name, dashed) != "" ==> !IsDash(CanonicalFrom(name, dashed)[0])
  {
    if name != "" {
      if IsDash(name[0]) {
        CanonicalFromTwice(name[1..], true);
        var more := CanonicalFrom(name[1..], true);
        assert ("-" + more)[1..] == more && "" + more == more;
      } else {
        CanonicalFromTwice(name[1..], false);
        var more := CanonicalFrom(name[1..], false);
        assert ([LowerChar(name[0])] + more)[1..] == more;
      }
    }
  }

  /** A canonical name is its own. */
  lemma CanonicalTwice(name: string)
    ensures Canonical(Canonical(name)) == Canonical(name)
  {
    CanonicalFromTwice(name, false);
  }

  predicate EndsName(c: char) {
    c == '<' || c == '>' || c == '=' || c == '!' || c == '~' || c == '[' || c == ';' || c == ' ' || c == '@'
  }

  function BeforeSign(line: string): string {
    if line == "" || EndsName(line[0]) then "" else [line[0]] + BeforeSign(line[1..])
  }

  /** What stands before the first version sign, bracket, marker or blank. */
  function RequirementName(line: string): string { Cells.Strip(BeforeSign(line)) }

  /** One of `<>=!~[; @`. */
  predicate Sign(c: char) { c in "<>=!~[; @" }

  lemma SignIs(c: char)
    ensures EndsName(c) <==> Sign(c)
  {
    var signs := "<>=!~[; @";
    assert signs[0] == '<' && signs[1] == '>' && signs[2] == '=' && signs[3] == '!' && signs[4] == '~';
    assert signs[5] == '[' && signs[6] == ';' && signs[7] == ' ' && signs[8] == '@';
  }

  /** The name of a requirement: a text without these signs that the end or one of them follows. */
  lemma {:induction false} BeforeSignOf(name: string, rest: string)
    requires (forall i :: 0 <= i < |name| ==> !Sign(name[i])) && (rest == "" || Sign(rest[0]))
    ensures BeforeSign(name + rest) == name
  {
    if name == "" {
      assert name + rest == rest;
      if rest != "" { SignIs(rest[0]); }
    } else {
      SignIs(name[0]);
      assert (name + rest)[1..] == name[1..] + rest;
      BeforeSignOf(name[1..], rest);
    }
  }

  lemma RequirementNameOf(name: string, rest: string)
    requires (forall i :: 0 <= i < |name| ==> !Sign(name[i])) && (rest == "" || Sign(rest[0]))
    ensures RequirementName(name + rest) == Cells.Strip(name)
  {
    BeforeSignOf(name, rest);
  }

  // ---- the canonical form, by the words of a name

  predicate Dashes(s: string) { forall i :: 0 <= i < |s| ==> s[i] == '-' || s[i] == '_' || s[i] == '.' }

  predicate Dashless(s: string) { forall i :: 0 <= i < |s| ==> s[i] != '-' && s[i] != '_' && s[i] != '.' }

  /** Words without dashes, none but the first and the last empty, and the runs of dashes between
      them. */
  predicate Words(words: seq<string>, runs: seq<string>) {
    && |words| == |runs| + 1
    && (forall i :: 0 <= i < |words| ==> Dashless(words[i]))
    && (forall i :: 0 < i < |runs| ==> words[i] != "")
    && (forall i :: 0 <= i < |runs| ==> runs[i] != "" && Dashes(runs[i]))
  }

  function Weave(words: seq<string>, runs: seq<string>): string
    requires |words| == |runs| + 1
  {
    if runs == [] then words[0] else words[0] + (runs[0] + Weave(words[1..], runs[1..]))
  }

  function LowerAll(words: seq<string>): seq<string> { seq(|words|, i requires 0 <= i < |words| => Lower(words[i])) }

  lemma {:induction false} AfterWord(word: string, rest: string, dashed: bool)
    requires Dashless(word) && (word == "" ==> !dashed)
    ensures CanonicalFrom(word + rest, dashed) == Lower(word) + CanonicalFrom(rest, false)
  {
    if word == "" {
      assert word + rest == rest && Lower("") == "";
    } else {
      assert (word + rest)[0] == word[0] && (word + rest)[1..] == word[1..] + rest;
      AfterWord(word[1..], rest, false);
      assert Lower(word) == [LowerChar(word[0])] + Lower(word[1..]);
    }
  }

  lemma {:induction false} AfterRun(run: string, rest: string, dashed: bool)
    requires Dashes(run) && run != ""
    ensures CanonicalFrom(run + rest, dashed) == (if dashed then "" else "-") + CanonicalFrom(rest, true)
  {
    assert (run + rest)[0] == run[0] && (run + rest)[1..] == run[1..] + rest;
    if |run| > 1 {
      AfterRun(run[1..], rest, true);
    } else {
      assert run[1..] + rest == rest;
    }
  }

  lemma WordAfterRun(word: string, rest: string)
    requires Dashless(word) && (word == "" ==> rest == "")
    ensures CanonicalFrom(word + rest, true) == CanonicalFrom(word + rest, false)
  {
  }

  lemma WordsTail(words: seq<string>, runs: seq<string>)
    requires Words(words, runs) && runs != []
    ensures Words(words[1..], runs[1..]) && Dashless(words[0]) && Dashes(runs[0]) && runs[0] != ""
    ensures runs[1..] != [] ==> words[1] != ""
  {
  }

  /** The words in lower case, with one dash for each run between them. */
  lemma {:induction false} CanonicalOfWords(words: seq<string>, runs: seq<string>)
    requires Words(words, runs)
    ensures Canonical(Weave(words, runs)) == Join("-", LowerAll(words))
    decreases |runs|
  {
    if runs == [] {
      assert words[0] + "" == words[0];
      AfterWord(words[0], "", false);
      assert Lower(words[0]) + "" == Lower(words[0]);
    } else {
      var rest := Weave(words[1..], runs[1..]);
      WordsTail(words, runs);
      CanonicalOfWords(words[1..], runs[1..]);
      AfterWord(words[0], runs[0] + rest, false);
      AfterRun(runs[0], rest, false);
      FirstAfterRun(words[1..], runs[1..]);
      assert LowerAll(words)[1..] == LowerAll(words[1..]);
      assert LowerAll(words) == [Lower(words[0])] + LowerAll(words[1..]);
      JoinCons("-", Lower(words[0]), LowerAll(words[1..]));
    }
  }

  lemma FirstAfterRun(words: seq<string>, runs: seq<string>)
    requires Words(words, runs) && (runs != [] ==> words[0] != "")
    ensures CanonicalFrom(Weave(words, runs), true) == CanonicalFrom(Weave(words, runs), false)
  {
    var more := if runs == [] then "" else runs[0] + Weave(words[1..], runs[1..]);
    assert Weave(words, runs) == words[0] + more;
    WordAfterRun(words[0], more);
  }

  /** Every name is such words and runs. */
  lemma {:induction false} WordsOf(name: string) returns (words: seq<string>, runs: seq<string>)
    ensures Words(words, runs) && Weave(words, runs) == name
    ensures name != "" && IsDash(name[0]) ==> words[0] == "" && runs != []
    ensures name != "" && !IsDash(name[0]) ==> words[0] != ""
  {
    if name == "" {
      words, runs := [""], [];
    } else {
      words, runs := WordsOf(name[1..]);
      assert name == [name[0]] + name[1..];
      if !IsDash(name[0]) {
        words := OneCharMore(name[0], words, runs);
      } else if name[1..] != "" && IsDash(name[1]) {
        assert name[1..][0] == name[1];
        runs := OneDashMore(name[0], words, runs);
      } else {
        assert name[1..] != "" ==> name[1..][0] == name[1];
        words, runs := OneRunMore(name[0], words, runs);
      }
    }
  }

  lemma OneCharMore(c: char, words: seq<string>, runs: seq<string>) returns (more: seq<string>)
    requires Words(words, runs) && !IsDash(c)
    ensures Words(more, runs) && Weave(more, runs) == [c] + Weave(words, runs) && more[0] != ""
  {
    more := [[c] + words[0]] + words[1..];
    assert more[1..] == words[1..];
  }

  lemma OneDashMore(c: char, words: seq<string>, runs: seq<string>) returns (more: seq<string>)
    requires Words(words, runs) && IsDash(c) && runs != [] && words[0] == ""
    ensures more != [] && Words(words, more) && Weave(words, more) == [c] + Weave(words, runs)
  {
    var run := [c] + runs[0];
    more := [run] + runs[1..];
    LongerRun(words, runs, run, more);
    assert more[1..] == runs[1..];
    assert run + Weave(words[1..], runs[1..]) == [c] + (runs[0] + Weave(words[1..], runs[1..]));
    assert "" + (run + Weave(words[1..], runs[1..])) == run + Weave(words[1..], runs[1..]);
    assert "" + (runs[0] + Weave(words[1..], runs[1..])) == runs[0] + Weave(words[1..], runs[1..]);
  }

  lemma LongerRun(words: seq<string>, runs: seq<string>, run: string, more: seq<string>)
    requires Words(words, runs) && runs != [] && Dashes(run) && run != "" && more == [run] + runs[1..]
    ensures Words(words, more)
  {
  }

  lemma OneRunMore(c: char, words: seq<string>, runs: seq<string>) returns (moreWords: seq<string>, moreRuns: seq<string>)
    requires Words(words, runs) && IsDash(c) && (runs != [] ==> words[0] != "")
    ensures Words(moreWords, moreRuns) && Weave(moreWords, moreRuns) == [c] + Weave(words, runs)
    ensures moreWords[0] == "" && moreRuns != []
  {
    moreWords, moreRuns := [""] + words, [[c]] + runs;
    assert moreWords[1..] == words && moreRuns[1..] == runs;
  }

  /** The canonical form of any name: its words in lower case, joined by single dashes. */
  lemma CanonicalExactly(name: string) returns (words: seq<string>, runs: seq<string>)
    ensures Words(words, runs) && name == Weave(words, runs) && Canonical(name) == Join("-", LowerAll(words))
  {
    words, runs := WordsOf(name);
    CanonicalOfWords(words, runs);
  }

  /** What requirements are compared by. */
  function Key(line: string): string { Canonical(RequirementName(line)) }
}
