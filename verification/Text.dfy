/** Strings as the Python sources use them: decimal printing, joining and `str.replace`.
    A byte string is modelled as a string whose characters are the bytes, read as Latin-1. */
module Text {

  datatype Option<+T> = None | Some(value: T) {
    predicate IsFailure() { None? }

    function GetOr(default: T): T {
      if Some? then value else default
    }

    function PropagateFailure<U>(): Option<U>
      requires None?
    {
      None
    }

    function Extract(): T
      requires Some?
    {
      value
    }
  }

  datatype Result<+T, +E> = Success(value: T) | Failure(error: E)

  /** What follows a literal that the text must start with. */
  function Expect(s: string, literal: string): Option<string> {
    if literal <= s then Some(s[|literal|..]) else None
  }

  lemma ExpectOf(literal: string, rest: string)
    ensures Expect(literal + rest, literal) == Some(rest)
  {
  }

  /** All the values, when every one is there. */
  function AllSome<T>(xs: seq<Option<T>>): Option<seq<T>> {
    if xs == [] then Some([]) else
      var x :- xs[0];
      var more :- AllSome(xs[1..]);
      Some([x] + more)
  }

  lemma {:induction false} AllSomeOf<T>(xs: seq<Option<T>>, ys: seq<T>)
    requires |xs| == |ys| && forall k :: 0 <= k < |xs| ==> xs[k] == Some(ys[k])
    ensures AllSome(xs) == Some(ys)
  {
    if xs != [] {
      AllSomeOf(xs[1..], ys[1..]);
      assert ys == [ys[0]] + ys[1..];
    }
  }

  // ---- decimal numbers

  predicate IsDigit(c: char) { '0' <= c <= '9' }

  predicate AllDigits(s: string) { forall k :: 0 <= k < |s| ==> IsDigit(s[k]) }

  /** `%d` of a natural number. */
  function Decimal(n: nat): string {
    if n < 10 then [('0' as int + n) as char] else Decimal(n / 10) + [('0' as int + n % 10) as char]
  }

  /** The number a run of digits denotes. */
  function Value(s: string): nat
    requires AllDigits(s)
  {
    if s == "" then 0 else 10 * Value(s[..|s| - 1]) + (s[|s| - 1] as int - '0' as int)
  }

  function Zeros(n: nat): string { if n == 0 then "" else Zeros(n - 1) + "0" }

  /** Zeros on the left up to width w; a longer text keeps its length. */
  function LeftPad(d: string, w: nat): string {
    if |d| >= w then d else Zeros(w - |d|) + d
  }

  /** `%0<w>d` */
  function Padded(n: nat, w: nat): string { LeftPad(Decimal(n), w) }

  function Pow10(k: nat): nat { if k == 0 then 1 else 10 * Pow10(k - 1) }

  /** How many digits the string starts with. */
  function DigitRun(s: string): (k: nat)
    ensures k <= |s| && (forall j :: 0 <= j < k ==> IsDigit(s[j])) && (k < |s| ==> !IsDigit(s[k]))
  {
    if s == "" || !IsDigit(s[0]) then 0 else
      assert forall j :: 0 < j < |s| ==> s[j] == s[1..][j - 1];
      1 + DigitRun(s[1..])
  }

  function ReadNumber(s: string): Option<(nat, string)> {
    var k := DigitRun(s);
    if k == 0 then None else Some((Value(s[..k]), s[k..]))
  }

  lemma {:induction false} DecimalValue(n: nat)
    ensures Decimal(n) != "" && AllDigits(Decimal(n)) && Value(Decimal(n)) == n
  {
    if n >= 10 {
      DecimalValue(n / 10);
      var d := Decimal(n);
      assert d[..|d| - 1] == Decimal(n / 10);
    }
  }

  lemma {:induction false} DecimalWidth(n: nat, k: nat)
    requires k >= 1
    ensures |Decimal(n)| <= k <==> n < Pow10(k)
  {
    if k == 1 {
      assert Pow10(1) == 10 * Pow10(0);
      if n >= 10 { DecimalValue(n / 10); }
    } else if n >= 10 {
      DecimalWidth(n / 10, k - 1);
    } else {
      Pow10Positive(k - 1);
    }
  }

  lemma {:induction false} Pow10Positive(k: nat)
    ensures Pow10(k) >= 1
  {
    if k > 0 { Pow10Positive(k - 1); }
  }

  lemma {:induction false} ZerosDigits(n: nat)
    ensures |Zeros(n)| == n && AllDigits(Zeros(n)) && Value(Zeros(n)) == 0
  {
    if n > 0 {
      ZerosDigits(n - 1);
      assert Zeros(n)[..n - 1] == Zeros(n - 1);
    }
  }

  lemma {:induction false} ZerosValue(n: nat, s: string)
    requires AllDigits(s)
    ensures AllDigits(Zeros(n) + s) && Value(Zeros(n) + s) == Value(s)
    decreases |s|
  {
    ZerosDigits(n);
    var t := Zeros(n) + s;
    if s == "" {
      assert t == Zeros(n);
    } else {
      ZerosValue(n, s[..|s| - 1]);
      assert t[..|t| - 1] == Zeros(n) + s[..|s| - 1];
    }
  }

  lemma LeftPadValue(d: string, w: nat)
    requires AllDigits(d)
    ensures AllDigits(LeftPad(d, w)) && Value(LeftPad(d, w)) == Value(d)
    ensures |LeftPad(d, w)| == if |d| >= w then |d| else w
  {
    if |d| < w {
      var k := w - |d|;
      ZerosDigits(k);
      ZerosValue(k, d);
      assert LeftPad(d, w) == Zeros(k) + d;
    }
  }

  lemma PaddedValue(n: nat, w: nat)
    ensures AllDigits(Padded(n, w)) && Value(Padded(n, w)) == n
    ensures |Padded(n, w)| == if |Decimal(n)| >= w then |Decimal(n)| else w
  {
    DecimalValue(n);
    LeftPadValue(Decimal(n), w);
  }

  lemma DigitRunOf(d: string, rest: string)
    requires AllDigits(d) && (rest == "" || !IsDigit(rest[0]))
    ensures DigitRun(d + rest) == |d| && (d + rest)[..|d|] == d && (d + rest)[|d|..] == rest
  {
  }

  lemma ReadNumberOf(n: nat, rest: string)
    requires rest == "" || !IsDigit(rest[0])
    ensures ReadNumber(Decimal(n) + rest) == Some((n, rest))
  {
    DecimalValue(n);
    DigitRunOf(Decimal(n), rest);
  }

  // ---- joining and replacing

  /** `sep.join(parts)` */
  function Join(sep: string, parts: seq<string>): string {
    if parts == [] then "" else if |parts| == 1 then parts[0] else parts[0] + sep + Join(sep, parts[1..])
  }

  lemma JoinCons(sep: string, head: string, tail: seq<string>)
    requires tail != []
    ensures Join(sep, [head] + tail) == head + (sep + Join(sep, tail))
  {
  }

  lemma {:induction false} JoinSnoc(sep: string, parts: seq<string>, last: string)
    ensures Join(sep, parts + [last]) == if parts == [] then last else Join(sep, parts) + sep + last
  {
    if |parts| == 1 {
      assert (parts + [last])[1..] == [last];
    } else if |parts| > 1 {
      JoinSnoc(sep, parts[1..], last);
      assert (parts + [last])[1..] == parts[1..] + [last];
    }
  }

  /** `s.replace(old, new)` for a non-empty `old`: left to right, without overlaps. */
  function Replace(s: string, old_: string, new_: string): string
    requires old_ != ""
  {
    if s == "" then ""
    else if old_ <= s then new_ + Replace(s[|old_|..], old_, new_)
    else [s[0]] + Replace(s[1..], old_, new_)
  }

  lemma ReplaceStep(s: string, rest: string, old_: string, new_: string)
    requires s != "" && old_ != "" && !(old_ <= s + rest)
    requires Replace(s[1..] + rest, old_, new_) == s[1..] + Replace(rest, old_, new_)
    ensures Replace(s + rest, old_, new_) == s + Replace(rest, old_, new_)
  {
    assert (s + rest)[1..] == s[1..] + rest;
    assert s == [s[0]] + s[1..];
  }

  lemma ReplaceCharHead(s: string, c: char, new_: string)
    requires s != ""
    ensures Replace(s, [c], new_) == (if s[0] == c then new_ else [s[0]]) + Replace(s[1..], [c], new_)
  {
  }

  /** Replacing one character acts on each character by itself. */
  lemma {:induction false} ReplaceCharAppend(a: string, b: string, c: char, new_: string)
    ensures Replace(a + b, [c], new_) == Replace(a, [c], new_) + Replace(b, [c], new_)
  {
    if a == "" {
      assert a + b == b;
    } else {
      assert (a + b)[1..] == a[1..] + b;
      ReplaceCharAppend(a[1..], b, c, new_);
      ReplaceCharHead(a + b, c, new_);
      ReplaceCharHead(a, c, new_);
    }
  }

  lemma {:induction false} ReplaceCharAbsent(s: string, c: char, new_: string)
    requires c !in s
    ensures Replace(s, [c], new_) == s
  {
    if s != "" {
      ReplaceCharHead(s, c, new_);
      ReplaceCharAbsent(s[1..], c, new_);
    }
  }

  // ---- Python's white space and line breaks

  /** What `str.splitlines` breaks at. */
  predicate IsBreak(c: char) {
    '\n' <= c <= '\r' || '\U{1c}' <= c <= '\U{1e}' || c == '\U{85}' || c == '\U{2028}' || c == '\U{2029}'
  }

  /** What `str.strip` removes. */
  predicate IsSpace(c: char) {
    '\t' <= c <= '\r' || '\U{1c}' <= c <= ' ' || c == '\U{85}' || c == '\U{a0}' || c == '\U{1680}'
    || '\U{2000}' <= c <= '\U{200a}' || c == '\U{2028}' || c == '\U{2029}' || c == '\U{202f}' || c == '\U{205f}'
    || c == '\U{3000}'
  }

  predicate OneLine(s: string) { forall i :: 0 <= i < |s| ==> !IsBreak(s[i]) }

  predicate Blank(s: string) { forall i :: 0 <= i < |s| ==> IsSpace(s[i]) }

  function BreakIndex(s: string): (k: nat)
    ensures k <= |s| && OneLine(s[..k]) && (k < |s| ==> IsBreak(s[k]))
  {
    if s == "" || IsBreak(s[0]) then 0 else
      var k := BreakIndex(s[1..]);
      assert s[..k + 1] == [s[0]] + s[1..][..k];
      k + 1
  }

  /** `s.splitlines()`: a final break ends the last line and opens no other. */
  function SplitLines(s: string): seq<string> {
    if s == "" then [] else
      var k := BreakIndex(s);
      if k == |s| then [s]
      else [s[..k]] + SplitLines(s[if s[k] == '\r' && k + 1 < |s| && s[k + 1] == '\n' then k + 2 else k + 1..])
  }

  lemma {:induction false} BreakIndexOf(line: string, rest: string)
    requires OneLine(line) && rest != "" && IsBreak(rest[0])
    ensures BreakIndex(line + rest) == |line|
  {
    if line == "" {
      assert line + rest == rest;
    } else {
      assert (line + rest)[1..] == line[1..] + rest;
      BreakIndexOf(line[1..], rest);
    }
  }

  /** The first line is what comes before the first break. */
  lemma SplitLinesHead(line: string, rest: string)
    requires OneLine(line) && rest != "" && IsBreak(rest[0])
    ensures SplitLines(line + rest) != [] && SplitLines(line + rest)[0] == line
  {
    BreakIndexOf(line, rest);
    assert (line + rest)[..|line|] == line;
  }

  lemma SplitLinesCons(line: string, rest: string)
    requires OneLine(line)
    ensures SplitLines(line + ("\n" + rest)) == [line] + SplitLines(rest)
  {
    var s := line + ("\n" + rest);
    BreakIndexOf(line, "\n" + rest);
    assert s[..|line|] == line && s[|line|] == '\n' && s[|line| + 1..] == rest;
  }

  /** The lines, each ended. */
  function LinesText(lines: seq<string>): string {
    if lines == [] then "" else lines[0] + ("\n" + LinesText(lines[1..]))
  }

  lemma {:induction false} SplitLinesPrefix(lines: seq<string>, k: nat)
    requires k <= |lines| && forall i :: 0 <= i < k ==> OneLine(lines[i])
    ensures SplitLines(LinesText(lines)) == lines[..k] + SplitLines(LinesText(lines[k..]))
  {
    if k == 0 {
      assert lines[0..] == lines && lines[..0] == [];
    } else {
      SplitLinesFirst(lines);
      SplitLinesPrefix(lines[1..], k - 1);
      PrefixCons(lines, k, SplitLines(LinesText(lines[k..])));
    }
  }

  lemma SplitLinesFirst(lines: seq<string>)
    requires lines != [] && OneLine(lines[0])
    ensures SplitLines(LinesText(lines)) == [lines[0]] + SplitLines(LinesText(lines[1..]))
  {
    SplitLinesCons(lines[0], LinesText(lines[1..]));
  }

  lemma PrefixCons<T>(all: seq<T>, k: nat, rest: seq<T>)
    requires 0 < k <= |all|
    ensures all[1..][k - 1..] == all[k..] && [all[0]] + (all[1..][..k - 1] + rest) == all[..k] + rest
  {
  }

  function LowerChar(c: char): char { if 'A' <= c <= 'Z' then (c as int + 32) as char else c }

  /** `s.lower()`, for the letters A to Z. */
  function Lower(s: string): string { seq(|s|, k requires 0 <= k < |s| => LowerChar(s[k])) }

  lemma UpperLetter(c: char)
    ensures 'A' <= c <= 'Z' ==> c in "ABCDEFGHIJKLMNOPQRSTUVWXYZ"
  {
    var upper := "ABCDEFGHIJKLMNOPQRSTUVWXYZ";
    assert forall i :: 0 <= i < 26 ==> upper[i] == ('A' as int + i) as char;
    if 'A' <= c <= 'Z' { assert upper[c as int - 'A' as int] == c; }
  }

  /** A to Z become a to z, and nothing else changes. */
  lemma LowerLetters(s: string)
    ensures Lower("ABCDEFGHIJKLMNOPQRSTUVWXYZ") == "abcdefghijklmnopqrstuvwxyz"
    ensures (forall i :: 0 <= i < |s| ==> s[i] !in "ABCDEFGHIJKLMNOPQRSTUVWXYZ") ==> Lower(s) == s
  {
    var upper, lower := "ABCDEFGHIJKLMNOPQRSTUVWXYZ", "abcdefghijklmnopqrstuvwxyz";
    assert forall i :: 0 <= i < 26 ==> upper[i] == ('A' as int + i) as char && lower[i] == ('a' as int + i) as char;
    forall i | 0 <= i < |s| && s[i] !in upper
      ensures LowerChar(s[i]) == s[i]
    {
      UpperLetter(s[i]);
    }
  }

  lemma LowerJoin(a: string, b: string)
    ensures Lower(a + b) == Lower(a) + Lower(b)
  {
  }

  predicate NoDups<T(==)>(s: seq<T>) { forall i, j :: 0 <= i < j < |s| ==> s[i] != s[j] }

  lemma Assoc<T>(a: seq<T>, b: seq<T>, c: seq<T>)
    ensures (a + b) + c == a + (b + c)
  {
  }
}
