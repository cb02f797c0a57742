/** scripts/check_contrast.py, `resolve`: a CSS variable followed to a literal value. */
module Resolve {
  import opened Text
  import opened Cells
  import opened Chains

  predicate IsNameChar(c: char) {
    'a' <= c <= 'z' || 'A' <= c <= 'Z' || '0' <= c <= '9' || c == '_' || c == '-'
  }

  function NameRun(s: string): (n: nat)
    ensures n <= |s|
  {
    if s == "" || !IsNameChar(s[0]) then 0 else 1 + NameRun(s[1..])
  }

  /** The fallback after the comma: without the blanks before it, but never empty. */
  function Fallback(s: string): (f: Option<string>)
    ensures f.Some? ==> f.value != "" && |f.value| <= |s|
  {
    var t := LStrip(s);
    LStripShorter(s);
    var f := if t != "" then t else if s != "" then s[|s| - 1..] else "";
    if f == "" || '\n' in f then None else Some(f)
  }

  lemma {:induction false} LStripShorter(s: string)
    ensures |LStrip(s)| <= |s|
  {
    if s != "" && IsSpace(s[0]) { LStripShorter(s[1..]); }
  }

  lemma StripShorter(s: string)
    ensures |Strip(s)| <= |s|
  {
    LStripShorter(s);
    RStripShorter(LStrip(s));
  }

  lemma {:induction false} RStripShorter(s: string)
    ensures |RStrip(s)| <= |s|
  {
    if s != "" && IsSpace(s[|s| - 1]) { RStripShorter(s[..|s| - 1]); }
  }

  const OPEN: string := "var("

  /** `var\(\s*(--[\w-]+)\s*(?:,\s*(.+))?\)` on the whole value, blanks around it apart. */
  function Parse(value: string): (v: Option<Var>)
    ensures v.Some? && v.value.fallback.Some? ==> v.value.fallback.value != "" && |v.value.fallback.value| < |value|
  {
    var s := Strip(value);
    StripShorter(value);
    if |s| < 5 || s[..4] != OPEN || s[|s| - 1] != ')' then None else Inner(s[4..|s| - 1])
  }

  function Inner(s: string): (v: Option<Var>)
    ensures v.Some? && v.value.fallback.Some? ==> v.value.fallback.value != "" && |v.value.fallback.value| <= |s|
  {
    var t := LStrip(s);
    LStripShorter(s);
    var n := NameRun(t);
    if n < 3 || t[0] != '-' || t[1] != '-' then None
    else
      var rest := LStrip(t[n..]);
      LStripShorter(t[n..]);
      if rest == "" then Some(Var(t[..n], None))
      else if rest[0] != ',' then None
      else match Fallback(rest[1..])
        case Some(f) => Some(Var(t[..n], Some(f)))
        case None => None
  }

  /** The source's function, from the start. */
  function Resolved(tokens: Tokens, value: string): Result<string, Error> {
    ParseShortens();
    ResolveFrom(Parse, tokens, value, [])
  }

  lemma ParseShortens()
    ensures Shortens(Parse)
  {
  }

  /** The value returned is the end of the chain of references, met without a name twice; the
      chain decides whether there is one. */
  lemma ResolvedExactly(tokens: Tokens, value: string, last: string)
    ensures Resolved(tokens, value) == Success(last) <==> Ends(Parse, tokens, value, [], last)
    ensures Resolved(tokens, value) == Success(last) ==> Parse(last) == None
  {
    ParseShortens();
    SuccessExactly(Parse, tokens, value, last);
  }

  /** Every result is that of the chain of references. */
  lemma ResolvedChain(tokens: Tokens, value: string, r: Result<string, Error>)
    ensures Resolved(tokens, value) == r <==> exists values, names :: Leads(Parse, tokens, value, values, names, r)
  {
    ParseShortens();
    ChainExactly(Parse, tokens, value, r);
  }

  lemma ResolvedCircular(tokens: Tokens, value: string)
    ensures forall name :: Resolved(tokens, value) == Failure(Circular(name)) <==> Repeats(Parse, tokens, value, [], name)
    ensures Endless(Parse, tokens, value) <==> exists name :: name in tokens && MetTwice(Parse, tokens, value, name)
    ensures Endless(Parse, tokens, value) ==> exists name :: Resolved(tokens, value) == Failure(Circular(name))
    ensures forall name :: name in tokens && Repeats(Parse, tokens, value, [], name) ==> Endless(Parse, tokens, value)
  {
    ParseShortens();
    CircularMeans(Parse, tokens, value);
  }

  // ---- writing a reference

  predicate IsName(name: string) {
    |name| >= 3 && name[0] == '-' && name[1] == '-' && forall i :: 0 <= i < |name| ==> IsNameChar(name[i])
  }

  predicate IsFallback(s: string) { s != "" && !IsSpace(s[0]) && '\n' !in s }

  function Written(name: string, fallback: string): string { "var(" + (name + ("," + (fallback + ")"))) }

  lemma {:induction false} NameRunOf(name: string, rest: string)
    requires forall i :: 0 <= i < |name| ==> IsNameChar(name[i])
    requires rest == "" || !IsNameChar(rest[0])
    ensures NameRun(name + rest) == |name|
  {
    if name == "" {
      assert name + rest == rest;
    } else {
      assert (name + rest)[1..] == name[1..] + rest;
      NameRunOf(name[1..], rest);
    }
  }

  lemma InnerOf(name: string, fallback: string)
    requires IsName(name) && IsFallback(fallback)
    ensures Inner(name + ("," + fallback)) == Some(Var(name, Some(fallback)))
  {
    var s := name + ("," + fallback);
    NameRunOf(name, "," + fallback);
    assert LStrip(s) == s;
    assert s[..|name|] == name && s[|name|..] == "," + fallback;
    assert LStrip("," + fallback) == "," + fallback && ("," + fallback)[1..] == fallback;
  }

  lemma WrittenInner(name: string, fallback: string)
    ensures var s := Written(name, fallback); |s| >= 6 && s[4..|s| - 1] == name + ("," + fallback)
    ensures var s := Written(name, fallback); s[..4] == OPEN && s[|s| - 1] == ')' && Strip(s) == s
  {
  }

  /** A written reference is read as written. */
  lemma ParseWritten(name: string, fallback: string)
    requires IsName(name) && IsFallback(fallback)
    ensures Parse(Written(name, fallback)) == Some(Var(name, Some(fallback)))
  {
    WrittenInner(name, fallback);
    InnerOf(name, fallback);
  }

  lemma WrittenIsFallback(name: string, fallback: string)
    requires IsName(name) && IsFallback(fallback)
    ensures IsFallback(Written(name, fallback))
  {
  }

  /** `var(--x,var(--x,red))` with --x undefined has the value red, and is refused as
      circular. */
  lemma RefusedThoughItEnds(tokens: Tokens, name: string, last: string)
    requires IsName(name) && name !in tokens && IsFallback(last) && Parse(last) == None
    ensures Resolved(tokens, Written(name, Written(name, last))) == Failure(Circular(name))
    ensures Walk(Parse, tokens, Written(name, Written(name, last)), 2) == Some(last)
  {
    ParseShortens();
    ParseWritten(name, last);
    WrittenIsFallback(name, last);
    ParseWritten(name, Written(name, last));
    FalseCircular(Parse, tokens, Written(name, Written(name, last)), Written(name, last), name, last);
  }

  // ---- every form of a reference

  predicate Nameless(rest: string) { rest == "" || !IsNameChar(rest[0]) }

  /** `var(`, the name with blanks around it, and `)`, with blanks around it all. */
  predicate PlainParts(value: string, front: string, a: string, name: string, b: string, back: string) {
    && value == front + (("var(" + (a + (name + (b + ")")))) + back)
    && Blank(front) && Blank(a) && Blank(b) && Blank(back) && IsName(name)
  }

  /** The same with a comma and a fallback before the closing bracket. */
  predicate FallbackParts(value: string, front: string, a: string, name: string, b: string, c: string, fallback: string, back: string) {
    && value == front + (("var(" + (a + (name + (b + ("," + (c + (fallback + ")"))))))) + back)
    && Blank(front) && Blank(a) && Blank(b) && Blank(c) && Blank(back) && IsName(name) && IsRead(fallback)
  }

  /** What is read for a fallback, on one line: from the first character that is no blank, or the
      last blank when there are only blanks. */
  predicate IsRead(fallback: string) { fallback != "" && '\n' !in fallback && (IsSpace(fallback[0]) ==> |fallback| == 1) }

  lemma {:induction false} BlanksOff(gap: string, t: string)
    requires Blank(gap) && (t == "" || !IsSpace(t[0]))
    ensures LStrip(gap + t) == t
  {
    if gap == "" {
      assert gap + t == t;
    } else {
      assert IsSpace(gap[0]) && (gap + t)[1..] == gap[1..] + t;
      BlanksOff(gap[1..], t);
    }
  }

  lemma {:induction false} BlanksOffEnd(t: string, gap: string)
    requires Blank(gap) && t != "" && !IsSpace(t[|t| - 1])
    ensures RStrip(t + gap) == t
  {
    if gap == "" {
      assert t + gap == t;
    } else {
      var n := |gap| - 1;
      assert IsSpace(gap[n]) && (t + gap)[..|t + gap| - 1] == t + gap[..n] && (t + gap)[|t + gap| - 1] == gap[n];
      BlanksOffEnd(t, gap[..n]);
    }
  }

  /** Blanks around a reference are nothing to it. */
  lemma Framed(front: string, inside: string, back: string)
    requires Blank(front) && Blank(back)
    ensures Parse(front + (("var(" + (inside + ")")) + back)) == Inner(inside)
  {
    var s := "var(" + (inside + ")");
    assert (s + back)[0] == 'v' && s[|s| - 1] == ')';
    BlanksOff(front, s + back);
    BlanksOffEnd(s, back);
    assert s[4..|s| - 1] == inside && s[..4] == "var(";
  }

  lemma NameRead(a: string, name: string, rest: string)
    requires Blank(a) && IsName(name) && Nameless(rest)
    ensures var t := name + rest;
            LStrip(a + t) == t && NameRun(t) == |name| && t[..|name|] == name && t[|name|..] == rest && t[0] == '-' && t[1] == '-'
  {
    BlanksOff(a, name + rest);
    NameRunOf(name, rest);
  }

  /** A reference without a fallback is read as its name and no fallback. */
  lemma ParsePlain(value: string, front: string, a: string, name: string, b: string, back: string)
    requires PlainParts(value, front, a, name, b, back)
    ensures Parse(value) == Some(Var(name, None))
  {
    var inside := a + (name + b);
    assert a + (name + (b + ")")) == inside + ")";
    Framed(front, inside, back);
    assert Nameless(b) by {
      if b != "" { assert IsSpace(b[0]); }
    }
    NameRead(a, name, b);
    BlanksOff(b, "");
    assert b + "" == b;
  }

  /** And one with a fallback as its name and the fallback. */
  lemma ParseFallback(value: string, front: string, a: string, name: string, b: string, c: string, fallback: string, back: string)
    requires FallbackParts(value, front, a, name, b, c, fallback, back)
    ensures Parse(value) == Some(Var(name, Some(fallback)))
  {
    var rest := b + ("," + (c + fallback));
    var inside := a + (name + rest);
    FiveJoined(a, name, b, c, fallback);
    Framed(front, inside, back);
    assert Nameless(rest) by {
      if b != "" { assert IsSpace(b[0]); }
    }
    NameRead(a, name, rest);
    BlanksOff(b, "," + (c + fallback));
    assert ("," + (c + fallback))[1..] == c + fallback;
    FallbackRead(c, fallback);
  }

  lemma FallbackRead(c: string, fallback: string)
    requires Blank(c) && IsRead(fallback)
    ensures Fallback(c + fallback) == Some(fallback)
  {
    if IsSpace(fallback[0]) {
      BlanksOff(c + fallback, "");
      assert (c + fallback) + "" == c + fallback;
      assert (c + fallback)[|c + fallback| - 1..] == fallback;
    } else {
      BlanksOff(c, fallback);
    }
  }

  lemma FallbackForm(s: string, fallback: string) returns (c: string)
    requires Fallback(s) == Some(fallback)
    ensures Blank(c) && IsRead(fallback) && s == c + fallback
  {
    var gap := LStripParts(s);
    LStripped(s);
    if LStrip(s) == "" {
      c := s[..|s| - 1];
      assert gap + "" == gap;
    } else {
      c := gap;
    }
  }

  lemma {:induction false} LStripped(s: string)
    ensures LStrip(s) != "" ==> !IsSpace(LStrip(s)[0])
  {
    if s != "" && IsSpace(s[0]) { LStripped(s[1..]); }
  }

  lemma InnerRest(inside: string, t: string, n: nat, fallback: string)
    requires t == LStrip(inside) && n == NameRun(t) && Inner(inside).Some? && Inner(inside).value.fallback == Some(fallback)
    ensures n <= |t|
    ensures var u := LStrip(t[n..]); u != "" && u[0] == ',' && Fallback(u[1..]) == Some(fallback)
  {
  }

  lemma CommaParts(rest: string, b: string, u: string, fallback: string) returns (c: string)
    requires rest == b + u && u != "" && u[0] == ',' && Fallback(u[1..]) == Some(fallback)
    ensures Blank(c) && IsRead(fallback) && rest == b + ("," + (c + fallback))
  {
    c := FallbackForm(u[1..], fallback);
    assert u == "," + u[1..];
  }

  lemma InnerFallback(a: string, name: string, rest: string, fallback: string) returns (b: string, c: string)
    requires Inner(a + (name + rest)) == Some(Var(name, Some(fallback)))
    requires NameRun(name + rest) == |name| && LStrip(a + (name + rest)) == name + rest
    ensures Blank(b) && Blank(c) && IsRead(fallback) && rest == b + ("," + (c + fallback))
  {
    assert (name + rest)[|name|..] == rest;
    InnerRest(a + (name + rest), name + rest, |name|, fallback);
    b := LStripParts(rest);
    c := CommaParts(rest, b, LStrip(rest), fallback);
  }

  lemma FiveJoined(a: string, name: string, b: string, c: string, fallback: string)
    ensures a + (name + (b + ("," + (c + (fallback + ")"))))) == (a + (name + (b + ("," + (c + fallback))))) + ")"
  {
    Assoc(c, fallback, ")");
    Assoc(",", c + fallback, ")");
    Assoc(b, "," + (c + fallback), ")");
    Assoc(name, b + ("," + (c + fallback)), ")");
    Assoc(a, name + (b + ("," + (c + fallback))), ")");
  }

  /** Read as a name with a fallback exactly in that form; in every other form, but for the
      plain one, a value is a literal. */
  lemma FallbackExactly(value: string, name: string, fallback: string)
    ensures Parse(value) == Some(Var(name, Some(fallback)))
       <==> exists front, a, b, c, back :: FallbackParts(value, front, a, name, b, c, fallback, back)
  {
    if Parse(value) == Some(Var(name, Some(fallback))) {
      var front, inside, back := FrameParts(value);
      var a, rest := NameParts(inside);
      var b, c := InnerFallback(a, name, rest, fallback);
      FiveJoined(a, name, b, c, fallback);
      assert FallbackParts(value, front, a, name, b, c, fallback, back);
    }
    if front, a, b, c, back :| FallbackParts(value, front, a, name, b, c, fallback, back) {
      ParseFallback(value, front, a, name, b, c, fallback, back);
    }
  }

  lemma {:induction false} LStripParts(s: string) returns (gap: string)
    ensures Blank(gap) && s == gap + LStrip(s)
  {
    if s != "" && IsSpace(s[0]) {
      var more := LStripParts(s[1..]);
      gap := [s[0]] + more;
      Assoc([s[0]], more, LStrip(s[1..]));
      assert s == [s[0]] + s[1..];
    } else {
      gap := "";
      assert s == "" + s;
    }
  }

  lemma {:induction false} RStripParts(s: string) returns (gap: string)
    ensures Blank(gap) && s == RStrip(s) + gap
  {
    if s != "" && IsSpace(s[|s| - 1]) {
      var n := |s| - 1;
      var more := RStripParts(s[..n]);
      gap := more + [s[n]];
      Assoc(RStrip(s[..n]), more, [s[n]]);
      assert s == s[..n] + [s[n]];
    } else {
      gap := "";
      assert s == s + "";
    }
  }

  lemma {:induction false} NameRunForm(s: string)
    ensures forall i :: 0 <= i < NameRun(s) ==> IsNameChar(s[i])
  {
    if s != "" && IsNameChar(s[0]) {
      NameRunForm(s[1..]);
      assert forall i :: 1 <= i < NameRun(s) ==> s[i] == s[1..][i - 1];
    }
  }

  lemma FrameParts(value: string) returns (front: string, inside: string, back: string)
    requires Parse(value).Some?
    ensures Blank(front) && Blank(back) && value == front + (("var(" + (inside + ")")) + back) && Inner(inside) == Parse(value)
  {
    front := LStripParts(value);
    back := RStripParts(LStrip(value));
    inside := CoreParts(Strip(value));
  }

  lemma CoreParts(s: string) returns (inside: string)
    requires |s| >= 5 && s[..4] == OPEN && s[|s| - 1] == ')'
    ensures s == "var(" + (inside + ")") && inside == s[4..|s| - 1]
  {
    inside := s[4..|s| - 1];
  }

  lemma NameParts(inside: string) returns (a: string, rest: string)
    requires Inner(inside).Some?
    ensures var name := Inner(inside).value.name;
            && IsName(name) && Blank(a) && inside == a + (name + rest)
            && NameRun(name + rest) == |name| && LStrip(inside) == name + rest
  {
    a := LStripParts(inside);
    var t := LStrip(inside);
    var n := NameRun(t);
    NameRunForm(t);
    rest := t[n..];
    assert t == t[..n] + rest;
  }

  /** Read as a name without a fallback exactly in the plain form. */
  lemma PlainExactly(value: string, name: string)
    ensures Parse(value) == Some(Var(name, None)) <==> exists front, a, b, back :: PlainParts(value, front, a, name, b, back)
  {
    if Parse(value) == Some(Var(name, None)) {
      var front, inside, back := FrameParts(value);
      var a, rest := NameParts(inside);
      InnerPlain(a, name, rest);
      Assoc(a, name + rest, ")");
      Assoc(name, rest, ")");
      assert PlainParts(value, front, a, name, rest, back);
    }
    if front, a, b, back :| PlainParts(value, front, a, name, b, back) { ParsePlain(value, front, a, name, b, back); }
  }

  lemma InnerPlain(a: string, name: string, rest: string)
    requires Inner(a + (name + rest)) == Some(Var(name, None))
    requires NameRun(name + rest) == |name| && LStrip(a + (name + rest)) == name + rest
    ensures Blank(rest)
  {
    assert (name + rest)[|name|..] == rest;
    var gap := LStripParts(rest);
    assert gap + "" == gap;
  }
}
