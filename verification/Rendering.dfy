/** deploy/kit.py, `render_text`: placeholders replaced one key after the other. */
module Rendering {
  import opened Text

  predicate IsKeyChar(c: char) { 'A' <= c <= 'Z' || c == '_' }

  /** What stands between the signs of a placeholder: [A-Z_]+. */
  predicate IsKey(s: string) { s != "" && forall i :: 0 <= i < |s| ==> IsKeyChar(s[i]) }

  function Sign(key: string): string { "@" + (key + "@") }

  // ---- the source's algorithm

  const SOCKETIO: string := "@IF_SOCKETIO@"

  /** Lines marked for the socket server lose the mark, or go. */
  function Marked(lines: seq<string>, socketio: bool): seq<string> {
    if lines == [] then []
    else if SOCKETIO <= lines[0] then
      (if socketio then [lines[0][|SOCKETIO|..]] else []) + Marked(lines[1..], socketio)
    else [lines[0]] + Marked(lines[1..], socketio)
  }

  /** One line: a marked one stays without its mark when the socket server is on and goes when it is
      off; any other stays as it is. */
  lemma MarkedOne(line: string, socketio: bool)
    ensures Marked(["@IF_SOCKETIO@" + line], socketio) == if socketio then [line] else []
    ensures !("@IF_SOCKETIO@" <= line) ==> Marked([line], socketio) == [line]
  {
    var marked := "@IF_SOCKETIO@" + line;
    assert SOCKETIO <= marked && marked[|SOCKETIO|..] == line;
    var none: seq<string> := [];
    assert [marked][1..] == none && [line][1..] == none;
  }

  /** Line after line. */
  lemma {:induction false} MarkedJoin(a: seq<string>, b: seq<string>, socketio: bool)
    ensures Marked(a + b, socketio) == Marked(a, socketio) + Marked(b, socketio)
  {
    if a == [] {
      assert a + b == b;
    } else {
      assert (a + b)[1..] == a[1..] + b;
      MarkedJoin(a[1..], b, socketio);
    }
  }

  lemma KeyChars(c: char)
    ensures IsKeyChar(c) <==> c in "ABCDEFGHIJKLMNOPQRSTUVWXYZ_"
  {
    var all := "ABCDEFGHIJKLMNOPQRSTUVWXYZ_";
    assert forall i :: 0 <= i < 26 ==> all[i] == ('A' as int + i) as char;
    if 'A' <= c <= 'Z' { assert all[c as int - 'A' as int] == c; }
    if c == '_' { assert all[26] == c; }
  }

  /** The replacements, in the order of the pairs. */
  function Sequential(text: string, values: seq<(string, string)>): string
    decreases |values|
  {
    if values == [] then text else Sequential(Replace(text, Sign(values[0].0), values[0].1), values[1..])
  }

  /** A match of `@[A-Z_]+@` from i to j. */
  predicate PlaceholderAt(s: string, i: nat, j: nat) {
    i + 1 < j < |s| && s[i] == '@' && s[j] == '@' && IsKey(s[i + 1..j])
  }

  predicate HasPlaceholder(s: string) {
    exists i, j :: 0 <= i < |s| && 0 <= j < |s| && PlaceholderAt(s, i, j)
  }

  datatype Error = NoValue

  method RenderText(template: string, values: seq<(string, string)>, socketio: bool) returns (r: Result<string, Error>)
    ensures var text := Sequential(Join("\n", Marked(SplitLines(template), socketio)) + "\n", values);
            r == if HasPlaceholder(text) then Failure(NoValue) else Success(text)
  {
    r := RenderLines(SplitLines(template), values, socketio);
  }

  method RenderLines(lines: seq<string>, values: seq<(string, string)>, socketio: bool) returns (r: Result<string, Error>)
    ensures var text := Sequential(Join("\n", Marked(lines, socketio)) + "\n", values);
            r == if HasPlaceholder(text) then Failure(NoValue) else Success(text)
  {
    var kept: seq<string> := [];
    for i := 0 to |lines|
      invariant kept + Marked(lines[i..], socketio) == Marked(lines, socketio)
    {
      var line := lines[i];
      assert lines[i..][0] == line && lines[i..][1..] == lines[i + 1..];
      if SOCKETIO <= line {
        if !socketio {
          continue;
        }
        line := line[|SOCKETIO|..];
      }
      kept := kept + [line];
    }
    assert kept == Marked(lines, socketio);
    var text := Join("\n", kept) + "\n";
    ghost var start := text;
    for i := 0 to |values|
      invariant Sequential(text, values[i..]) == Sequential(start, values)
    {
      assert values[i..][0] == values[i] && values[i..][1..] == values[i + 1..];
      text := Replace(text, Sign(values[i].0), values[i].1);
    }
    assert values[|values|..] == [];
    if HasPlaceholder(text) {
      return Failure(NoValue);
    }
    r := Success(text);
  }

  // ---- templates

  predicate Plain(s: string) { '@' !in s }

  /** How many key characters a text begins with. */
  function Run(s: string): (n: nat)
    ensures n <= |s| && (forall i :: 0 <= i < n ==> IsKeyChar(s[i])) && (n < |s| ==> !IsKeyChar(s[n]))
  {
    if s == "" || !IsKeyChar(s[0]) then 0 else 1 + Run(s[1..])
  }

  /** The key characters a text begins with stop at something other than a sign, or at its
      end when there is no more. */
  predicate Ended(s: string, more: bool) {
    if Run(s) < |s| then s[Run(s)] != '@' else !more
  }

  /** Key characters join no sign of the text to a next one, in it or in what comes after. */
  predicate Lone(s: string, more: bool) {
    s == "" || ((s[0] == '@' ==> Ended(s[1..], more)) && Lone(s[1..], more))
  }

  /** What comes before the first placeholder, then each placeholder with the literal text
      after it. */
  datatype Template = Template(head: string, holes: seq<(string, string)>)

  /** The literal text may hold signs, but none that could be taken for a placeholder's. */
  predicate WellFormed(t: Template) {
    && Lone(t.head, t.holes != [])
    && forall i :: 0 <= i < |t.holes| ==> IsKey(t.holes[i].0) && Lone(t.holes[i].1, i < |t.holes| - 1)
  }

  function HolesText(holes: seq<(string, string)>): string {
    if holes == [] then "" else Sign(holes[0].0) + (holes[0].1 + HolesText(holes[1..]))
  }

  function TextOf(t: Template): string { t.head + HolesText(t.holes) }

  /** Every placeholder at once; one without a value stays. */
  function Simultaneous(t: Template, m: map<string, string>): string
    decreases |t.holes|
  {
    if t.holes == [] then t.head else
      var key := t.holes[0].0;
      t.head + ((if key in m then m[key] else Sign(key)) + Simultaneous(Template(t.holes[0].1, t.holes[1..]), m))
  }

  /** The template with one key's placeholders filled. */
  function Fill(t: Template, key: string, value: string): Template
    decreases |t.holes|
  {
    if t.holes == [] then t
    else if t.holes[0].0 == key then Fill(Template(t.head + (value + t.holes[0].1), t.holes[1..]), key, value)
    else
      var rest := Fill(Template(t.holes[0].1, t.holes[1..]), key, value);
      Template(t.head, [(t.holes[0].0, rest.head)] + rest.holes)
  }

  /** The literal text before the next sign is the key. */
  predicate Tight(lit: string, more: bool, key: string) {
    key + "@" <= lit + (if more then "@" else "")
  }

  /** A literal that begins with the key and a sign, or is the key and stands before one, and
      does not follow a placeholder of that same key: with the sign before it that makes a
      false match. */
  predicate Trapped(holes: seq<(string, string)>, key: string) {
    holes != [] && ((holes[0].0 != key && Tight(holes[0].1, |holes| > 1, key)) || Trapped(holes[1..], key))
  }

  // ---- lone signs

  /** After text that is ended so, no key goes on to a sign. */
  lemma EndedNoMatch(s: string, rest: string, key: string)
    requires IsKey(key) && Ended(s, rest != "")
    ensures !(key + "@" <= s + rest)
  {
    var n, k, text := Run(s), key + "@", s + rest;
    assert k[|key|] == '@' && forall i :: 0 <= i < |key| ==> IsKeyChar(k[i]);
    if n < |s| {
      assert text[n] == s[n];
      assert |key| < n ==> text[|key|] == s[|key|];
    } else {
      assert text == s;
    }
  }

  lemma {:induction false} LoneAt(s: string, more: bool, i: nat)
    requires Lone(s, more) && i < |s| && s[i] == '@'
    ensures Ended(s[i + 1..], more)
  {
    if i > 0 {
      LoneAt(s[1..], more, i - 1);
      assert s[1..][i..] == s[i + 1..];
    }
  }

  lemma {:induction false} PlainIsLone(s: string, more: bool)
    requires Plain(s)
    ensures Lone(s, more)
  {
    if s != "" {
      assert s[0] in s && forall c :: c in s[1..] ==> c in s;
      PlainIsLone(s[1..], more);
    }
  }

  lemma {:induction false} EndedAppend(a: string, b: string, more: bool)
    requires Ended(a, true)
    ensures Ended(a + b, more)
  {
    if IsKeyChar(a[0]) {
      assert (a + b)[1..] == a[1..] + b;
      EndedAppend(a[1..], b, more);
    }
  }

  lemma {:induction false} LoneAppend(a: string, b: string, more: bool)
    requires Lone(a, true) && Lone(b, more)
    ensures Lone(a + b, more)
  {
    if a == "" {
      assert a + b == b;
    } else {
      assert (a + b)[1..] == a[1..] + b;
      LoneAppend(a[1..], b, more);
      if a[0] == '@' { EndedAppend(a[1..], b, more); }
    }
  }

  lemma RunIs(s: string, n: nat)
    requires n <= |s| && (forall i :: 0 <= i < n ==> IsKeyChar(s[i])) && (n < |s| ==> !IsKeyChar(s[n]))
    ensures Run(s) == n
  {
    assert Run(s) < |s| ==> !IsKeyChar(s[Run(s)]);
  }

  lemma PlaceholderNotEnded(s: string, i: nat, j: nat)
    requires PlaceholderAt(s, i, j)
    ensures !Ended(s[i + 1..], false)
  {
    var tail := s[i + 1..];
    assert tail[j - i - 1] == s[j] && tail[..j - i - 1] == s[i + 1..j];
    assert forall k :: 0 <= k < j - i - 1 ==> tail[k] == s[i + 1..j][k];
    RunIs(tail, j - i - 1);
  }

  /** A text of lone signs holds no placeholder. */
  lemma LoneHasNone(s: string)
    requires Lone(s, false)
    ensures !HasPlaceholder(s)
  {
    if i, j :| 0 <= i < |s| && 0 <= j < |s| && PlaceholderAt(s, i, j) {
      PlaceholderNotEnded(s, i, j);
      LoneAt(s, false, i);
    }
  }

  // ---- every text without two signs side by side has such a template

  predicate NoDouble(s: string) { forall i :: 0 <= i < |s| - 1 ==> s[i] != '@' || s[i + 1] != '@' }

  function TemplateOf(s: string): Template {
    if s == "" then Template("", [])
    else if s[0] != '@' || Ended(s[1..], false) then
      var rest := TemplateOf(s[1..]);
      Template([s[0]] + rest.head, rest.holes)
    else
      var n := Run(s[1..]);
      var rest := TemplateOf(s[n + 2..]);
      Template("", [(s[1..n + 1], rest.head)] + rest.holes)
  }

  /** A lone sign before a template's text is a lone sign of its head. */
  lemma EndedHead(t: Template)
    requires Ended(TextOf(t), false)
    ensures Ended(t.head, t.holes != [])
  {
    var n, text := Run(TextOf(t)), TextOf(t);
    assert forall i :: 0 <= i < |t.head| ==> text[i] == t.head[i];
    if t.holes == [] {
      assert text == t.head;
    } else {
      assert text[|t.head|] == HolesText(t.holes)[0] == '@';
      RunIs(t.head, n);
    }
  }

  lemma ConsText(c: char, t: Template)
    ensures TextOf(Template([c] + t.head, t.holes)) == [c] + TextOf(t)
  {
  }

  lemma ConsWellFormed(c: char, t: Template)
    requires WellFormed(t) && (c == '@' ==> Ended(t.head, t.holes != []))
    ensures WellFormed(Template([c] + t.head, t.holes))
  {
    assert ([c] + t.head)[1..] == t.head;
  }

  lemma ConsHole(key: string, t: Template)
    requires WellFormed(t) && IsKey(key)
    ensures var hole := Template("", [(key, t.head)] + t.holes); WellFormed(hole) && TextOf(hole) == Sign(key) + TextOf(t)
  {
    var hole := Template("", [(key, t.head)] + t.holes);
    WellFormedCons("", key, t);
    assert hole.holes[1..] == t.holes;
  }

  lemma KeyAhead(s: string)
    requires NoDouble(s) && s != "" && s[0] == '@' && !Ended(s[1..], false)
    ensures var n := Run(s[1..]); n + 2 <= |s| && IsKey(s[1..n + 1]) && s == Sign(s[1..n + 1]) + s[n + 2..]
  {
    var n := Run(s[1..]);
    assert s[1..][n] == s[n + 1] == '@' && s[1..n + 1] == s[1..][..n];
  }

  lemma NoDoubleTail(s: string, k: nat)
    requires NoDouble(s) && k <= |s|
    ensures NoDouble(s[k..])
  {
    assert forall i :: 0 <= i < |s| - k ==> s[k..][i] == s[i + k];
  }

  lemma LoneStep(s: string)
    requires s != "" && (s[0] != '@' || Ended(s[1..], false))
    requires var rest := TemplateOf(s[1..]); WellFormed(rest) && TextOf(rest) == s[1..]
    ensures var t := TemplateOf(s); WellFormed(t) && TextOf(t) == s
  {
    var rest := TemplateOf(s[1..]);
    if s[0] == '@' { EndedHead(rest); }
    ConsWellFormed(s[0], rest);
    ConsText(s[0], rest);
    assert s == [s[0]] + s[1..];
  }

  lemma HoleStep(s: string)
    requires NoDouble(s) && s != "" && s[0] == '@' && !Ended(s[1..], false)
    requires Run(s[1..]) + 2 <= |s|
    requires var rest := TemplateOf(s[Run(s[1..]) + 2..]); WellFormed(rest) && TextOf(rest) == s[Run(s[1..]) + 2..]
    ensures var t := TemplateOf(s); WellFormed(t) && TextOf(t) == s
  {
    var n := Run(s[1..]);
    KeyAhead(s);
    ConsHole(s[1..n + 1], TemplateOf(s[n + 2..]));
  }

  /** Every text in which no two signs stand side by side is the text of a well-formed
      template. */
  lemma {:induction false} TemplateOfText(s: string)
    requires NoDouble(s)
    ensures WellFormed(TemplateOf(s)) && TextOf(TemplateOf(s)) == s
  {
    if s == "" {
    } else if s[0] != '@' || Ended(s[1..], false) {
      NoDoubleTail(s, 1);
      TemplateOfText(s[1..]);
      LoneStep(s);
    } else {
      KeyAhead(s);
      NoDoubleTail(s, Run(s[1..]) + 2);
      TemplateOfText(s[Run(s[1..]) + 2..]);
      HoleStep(s);
    }
  }

  /** The worker unit's second line, `... (consilium-worker@1, @2, ...). ...`, holds two signs
      of no placeholder: it may stand in any template's literals. */
  lemma WorkersLine(before: string, after: string)
    requires Plain(before) && Plain(after)
    ensures Lone(before + ("@1, @2" + after), true) && (before + ("@1, @2" + after))[|before|] == '@'
  {
    PlainIsLone(before, true);
    PlainIsLone("1, ", true);
    PlainIsLone(after, true);
    LoneAppend("1, ", "@2", true);
    assert "@1, @2"[1..] == "1, " + "@2";
    LoneAppend("@1, @2", after, true);
    LoneAppend(before, "@1, @2" + after, true);
  }

  // ---- one replacement

  lemma SignAhead(key: string, s: string)
    requires s != ""
    ensures Sign(key) <= s <==> s[0] == '@' && key + "@" <= s[1..]
  {
    var k := key + "@";
    assert Sign(key)[0] == '@' && Sign(key)[1..] == k;
    if |k| < |s| {
      assert s[1..][..|k|] == s[..|k| + 1][1..];
      assert s[0] == '@' && s[1..][..|k|] == k ==> s[..|k| + 1] == Sign(key);
    }
  }

  lemma NoMatchHere(s: string, rest: string, key: string)
    requires IsKey(key) && s != "" && Lone(s, rest != "")
    ensures !(Sign(key) <= s + rest)
  {
    assert (s + rest)[1..] == s[1..] + rest;
    SignAhead(key, s + rest);
    if s[0] == '@' { EndedNoMatch(s[1..], rest, key); }
  }

  /** A scan passes over text of lone signs. */
  lemma {:induction false} ReplaceSkip(s: string, rest: string, key: string, value: string)
    requires IsKey(key) && Lone(s, rest != "")
    ensures Replace(s + rest, Sign(key), value) == s + Replace(rest, Sign(key), value)
  {
    if s == "" {
      assert s + rest == rest;
    } else {
      NoMatchHere(s, rest, key);
      ReplaceSkip(s[1..], rest, key, value);
      ReplaceStep(s, rest, Sign(key), value);
    }
  }

  /** A sign followed by plain text and another sign matches exactly that plain text. */
  lemma SignMatches(a: string, rest: string, key: string)
    requires Plain(a) && Plain(key)
    ensures Sign(key) <= "@" + (a + ("@" + rest)) <==> a == key
  {
    var s := "@" + (a + ("@" + rest));
    if |a| < |key| {
      assert key[|a|] in key && Sign(key)[|a| + 1] != s[|a| + 1];
    } else if |a| > |key| {
      assert a[|key|] in a && Sign(key)[|key| + 1] != s[|key| + 1];
    } else if i :| 0 <= i < |a| && a[i] != key[i] {
      assert Sign(key)[i + 1] != s[i + 1];
    } else {
      assert a == key && s[..|key| + 2] == Sign(key);
    }
  }

  lemma {:induction false} TextHasSign(holes: seq<(string, string)>)
    requires holes != []
    ensures HolesText(holes) == "@" + (holes[0].0 + ("@" + (holes[0].1 + HolesText(holes[1..]))))
  {
  }

  /** Scanning over a placeholder of another key: its second sign may yet match. */
  lemma ReplaceOther(a: string, rest: string, key: string, value: string)
    requires IsKey(a) && Plain(a) && IsKey(key) && Plain(key) && a != key
    ensures Replace("@" + (a + ("@" + rest)), Sign(key), value) == "@" + (a + Replace("@" + rest, Sign(key), value))
  {
    var s := "@" + (a + ("@" + rest));
    SignMatches(a, rest, key);
    assert s[1..] == a + ("@" + rest);
    PlainIsLone(a, true);
    ReplaceSkip(a, "@" + rest, key, value);
  }

  lemma ReplaceSame(rest: string, key: string, value: string)
    ensures Replace(Sign(key) + rest, Sign(key), value) == value + Replace(rest, Sign(key), value)
  {
  }

  lemma KeyIsPlain(key: string)
    requires IsKey(key)
    ensures Plain(key)
  {
  }

  function Next(t: Template): Template
    requires t.holes != []
  {
    Template(t.holes[0].1, t.holes[1..])
  }

  lemma NextWellFormed(t: Template)
    requires WellFormed(t) && t.holes != []
    ensures WellFormed(Next(t)) && IsKey(t.holes[0].0)
  {
    assert forall i :: 0 <= i < |t.holes| - 1 ==> t.holes[1..][i] == t.holes[i + 1];
  }

  lemma SignAssoc(a: string, rest: string)
    ensures Sign(a) + rest == "@" + (a + ("@" + rest))
  {
  }

  lemma HolesAssoc(t: Template)
    requires t.holes != []
    ensures HolesText(t.holes) == Sign(t.holes[0].0) + TextOf(Next(t))
  {
  }

  /** A placeholder of the key itself is replaced, and the scan goes on after it. */
  lemma ReplaceHoleSame(t: Template, key: string, value: string)
    requires WellFormed(t) && t.holes != [] && t.holes[0].0 == key
    ensures Replace(TextOf(t), Sign(key), value) == t.head + (value + Replace(TextOf(Next(t)), Sign(key), value))
  {
    ReplaceSkip(t.head, HolesText(t.holes), key, value);
    HolesAssoc(t);
    ReplaceSame(TextOf(Next(t)), key, value);
  }

  /** Over another placeholder the scan reaches its second sign. */
  lemma ReplaceHoleOther(t: Template, key: string, value: string)
    requires WellFormed(t) && t.holes != [] && t.holes[0].0 != key && IsKey(key)
    ensures Replace(TextOf(t), Sign(key), value)
         == t.head + ("@" + (t.holes[0].0 + Replace("@" + TextOf(Next(t)), Sign(key), value)))
  {
    ReplaceSkip(t.head, HolesText(t.holes), key, value);
    HolesAssoc(t);
    SignAssoc(t.holes[0].0, TextOf(Next(t)));
    KeyIsPlain(t.holes[0].0);
    KeyIsPlain(key);
    ReplaceOther(t.holes[0].0, TextOf(Next(t)), key, value);
  }

  /** A placeholder's second sign opens a match exactly when the literal after it is tight. */
  lemma SecondSign(next: Template, key: string)
    requires IsKey(key)
    ensures Sign(key) <= "@" + TextOf(next) <==> Tight(next.head, next.holes != [], key)
  {
    var text, k, sign := TextOf(next), key + "@", if next.holes != [] then "@" else "";
    SignAhead(key, "@" + text);
    assert ("@" + text)[1..] == text && (next.holes != [] ==> HolesText(next.holes)[0] == '@');
    assert next.head + sign == text[..|next.head + sign|];
    if next.holes == [] {
      assert text == next.head + sign;
    } else if |next.head| < |key| {
      assert text[|next.head|] == '@' && k[|next.head|] == key[|next.head|];
    } else {
      assert |text| >= |next.head + sign| >= |k|;
      assert text[..|k|] == (next.head + sign)[..|k|];
    }
  }

  lemma SecondSignFree(next: Template, key: string, value: string)
    requires WellFormed(next) && IsKey(key) && !Tight(next.head, next.holes != [], key)
    ensures Replace("@" + TextOf(next), Sign(key), value) == "@" + Replace(TextOf(next), Sign(key), value)
  {
    SecondSign(next, key);
    assert ("@" + TextOf(next))[1..] == TextOf(next);
  }

  /** Text put before the head stays before it. */
  lemma {:induction false} FillPrefix(p: string, head: string, holes: seq<(string, string)>, key: string, value: string)
    ensures TextOf(Fill(Template(p + head, holes), key, value)) == p + TextOf(Fill(Template(head, holes), key, value))
    decreases |holes|
  {
    if holes != [] && holes[0].0 == key {
      var h := value + holes[0].1;
      assert (p + head) + h == p + (head + h);
      FillPrefix(p, head + h, holes[1..], key, value);
    }
  }

  lemma SameFilled(t: Template, key: string, value: string)
    requires t.holes != [] && t.holes[0].0 == key
    ensures TextOf(Fill(t, key, value)) == t.head + (value + TextOf(Fill(Next(t), key, value)))
  {
    var lit, more := t.holes[0].1, t.holes[1..];
    FillPrefix(value, lit, more, key, value);
    FillPrefix(t.head, value + lit, more, key, value);
  }

  lemma OtherFilled(t: Template, key: string, value: string)
    requires t.holes != [] && t.holes[0].0 != key
    ensures TextOf(Fill(t, key, value)) == t.head + ("@" + (t.holes[0].0 + ("@" + TextOf(Fill(Next(t), key, value)))))
  {
  }

  /** Replacing one key in the text is filling it in the template, unless a literal is
      trapped. */
  lemma {:induction false} ReplaceFills(t: Template, key: string, value: string)
    requires WellFormed(t) && IsKey(key) && !Trapped(t.holes, key)
    ensures Replace(TextOf(t), Sign(key), value) == TextOf(Fill(t, key, value))
    decreases |t.holes|
  {
    if t.holes == [] {
      ReplaceSkip(t.head, "", key, value);
    } else {
      NextWellFormed(t);
      ReplaceFills(Next(t), key, value);
      if t.holes[0].0 == key {
        ReplaceHoleSame(t, key, value);
        SameFilled(t, key, value);
      } else {
        ReplaceHoleOther(t, key, value);
        SecondSignFree(Next(t), key, value);
        OtherFilled(t, key, value);
      }
    }
  }

  /** A trapped literal is replaced although it is no placeholder. */
  lemma {:induction false} ReplaceTrapped(t: Template, key: string, value: string)
    requires WellFormed(t) && IsKey(key) && Lone(value, true) && Trapped(t.holes, key)
    ensures Replace(TextOf(t), Sign(key), value) != TextOf(Fill(t, key, value))
    decreases |t.holes|, 0
  {
    NextWellFormed(t);
    if t.holes[0].0 == key {
      ReplaceTrapped(Next(t), key, value);
      SameDiffers(t, key, value);
    } else {
      SecondSignLost(Next(t), key, value);
      OtherDiffers(t, key, value);
    }
  }

  lemma SameDiffers(t: Template, key: string, value: string)
    requires WellFormed(t) && t.holes != [] && t.holes[0].0 == key
    requires Replace(TextOf(Next(t)), Sign(key), value) != TextOf(Fill(Next(t), key, value))
    ensures Replace(TextOf(t), Sign(key), value) != TextOf(Fill(t, key, value))
  {
    var found, filled := Replace(TextOf(Next(t)), Sign(key), value), TextOf(Fill(Next(t), key, value));
    ReplaceHoleSame(t, key, value);
    SameFilled(t, key, value);
    Differs(value, found, filled);
    Differs(t.head, value + found, value + filled);
  }

  lemma OtherDiffers(t: Template, key: string, value: string)
    requires WellFormed(t) && t.holes != [] && t.holes[0].0 != key && IsKey(key)
    requires Replace("@" + TextOf(Next(t)), Sign(key), value) != "@" + TextOf(Fill(Next(t), key, value))
    ensures Replace(TextOf(t), Sign(key), value) != TextOf(Fill(t, key, value))
  {
    ReplaceHoleOther(t, key, value);
    OtherFilled(t, key, value);
    DiffersInside(t.head, t.holes[0].0, Replace("@" + TextOf(Next(t)), Sign(key), value),
                  "@" + TextOf(Fill(Next(t), key, value)));
  }

  lemma {:induction false} SecondSignLost(next: Template, key: string, value: string)
    requires WellFormed(next) && IsKey(key) && Lone(value, true)
    requires Tight(next.head, next.holes != [], key) || Trapped(next.holes, key)
    ensures Replace("@" + TextOf(next), Sign(key), value) != "@" + TextOf(Fill(next, key, value))
    decreases |next.holes|, 1
  {
    if Tight(next.head, next.holes != [], key) {
      TrappedHead(next, key, value);
    } else {
      SecondSignFree(next, key, value);
      ReplaceTrapped(next, key, value);
      Differs("@", Replace(TextOf(next), Sign(key), value), TextOf(Fill(next, key, value)));
    }
  }

  lemma DiffersInside(p: string, a: string, x: string, y: string)
    ensures p + ("@" + (a + x)) == p + ("@" + (a + y)) <==> x == y
  {
    Differs(a, x, y);
    Differs("@", a + x, a + y);
    Differs(p, "@" + (a + x), "@" + (a + y));
  }

  lemma Differs(p: string, a: string, b: string)
    ensures p + a == p + b <==> a == b
  {
    assert (p + a)[|p|..] == a && (p + b)[|p|..] == b;
  }

  /** A lone sign's text cannot begin like a sign, the key and another sign. */
  lemma LoneDiffers(value: string, x: string, key: string, y: string)
    requires Lone(value, true) && IsKey(key) && value != "" && value[0] == '@'
    requires y != "" && y[0] == '@'
    ensures value + x != "@" + (key + y)
  {
    var n := Run(value[1..]);
    assert value[1..][n] == value[n + 1] && (value + x)[n + 1] == value[n + 1];
    var other := "@" + (key + y);
    assert other[|key| + 1] == '@';
    if n < |key| {
      assert other[n + 1] == key[n];
    } else if n > |key| {
      assert value[1..][|key|] == value[|key| + 1] == (value + x)[|key| + 1];
    }
  }

  /** What is left after the false match does not begin with a sign. */
  lemma AfterFalseMatch(next: Template, key: string)
    requires WellFormed(next) && IsKey(key) && Tight(next.head, next.holes != [], key)
    ensures |key| < |TextOf(next)| && "@" + TextOf(next) == Sign(key) + TextOf(next)[|key| + 1..]
    ensures var left := TextOf(next)[|key| + 1..]; left == "" || left[0] != '@'
  {
    var text := TextOf(next);
    SecondSign(next, key);
    assert ("@" + text)[..|key| + 2] == Sign(key);
    if |next.head| > |key| + 1 {
      assert (key + "@")[|key|] == '@' == next.head[|key|];
      LoneAt(next.head, next.holes != [], |key|);
      assert text[|key| + 1] == next.head[|key| + 1];
    } else if next.holes != [] {
      AfterHead(next, key);
    }
  }

  lemma AfterHead(next: Template, key: string)
    requires WellFormed(next) && IsKey(key) && Tight(next.head, next.holes != [], key)
    requires next.holes != [] && |next.head| <= |key| + 1
    ensures |key| + 1 < |TextOf(next)| && TextOf(next)[|key| + 1] != '@'
  {
    if |next.head| == |key| + 1 {
      assert (key + "@")[|key|] == next.head[|key|];
      LoneAt(next.head, true, |key|);
    } else {
      TextHasSign(next.holes);
      assert TextOf(next)[|key| + 1] == next.holes[0].0[0];
    }
  }

  /** In the filled text a sign follows the literal's key when the value begins with one. */
  lemma FilledAfterKey(next: Template, key: string, value: string)
    requires IsKey(key) && Tight(next.head, next.holes != [], key) && value != "" && value[0] == '@'
    ensures key + "@" <= TextOf(Fill(next, key, value))
  {
    var filled, k := TextOf(Fill(next, key, value)), key + "@";
    FillKeepsHead(next, key, value);
    assert next.head <= filled;
    if |next.head| > |key| {
      assert k == next.head[..|k|] == filled[..|k|];
    } else {
      assert next.head == key by { assert k[..|key|] == (next.head + "@")[..|key|]; }
      if next.holes[0].0 == key {
        SameFilled(next, key, value);
        SignAfter(key, value + TextOf(Fill(Next(next), key, value)));
      } else {
        OtherFilled(next, key, value);
        SignAfter(key, "@" + (next.holes[0].0 + ("@" + TextOf(Fill(Next(next), key, value)))));
      }
    }
  }

  lemma SignAfter(key: string, s: string)
    requires s != "" && s[0] == '@'
    ensures key + "@" <= key + s
  {
  }

  /** The false match swallows the sign that should stay. */
  lemma TrappedHead(next: Template, key: string, value: string)
    requires WellFormed(next) && IsKey(key) && Lone(value, true) && Tight(next.head, next.holes != [], key)
    ensures Replace("@" + TextOf(next), Sign(key), value) != "@" + TextOf(Fill(next, key, value))
  {
    var left := TextOf(next)[|key| + 1..];
    AfterFalseMatch(next, key);
    ReplaceSame(left, key, value);
    NoSignFirst(left, key, value);
    if value != "" && value[0] == '@' { FilledAfterKey(next, key, value); }
    SignSwallowed(value, Replace(left, Sign(key), value), key, TextOf(Fill(next, key, value)));
  }

  lemma SignSwallowed(value: string, x: string, key: string, filled: string)
    requires IsKey(key) && Lone(value, true) && (x == "" || x[0] != '@')
    requires value != "" && value[0] == '@' ==> key + "@" <= filled
    ensures value + x != "@" + filled
  {
    if value == "" {
      assert value + x == x;
    } else if value[0] == '@' {
      var k := key + "@";
      assert filled == k + filled[|k|..] == key + ("@" + filled[|k|..]);
      LoneDiffers(value, x, key, "@" + filled[|k|..]);
    } else {
      assert (value + x)[0] == value[0];
    }
  }

  lemma NoSignFirst(s: string, key: string, value: string)
    requires s == "" || s[0] != '@'
    ensures var found := Replace(s, Sign(key), value); found == "" || found[0] != '@'
  {
    if s != "" { SignAhead(key, s); }
  }

  lemma {:induction false} FillKeepsHead(t: Template, key: string, value: string)
    ensures t.head <= Fill(t, key, value).head
    decreases |t.holes|
  {
    if t.holes != [] && t.holes[0].0 == key {
      var h := t.head + (value + t.holes[0].1);
      FillKeepsHead(Template(h, t.holes[1..]), key, value);
      assert t.head <= h;
    }
  }

  /** One replacement fills its placeholders and nothing else exactly when no literal is
      trapped. */
  lemma ReplaceIsFill(t: Template, key: string, value: string)
    requires WellFormed(t) && IsKey(key) && Lone(value, true)
    ensures Replace(TextOf(t), Sign(key), value) == TextOf(Fill(t, key, value)) <==> !Trapped(t.holes, key)
  {
    if Trapped(t.holes, key) {
      ReplaceTrapped(t, key, value);
    } else {
      ReplaceFills(t, key, value);
    }
  }

  // ---- all the keys

  /** After every placeholder comes a character no key can hold, before any other sign. */
  predicate Separated(t: Template) {
    forall i :: 0 <= i < |t.holes| ==> Ended(t.holes[i].1, i < |t.holes| - 1)
  }

  lemma NotTight(lit: string, more: bool, key: string)
    requires IsKey(key) && Ended(lit, more)
    ensures !Tight(lit, more, key)
  {
    EndedNoMatch(lit, if more then "@" else "", key);
  }

  lemma {:induction false} SeparatedNotTrapped(holes: seq<(string, string)>, key: string)
    requires IsKey(key) && Separated(Template("", holes))
    ensures !Trapped(holes, key)
  {
    if holes != [] {
      assert forall i :: 0 <= i < |holes| - 1 ==> holes[1..][i] == holes[i + 1];
      SeparatedNotTrapped(holes[1..], key);
      NotTight(holes[0].1, |holes| > 1, key);
    }
  }

  predicate Fillable(t: Template) { WellFormed(t) && Separated(t) }

  lemma FillableTail(t: Template, head: string)
    requires Fillable(t) && t.holes != [] && Lone(head, |t.holes| > 1)
    ensures Fillable(Template(head, t.holes[1..]))
  {
    assert forall i :: 0 <= i < |t.holes| - 1 ==> t.holes[1..][i] == t.holes[i + 1];
  }

  lemma FillableCons(head: string, key: string, rest: Template)
    requires Lone(head, true) && IsKey(key) && Fillable(rest) && Ended(rest.head, rest.holes != [])
    ensures Fillable(Template(head, [(key, rest.head)] + rest.holes))
  {
    WellFormedCons(head, key, rest);
  }

  /** The head with the first placeholder filled. */
  lemma HeadFilled(t: Template, value: string)
    requires WellFormed(t) && t.holes != [] && Lone(value, true)
    ensures Lone(t.head + (value + t.holes[0].1), |t.holes| > 1)
  {
    LoneAppend(value, t.holes[0].1, |t.holes| > 1);
    LoneAppend(t.head, value + t.holes[0].1, |t.holes| > 1);
  }

  /** A head that is ended so stays so. */
  lemma {:induction false} EndedFill(t: Template, key: string, value: string)
    requires Ended(t.head, t.holes != [])
    ensures var filled := Fill(t, key, value); Ended(filled.head, filled.holes != [])
    decreases |t.holes|
  {
    if t.holes != [] && t.holes[0].0 == key {
      var h := t.head + (value + t.holes[0].1);
      EndedAppend(t.head, value + t.holes[0].1, |t.holes| > 1);
      EndedFill(Template(h, t.holes[1..]), key, value);
    }
  }

  /** Filling a key leaves a template of the same kind. */
  lemma {:induction false} FillKeeps(t: Template, key: string, value: string)
    requires Fillable(t) && Lone(value, true)
    ensures Fillable(Fill(t, key, value))
    decreases |t.holes|
  {
    if t.holes != [] {
      var lit, more := t.holes[0].1, t.holes[1..];
      if t.holes[0].0 == key {
        HeadFilled(t, value);
        FillableTail(t, t.head + (value + lit));
        FillKeeps(Template(t.head + (value + lit), more), key, value);
      } else {
        FillableTail(t, lit);
        FillKeeps(Template(lit, more), key, value);
        EndedFill(Template(lit, more), key, value);
        FillableCons(t.head, t.holes[0].0, Fill(Template(lit, more), key, value));
      }
    }
  }

  /** Filling one key first changes nothing when all are filled at once afterwards. */
  lemma {:induction false} FillThenAll(t: Template, key: string, value: string, m: map<string, string>)
    ensures Simultaneous(Fill(t, key, value), m) == Simultaneous(t, m[key := value])
    decreases |t.holes|
  {
    if t.holes != [] {
      var lit, more := t.holes[0].1, t.holes[1..];
      if t.holes[0].0 == key {
        FillThenAll(Template(t.head + (value + lit), more), key, value, m);
        SimultaneousPrefix(t.head + value, lit, more, m[key := value]);
        assert (t.head + value) + lit == t.head + (value + lit);
      } else {
        FillThenAll(Template(lit, more), key, value, m);
        var rest := Fill(Template(lit, more), key, value);
        assert ([(t.holes[0].0, rest.head)] + rest.holes)[1..] == rest.holes;
      }
    }
  }

  lemma SimultaneousPrefix(p: string, head: string, holes: seq<(string, string)>, m: map<string, string>)
    ensures Simultaneous(Template(p + head, holes), m) == p + Simultaneous(Template(head, holes), m)
  {
  }

  lemma {:induction false} NothingFilled(t: Template)
    ensures Simultaneous(t, map[]) == TextOf(t)
    decreases |t.holes|
  {
    if t.holes != [] { NothingFilled(Template(t.holes[0].1, t.holes[1..])); }
  }

  function MapOf(values: seq<(string, string)>): map<string, string> {
    if values == [] then map[] else MapOf(values[1..])[values[0].0 := values[0].1]
  }

  /** Keys, and values whose signs cannot be taken for a placeholder's. */
  predicate GoodValues(values: seq<(string, string)>) {
    forall i :: 0 <= i < |values| ==> IsKey(values[i].0) && Lone(values[i].1, true)
  }

  // ---- exactly when

  lemma {:induction false} FillWellFormed(t: Template, key: string, value: string)
    requires WellFormed(t) && Lone(value, true)
    ensures WellFormed(Fill(t, key, value))
    decreases |t.holes|
  {
    if t.holes != [] {
      NextWellFormed(t);
      if t.holes[0].0 == key {
        HeadFilled(t, value);
        FillWellFormed(Template(t.head + (value + t.holes[0].1), t.holes[1..]), key, value);
      } else {
        var rest := Fill(Next(t), key, value);
        FillWellFormed(Next(t), key, value);
        WellFormedCons(t.head, t.holes[0].0, rest);
      }
    }
  }

  lemma WellFormedCons(head: string, key: string, rest: Template)
    requires Lone(head, true) && IsKey(key) && WellFormed(rest)
    ensures WellFormed(Template(head, [(key, rest.head)] + rest.holes))
  {
    var holes := [(key, rest.head)] + rest.holes;
    assert forall i :: 0 < i < |holes| ==> holes[i] == rest.holes[i - 1];
  }

  /** No literal is trapped when its key's turn comes. */
  predicate Clean(t: Template, values: seq<(string, string)>)
    decreases |values|
  {
    values == [] || (!Trapped(t.holes, values[0].0) && Clean(Fill(t, values[0].0, values[0].1), values[1..]))
  }

  /** After the first n keys the text is the simultaneous substitution of those. */
  predicate AgreesAt(t: Template, values: seq<(string, string)>, n: nat)
    requires n <= |values|
  {
    Sequential(TextOf(t), values[..n]) == Simultaneous(t, MapOf(values[..n]))
  }

  predicate Agrees(t: Template, values: seq<(string, string)>) {
    forall n :: 0 <= n <= |values| ==> AgreesAt(t, values, n)
  }

  lemma AgreesFirst(t: Template, values: seq<(string, string)>)
    requires WellFormed(t) && GoodValues(values) && values != []
    ensures AgreesAt(t, values, 0)
    ensures AgreesAt(t, values, 1) <==> !Trapped(t.holes, values[0].0)
  {
    var key, value := values[0].0, values[0].1;
    assert values[..0] == [] && values[..1] == [values[0]];
    NothingFilled(t);
    FillThenAll(t, key, value, map[]);
    NothingFilled(Fill(t, key, value));
    ReplaceIsFill(t, key, value);
    OneKey(TextOf(t), values[0]);
  }

  lemma OneKey(text: string, pair: (string, string))
    ensures Sequential(text, [pair]) == Replace(text, Sign(pair.0), pair.1) && MapOf([pair]) == map[pair.0 := pair.1]
  {
  }

  lemma AgreesNext(t: Template, values: seq<(string, string)>, n: nat)
    requires WellFormed(t) && GoodValues(values) && 1 <= n <= |values| && !Trapped(t.holes, values[0].0)
    ensures AgreesAt(t, values, n) <==> AgreesAt(Fill(t, values[0].0, values[0].1), values[1..], n - 1)
  {
    var key, value := values[0].0, values[0].1;
    assert values[..n][0] == values[0] && values[..n][1..] == values[1..][..n - 1];
    ReplaceFills(t, key, value);
    FillThenAll(t, key, value, MapOf(values[1..][..n - 1]));
  }

  /** The text agrees with the simultaneous substitution after every key exactly when no
      literal is trapped at its turn. */
  lemma {:induction false} AgreesExactly(t: Template, values: seq<(string, string)>)
    requires WellFormed(t) && GoodValues(values)
    ensures Agrees(t, values) <==> Clean(t, values)
    decreases |values|
  {
    if values == [] {
      NothingFilled(t);
      assert values[..0] == [];
    } else {
      AgreesFirst(t, values);
      if !Trapped(t.holes, values[0].0) {
        var next := Fill(t, values[0].0, values[0].1);
        FillWellFormed(t, values[0].0, values[0].1);
        AgreesExactly(next, values[1..]);
        forall n | 1 <= n <= |values|
          ensures AgreesAt(t, values, n) <==> AgreesAt(next, values[1..], n - 1)
        {
          AgreesNext(t, values, n);
        }
        AgreesShift(t, next, values);
      }
    }
  }

  lemma AgreesShift(t: Template, next: Template, values: seq<(string, string)>)
    requires values != [] && AgreesAt(t, values, 0)
    requires forall n :: 1 <= n <= |values| ==> (AgreesAt(t, values, n) <==> AgreesAt(next, values[1..], n - 1))
    ensures Agrees(t, values) <==> Agrees(next, values[1..])
  {
    if Agrees(t, values) {
      forall n | 0 <= n <= |values[1..]|
        ensures AgreesAt(next, values[1..], n)
      {
        assert AgreesAt(t, values, n + 1);
      }
    }
  }

  /** A template whose placeholders are separated is clean for every list of values. */
  lemma {:induction false} SeparatedIsClean(t: Template, values: seq<(string, string)>)
    requires Fillable(t) && GoodValues(values)
    ensures Clean(t, values)
    decreases |values|
  {
    if values != [] {
      assert Separated(Template("", t.holes));
      SeparatedNotTrapped(t.holes, values[0].0);
      FillKeeps(t, values[0].0, values[0].1);
      SeparatedIsClean(Fill(t, values[0].0, values[0].1), values[1..]);
    }
  }

  /** Replacing key after key equals replacing all at once. */
  lemma SequentialIsSimultaneous(t: Template, values: seq<(string, string)>)
    requires WellFormed(t) && GoodValues(values) && Clean(t, values)
    ensures Sequential(TextOf(t), values) == Simultaneous(t, MapOf(values))
  {
    AgreesExactly(t, values);
    assert AgreesAt(t, values, |values|);
    assert values[..|values|] == values;
  }

  // ---- what is left

  predicate AllGiven(t: Template, m: map<string, string>) {
    forall i :: 0 <= i < |t.holes| ==> t.holes[i].0 in m
  }

  lemma {:induction false} AllGivenIsLone(t: Template, m: map<string, string>)
    requires WellFormed(t) && AllGiven(t, m) && forall k :: k in m ==> Lone(m[k], true)
    ensures Lone(Simultaneous(t, m), false)
    decreases |t.holes|
  {
    if t.holes != [] {
      NextWellFormed(t);
      var rest := Simultaneous(Next(t), m);
      AllGivenIsLone(Next(t), m);
      LoneAppend(m[t.holes[0].0], rest, false);
      LoneAppend(t.head, m[t.holes[0].0] + rest, false);
    }
  }

  lemma PlaceholderInside(p: string, key: string, rest: string)
    requires IsKey(key)
    ensures HasPlaceholder(p + (Sign(key) + rest))
  {
    var s := p + (Sign(key) + rest);
    var i, j := |p|, |p| + |key| + 1;
    assert s[i + 1..j] == key;
    assert PlaceholderAt(s, i, j);
  }

  lemma MissingHere(t: Template, m: map<string, string>, p: string)
    requires WellFormed(t) && t.holes != [] && t.holes[0].0 !in m
    ensures HasPlaceholder(p + Simultaneous(t, m))
  {
    var key, rest := t.holes[0].0, Simultaneous(Next(t), m);
    PlaceholderInside(p + t.head, key, rest);
    Assoc(p, t.head, Sign(key) + rest);
  }

  lemma GivenHere(t: Template, m: map<string, string>, p: string)
    requires t.holes != [] && t.holes[0].0 in m
    ensures p + Simultaneous(t, m) == (p + (t.head + m[t.holes[0].0])) + Simultaneous(Next(t), m)
  {
  }

  lemma MissingLater(t: Template, m: map<string, string>)
    requires t.holes != [] && t.holes[0].0 in m && !AllGiven(t, m)
    ensures !AllGiven(Next(t), m)
  {
  }

  /** A placeholder without a value is still there at the end. */
  lemma {:induction false} MissingIsLeft(t: Template, m: map<string, string>, p: string)
    requires WellFormed(t) && !AllGiven(t, m)
    ensures HasPlaceholder(p + Simultaneous(t, m))
    decreases |t.holes|
  {
    if t.holes[0].0 !in m {
      MissingHere(t, m, p);
    } else {
      NextWellFormed(t);
      MissingLater(t, m);
      MissingIsLeft(Next(t), m, p + (t.head + m[t.holes[0].0]));
      GivenHere(t, m, p);
    }
  }

  lemma {:induction false} MapOfLone(values: seq<(string, string)>)
    requires GoodValues(values)
    ensures forall k :: k in MapOf(values) ==> Lone(MapOf(values)[k], true)
  {
    if values != [] { MapOfLone(values[1..]); }
  }

  /** Rendering gives the simultaneous substitution, and succeeds exactly when every
      placeholder has a value; the signs that are left are lone ones then. */
  lemma RenderExact(t: Template, values: seq<(string, string)>)
    requires WellFormed(t) && GoodValues(values) && Clean(t, values)
    ensures var text := Sequential(TextOf(t), values);
            && text == Simultaneous(t, MapOf(values))
            && (HasPlaceholder(text) <==> !AllGiven(t, MapOf(values)))
            && (AllGiven(t, MapOf(values)) ==> Lone(text, false))
  {
    SequentialIsSimultaneous(t, values);
    MapOfLone(values);
    if AllGiven(t, MapOf(values)) {
      AllGivenIsLone(t, MapOf(values));
      LoneHasNone(Simultaneous(t, MapOf(values)));
    } else {
      MissingIsLeft(t, MapOf(values), "");
      assert "" + Simultaneous(t, MapOf(values)) == Simultaneous(t, MapOf(values));
    }
  }

  /** Between separated placeholders the order of the keys does not matter. */
  lemma AnyOrder(t: Template, values: seq<(string, string)>, others: seq<(string, string)>)
    requires Fillable(t) && GoodValues(values) && GoodValues(others) && MapOf(values) == MapOf(others)
    ensures Sequential(TextOf(t), values) == Sequential(TextOf(t), others)
  {
    SeparatedIsClean(t, values);
    SeparatedIsClean(t, others);
    SequentialIsSimultaneous(t, values);
    SequentialIsSimultaneous(t, others);
  }

  const TIGHT := Template("", [("A", "B"), ("C", "")])

  lemma TightText()
    ensures TextOf(TIGHT) == "@A@B@C@"
    ensures WellFormed(TIGHT) && IsKey("A") && IsKey("B")
  {
  }

  /** Without a separator the order of the keys decides: the literal's key, replaced first,
      takes its neighbours' signs for its own. */
  lemma OrderMatters(a: string, b: string)
    requires Lone(a, true) && Lone(b, true)
    ensures Trapped(TIGHT.holes, "B") && !Trapped(TIGHT.holes, "A")
    ensures Replace(TextOf(TIGHT), Sign("A"), a) == TextOf(Fill(TIGHT, "A", a))
    ensures Replace(TextOf(TIGHT), Sign("B"), b) != TextOf(Fill(TIGHT, "B", b)) == TextOf(TIGHT)
  {
    TightText();
    assert TIGHT.holes[0] == ("A", "B") && |TIGHT.holes[1..]| == 1;
    ReplaceFills(TIGHT, "A", a);
    ReplaceTrapped(TIGHT, "B", b);
    TightKept(b);
  }

  lemma TightKept(b: string)
    ensures Fill(TIGHT, "B", b) == TIGHT
  {
  }
}
