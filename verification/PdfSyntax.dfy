/** The object syntax of ISO 32000-1 that the writer uses: a printer for values, a reader
    for dictionaries (section 7.3), and a reader for literal strings (section 7.3.4.2). */
module PdfSyntax {
  import opened Text

  /** Array and Dict both hold a flat list; a dictionary alternates names and values. */
  datatype Obj =
    | Int(n: nat)
    | Name(name: string)
    | Ref(num: nat)
    | Array(items: seq<Obj>)
    | Dict(items: seq<Obj>)

  predicate IsWhite(c: char) { c == ' ' || c == '\n' || c == '\r' || c == '\t' || c == '\0' || c == '\U{C}' }

  /** Regular characters: neither white space nor a delimiter (section 7.2.2). */
  predicate IsRegular(c: char) {
    && !IsWhite(c) && c != '(' && c != ')' && c != '<' && c != '>' && c != '[' && c != ']'
    && c != '{' && c != '}' && c != '/' && c != '%'
  }

  predicate RegularWord(s: string) { forall k :: 0 <= k < |s| ==> IsRegular(s[k]) }

  function RegularRun(s: string): (k: nat)
    ensures k <= |s| && (forall j :: 0 <= j < k ==> IsRegular(s[j])) && (k < |s| ==> !IsRegular(s[k]))
  {
    if s == "" || !IsRegular(s[0]) then 0 else 1 + RegularRun(s[1..])
  }

  predicate Paired(items: seq<Obj>) {
    |items| % 2 == 0 && forall k :: 0 <= k < |items| && k % 2 == 0 ==> items[k].Name?
  }

  // ---- printing

  function Show(v: Obj): string
    decreases v, 0
  {
    match v
    case Int(n) => Decimal(n)
    case Name(name) => "/" + name
    case Ref(num) => Decimal(num) + " 0 R"
    case Array(items) => "[" + (ShowItems(items) + "]")
    case Dict(items) => "<< " + (ShowItems(items) + " >>")
  }

  function ShowItems(items: seq<Obj>): string
    decreases items, 0
  {
    if items == [] then ""
    else if |items| == 1 then Show(items[0])
    else Show(items[0]) + (" " + ShowItems(items[1..]))
  }

  /** Values the printer can write so that they can be read again. */
  predicate Printable(v: Obj)
    decreases v, 0
  {
    match v
    case Int(_) => true
    case Ref(_) => true
    case Name(name) => RegularWord(name)
    case Array(items) => PrintableItems(items)
    case Dict(items) => Paired(items) && PrintableItems(items)
  }

  predicate PrintableItems(items: seq<Obj>)
    decreases items, 0
  {
    items == [] || (Printable(items[0]) && PrintableItems(items[1..]))
  }

  // ---- reading

  /** The brackets that are open, innermost first, each with the values read so far. */
  datatype Stack = Base | Open(dict: bool, items: seq<Obj>, below: Stack)

  function Push(st: Stack, v: Obj): Stack
    requires st.Open?
  {
    Open(st.dict, st.items + [v], st.below)
  }

  function PushAll(st: Stack, vs: seq<Obj>): Stack
    requires st.Open?
  {
    Open(st.dict, st.items + vs, st.below)
  }

  /** Reads tokens until the outermost dictionary closes. An indirect reference is the
      postfix form `num 0 R`: the keyword takes two integers off the innermost list. */
  function Run(s: string, st: Stack): Option<(seq<Obj>, string)>
    requires st.Open?
    decreases |s|
  {
    if s == "" then None
    else if IsWhite(s[0]) then Run(s[1..], st)
    else if "<<" <= s then Run(s[2..], Open(true, [], st))
    else if ">>" <= s then
      if !st.dict || !Paired(st.items) then None
      else if st.below.Base? then Some((st.items, s[2..]))
      else Run(s[2..], Push(st.below, Dict(st.items)))
    else if s[0] == '[' then Run(s[1..], Open(false, [], st))
    else if s[0] == ']' then
      if st.dict || st.below.Base? then None else Run(s[1..], Push(st.below, Array(st.items)))
    else if s[0] == '/' then
      var k := RegularRun(s[1..]);
      Run(s[1..][k..], Push(st, Name(s[1..][..k])))
    else if IsDigit(s[0]) then
      var k := DigitRun(s);
      Run(s[k..], Push(st, Int(Value(s[..k]))))
    else if s[0] == 'R' then
      var n := |st.items|;
      if n >= 2 && st.items[n - 2].Int? && st.items[n - 1] == Int(0)
      then Run(s[1..], Open(st.dict, st.items[..n - 2] + [Ref(st.items[n - 2].n)], st.below))
      else None
    else None
  }

  function ReadDict(s: string): Option<(seq<Obj>, string)> {
    if "<<" <= s then Run(s[2..], Open(true, [], Base)) else None
  }

  predicate Delimited(rest: string) { rest != "" && !IsRegular(rest[0]) }

  lemma RunWhite(c: char, rest: string, st: Stack)
    requires st.Open? && IsWhite(c)
    ensures Run([c] + rest, st) == Run(rest, st)
  {
  }

  lemma RunInt(n: nat, rest: string, st: Stack)
    requires st.Open? && rest != "" && !IsDigit(rest[0])
    ensures Run(Decimal(n) + rest, st) == Run(rest, Push(st, Int(n)))
  {
    DecimalValue(n);
    DigitRunOf(Decimal(n), rest);
    assert (Decimal(n) + rest)[0] == Decimal(n)[0];
  }

  lemma RunKeyword(n: nat, rest: string, st: Stack)
    requires st.Open?
    ensures Run([' '] + ("R" + rest), Push(Push(st, Int(n)), Int(0))) == Run(rest, Push(st, Ref(n)))
  {
    var st2 := Push(Push(st, Int(n)), Int(0));
    RunWhite(' ', "R" + rest, st2);
    assert ("R" + rest)[1..] == rest;
    assert st2.items[..|st2.items| - 2] == st.items;
  }

  lemma RunZero(rest: string, st: Stack)
    requires st.Open? && rest != "" && !IsDigit(rest[0])
    ensures Run([' '] + ("0" + rest), st) == Run(rest, Push(st, Int(0)))
  {
    RunWhite(' ', "0" + rest, st);
    RunInt(0, rest, st);
    assert Decimal(0) == "0";
  }

  lemma RunRef(n: nat, rest: string, st: Stack)
    requires st.Open?
    ensures Run((Decimal(n) + " 0 R") + rest, st) == Run(rest, Push(st, Ref(n)))
  {
    var r := [' '] + ("R" + rest);
    assert (Decimal(n) + " 0 R") + rest == Decimal(n) + ([' '] + ("0" + r));
    RunInt(n, [' '] + ("0" + r), st);
    RunZero(r, Push(st, Int(n)));
    RunKeyword(n, rest, st);
  }

  lemma RegularRunOf(name: string, rest: string)
    requires RegularWord(name) && Delimited(rest)
    ensures RegularRun(name + rest) == |name|
  {
    assert forall j :: 0 <= j < |name| ==> (name + rest)[j] == name[j];
    assert (name + rest)[|name|] == rest[0];
  }

  lemma RunName(name: string, rest: string, st: Stack)
    requires st.Open? && RegularWord(name) && Delimited(rest)
    ensures Run(("/" + name) + rest, st) == Run(rest, Push(st, Name(name)))
  {
    var s := ("/" + name) + rest;
    assert s[1..] == name + rest;
    RegularRunOf(name, rest);
    assert (name + rest)[..|name|] == name && (name + rest)[|name|..] == rest;
  }

  lemma RunOpen(rest: string, st: Stack)
    requires st.Open?
    ensures Run("<<" + rest, st) == Run(rest, Open(true, [], st))
    ensures Run("[" + rest, st) == Run(rest, Open(false, [], st))
  {
  }

  lemma RunClose(rest: string, items: seq<Obj>, below: Stack)
    ensures below.Open? ==> Run("]" + rest, Open(false, items, below)) == Run(rest, Push(below, Array(items)))
    ensures Paired(items) ==> Run(">>" + rest, Open(true, items, below)) ==
                              if below.Base? then Some((items, rest)) else Run(rest, Push(below, Dict(items)))
  {
  }

  /** Whatever the printer wrote, the reader pushes as one value, wherever it stands. */
  lemma {:induction false} RunShow(v: Obj, rest: string, st: Stack)
    requires Printable(v) && st.Open? && Delimited(rest)
    ensures Run(Show(v) + rest, st) == Run(rest, Push(st, v))
    decreases v, 1
  {
    match v
    case Int(n) => RunInt(n, rest, st);
    case Name(name) => RunName(name, rest, st);
    case Ref(n) => RunRef(n, rest, st);
    case Array(items) => RunArray(items, rest, st);
    case Dict(items) => RunDict(items, rest, st);
  }

  lemma {:induction false} RunArray(items: seq<Obj>, rest: string, st: Stack)
    requires PrintableItems(items) && st.Open?
    ensures Run(Show(Array(items)) + rest, st) == Run(rest, Push(st, Array(items)))
    decreases items, 1
  {
    var tail := "]" + rest;
    assert Show(Array(items)) + rest == "[" + (ShowItems(items) + tail);
    RunOpen(ShowItems(items) + tail, st);
    RunItems(items, tail, Open(false, [], st));
    assert PushAll(Open(false, [], st), items) == Open(false, items, st);
    RunClose(rest, items, st);
  }

  lemma {:induction false} RunDict(items: seq<Obj>, rest: string, st: Stack)
    requires PrintableItems(items) && Paired(items) && st.Open?
    ensures Run(Show(Dict(items)) + rest, st) == Run(rest, Push(st, Dict(items)))
    decreases items, 2
  {
    var body := [' '] + (ShowItems(items) + ([' '] + (">>" + rest)));
    assert Show(Dict(items)) + rest == "<<" + body;
    RunOpen(body, st);
    RunDictBody(items, rest, st);
    RunClose(rest, items, st);
  }

  lemma {:induction false} RunDictBody(items: seq<Obj>, rest: string, st: Stack)
    requires PrintableItems(items)
    ensures Run([' '] + (ShowItems(items) + ([' '] + (">>" + rest))), Open(true, [], st))
         == Run(">>" + rest, Open(true, items, st))
    decreases items, 1
  {
    var inner := Open(true, [], st);
    var tail := [' '] + (">>" + rest);
    RunWhite(' ', ShowItems(items) + tail, inner);
    RunItems(items, tail, inner);
    assert PushAll(inner, items) == Open(true, items, st);
    RunWhite(' ', ">>" + rest, Open(true, items, st));
  }

  lemma {:induction false} RunItems(items: seq<Obj>, rest: string, st: Stack)
    requires PrintableItems(items) && st.Open? && Delimited(rest)
    ensures Run(ShowItems(items) + rest, st) == Run(rest, PushAll(st, items))
    decreases items, 0
  {
    if items == [] {
      assert ShowItems(items) + rest == rest;
      assert PushAll(st, items) == st;
    } else if |items| == 1 {
      RunShow(items[0], rest, st);
      assert PushAll(st, items) == Push(st, items[0]);
    } else {
      var v, more := items[0], items[1..];
      var tail := ShowItems(more) + rest;
      RunShow(v, [' '] + tail, st);
      RunWhite(' ', tail, Push(st, v));
      RunItems(more, rest, Push(st, v));
      Joined(Show(v), ShowItems(more), rest);
      PushJoined(st, v, more);
      assert items == [v] + more;
    }
  }

  lemma Joined(shown: string, text: string, rest: string)
    ensures (shown + (" " + text)) + rest == shown + ([' '] + (text + rest))
  {
  }

  lemma PushJoined(st: Stack, v: Obj, more: seq<Obj>)
    requires st.Open?
    ensures PushAll(Push(st, v), more) == PushAll(st, [v] + more)
  {
  }

  /** A printed dictionary is read back exactly, up to its own closing brackets. */
  lemma ReadShownDict(items: seq<Obj>, rest: string)
    requires Printable(Dict(items))
    ensures ReadDict(Show(Dict(items)) + rest) == Some((items, rest))
  {
    var body := [' '] + (ShowItems(items) + ([' '] + (">>" + rest)));
    var s := Show(Dict(items)) + rest;
    assert s == "<<" + body;
    assert "<<" <= s && s[2..] == body;
    RunDictBody(items, rest, Base);
    RunClose(rest, items, Base);
  }

  /** The value under a key, at the top level of a dictionary's list. */
  function Get(items: seq<Obj>, key: string): Option<Obj> {
    if |items| < 2 then None
    else if items[0] == Name(key) then Some(items[1])
    else Get(items[2..], key)
  }

  /** A dictionary written from its key-value pairs. */
  function Flat(pairs: seq<(string, Obj)>): (items: seq<Obj>)
    ensures |items| == 2 * |pairs|
    ensures forall k :: 0 <= k < |items| && k % 2 == 0 ==> items[k].Name?
  {
    if pairs == [] then [] else [Name(pairs[0].0), pairs[0].1] + Flat(pairs[1..])
  }

  predicate PrintablePair(p: (string, Obj)) { RegularWord(p.0) && Printable(p.1) }

  lemma {:induction false} FlatPrintable(pairs: seq<(string, Obj)>)
    requires forall k :: 0 <= k < |pairs| ==> PrintablePair(pairs[k])
    ensures PrintableItems(Flat(pairs)) && Printable(Dict(Flat(pairs)))
  {
    if pairs != [] {
      FlatPrintable(pairs[1..]);
      var items := Flat(pairs);
      assert PrintablePair(pairs[0]);
      assert items[1..][1..] == Flat(pairs[1..]);
      assert items[0] == Name(pairs[0].0) && items[1..][0] == pairs[0].1;
      assert PrintableItems(items[1..]);
    }
  }

  /** The first pair with the key. */
  function Lookup(pairs: seq<(string, Obj)>, key: string): Option<Obj> {
    if pairs == [] then None else if pairs[0].0 == key then Some(pairs[0].1) else Lookup(pairs[1..], key)
  }

  lemma {:induction false} FlatGet(pairs: seq<(string, Obj)>, key: string)
    ensures Get(Flat(pairs), key) == Lookup(pairs, key)
  {
    if pairs != [] {
      assert Flat(pairs)[2..] == Flat(pairs[1..]);
      FlatGet(pairs[1..], key);
    }
  }

  /** A key and its printed value. */
  function Field(key: string, shown: string): string { "/" + (key + (" " + shown)) }

  /** One pair more at the front. */
  lemma FlatCons(key: string, v: Obj, pairs: seq<(string, Obj)>)
    ensures pairs != [] ==> ShowItems(Flat([(key, v)] + pairs)) == Field(key, Show(v)) + (" " + ShowItems(Flat(pairs)))
    ensures pairs == [] ==> ShowItems(Flat([(key, v)] + pairs)) == Field(key, Show(v))
  {
  }

  lemma RefsCons(key: string, v: Obj, pairs: seq<(string, Obj)>)
    ensures RefsIn(Flat([(key, v)] + pairs)) == Refs(v) + RefsIn(Flat(pairs))
  {
  }

  /** Every object number referred to anywhere inside a value. */
  function Refs(v: Obj): set<nat>
    decreases v, 0
  {
    match v
    case Ref(num) => {num}
    case Array(items) => RefsIn(items)
    case Dict(items) => RefsIn(items)
    case _ => {}
  }

  function RefsIn(items: seq<Obj>): set<nat>
    decreases items, 0
  {
    if items == [] then {} else Refs(items[0]) + RefsIn(items[1..])
  }

  // ---- literal strings

  predicate IsOctal(c: char) { '0' <= c <= '7' }

  /** How many octal digits, at most three, follow the backslash. */
  function OctalRun(s: string): (k: nat)
    ensures k <= 3 && k <= |s| && forall j :: 0 <= j < k ==> IsOctal(s[j])
  {
    if |s| < 1 || !IsOctal(s[0]) then 0
    else if |s| < 2 || !IsOctal(s[1]) then 1
    else if |s| < 3 || !IsOctal(s[2]) then 2
    else 3
  }

  function OctalValue(s: string): nat
    requires forall j :: 0 <= j < |s| ==> IsOctal(s[j])
  {
    if s == "" then 0 else
      assert IsOctal(s[|s| - 1]);
      8 * OctalValue(s[..|s| - 1]) + (s[|s| - 1] as int - '0' as int)
  }

  predicate CrLf(s: string) { |s| >= 2 && s[0] == '\r' && s[1] == '\n' }

  function Prepend(p: string, r: Option<(string, string)>): Option<(string, string)> {
    match r
    case None => None
    case Some((text, rest)) => Some((p + text, rest))
  }

  datatype Piece = Broken | Closing(rest: string) | Text(text: string, rest: string, depth: nat)

  /** One character, escape or line end of a literal string; `depth` counts the balanced
      parentheses that are open. */
  function NextPiece(s: string, depth: nat): (p: Piece)
    ensures p.Text? ==> |p.rest| < |s|
  {
    if s == "" then Broken
    else if s[0] == '\\' then
      if |s| == 1 then Broken
      else
        var e := s[1];
        if e == 'n' then Text("\n", s[2..], depth)
        else if e == 'r' then Text("\r", s[2..], depth)
        else if e == 't' then Text("\t", s[2..], depth)
        else if e == 'b' then Text("\U{8}", s[2..], depth)
        else if e == 'f' then Text("\U{C}", s[2..], depth)
        else if IsOctal(e) then
          var k := OctalRun(s[1..]);
          Text([(OctalValue(s[1..][..k]) % 256) as char], s[1..][k..], depth)
        else if CrLf(s[1..]) then Text("", s[3..], depth)
        else if e == '\r' || e == '\n' then Text("", s[2..], depth)
        else Text([e], s[2..], depth)
    else if s[0] == '(' then Text("(", s[1..], depth + 1)
    else if s[0] == ')' then
      if depth == 0 then Closing(s[1..]) else Text(")", s[1..], depth - 1)
    else if CrLf(s) then Text("\n", s[2..], depth)
    else if s[0] == '\r' then Text("\n", s[1..], depth)
    else Text([s[0]], s[1..], depth)
  }

  /** Reads a literal string after its opening parenthesis. Returns the text and what
      follows the closing parenthesis. */
  function ReadLiteral(s: string, depth: nat): Option<(string, string)>
    decreases |s|
  {
    match NextPiece(s, depth)
    case Broken => None
    case Closing(rest) => Some(("", rest))
    case Text(text, rest, depth') => Prepend(text, ReadLiteral(rest, depth'))
  }

  /** What a reader sees of a text: an end-of-line marker is read as one line feed. */
  function NormalEol(s: string): string {
    if s == "" then ""
    else if CrLf(s) then "\n" + NormalEol(s[2..])
    else if s[0] == '\r' then "\n" + NormalEol(s[1..])
    else [s[0]] + NormalEol(s[1..])
  }

  /** The three replacements of `_pdf_text`, in the source's order. */
  function PdfText(value: string): string {
    Replace(Replace(Replace(value, "\\", "\\\\"), "(", "\\("), ")", "\\)")
  }

  function EscapeChar(c: char): string {
    if c == '\\' || c == '(' || c == ')' then ['\\', c] else [c]
  }

  /** One pass, each character on its own. */
  function Escape(s: string): string {
    if s == "" then "" else EscapeChar(s[0]) + Escape(s[1..])
  }

  lemma PdfTextChar(c: char)
    ensures PdfText([c]) == EscapeChar(c)
  {
    ReplaceCharHead([c], '\\', "\\\\");
    assert Replace([c], "\\", "\\\\") == if c == '\\' then "\\\\" else [c];
    if c == '\\' {
      ReplaceCharAbsent("\\\\", '(', "\\(");
      ReplaceCharAbsent("\\\\", ')', "\\)");
    } else {
      ReplaceCharHead([c], '(', "\\(");
      if c == '(' {
        ReplaceCharAbsent("\\(", ')', "\\)");
      } else {
        ReplaceCharHead([c], ')', "\\)");
      }
    }
  }

  /** The replacements do not disturb each other: they are one single-pass escape. */
  lemma {:induction false} PdfTextIsEscape(s: string)
    ensures PdfText(s) == Escape(s)
  {
    if s != "" {
      var a, b := [s[0]], s[1..];
      assert s == a + b;
      ReplaceCharAppend(a, b, '\\', "\\\\");
      var a1, b1 := Replace(a, "\\", "\\\\"), Replace(b, "\\", "\\\\");
      ReplaceCharAppend(a1, b1, '(', "\\(");
      ReplaceCharAppend(Replace(a1, "(", "\\("), Replace(b1, "(", "\\("), ')', "\\)");
      PdfTextChar(s[0]);
      PdfTextIsEscape(b);
    }
  }

  lemma ReadPlain(c: char, rest: string)
    requires c != '\r' || rest == "" || rest[0] != '\n'
    ensures ReadLiteral(EscapeChar(c) + rest, 0) == Prepend(if c == '\r' then "\n" else [c], ReadLiteral(rest, 0))
  {
  }

  lemma ReadCrLf(rest: string)
    ensures ReadLiteral("\r\n" + rest, 0) == Prepend("\n", ReadLiteral(rest, 0))
  {
  }

  lemma EscapedCrLf(s: string, end: string)
    requires CrLf(s)
    ensures Escape(s) + end == "\r\n" + (Escape(s[2..]) + end)
  {
  }

  lemma EscapedPlain(s: string, rest: string)
    requires s != "" && !CrLf(s)
    ensures ReadLiteral(Escape(s) + (")" + rest), 0)
         == Prepend(if s[0] == '\r' then "\n" else [s[0]], ReadLiteral(Escape(s[1..]) + (")" + rest), 0))
  {
    var tail := Escape(s[1..]) + (")" + rest);
    if s[0] == '\r' { EscapedTailHead(s, rest); }
    ReadPlain(s[0], tail);
    EscapeCons(s, ")" + rest);
  }

  lemma EscapeCons(s: string, end: string)
    requires s != ""
    ensures Escape(s) + end == EscapeChar(s[0]) + (Escape(s[1..]) + end)
  {
  }

  /** The reader stops at the writer's own closing parenthesis, never inside the text, and
      gives the text back with its line ends normalised. */
  lemma {:induction false} ReadEscaped(s: string, rest: string)
    ensures ReadLiteral(Escape(s) + (")" + rest), 0) == Some((NormalEol(s), rest))
  {
    if s == "" {
      ReadClosing(rest);
    } else if CrLf(s) {
      ReadEscaped(s[2..], rest);
      EscapedCrLf(s, ")" + rest);
      ReadCrLf(Escape(s[2..]) + (")" + rest));
    } else {
      ReadEscaped(s[1..], rest);
      EscapedPlain(s, rest);
    }
  }

  lemma ReadClosing(rest: string)
    ensures ReadLiteral(Escape("") + (")" + rest), 0) == Some(("", rest))
  {
    assert Escape("") + (")" + rest) == ")" + rest;
    assert (")" + rest)[1..] == rest;
  }

  lemma EscapedTailHead(s: string, rest: string)
    requires s != "" && !CrLf(s) && s[0] == '\r'
    ensures (Escape(s[1..]) + (")" + rest))[0] != '\n'
  {
  }

  lemma {:induction false} NormalEolIdentity(s: string)
    ensures NormalEol(s) == s <==> '\r' !in s
  {
    if s == "" {
    } else if CrLf(s) {
      assert s[0] == '\r' && NormalEol(s)[0] == '\n';
    } else if s[0] != '\r' {
      NormalEolIdentity(s[1..]);
      assert s == [s[0]] + s[1..];
    } else {
      assert NormalEol(s)[0] == '\n';
    }
  }
}
