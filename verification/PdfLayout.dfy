/** Where each text stands on its page: the text operators of ISO 32000-1, section 9.4, read
    over the file that `build_pdf` writes, with the fonts and the page size looked up in it. */
module PdfLayout {
  import opened Text
  import opened PdfSyntax
  import opened PdfFile
  import opened PdfPages
  import opened PdfReadBack
  import opened PdfTheorems

  // ---- tokens of a content stream

  datatype Op = BeginText | EndText | SetFont | SetLeading | MoveLine | NextLine | ShowText

  datatype Token = Number(n: nat) | Key(name: string) | Literal(text: string) | Operator(op: Op)

  datatype Scan = End | Bad | Got(token: Token, rest: string)

  function Keyword(w: string): Option<Op> {
    if w == "BT" then Some(BeginText)
    else if w == "ET" then Some(EndText)
    else if w == "Tf" then Some(SetFont)
    else if w == "TL" then Some(SetLeading)
    else if w == "Td" then Some(MoveLine)
    else if w == "T*" then Some(NextLine)
    else if w == "Tj" then Some(ShowText)
    else None
  }

  /** A number or an operator. */
  function WordToken(w: string): Option<Token> {
    if AllDigits(w) then Some(Number(Value(w))) else
      var op :- Keyword(w);
      Some(Operator(op))
  }

  function NextToken(s: string): (r: Scan)
    ensures r.Got? ==> |r.rest| < |s|
  {
    if s == "" then End
    else if IsWhite(s[0]) then NextToken(s[1..])
    else if s[0] == '(' then
      match ReadLiteral(s[1..], 0)
      case Some((text, rest)) => if |rest| < |s| then Got(Literal(text), rest) else Bad
      case None => Bad
    else if s[0] == '/' then
      var k := RegularRun(s[1..]);
      Got(Key(s[1..][..k]), s[1..][k..])
    else
      var k := RegularRun(s);
      if k == 0 || WordToken(s[..k]).None? then Bad else Got(WordToken(s[..k]).value, s[k..])
  }

  // ---- the text state

  /** A text at the place where its line starts, in its font and size. */
  datatype Placed = Placed(text: string, font: string, size: nat, x: int, y: int)

  /** `bare` until a text is shown: the next text on the same line would stand behind it. */
  datatype Pen = Pen(inText: bool, font: Option<(string, nat)>, leading: nat, x: int, y: int, bare: bool)

  const FIRST_PEN: Pen := Pen(false, None, 0, 0, 0, true)

  /** A document and the font dictionary of the page that is drawn. */
  datatype Fonts = Fonts(doc: Document, items: seq<Obj>)

  /** The font a resource name leads to. */
  function BaseFont(fonts: Fonts, name: string): Option<string> {
    var ref :- Get(fonts.items, name);
    var font :- DictOf(fonts.doc, ref, "Font");
    match (Get(font, "Subtype"), Get(font, "BaseFont"))
    case (Some(Name(subtype)), Some(Name(base))) => if subtype == "Type1" then Some(base) else None
    case _ => None
  }

  /** One operator on its operands. Text objects do not nest, font and leading outlive them,
      and a text is placed only at the start of a line. */
  function Apply(fonts: Fonts, op: Op, args: seq<Token>, pen: Pen): Option<(Pen, seq<Placed>)> {
    match op
    case BeginText =>
      if args == [] && !pen.inText then Some((pen.(inText := true, x := 0, y := 0, bare := true), [])) else None
    case EndText =>
      if args == [] && pen.inText then Some((pen.(inText := false), [])) else None
    case SetFont =>
      if |args| == 2 && args[0].Key? && args[1].Number? then
        var base :- BaseFont(fonts, args[0].name);
        Some((pen.(font := Some((base, args[1].n))), []))
      else None
    case SetLeading =>
      if |args| == 1 && args[0].Number? then Some((pen.(leading := args[0].n), [])) else None
    case MoveLine =>
      if pen.inText && |args| == 2 && args[0].Number? && args[1].Number?
      then Some((pen.(x := pen.x + args[0].n, y := pen.y + args[1].n, bare := true), []))
      else None
    case NextLine =>
      if pen.inText && args == [] then Some((pen.(y := pen.y - pen.leading, bare := true), [])) else None
    case ShowText =>
      if pen.inText && pen.bare && pen.font.Some? && |args| == 1 && args[0].Literal?
      then Some((pen.(bare := false), [Placed(args[0].text, pen.font.value.0, pen.font.value.1, pen.x, pen.y)]))
      else None
  }

  function Ahead(out: seq<Placed>, more: Option<seq<Placed>>): Option<seq<Placed>> {
    if more.Some? then Some(out + more.value) else None
  }

  /** The tokens of a content stream. */
  function Tokens(s: string): Option<seq<Token>>
    decreases |s|
  {
    match NextToken(s)
    case End => Some([])
    case Bad => None
    case Got(token, rest) =>
      var more :- Tokens(rest);
      Some([token] + more)
  }

  /** Every text with its place; None when an operator does not apply. */
  function Draw(fonts: Fonts, tokens: seq<Token>, args: seq<Token>, pen: Pen): Option<seq<Placed>>
    decreases tokens
  {
    if tokens == [] then
      if args == [] && !pen.inText then Some([]) else None
    else if !tokens[0].Operator? then Draw(fonts, tokens[1..], args + [tokens[0]], pen)
    else
      var (pen', out) :- Apply(fonts, tokens[0].op, args, pen);
      Ahead(out, Draw(fonts, tokens[1..], [], pen'))
  }

  // ---- the pages of a file

  datatype Sheet = Sheet(box: seq<Obj>, texts: seq<Placed>)

  function ReadSheet(doc: Document, kid: Obj): Option<Sheet> {
    var dict :- DictOf(doc, kid, "Page");
    var contents :- Get(dict, "Contents");
    var stream :- ObjectOf(doc, contents);
    match (stream, Get(dict, "MediaBox"), Get(dict, "Resources"))
    case (Stream(_, data), Some(Array(box)), Some(Dict(resources))) =>
      (match Get(resources, "Font")
       case Some(Dict(fonts)) =>
         var tokens :- Tokens(data);
         var texts :- Draw(Fonts(doc, fonts), tokens, [], FIRST_PEN);
         Some(Sheet(box, texts))
       case _ => None)
    case _ => None
  }

  function ReadSheets(doc: Document): Option<seq<Sheet>> {
    var catalog :- DictOf(doc, Ref(doc.root), "Catalog");
    var tree :- Get(catalog, "Pages");
    var dict :- DictOf(doc, tree, "Pages");
    match Get(dict, "Kids")
    case Some(Array(kids)) => AllSome(seq(|kids|, k requires 0 <= k < |kids| => ReadSheet(doc, kids[k])))
    case _ => None
  }

  /** Section 7.5.2: the version, then a comment of four bytes above 127. */
  predicate HeaderReads(file: string) {
    |file| >= 15 && file[..10] == "%PDF-1.4\n%" && file[14] == '\n' && forall k :: 10 <= k < 14 ==> file[k] as int >= 128
  }

  function ReadLayout(file: string): Option<seq<Sheet>> {
    var doc :- ReadDocument(file);
    if HeaderReads(file) then ReadSheets(doc) else None
  }

  // ---- tokens, one at a time

  predicate Ended(rest: string) { rest == "" || !IsRegular(rest[0]) }

  lemma NextSpace(s: string)
    ensures NextToken(" " + s) == NextToken(s) && NextToken("\n" + s) == NextToken(s)
  {
    assert (" " + s)[1..] == s && ("\n" + s)[1..] == s;
  }

  lemma NextWord(w: string, rest: string)
    requires w != "" && RegularWord(w) && WordToken(w).Some? && Ended(rest)
    ensures NextToken(w + rest) == Got(WordToken(w).value, rest)
  {
    var s := w + rest;
    assert s[0] == w[0] && IsRegular(w[0]);
    assert forall j :: 0 <= j < |w| ==> s[j] == w[j];
    assert RegularRun(s) == |w| by {
      if rest != "" { assert s[|w|] == rest[0]; }
    }
    assert s[..|w|] == w && s[|w|..] == rest;
  }

  lemma NextNumber(n: nat, rest: string)
    requires Ended(rest)
    ensures NextToken(Decimal(n) + rest) == Got(Number(n), rest)
  {
    DecimalValue(n);
    NextWord(Decimal(n), rest);
  }

  lemma NextKey(name: string, rest: string)
    requires RegularWord(name) && Delimited(rest)
    ensures NextToken("/" + (name + rest)) == Got(Key(name), rest)
  {
    assert ("/" + (name + rest))[1..] == name + rest;
    RegularRunOf(name, rest);
    assert (name + rest)[..|name|] == name && (name + rest)[|name|..] == rest;
  }

  lemma NextLiteral(text: string, rest: string)
    ensures NextToken("(" + (PdfText(text) + (")" + rest))) == Got(Literal(NormalEol(text)), rest)
  {
    PdfTextIsEscape(text);
    ReadEscaped(text, rest);
    assert ("(" + (PdfText(text) + (")" + rest)))[1..] == PdfText(text) + (")" + rest);
  }

  // ---- the stream as printed tokens

  /** A token and the white space before it. */
  datatype Piece = Piece(sep: char, token: Token)

  function Words(op: Op): string {
    match op
    case BeginText => "BT"
    case EndText => "ET"
    case SetFont => "Tf"
    case SetLeading => "TL"
    case MoveLine => "Td"
    case NextLine => "T*"
    case ShowText => "Tj"
  }

  function ShowToken(t: Token): string {
    match t
    case Number(n) => Decimal(n)
    case Key(name) => "/" + name
    case Literal(text) => "(" + (PdfText(text) + ")")
    case Operator(op) => Words(op)
  }

  function Print(pieces: seq<Piece>): string {
    if pieces == [] then "" else [pieces[0].sep] + (ShowToken(pieces[0].token) + Print(pieces[1..]))
  }

  /** A token as it is read: a literal with its line ends normalised. */
  function ReadAs(t: Token): Token { if t.Literal? then Literal(NormalEol(t.text)) else t }

  function AllReadAs(pieces: seq<Piece>): seq<Token> {
    seq(|pieces|, k requires 0 <= k < |pieces| => ReadAs(pieces[k].token))
  }

  predicate Clean(p: Piece) { (p.sep == ' ' || p.sep == '\n') && (p.token.Key? ==> RegularWord(p.token.name)) }

  lemma KeywordOf(op: Op)
    ensures WordToken(Words(op)) == Some(Operator(op)) && RegularWord(Words(op)) && Words(op) != ""
  {
    assert !IsDigit(Words(op)[0]);
  }

  lemma NextOperator(op: Op, rest: string)
    requires Ended(rest)
    ensures NextToken(Words(op) + rest) == Got(Operator(op), rest)
  {
    KeywordOf(op);
    NextWord(Words(op), rest);
  }

  lemma NextShown(t: Token, rest: string)
    requires Ended(rest) && (t.Key? ==> RegularWord(t.name) && rest != "")
    ensures NextToken(ShowToken(t) + rest) == Got(ReadAs(t), rest)
  {
    match t
    case Number(n) => NextNumber(n, rest);
    case Key(name) =>
      Assoc("/", name, rest);
      NextKey(name, rest);
    case Literal(text) =>
      Assoc("(", PdfText(text) + ")", rest);
      Assoc(PdfText(text), ")", rest);
      NextLiteral(text, rest);
    case Operator(op) => NextOperator(op, rest);
  }

  lemma TokensStep(s: string, token: Token, rest: string, more: seq<Token>)
    requires NextToken(s) == Got(token, rest) && Tokens(rest) == Some(more)
    ensures Tokens(s) == Some([token] + more)
  {
  }

  /** What was printed token by token is read token by token. */
  lemma {:induction false} TokensOf(pieces: seq<Piece>)
    requires forall k :: 0 <= k < |pieces| ==> Clean(pieces[k])
    requires pieces == [] || !pieces[|pieces| - 1].token.Key?
    ensures Tokens(Print(pieces)) == Some(AllReadAs(pieces))
  {
    if pieces != [] {
      var p, more := pieces[0], pieces[1..];
      assert Clean(p);
      TokensOf(more);
      if more != [] { assert Clean(more[0]); }
      NextShown(p.token, Print(more));
      NextSpace(ShowToken(p.token) + Print(more));
      TokensStep(Print(pieces), ReadAs(p.token), Print(more), AllReadAs(more));
      assert AllReadAs(pieces) == [ReadAs(p.token)] + AllReadAs(more);
    }
  }

  lemma PrintOne(sep: char, token: Token, more: seq<Piece>)
    ensures Print([Piece(sep, token)] + more) == [sep] + (ShowToken(token) + Print(more))
  {
  }

  lemma {:induction false} PrintAppend(a: seq<Piece>, b: seq<Piece>)
    ensures Print(a + b) == Print(a) + Print(b)
  {
    if a == [] {
      assert a + b == b;
    } else {
      assert (a + b)[1..] == a[1..] + b;
      PrintAppend(a[1..], b);
    }
  }

  // ---- the parts of a content stream, token by token

  function FontPieces(key: string, size: nat): seq<Piece> {
    [Piece('\n', Operator(BeginText)), Piece(' ', Key(key)), Piece(' ', Number(size)), Piece(' ', Operator(SetFont))]
  }

  function MovePieces(x: nat, y: nat): seq<Piece> {
    [Piece(' ', Number(x)), Piece(' ', Number(y)), Piece(' ', Operator(MoveLine))]
  }

  function TextPieces(sep: char, text: string): seq<Piece> {
    [Piece(sep, Literal(text)), Piece(' ', Operator(ShowText))]
  }

  function SinglePieces(key: string, size: nat, x: nat, y: nat, text: string): seq<Piece> {
    FontPieces(key, size) + MovePieces(x, y) + TextPieces(' ', text) + [Piece(' ', Operator(EndText))]
  }

  function StartPieces(): seq<Piece> {
    FontPieces("F1", 11) + [Piece(' ', Number(15)), Piece(' ', Operator(SetLeading))] + MovePieces(56, 748)
  }

  function LinePieces(line: string): seq<Piece> { TextPieces('\n', line) + [Piece(' ', Operator(NextLine))] }

  lemma FontPrint(key: string, size: nat)
    ensures Print(FontPieces(key, size)) == "\nBT /" + (key + (" " + (Decimal(size) + " Tf")))
  {
    var p1 := [Piece(' ', Operator(SetFont))];
    var p2 := [Piece(' ', Number(size))] + p1;
    var p3 := [Piece(' ', Key(key))] + p2;
    PrintOne(' ', Operator(SetFont), []);
    assert p1 == p1 + [];
    PrintOne(' ', Number(size), p1);
    PrintOne(' ', Key(key), p2);
    PrintOne('\n', Operator(BeginText), p3);
    assert FontPieces(key, size) == [Piece('\n', Operator(BeginText))] + p3;
  }

  lemma MovePrint(x: nat, y: nat)
    ensures Print(MovePieces(x, y)) == " " + (Decimal(x) + (" " + (Decimal(y) + " Td")))
  {
    var p1 := [Piece(' ', Operator(MoveLine))];
    var p2 := [Piece(' ', Number(y))] + p1;
    PrintOne(' ', Operator(MoveLine), []);
    assert p1 == p1 + [];
    PrintOne(' ', Number(y), p1);
    PrintOne(' ', Number(x), p2);
    assert MovePieces(x, y) == [Piece(' ', Number(x))] + p2;
  }

  lemma TextPrint(sep: char, text: string)
    ensures Print(TextPieces(sep, text)) == [sep] + ("(" + (PdfText(text) + ") Tj"))
  {
    var p1 := [Piece(' ', Operator(ShowText))];
    PrintOne(' ', Operator(ShowText), []);
    assert p1 == p1 + [];
    PrintOne(sep, Literal(text), p1);
    assert TextPieces(sep, text) == [Piece(sep, Literal(text))] + p1;
  }

  lemma SmallNumbers()
    ensures Decimal(16) == "16" && Decimal(11) == "11" && Decimal(9) == "9" && Decimal(15) == "15"
    ensures Decimal(56) == "56" && Decimal(780) == "780" && Decimal(748) == "748" && Decimal(40) == "40"
  {
  }

  lemma PrintThree(a: seq<Piece>, b: seq<Piece>, c: seq<Piece>)
    ensures Print(a + b + c) == Print(a) + Print(b) + Print(c)
  {
    PrintAppend(a + b, c);
    PrintAppend(a, b);
  }

  lemma EndPrint()
    ensures Print([Piece(' ', Operator(EndText))]) == " ET"
  {
    var none: seq<Piece> := [];
    var end := [Piece(' ', Operator(EndText))];
    PrintOne(' ', Operator(EndText), none);
    assert end == end + none;
  }

  lemma SinglePrint(key: string, size: nat, x: nat, y: nat, text: string)
    ensures Print(SinglePieces(key, size, x, y, text))
         == ("\nBT /" + (key + (" " + (Decimal(size) + " Tf")))) + (" " + (Decimal(x) + (" " + (Decimal(y) + " Td"))))
            + (" " + ("(" + (PdfText(text) + ") Tj"))) + " ET"
  {
    var font, move, shown := FontPieces(key, size), MovePieces(x, y), TextPieces(' ', text);
    PrintAppend(font + move + shown, [Piece(' ', Operator(EndText))]);
    PrintThree(font, move, shown);
    FontPrint(key, size);
    MovePrint(x, y);
    TextPrint(' ', text);
    EndPrint();
  }

  lemma TitlePrint(title: string)
    ensures "\n" + TitleText(title) == Print(SinglePieces("F2", 16, 56, 780, title))
  {
    SmallNumbers();
    SinglePrint("F2", 16, 56, 780, title);
    TitleWords(PdfText(title));
  }

  lemma TitleWords(t: string)
    ensures "\n" + ("BT /F2 16 Tf 56 780 Td (" + (t + ") Tj ET"))
         == ("\nBT /" + ("F2" + (" " + ("16" + " Tf")))) + (" " + ("56" + (" " + ("780" + " Td")))) + (" " + ("(" + (t + ") Tj"))) + " ET"
  {
  }

  lemma FooterPrint(number: nat, total: nat)
    ensures "\n" + FooterText(number, total) == Print(SinglePieces("F1", 9, 56, 40, Footer(number, total)))
  {
    SmallNumbers();
    FooterPlain(number, total);
    SinglePrint("F1", 9, 56, 40, Footer(number, total));
    FooterWords(Footer(number, total));
  }

  lemma FooterWords(t: string)
    ensures "\n" + ("BT /F1 9 Tf 56 40 Td (" + (t + ") Tj ET"))
         == ("\nBT /" + ("F1" + (" " + ("9" + " Tf")))) + (" " + ("56" + (" " + ("40" + " Td")))) + (" " + ("(" + (t + ") Tj"))) + " ET"
  {
  }

  lemma StartPrint()
    ensures "\n" + BODY_START == Print(StartPieces())
  {
    PrintThree(FontPieces("F1", 11), [Piece(' ', Number(15)), Piece(' ', Operator(SetLeading))], MovePieces(56, 748));
    FontPrint("F1", 11);
    MovePrint(56, 748);
    LeadPrint();
    SmallNumbers();
    StartWords();
  }

  lemma StartWords()
    ensures "\n" + "BT /F1 11 Tf 15 TL 56 748 Td"
         == ("\nBT /" + ("F1" + (" " + ("11" + " Tf")))) + " 15 TL" + (" " + ("56" + (" " + ("748" + " Td"))))
  {
  }

  lemma LeadPrint()
    ensures Print([Piece(' ', Number(15)), Piece(' ', Operator(SetLeading))]) == " 15 TL"
  {
    var p1 := [Piece(' ', Operator(SetLeading))];
    PrintOne(' ', Operator(SetLeading), []);
    assert p1 == p1 + [];
    PrintOne(' ', Number(15), p1);
    assert [Piece(' ', Number(15)), Piece(' ', Operator(SetLeading))] == [Piece(' ', Number(15))] + p1;
    SmallNumbers();
  }

  lemma LinePrint(line: string)
    ensures "\n" + LineText(line) == Print(LinePieces(line))
  {
    var end := [Piece(' ', Operator(NextLine))];
    PrintAppend(TextPieces('\n', line), end);
    TextPrint('\n', line);
    PrintOne(' ', Operator(NextLine), []);
    assert end == end + [];
    assert ") Tj T*" == ") Tj" + " T*";
  }

  // ---- a whole content stream

  function LinesPieces(lines: seq<string>): seq<Piece> {
    if lines == [] then [] else LinePieces(lines[0]) + LinesPieces(lines[1..])
  }

  function TailPieces(number: nat, total: nat): seq<Piece> {
    [Piece('\n', Operator(EndText))] + SinglePieces("F1", 9, 56, 40, Footer(number, total))
  }

  function ContentPieces(page: Page, number: nat, total: nat): seq<Piece> {
    SinglePieces("F2", 16, 56, 780, page.title) + (StartPieces() + (LinesPieces(page.lines) + TailPieces(number, total)))
  }

  lemma TailPrint(number: nat, total: nat)
    ensures "\n" + Join("\n", TailParts(number, total)) == Print(TailPieces(number, total))
  {
    var footer := FooterText(number, total);
    assert TailParts(number, total) == ["ET"] + [footer];
    JoinCons("\n", "ET", [footer]);
    assert Join("\n", [footer]) == footer;
    FooterPrint(number, total);
    PrintOne('\n', Operator(EndText), SinglePieces("F1", 9, 56, 40, Footer(number, total)));
  }

  lemma {:induction false} LinesPrint(lines: seq<string>, number: nat, total: nat)
    ensures "\n" + Join("\n", LineTexts(lines) + TailParts(number, total))
         == Print(LinesPieces(lines) + TailPieces(number, total))
  {
    var tail := TailPieces(number, total);
    if lines == [] {
      TailPrint(number, total);
      assert LineTexts(lines) + TailParts(number, total) == TailParts(number, total);
      assert LinesPieces(lines) + tail == tail;
    } else {
      var parts := LineTexts(lines[1..]) + TailParts(number, total);
      LinesPrint(lines[1..], number, total);
      assert LineTexts(lines) + TailParts(number, total) == [LineText(lines[0])] + parts;
      JoinCons("\n", LineText(lines[0]), parts);
      LinePrint(lines[0]);
      Assoc(LinePieces(lines[0]), LinesPieces(lines[1..]), tail);
      PrintAppend(LinePieces(lines[0]), LinesPieces(lines[1..]) + tail);
      Assoc("\n", LineText(lines[0]), "\n" + Join("\n", parts));
    }
  }

  lemma ContentPrint(page: Page, number: nat, total: nat)
    ensures "\n" + Content(page, number, total) == Print(ContentPieces(page, number, total))
  {
    var lines := LineTexts(page.lines) + TailParts(number, total);
    var more := "\n" + Join("\n", lines);
    var title, rest := TitleText(page.title), LinesPieces(page.lines) + TailPieces(number, total);
    assert ContentParts(page, number, total) == [title] + ([BODY_START] + lines);
    JoinCons("\n", BODY_START, lines);
    JoinCons("\n", title, [BODY_START] + lines);
    LinesPrint(page.lines, number, total);
    StartPrint();
    TitlePrint(page.title);
    PrintAppend(StartPieces(), rest);
    PrintAppend(SinglePieces("F2", 16, 56, 780, page.title), StartPieces() + rest);
    ContentWords(title, BODY_START, more);
  }

  lemma ContentWords(title: string, start: string, more: string)
    ensures "\n" + (title + ("\n" + (start + more))) == ("\n" + title) + (("\n" + start) + more)
  {
  }

  predicate AllClean(pieces: seq<Piece>) { forall k :: 0 <= k < |pieces| ==> Clean(pieces[k]) }

  lemma FontClean(key: string, size: nat)
    requires RegularWord(key)
    ensures AllClean(FontPieces(key, size))
  {
  }

  lemma SingleClean(key: string, size: nat, x: nat, y: nat, text: string)
    requires RegularWord(key)
    ensures AllClean(SinglePieces(key, size, x, y, text))
  {
    FontClean(key, size);
  }

  lemma {:induction false} LinesClean(lines: seq<string>)
    ensures AllClean(LinesPieces(lines))
  {
    if lines != [] { LinesClean(lines[1..]); }
  }

  lemma ContentTokens(page: Page, number: nat, total: nat)
    ensures Tokens(Content(page, number, total)) == Some(AllReadAs(ContentPieces(page, number, total)))
  {
    var pieces := ContentPieces(page, number, total);
    assert RegularWord("F1") && RegularWord("F2");
    SingleClean("F2", 16, 56, 780, page.title);
    SingleClean("F1", 9, 56, 40, Footer(number, total));
    FontClean("F1", 11);
    LinesClean(page.lines);
    ContentPrint(page, number, total);
    TokensOf(pieces);
    NextSpace(Content(page, number, total));
  }

  // ---- what the tokens draw

  lemma AllReadAsAppend(a: seq<Piece>, b: seq<Piece>)
    ensures AllReadAs(a + b) == AllReadAs(a) + AllReadAs(b)
  {
  }

  lemma AheadTwice(a: seq<Placed>, b: seq<Placed>, more: Option<seq<Placed>>)
    ensures Ahead(a, Ahead(b, more)) == Ahead(a + b, more) && Ahead([], more) == more
  {
    if more.Some? {
      Assoc(a, b, more.value);
      assert [] + more.value == more.value;
    }
  }

  /** An operator acts on the operands before it. */
  lemma {:induction false} Command(fonts: Fonts, args: seq<Token>, op: Op, rest: seq<Token>, done: seq<Token>, pen: Pen,
                                   after: Pen, out: seq<Placed>)
    requires forall k :: 0 <= k < |args| ==> !args[k].Operator?
    requires Apply(fonts, op, done + args, pen) == Some((after, out))
    ensures Draw(fonts, args + ([Operator(op)] + rest), done, pen) == Ahead(out, Draw(fonts, rest, [], after))
    decreases |args|
  {
    var tokens := args + ([Operator(op)] + rest);
    if args == [] {
      assert tokens == [Operator(op)] + rest && tokens[1..] == rest && done + args == done;
    } else {
      assert tokens[0] == args[0] && tokens[1..] == args[1..] + ([Operator(op)] + rest);
      assert done + [args[0]] + args[1..] == done + args;
      Command(fonts, args[1..], op, rest, done + [args[0]], pen, after, out);
    }
  }

  lemma Commanded(fonts: Fonts, args: seq<Token>, op: Op, rest: seq<Token>, pen: Pen, after: Pen, out: seq<Placed>)
    requires forall k :: 0 <= k < |args| ==> !args[k].Operator?
    requires Apply(fonts, op, args, pen) == Some((after, out))
    ensures Draw(fonts, args + ([Operator(op)] + rest), [], pen) == Ahead(out, Draw(fonts, rest, [], after))
  {
    assert [] + args == args;
    Command(fonts, args, op, rest, [], pen, after, out);
  }

  function InFont(pen: Pen, base: string, size: nat): Pen { pen.(font := Some((base, size))) }

  function At(pen: Pen, x: int, y: int): Pen { pen.(inText := true, x := x, y := y, bare := true) }

  lemma DrawFont(fonts: Fonts, key: string, base: string, size: nat, rest: seq<Token>, pen: Pen)
    requires !pen.inText && BaseFont(fonts, key) == Some(base)
    ensures Draw(fonts, AllReadAs(FontPieces(key, size)) + rest, [], pen)
         == Draw(fonts, rest, [], InFont(At(pen, 0, 0), base, size))
  {
    var args := [Key(key), Number(size)];
    var tail := args + ([Operator(SetFont)] + rest);
    assert AllReadAs(FontPieces(key, size)) + rest == [] + ([Operator(BeginText)] + tail);
    Commanded(fonts, [], BeginText, tail, pen, At(pen, 0, 0), []);
    Commanded(fonts, args, SetFont, rest, At(pen, 0, 0), InFont(At(pen, 0, 0), base, size), []);
    AheadTwice([], [], Draw(fonts, tail, [], At(pen, 0, 0)));
    AheadTwice([], [], Draw(fonts, rest, [], InFont(At(pen, 0, 0), base, size)));
  }

  lemma DrawMove(fonts: Fonts, x: nat, y: nat, rest: seq<Token>, pen: Pen)
    requires pen.inText
    ensures Draw(fonts, AllReadAs(MovePieces(x, y)) + rest, [], pen) == Draw(fonts, rest, [], At(pen, pen.x + x, pen.y + y))
  {
    var args := [Number(x), Number(y)];
    assert AllReadAs(MovePieces(x, y)) + rest == args + ([Operator(MoveLine)] + rest);
    Commanded(fonts, args, MoveLine, rest, pen, At(pen, pen.x + x, pen.y + y), []);
    AheadTwice([], [], Draw(fonts, rest, [], At(pen, pen.x + x, pen.y + y)));
  }

  lemma DrawText(fonts: Fonts, sep: char, text: string, rest: seq<Token>, pen: Pen)
    requires pen.inText && pen.bare && pen.font.Some?
    ensures Draw(fonts, AllReadAs(TextPieces(sep, text)) + rest, [], pen)
         == Ahead([Placed(NormalEol(text), pen.font.value.0, pen.font.value.1, pen.x, pen.y)],
                  Draw(fonts, rest, [], pen.(bare := false)))
  {
    var args := [Literal(NormalEol(text))];
    assert AllReadAs(TextPieces(sep, text)) + rest == args + ([Operator(ShowText)] + rest);
    Commanded(fonts, args, ShowText, rest, pen, pen.(bare := false),
              [Placed(NormalEol(text), pen.font.value.0, pen.font.value.1, pen.x, pen.y)]);
  }

  lemma DrawSingle(fonts: Fonts, key: string, base: string, size: nat, x: nat, y: nat, text: string, rest: seq<Token>, pen: Pen)
    requires !pen.inText && BaseFont(fonts, key) == Some(base)
    ensures Draw(fonts, AllReadAs(SinglePieces(key, size, x, y, text)) + rest, [], pen)
         == Ahead([Placed(NormalEol(text), base, size, x, y)],
                  Draw(fonts, rest, [], InFont(At(pen, x, y), base, size).(inText := false, bare := false)))
  {
    var font, move, shown, end := FontPieces(key, size), MovePieces(x, y), TextPieces(' ', text), [Piece(' ', Operator(EndText))];
    var r3 := AllReadAs(end) + rest;
    var r2 := AllReadAs(shown) + r3;
    var r1 := AllReadAs(move) + r2;
    var p1 := InFont(At(pen, 0, 0), base, size);
    var p2 := At(p1, x, y);
    var p3 := p2.(inText := false, bare := false);
    assert AllReadAs(SinglePieces(key, size, x, y, text)) + rest == AllReadAs(font) + r1 by {
      AllReadAsAppend(font + move + shown, end);
      AllReadAsAppend(font + move, shown);
      AllReadAsAppend(font, move);
    }
    DrawFont(fonts, key, base, size, r1, pen);
    DrawMove(fonts, x, y, r2, p1);
    DrawText(fonts, ' ', text, r3, p2);
    assert r3 == [] + ([Operator(EndText)] + rest);
    Commanded(fonts, [], EndText, rest, p2.(bare := false), p3, []);
    AheadTwice([], [], Draw(fonts, rest, [], p3));
  }

  lemma DrawStart(fonts: Fonts, rest: seq<Token>, pen: Pen)
    requires !pen.inText && BaseFont(fonts, "F1") == Some("Helvetica")
    ensures Draw(fonts, AllReadAs(StartPieces()) + rest, [], pen)
         == Draw(fonts, rest, [], InFont(At(pen, 56, 748), "Helvetica", 11).(leading := 15))
  {
    var font, lead, move := FontPieces("F1", 11), [Piece(' ', Number(15)), Piece(' ', Operator(SetLeading))], MovePieces(56, 748);
    var r2 := AllReadAs(move) + rest;
    var r1 := AllReadAs(lead) + r2;
    var p1 := InFont(At(pen, 0, 0), "Helvetica", 11);
    var p2 := p1.(leading := 15);
    assert AllReadAs(StartPieces()) + rest == AllReadAs(font) + r1 by {
      AllReadAsAppend(font + lead, move);
      AllReadAsAppend(font, lead);
    }
    DrawFont(fonts, "F1", "Helvetica", 11, r1, pen);
    assert r1 == [Number(15)] + ([Operator(SetLeading)] + r2);
    Commanded(fonts, [Number(15)], SetLeading, r2, p1, p2, []);
    AheadTwice([], [], Draw(fonts, r2, [], p2));
    DrawMove(fonts, 56, 748, rest, p2);
  }

  lemma DrawLine(fonts: Fonts, line: string, rest: seq<Token>, pen: Pen)
    requires pen.inText && pen.bare && pen.font.Some?
    ensures Draw(fonts, AllReadAs(LinePieces(line)) + rest, [], pen)
         == Ahead([Placed(NormalEol(line), pen.font.value.0, pen.font.value.1, pen.x, pen.y)],
                  Draw(fonts, rest, [], pen.(y := pen.y - pen.leading)))
  {
    var next := [Piece(' ', Operator(NextLine))];
    var r1 := AllReadAs(next) + rest;
    var p1 := pen.(bare := false);
    assert AllReadAs(LinePieces(line)) + rest == AllReadAs(TextPieces('\n', line)) + r1;
    DrawText(fonts, '\n', line, r1, pen);
    assert r1 == [] + ([Operator(NextLine)] + rest);
    Commanded(fonts, [], NextLine, rest, p1, pen.(y := pen.y - pen.leading), []);
    AheadTwice([], [], Draw(fonts, rest, [], pen.(y := pen.y - pen.leading)));
  }

  /** Lines one under the other from a first place, as far apart as given. */
  function Column(lines: seq<string>, font: string, size: nat, x: int, y: int, apart: nat): seq<Placed> {
    seq(|lines|, k requires 0 <= k < |lines| => Placed(NormalEol(lines[k]), font, size, x, y - apart * k))
  }

  lemma ColumnCons(lines: seq<string>, font: string, size: nat, x: int, y: int, apart: nat)
    requires lines != []
    ensures Column(lines, font, size, x, y, apart)
         == [Placed(NormalEol(lines[0]), font, size, x, y)] + Column(lines[1..], font, size, x, y - apart, apart)
  {
    var a, b := Column(lines, font, size, x, y, apart), Column(lines[1..], font, size, x, y - apart, apart);
    forall k | 1 <= k < |lines|
      ensures a[k] == b[k - 1]
    {
      assert apart * k == apart + apart * (k - 1);
    }
  }

  lemma {:induction false} DrawLines(fonts: Fonts, lines: seq<string>, rest: seq<Token>, pen: Pen)
    requires pen.inText && pen.bare && pen.font.Some?
    ensures Draw(fonts, AllReadAs(LinesPieces(lines)) + rest, [], pen)
         == Ahead(Column(lines, pen.font.value.0, pen.font.value.1, pen.x, pen.y, pen.leading),
                  Draw(fonts, rest, [], pen.(y := pen.y - pen.leading * |lines|)))
    decreases |lines|
  {
    if lines == [] {
      assert AllReadAs(LinesPieces(lines)) + rest == rest;
      assert pen.(y := pen.y - pen.leading * 0) == pen;
      assert Column(lines, pen.font.value.0, pen.font.value.1, pen.x, pen.y, pen.leading) == [];
      AheadTwice([], [], Draw(fonts, rest, [], pen));
    } else {
      var next := pen.(y := pen.y - pen.leading);
      AllReadAsAppend(LinePieces(lines[0]), LinesPieces(lines[1..]));
      Assoc(AllReadAs(LinePieces(lines[0])), AllReadAs(LinesPieces(lines[1..])), rest);
      DrawLine(fonts, lines[0], AllReadAs(LinesPieces(lines[1..])) + rest, pen);
      DrawLines(fonts, lines[1..], rest, next);
      LinesJoined(fonts, lines, rest, pen, next);
    }
  }

  lemma LinesJoined(fonts: Fonts, lines: seq<string>, rest: seq<Token>, pen: Pen, next: Pen)
    requires lines != [] && pen.font.Some? && next == pen.(y := pen.y - pen.leading)
    ensures Ahead([Placed(NormalEol(lines[0]), pen.font.value.0, pen.font.value.1, pen.x, pen.y)],
              Ahead(Column(lines[1..], next.font.value.0, next.font.value.1, next.x, next.y, next.leading),
                    Draw(fonts, rest, [], next.(y := next.y - next.leading * |lines[1..]|))))
         == Ahead(Column(lines, pen.font.value.0, pen.font.value.1, pen.x, pen.y, pen.leading),
                  Draw(fonts, rest, [], pen.(y := pen.y - pen.leading * |lines|)))
  {
    ColumnCons(lines, pen.font.value.0, pen.font.value.1, pen.x, pen.y, pen.leading);
    assert pen.leading + pen.leading * (|lines| - 1) == pen.leading * |lines|;
    AheadTwice([Placed(NormalEol(lines[0]), pen.font.value.0, pen.font.value.1, pen.x, pen.y)],
               Column(lines[1..], next.font.value.0, next.font.value.1, next.x, next.y, next.leading),
               Draw(fonts, rest, [], pen.(y := pen.y - pen.leading * |lines|)));
  }

  /** The texts of one page, each in its font, in its size, in its place. */
  function Texts(page: Page, number: nat, total: nat): seq<Placed> {
    [Placed(NormalEol(page.title), "Helvetica-Bold", 16, 56, 780)] + Column(page.lines, "Helvetica", 11, 56, 748, 15) +
    [Placed("Page " + Decimal(number) + " of " + Decimal(total), "Helvetica", 9, 56, 40)]
  }

  lemma FooterNormal(number: nat, total: nat)
    ensures NormalEol(Footer(number, total)) == "Page " + Decimal(number) + " of " + Decimal(total)
  {
    DecimalValue(number);
    DecimalValue(total);
    NormalEolIdentity(Footer(number, total));
  }

  lemma DrawNothing(fonts: Fonts, pen: Pen)
    requires !pen.inText
    ensures Draw(fonts, [], [], pen) == Some([])
  {
  }

  lemma AheadLast(out: seq<Placed>, last: seq<Placed>)
    ensures Ahead(out, Some(last)) == Some(out + last) && out + [] == out
  {
  }

  lemma DrawTail(fonts: Fonts, number: nat, total: nat, pen: Pen)
    requires pen.inText && BaseFont(fonts, "F1") == Some("Helvetica")
    ensures Draw(fonts, AllReadAs(TailPieces(number, total)), [], pen)
         == Some([Placed("Page " + Decimal(number) + " of " + Decimal(total), "Helvetica", 9, 56, 40)])
  {
    var closed := pen.(inText := false);
    var single := AllReadAs(SinglePieces("F1", 9, 56, 40, Footer(number, total)));
    assert AllReadAs(TailPieces(number, total)) == [] + ([Operator(EndText)] + (single + [])) by {
      AllReadAsAppend([Piece('\n', Operator(EndText))], SinglePieces("F1", 9, 56, 40, Footer(number, total)));
    }
    Commanded(fonts, [], EndText, single + [], pen, closed, []);
    AheadTwice([], [], Draw(fonts, single + [], [], closed));
    DrawSingle(fonts, "F1", "Helvetica", 9, 56, 40, Footer(number, total), [], closed);
    DrawNothing(fonts, InFont(At(closed, 56, 40), "Helvetica", 9).(inText := false, bare := false));
    FooterNormal(number, total);
    AheadLast([Placed("Page " + Decimal(number) + " of " + Decimal(total), "Helvetica", 9, 56, 40)], []);
  }

  lemma TextsJoined(page: Page, number: nat, total: nat)
    ensures Ahead([Placed(NormalEol(page.title), "Helvetica-Bold", 16, 56, 780)],
              Ahead(Column(page.lines, "Helvetica", 11, 56, 748, 15),
                    Some([Placed("Page " + Decimal(number) + " of " + Decimal(total), "Helvetica", 9, 56, 40)])))
         == Some(Texts(page, number, total))
  {
    AheadTwice([Placed(NormalEol(page.title), "Helvetica-Bold", 16, 56, 780)], Column(page.lines, "Helvetica", 11, 56, 748, 15),
               Some([Placed("Page " + Decimal(number) + " of " + Decimal(total), "Helvetica", 9, 56, 40)]));
  }

  lemma DrawContent(fonts: Fonts, page: Page, number: nat, total: nat)
    requires BaseFont(fonts, "F1") == Some("Helvetica") && BaseFont(fonts, "F2") == Some("Helvetica-Bold")
    ensures Draw(fonts, AllReadAs(ContentPieces(page, number, total)), [], FIRST_PEN) == Some(Texts(page, number, total))
  {
    var title := SinglePieces("F2", 16, 56, 780, page.title);
    var r3 := AllReadAs(TailPieces(number, total));
    var r2 := AllReadAs(LinesPieces(page.lines)) + r3;
    var r1 := AllReadAs(StartPieces()) + r2;
    var p1 := InFont(At(FIRST_PEN, 56, 780), "Helvetica-Bold", 16).(inText := false, bare := false);
    var p2 := InFont(At(p1, 56, 748), "Helvetica", 11).(leading := 15);
    assert AllReadAs(ContentPieces(page, number, total)) == AllReadAs(title) + r1 by {
      AllReadAsAppend(LinesPieces(page.lines), TailPieces(number, total));
      AllReadAsAppend(StartPieces(), LinesPieces(page.lines) + TailPieces(number, total));
      AllReadAsAppend(title, StartPieces() + (LinesPieces(page.lines) + TailPieces(number, total)));
    }
    DrawSingle(fonts, "F2", "Helvetica-Bold", 16, 56, 780, page.title, r1, FIRST_PEN);
    DrawStart(fonts, r2, p1);
    DrawLines(fonts, page.lines, r3, p2);
    DrawTail(fonts, number, total, p2.(y := p2.y - p2.leading * |page.lines|));
    TextsJoined(page, number, total);
  }

  // ---- the fonts and the page size of the written file

  lemma FontGets(name: string)
    ensures Get(FontDict(name), "Type") == Some(Name("Font")) && Get(FontDict(name), "Subtype") == Some(Name("Type1"))
    ensures Get(FontDict(name), "BaseFont") == Some(Name(name))
  {
    var p1 := [("BaseFont", Name(name))];
    var p2 := [("Subtype", Name("Type1"))] + p1;
    var p3 := [("Type", Name("Font"))] + p2;
    assert [("Type", Name("Font")), ("Subtype", Name("Type1")), ("BaseFont", Name(name))] == p3;
    FlatGet(p3, "Type");
    FlatGet(p3, "Subtype");
    FlatGet(p3, "BaseFont");
    LookupCons("Type", Name("Font"), p2, "Subtype");
    LookupCons("Type", Name("Font"), p2, "BaseFont");
    LookupCons("Subtype", Name("Type1"), p1, "BaseFont");
  }

  lemma FontMapGets()
    ensures Get(FontMap(), "F1") == Some(Ref(3)) && Get(FontMap(), "F2") == Some(Ref(4))
    ensures Get(ResourcesDict(), "Font") == Some(Dict(FontMap()))
  {
    var f1 := [("F2", Ref(4))];
    assert [("F1", Ref(3)), ("F2", Ref(4))] == [("F1", Ref(3))] + f1;
    FlatGet([("F1", Ref(3))] + f1, "F1");
    FlatGet([("F1", Ref(3))] + f1, "F2");
    LookupCons("F1", Ref(3), f1, "F2");
    FlatGet([("Font", Dict(FontMap()))], "Font");
  }

  lemma PageGetsMore(c: nat)
    ensures Get(PageDict(c), "MediaBox") == Some(Array(MEDIA_BOX))
    ensures Get(PageDict(c), "Resources") == Some(Dict(ResourcesDict()))
  {
    var p1 := [("Contents", Ref(c))];
    var p2 := [("Resources", Dict(ResourcesDict()))] + p1;
    var p3 := [("MediaBox", Array(MEDIA_BOX))] + p2;
    var p4 := [("Parent", Ref(PAGES))] + p3;
    var p5 := [("Type", Name("Page"))] + p4;
    PagePairs(c);
    FlatGet(p5, "MediaBox");
    FlatGet(p5, "Resources");
    LookupCons("Type", Name("Page"), p4, "MediaBox");
    LookupCons("Type", Name("Page"), p4, "Resources");
    LookupCons("Parent", Ref(PAGES), p3, "MediaBox");
    LookupCons("Parent", Ref(PAGES), p3, "Resources");
    LookupCons("MediaBox", Array(MEDIA_BOX), p2, "Resources");
  }

  lemma FontsOf(pages: seq<Page>, fonts: Fonts)
    requires fonts == Fonts(Document(CATALOG, Values(pages)), FontMap())
    ensures BaseFont(fonts, "F1") == Some("Helvetica") && BaseFont(fonts, "F2") == Some("Helvetica-Bold")
  {
    ValuesAt(pages);
    FontMapGets();
    FontGets("Helvetica");
    FontGets("Helvetica-Bold");
  }

  // ---- the layout of the whole file

  /** Every page is a sheet of 595 by 842 points with its texts in place. */
  function SheetOf(page: Page, number: nat, total: nat): Sheet {
    Sheet([Int(0), Int(0), Int(595), Int(842)], Texts(page, number, total))
  }

  function SheetsOf(pages: seq<Page>): seq<Sheet> {
    seq(|pages|, k requires 0 <= k < |pages| => SheetOf(pages[k], k + 1, |pages|))
  }

  lemma ReadSheetStep(doc: Document, kid: Obj, dict: seq<Obj>, contents: Obj, stream: Indirect, resources: seq<Obj>,
                      box: seq<Obj>, fonts: seq<Obj>, tokens: seq<Token>, texts: seq<Placed>)
    requires DictOf(doc, kid, "Page") == Some(dict) && Get(dict, "Contents") == Some(contents)
    requires ObjectOf(doc, contents) == Some(stream) && stream.Stream? && Get(dict, "MediaBox") == Some(Array(box))
    requires Get(dict, "Resources") == Some(Dict(resources)) && Get(resources, "Font") == Some(Dict(fonts))
    requires Tokens(stream.data) == Some(tokens) && Draw(Fonts(doc, fonts), tokens, [], FIRST_PEN) == Some(texts)
    ensures ReadSheet(doc, kid) == Some(Sheet(box, texts))
  {
  }

  /** The page object and the content stream are found through their numbers. */
  lemma PageFound(pages: seq<Page>, k: nat, doc: Document)
    requires k < |pages| && doc == Document(CATALOG, Values(pages))
    ensures DictOf(doc, Ref(PageId(k)), "Page") == Some(PageDict(ContentId(k)))
    ensures var content := Content(pages[k], k + 1, |pages|);
            ObjectOf(doc, Ref(ContentId(k))) == Some(Stream(LengthDict(|content|), content))
  {
    ValuesAt(pages);
    assert ContentAt(pages, k);
    PageGets(ContentId(k));
  }

  lemma TreeFound(pages: seq<Page>, doc: Document)
    requires doc == Document(CATALOG, Values(pages))
    ensures DictOf(doc, Ref(CATALOG), "Catalog") == Some(CatalogDict())
    ensures DictOf(doc, Ref(PAGES), "Pages") == Some(PagesDict(PageIds(|pages|)))
  {
    ValuesAt(pages);
    CatalogGets();
    PagesGets(PageIds(|pages|));
  }

  lemma ReadSheetOf(pages: seq<Page>, k: nat, doc: Document)
    requires k < |pages| && doc == Document(CATALOG, Values(pages))
    ensures ReadSheet(doc, Ref(PageId(k))) == Some(SheetOf(pages[k], k + 1, |pages|))
  {
    PageFound(pages, k, doc);
    PageGets(ContentId(k));
    PageGetsMore(ContentId(k));
    FontMapGets();
    var fonts := Fonts(doc, FontMap());
    FontsOf(pages, fonts);
    ContentTokens(pages[k], k + 1, |pages|);
    DrawContent(fonts, pages[k], k + 1, |pages|);
    ReadSheetStep(doc, Ref(PageId(k)), PageDict(ContentId(k)), Ref(ContentId(k)),
                  ObjectOf(doc, Ref(ContentId(k))).value,
                  ResourcesDict(), MEDIA_BOX, FontMap(), AllReadAs(ContentPieces(pages[k], k + 1, |pages|)),
                  Texts(pages[k], k + 1, |pages|));
  }

  lemma ReadSheetsStep(doc: Document, kids: seq<Obj>, result: seq<Sheet>)
    requires DictOf(doc, Ref(doc.root), "Catalog") == Some(CatalogDict()) && Get(CatalogDict(), "Pages") == Some(Ref(PAGES))
    requires DictOf(doc, Ref(PAGES), "Pages") == Some(PagesDict(PageIds(|kids|)))
    requires Get(PagesDict(PageIds(|kids|)), "Kids") == Some(Array(kids))
    requires AllSome(seq(|kids|, k requires 0 <= k < |kids| => ReadSheet(doc, kids[k]))) == Some(result)
    ensures ReadSheets(doc) == Some(result)
  {
  }

  lemma ReadSheetsOf(pages: seq<Page>)
    ensures ReadSheets(Document(CATALOG, Values(pages))) == Some(SheetsOf(pages))
  {
    var doc := Document(CATALOG, Values(pages));
    var kids := KidRefs(PageIds(|pages|));
    TreeFound(pages, doc);
    CatalogGets();
    PagesGets(PageIds(|pages|));
    AllSheets(pages, doc);
    ReadSheetsStep(doc, kids, SheetsOf(pages));
  }

  lemma AllSheets(pages: seq<Page>, doc: Document)
    requires doc == Document(CATALOG, Values(pages))
    ensures var kids := KidRefs(PageIds(|pages|));
            AllSome(seq(|kids|, k requires 0 <= k < |kids| => ReadSheet(doc, kids[k]))) == Some(SheetsOf(pages))
  {
    var kids := KidRefs(PageIds(|pages|));
    forall k | 0 <= k < |pages|
      ensures ReadSheet(doc, kids[k]) == Some(SheetsOf(pages)[k])
    {
      ReadSheetOf(pages, k, doc);
    }
    EachRead(doc, kids, SheetsOf(pages));
  }

  lemma EachRead(doc: Document, kids: seq<Obj>, sheets: seq<Sheet>)
    requires |kids| == |sheets| && forall k :: 0 <= k < |kids| ==> ReadSheet(doc, kids[k]) == Some(sheets[k])
    ensures AllSome(seq(|kids|, k requires 0 <= k < |kids| => ReadSheet(doc, kids[k]))) == Some(sheets)
  {
    AllSomeOf(seq(|kids|, k requires 0 <= k < |kids| => ReadSheet(doc, kids[k])), sheets);
  }

  lemma {:induction false} StartsWithHeader(bodies: seq<string>, k: nat)
    requires k <= |bodies|
    ensures HEADER <= EmitTo(bodies, k)
  {
    if k > 0 { StartsWithHeader(bodies, k - 1); }
  }

  lemma HeaderOf(file: string)
    requires HEADER <= file
    ensures HeaderReads(file)
  {
    assert |HEADER| == 15 && file[..15] == HEADER;
    assert file[..10] == HEADER[..10] == "%PDF-1.4\n%";
  }

  /** Reading the written file gives every page's layout: the title in bold 16 points at
      (56, 780), line k in 11 points at (56, 748 - 15 k), the page number in 9 points at
      (56, 40). It is readable exactly when every object offset fits its ten digits. */
  lemma LayoutRoundTrip(pages: seq<Page>)
    ensures ReadLayout(FileOf(Bodies(pages), CATALOG))
         == if OffsetsFit(Bodies(pages)) then Some(SheetsOf(pages)) else None
  {
    BodiesPrintValues(pages);
    ValuesSound(pages);
    ReadFileOf(Values(pages), CATALOG);
    ReadSheetsOf(pages);
    StartsWithHeader(Bodies(pages), |Bodies(pages)|);
    HeaderOf(FileOf(Bodies(pages), CATALOG));
  }
}
