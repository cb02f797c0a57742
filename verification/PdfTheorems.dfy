/** The main results about `build_pdf`: its object graph is well formed, and a reader that
    starts from `startxref` gets the same pages back. */
module PdfTheorems {
  import opened Text
  import opened PdfSyntax
  import opened PdfFile
  import opened PdfPages
  import opened PdfReadBack

  // ---- a reader of pages

  /** The strings a content stream shows, in order: literal strings, each shown by `Tj`. */
  function Shown(s: string): Option<seq<string>>
    decreases |s|
  {
    if s == "" then Some([])
    else if s[0] == '(' then
      var (text, rest) :- ReadLiteral(s[1..], 0);
      if |rest| < |s| && " Tj" <= rest then
        var more :- Shown(rest);
        Some([text] + more)
      else None
    else Shown(s[1..])
  }

  function ObjectOf(doc: Document, v: Obj): Option<Indirect> {
    if v.Ref? && 1 <= v.num <= |doc.objects| then Some(doc.objects[v.num - 1]) else None
  }

  /** The dictionary a reference leads to, when it is of the given type. */
  function DictOf(doc: Document, v: Obj, type_: string): Option<seq<Obj>> {
    var o :- ObjectOf(doc, v);
    if o.Plain? && Get(o.dict, "Type") == Some(Name(type_)) then Some(o.dict) else None
  }

  /** One page: its parent is the tree it was reached from, its text is what its content
      stream shows, less the page number at the foot. */
  function ReadPage(doc: Document, kid: Obj, parent: Obj): Option<Page> {
    var dict :- DictOf(doc, kid, "Page");
    var contents :- Get(dict, "Contents");
    var stream :- ObjectOf(doc, contents);
    if Get(dict, "Parent") != Some(parent) || !stream.Stream? then None else
      var texts :- Shown(stream.data);
      if |texts| < 2 then None else Some(Page(texts[0], texts[1..|texts| - 1]))
  }

  function ReadPages(doc: Document): Option<seq<Page>> {
    var catalog :- DictOf(doc, Ref(doc.root), "Catalog");
    var tree :- Get(catalog, "Pages");
    var dict :- DictOf(doc, tree, "Pages");
    match (Get(dict, "Kids"), Get(dict, "Count"))
    case (Some(Array(kids)), Some(Int(count))) =>
      if count != |kids| then None else AllSome(seq(|kids|, k requires 0 <= k < |kids| => ReadPage(doc, kids[k], tree)))
    case _ => None
  }

  function ReadBack(file: string): Option<seq<Page>> {
    var doc :- ReadDocument(file);
    ReadPages(doc)
  }

  // ---- the dictionaries' entries

  lemma LookupCons(key: string, v: Obj, pairs: seq<(string, Obj)>, wanted: string)
    ensures Lookup([(key, v)] + pairs, wanted) == if key == wanted then Some(v) else Lookup(pairs, wanted)
  {
  }

  lemma CatalogGets()
    ensures Get(CatalogDict(), "Type") == Some(Name("Catalog")) && Get(CatalogDict(), "Pages") == Some(Ref(PAGES))
  {
    var p1 := [("Pages", Ref(PAGES))];
    var p2 := [("Type", Name("Catalog")), ("Pages", Ref(PAGES))];
    assert p2 == [("Type", Name("Catalog"))] + p1;
    FlatGet(p2, "Type");
    FlatGet(p2, "Pages");
    LookupCons("Type", Name("Catalog"), p1, "Pages");
  }

  lemma CatalogFacts()
    ensures Printable(Dict(CatalogDict())) && RefsIn(CatalogDict()) == {PAGES}
  {
    var none: seq<(string, Obj)> := [];
    var p1 := [("Pages", Ref(PAGES))];
    var p2 := [("Type", Name("Catalog")), ("Pages", Ref(PAGES))];
    assert p1 == p1 + none && p2 == [("Type", Name("Catalog"))] + p1;
    assert RegularWord("Type") && RegularWord("Catalog") && RegularWord("Pages");
    FlatPrintable(p2);
    RefsCons("Pages", Ref(PAGES), none);
    RefsCons("Type", Name("Catalog"), p1);
  }

  lemma {:induction false} KidRefsFacts(ids: seq<nat>)
    ensures PrintableItems(KidRefs(ids)) && RefsIn(KidRefs(ids)) == set k | 0 <= k < |ids| :: ids[k]
  {
    if ids != [] {
      KidRefsFacts(ids[1..]);
      assert KidRefs(ids)[1..] == KidRefs(ids[1..]);
      var a, b := (set k | 0 <= k < |ids| :: ids[k]), (set k | 0 <= k < |ids[1..]| :: ids[1..][k]);
      assert forall k :: 0 < k < |ids| ==> ids[k] == ids[1..][k - 1];
      assert a == {ids[0]} + b;
    }
  }

  lemma PagesGets(ids: seq<nat>)
    ensures Get(PagesDict(ids), "Type") == Some(Name("Pages")) && Get(PagesDict(ids), "Kids") == Some(Array(KidRefs(ids)))
    ensures Get(PagesDict(ids), "Count") == Some(Int(|ids|))
  {
    var p1 := [("Count", Int(|ids|))];
    var p2 := [("Kids", Array(KidRefs(ids)))] + p1;
    var p3 := [("Type", Name("Pages"))] + p2;
    assert [("Type", Name("Pages")), ("Kids", Array(KidRefs(ids))), ("Count", Int(|ids|))] == p3;
    FlatGet(p3, "Type");
    FlatGet(p3, "Kids");
    FlatGet(p3, "Count");
    LookupCons("Type", Name("Pages"), p2, "Kids");
    LookupCons("Type", Name("Pages"), p2, "Count");
    LookupCons("Kids", Array(KidRefs(ids)), p1, "Count");
  }

  lemma PagesFacts(ids: seq<nat>)
    ensures Printable(Dict(PagesDict(ids))) && RefsIn(PagesDict(ids)) == set k | 0 <= k < |ids| :: ids[k]
  {
    var none: seq<(string, Obj)> := [];
    var p1 := [("Count", Int(|ids|))];
    var p2 := [("Kids", Array(KidRefs(ids)))] + p1;
    var p3 := [("Type", Name("Pages"))] + p2;
    assert p1 == p1 + none;
    assert [("Type", Name("Pages")), ("Kids", Array(KidRefs(ids))), ("Count", Int(|ids|))] == p3;
    KidRefsFacts(ids);
    assert RegularWord("Type") && RegularWord("Pages") && RegularWord("Kids") && RegularWord("Count");
    FlatPrintable(p3);
    RefsCons("Count", Int(|ids|), none);
    RefsCons("Kids", Array(KidRefs(ids)), p1);
    RefsCons("Type", Name("Pages"), p2);
  }

  lemma FontFacts(name: string)
    requires RegularWord(name)
    ensures Printable(Dict(FontDict(name))) && RefsIn(FontDict(name)) == {}
  {
    var none: seq<(string, Obj)> := [];
    var p1 := [("BaseFont", Name(name))];
    var p2 := [("Subtype", Name("Type1"))] + p1;
    var p3 := [("Type", Name("Font"))] + p2;
    assert p1 == p1 + none;
    assert [("Type", Name("Font")), ("Subtype", Name("Type1")), ("BaseFont", Name(name))] == p3;
    assert RegularWord("Type") && RegularWord("Font") && RegularWord("Subtype");
    assert RegularWord("Type1") && RegularWord("BaseFont");
    FlatPrintable(p3);
    RefsCons("BaseFont", Name(name), none);
    RefsCons("Subtype", Name("Type1"), p1);
    RefsCons("Type", Name("Font"), p2);
  }

  lemma ResourcesFacts()
    ensures Printable(Dict(ResourcesDict())) && Refs(Dict(ResourcesDict())) == {3, 4}
  {
    var none: seq<(string, Obj)> := [];
    var f1 := [("F2", Ref(4))];
    var f2 := [("F1", Ref(3))] + f1;
    assert f1 == f1 + none && [("F1", Ref(3)), ("F2", Ref(4))] == f2;
    assert RegularWord("F1") && RegularWord("F2") && RegularWord("Font");
    FlatPrintable(f2);
    RefsCons("F2", Ref(4), none);
    RefsCons("F1", Ref(3), f1);
    var r1 := [("Font", Dict(FontMap()))];
    assert r1 == r1 + none;
    FlatPrintable(r1);
    RefsCons("Font", Dict(FontMap()), none);
  }

  lemma MediaBoxFacts()
    ensures PrintableItems(MEDIA_BOX) && RefsIn(MEDIA_BOX) == {}
  {
  }

  lemma PageGets(c: nat)
    ensures Get(PageDict(c), "Type") == Some(Name("Page")) && Get(PageDict(c), "Parent") == Some(Ref(PAGES))
    ensures Get(PageDict(c), "Contents") == Some(Ref(c))
  {
    var none: seq<(string, Obj)> := [];
    var p1 := [("Contents", Ref(c))];
    var p2 := [("Resources", Dict(ResourcesDict()))] + p1;
    var p3 := [("MediaBox", Array(MEDIA_BOX))] + p2;
    var p4 := [("Parent", Ref(PAGES))] + p3;
    var p5 := [("Type", Name("Page"))] + p4;
    PagePairs(c);
    FlatGet(p5, "Type");
    FlatGet(p5, "Parent");
    FlatGet(p5, "Contents");
    LookupCons("Type", Name("Page"), p4, "Parent");
    LookupCons("Type", Name("Page"), p4, "Contents");
    LookupCons("Parent", Ref(PAGES), p3, "Contents");
    LookupCons("MediaBox", Array(MEDIA_BOX), p2, "Contents");
    LookupCons("Resources", Dict(ResourcesDict()), p1, "Contents");
  }

  lemma PagePrintable(c: nat)
    ensures Printable(Dict(PageDict(c)))
  {
    var p5 := [("Type", Name("Page")), ("Parent", Ref(PAGES)), ("MediaBox", Array(MEDIA_BOX)),
               ("Resources", Dict(ResourcesDict())), ("Contents", Ref(c))];
    ResourcesFacts();
    MediaBoxFacts();
    PageNames();
    assert PrintablePair(p5[0]) && PrintablePair(p5[1]) && PrintablePair(p5[2]) && PrintablePair(p5[3]) && PrintablePair(p5[4]);
    FlatPrintable(p5);
  }

  lemma PageRefsTail(c: nat, p2: seq<(string, Obj)>)
    requires p2 == [("Resources", Dict(ResourcesDict()))] + [("Contents", Ref(c))]
    ensures RefsIn(Flat(p2)) == {3, 4, c}
  {
    var none: seq<(string, Obj)> := [];
    var p1 := [("Contents", Ref(c))];
    assert p1 == p1 + none;
    ResourcesFacts();
    RefsCons("Contents", Ref(c), none);
    RefsCons("Resources", Dict(ResourcesDict()), p1);
  }

  lemma PageRefs(c: nat)
    ensures RefsIn(PageDict(c)) == {PAGES, 3, 4, c}
  {
    var p2 := [("Resources", Dict(ResourcesDict()))] + [("Contents", Ref(c))];
    var p3 := [("MediaBox", Array(MEDIA_BOX))] + p2;
    var p4 := [("Parent", Ref(PAGES))] + p3;
    PagePairs(c);
    PageRefsTail(c, p2);
    MediaBoxFacts();
    RefsCons("MediaBox", Array(MEDIA_BOX), p2);
    RefsCons("Parent", Ref(PAGES), p3);
    RefsCons("Type", Name("Page"), p4);
  }

  lemma PageNames()
    ensures RegularWord("Type") && RegularWord("Page") && RegularWord("Parent")
    ensures RegularWord("MediaBox") && RegularWord("Resources") && RegularWord("Contents")
  {
  }

  lemma LengthFacts(n: nat)
    ensures Get(LengthDict(n), "Length") == Some(Int(n))
    ensures Printable(Dict(LengthDict(n))) && RefsIn(LengthDict(n)) == {}
  {
    var none: seq<(string, Obj)> := [];
    var p1 := [("Length", Int(n))];
    assert p1 == p1 + none;
    FlatGet(p1, "Length");
    assert RegularWord("Length");
    FlatPrintable(p1);
    RefsCons("Length", Int(n), none);
  }

  // ---- the table by position

  lemma {:induction false} PageValuesAt(pages: seq<Page>, n: nat, k: nat)
    requires k < n <= |pages|
    ensures var content := Content(pages[k], k + 1, |pages|);
            && PageValues(pages, n)[2 * k] == Stream(LengthDict(|content|), content)
            && PageValues(pages, n)[2 * k + 1] == Plain(PageDict(ContentId(k)))
  {
    if k < n - 1 {
      PageValuesAt(pages, n - 1, k);
    }
  }

  /** Where everything is: object 1 the catalog, 2 the page tree, 3 and 4 the fonts, then a
      content stream and a page object for each page in order. */
  lemma ValuesAt(pages: seq<Page>)
    ensures var v := Values(pages);
            && |v| == 4 + 2 * |pages|
            && v[0] == Plain(CatalogDict()) && v[1] == Plain(PagesDict(PageIds(|pages|)))
            && v[2] == Plain(FontDict("Helvetica")) && v[3] == Plain(FontDict("Helvetica-Bold"))
    ensures forall k :: 0 <= k < |pages| ==> ContentAt(pages, k)
  {
    forall k | 0 <= k < |pages|
      ensures ContentAt(pages, k)
    {
      PageValuesAt(pages, |pages|, k);
    }
  }

  predicate ContentAt(pages: seq<Page>, k: nat)
    requires k < |pages|
  {
    var v := Values(pages);
    var content := Content(pages[k], k + 1, |pages|);
    && v[ContentId(k) - 1] == Stream(LengthDict(|content|), content)
    && v[PageId(k) - 1] == Plain(PageDict(ContentId(k)))
  }

  lemma FontNames()
    ensures RegularWord("Helvetica") && RegularWord("Helvetica-Bold")
  {
  }

  lemma FontSound(name: string)
    requires RegularWord(name)
    ensures Sound(Plain(FontDict(name)))
  {
    FontFacts(name);
  }

  lemma FrontSound(n: nat)
    ensures forall k :: 0 <= k < 4 ==> Sound(FrontValues(n)[k])
  {
    CatalogFacts();
    PagesFacts(PageIds(n));
    FontNames();
    FontSound("Helvetica");
    FontSound("Helvetica-Bold");
  }

  lemma ValuesSound(pages: seq<Page>)
    ensures forall n :: 0 <= n < |Values(pages)| ==> Sound(Values(pages)[n])
  {
    FrontSound(|pages|);
    forall n | 0 <= n < |Values(pages)|
      ensures Sound(Values(pages)[n])
    {
      if n >= 4 {
        PageObjectSound(pages, n);
      } else {
        assert Values(pages)[n] == FrontValues(|pages|)[n];
      }
    }
  }

  lemma PageObjectSound(pages: seq<Page>, n: nat)
    requires 4 <= n < 4 + 2 * |pages|
    ensures n < |Values(pages)| && Sound(Values(pages)[n])
  {
    ValuesAt(pages);
    var k := (n - 4) / 2;
    assert ContentAt(pages, k);
    LengthFacts(|Content(pages[k], k + 1, |pages|)|);
    PagePrintable(ContentId(k));
    assert n == ContentId(k) - 1 || n == PageId(k) - 1;
  }

  // ---- the text of a content stream

  lemma {:induction false} ShownSkip(front: string, rest: string)
    requires '(' !in front
    ensures Shown(front + rest) == Shown(rest)
  {
    if front == "" {
      assert front + rest == rest;
    } else {
      assert (front + rest)[0] == front[0] && (front + rest)[1..] == front[1..] + rest;
      ShownSkip(front[1..], rest);
    }
  }

  function Prefixed(text: string, more: Option<seq<string>>): Option<seq<string>> {
    if more.Some? then Some([text] + more.value) else None
  }

  /** One shown string: the text as written, then ` Tj` and the rest of the stream. */
  lemma ShownText(text: string, rest: string)
    ensures Shown("(" + (PdfText(text) + (") Tj" + rest))) == Prefixed(NormalEol(text), Shown(rest))
  {
    var after := " Tj" + rest;
    var body := Escape(text) + (")" + after);
    var s := "(" + body;
    PdfTextIsEscape(text);
    assert "(" + (PdfText(text) + (") Tj" + rest)) == s;
    assert s[0] == '(' && s[1..] == body;
    ReadEscaped(text, after);
    assert " Tj" <= after && |after| < |s|;
    assert ' ' !in "(" && '(' !in " Tj";
    ShownSkip(" Tj", rest);
    ShownStep(s, NormalEol(text), after);
  }

  lemma ShownStep(s: string, text: string, rest: string)
    requires s != "" && s[0] == '(' && ReadLiteral(s[1..], 0) == Some((text, rest))
    requires |rest| < |s| && " Tj" <= rest
    ensures Shown(s) == Prefixed(text, Shown(rest))
  {
  }

  lemma ShownTitle(title: string, rest: string)
    ensures Shown(TitleText(title) + rest) == Prefixed(NormalEol(title), Shown(rest))
  {
    var front, end := "BT /F2 16 Tf 56 780 Td ", " ET" + rest;
    assert "BT /F2 16 Tf 56 780 Td (" == front + "(" && ") Tj ET" == ") Tj" + " ET";
    assert TitleText(title) + rest == front + ("(" + (PdfText(title) + (") Tj" + end)));
    ShownSkip(front, "(" + (PdfText(title) + (") Tj" + end)));
    ShownText(title, end);
    ShownSkip(" ET", rest);
  }

  lemma ShownLine(line: string, rest: string)
    ensures Shown(LineText(line) + rest) == Prefixed(NormalEol(line), Shown(rest))
  {
    var end := " T*" + rest;
    assert ") Tj T*" == ") Tj" + " T*";
    assert LineText(line) + rest == "(" + (PdfText(line) + (") Tj" + end));
    ShownText(line, end);
    ShownSkip(" T*", rest);
  }

  /** The page number needs no escaping: digits and words only. */
  lemma PlainText(s: string)
    requires forall k :: 0 <= k < |s| ==> s[k] != '\\' && s[k] != '(' && s[k] != ')'
    ensures Escape(s) == s
  {
  }

  lemma FooterPlain(number: nat, total: nat)
    ensures PdfText(Footer(number, total)) == Footer(number, total)
  {
    DecimalValue(number);
    DecimalValue(total);
    PlainText(Footer(number, total));
    PdfTextIsEscape(Footer(number, total));
  }

  lemma ShownFooter(number: nat, total: nat)
    ensures Shown(FooterText(number, total)) == Some([NormalEol(Footer(number, total))])
  {
    var text := Footer(number, total);
    var front := "BT /F1 9 Tf 56 40 Td ";
    var body := "(" + (PdfText(text) + (") Tj" + " ET"));
    assert "BT /F1 9 Tf 56 40 Td (" == front + "(" && ") Tj ET" == ") Tj" + " ET";
    FooterPlain(number, total);
    assert FooterText(number, total) == front + body;
    ShownSkip(front, body);
    ShownText(text, " ET");
    assert " ET" + "" == " ET" && Shown("") == Some([]);
    ShownSkip(" ET", "");
    assert [NormalEol(text)] + [] == [NormalEol(text)];
  }

  function NormalTexts(lines: seq<string>): seq<string> {
    seq(|lines|, k requires 0 <= k < |lines| => NormalEol(lines[k]))
  }

  lemma ShownTail(number: nat, total: nat)
    ensures Shown(Join("\n", TailParts(number, total))) == Some([NormalEol(Footer(number, total))])
  {
    var footer := FooterText(number, total);
    assert TailParts(number, total) == ["ET"] + [footer];
    JoinCons("\n", "ET", [footer]);
    assert Join("\n", [footer]) == footer;
    assert "ET" + ("\n" + footer) == "ET\n" + footer;
    ShownSkip("ET\n", footer);
    ShownFooter(number, total);
  }

  lemma {:induction false} ShownLines(lines: seq<string>, number: nat, total: nat)
    ensures Shown(Join("\n", LineTexts(lines) + TailParts(number, total)))
         == Some(NormalTexts(lines) + [NormalEol(Footer(number, total))])
  {
    if lines == [] {
      ShownTail(number, total);
      var last := [NormalEol(Footer(number, total))];
      assert LineTexts(lines) + TailParts(number, total) == TailParts(number, total);
      assert NormalTexts(lines) + last == last;
    } else {
      ShownLines(lines[1..], number, total);
      ShownMore(lines, number, total);
    }
  }

  lemma ShownMore(lines: seq<string>, number: nat, total: nat)
    requires lines != []
    requires Shown(Join("\n", LineTexts(lines[1..]) + TailParts(number, total)))
          == Some(NormalTexts(lines[1..]) + [NormalEol(Footer(number, total))])
    ensures Shown(Join("\n", LineTexts(lines) + TailParts(number, total)))
         == Some(NormalTexts(lines) + [NormalEol(Footer(number, total))])
  {
    var tail := LineTexts(lines[1..]) + TailParts(number, total);
    var more := Join("\n", tail);
    assert LineTexts(lines) + TailParts(number, total) == [LineText(lines[0])] + tail;
    JoinCons("\n", LineText(lines[0]), tail);
    ShownLine(lines[0], "\n" + more);
    ShownSkip("\n", more);
    var last := [NormalEol(Footer(number, total))];
    assert NormalTexts(lines) + last == [NormalEol(lines[0])] + (NormalTexts(lines[1..]) + last);
  }

  /** A content stream shows its title, its lines in order and the page number, no more. */
  lemma ShownContent(page: Page, number: nat, total: nat)
    ensures Shown(Content(page, number, total))
         == Some([NormalEol(page.title)] + (NormalTexts(page.lines) + [NormalEol(Footer(number, total))]))
  {
    var lines := LineTexts(page.lines) + TailParts(number, total);
    var more := Join("\n", lines);
    var title := TitleText(page.title);
    assert ContentParts(page, number, total) == [title] + ([BODY_START] + lines);
    JoinCons("\n", BODY_START, lines);
    JoinCons("\n", title, [BODY_START] + lines);
    var rest := "\n" + (BODY_START + ("\n" + more));
    var front := "\n" + (BODY_START + "\n");
    assert rest == front + more;
    ShownTitle(page.title, rest);
    ShownSkip(front, more);
    ShownLines(page.lines, number, total);
  }

  // ---- the round trip

  function NormalPage(page: Page): Page { Page(NormalEol(page.title), NormalTexts(page.lines)) }

  function NormalPages(pages: seq<Page>): seq<Page> {
    seq(|pages|, k requires 0 <= k < |pages| => NormalPage(pages[k]))
  }

  lemma ReadPageOf(pages: seq<Page>, k: nat, doc: Document)
    requires k < |pages| && doc == Document(CATALOG, Values(pages))
    ensures ReadPage(doc, Ref(PageId(k)), Ref(PAGES)) == Some(NormalPage(pages[k]))
  {
    ValuesAt(pages);
    assert ContentAt(pages, k);
    PageGets(ContentId(k));
    ShownContent(pages[k], k + 1, |pages|);
    var title, lines := NormalEol(pages[k].title), NormalTexts(pages[k].lines);
    var texts := [title] + (lines + [NormalEol(Footer(k + 1, |pages|))]);
    assert texts[1..|texts| - 1] == lines;
    ReadPageStep(doc, Ref(PageId(k)), Ref(PAGES), PageDict(ContentId(k)), Ref(ContentId(k)), texts);
  }

  lemma ReadPageStep(doc: Document, kid: Obj, parent: Obj, dict: seq<Obj>, contents: Obj, texts: seq<string>)
    requires DictOf(doc, kid, "Page") == Some(dict) && Get(dict, "Contents") == Some(contents)
    requires Get(dict, "Parent") == Some(parent) && |texts| >= 2
    requires ObjectOf(doc, contents).Some? && ObjectOf(doc, contents).value.Stream?
    requires Shown(ObjectOf(doc, contents).value.data) == Some(texts)
    ensures ReadPage(doc, kid, parent) == Some(Page(texts[0], texts[1..|texts| - 1]))
  {
  }

  lemma ReadPagesOf(pages: seq<Page>)
    ensures ReadPages(Document(CATALOG, Values(pages))) == Some(NormalPages(pages))
  {
    var doc := Document(CATALOG, Values(pages));
    var kids := KidRefs(PageIds(|pages|));
    ValuesAt(pages);
    CatalogGets();
    PagesGets(PageIds(|pages|));
    AllPages(pages, doc);
    ReadPagesStep(doc, kids, NormalPages(pages));
  }

  lemma AllPages(pages: seq<Page>, doc: Document)
    requires doc == Document(CATALOG, Values(pages))
    ensures var kids := KidRefs(PageIds(|pages|));
            AllSome(seq(|kids|, k requires 0 <= k < |kids| => ReadPage(doc, kids[k], Ref(PAGES)))) == Some(NormalPages(pages))
  {
    var kids := KidRefs(PageIds(|pages|));
    forall k | 0 <= k < |pages|
      ensures ReadPage(doc, kids[k], Ref(PAGES)) == Some(NormalPages(pages)[k])
    {
      ReadPageOf(pages, k, doc);
    }
    EachRead(doc, kids, NormalPages(pages));
  }

  lemma EachRead(doc: Document, kids: seq<Obj>, pages: seq<Page>)
    requires |kids| == |pages| && forall k :: 0 <= k < |kids| ==> ReadPage(doc, kids[k], Ref(PAGES)) == Some(pages[k])
    ensures AllSome(seq(|kids|, k requires 0 <= k < |kids| => ReadPage(doc, kids[k], Ref(PAGES)))) == Some(pages)
  {
    AllSomeOf(seq(|kids|, k requires 0 <= k < |kids| => ReadPage(doc, kids[k], Ref(PAGES))), pages);
  }

  lemma ReadPagesStep(doc: Document, kids: seq<Obj>, result: seq<Page>)
    requires DictOf(doc, Ref(doc.root), "Catalog") == Some(CatalogDict()) && Get(CatalogDict(), "Pages") == Some(Ref(PAGES))
    requires DictOf(doc, Ref(PAGES), "Pages") == Some(PagesDict(PageIds(|kids|)))
    requires Get(PagesDict(PageIds(|kids|)), "Kids") == Some(Array(kids))
    requires Get(PagesDict(PageIds(|kids|)), "Count") == Some(Int(|kids|))
    requires AllSome(seq(|kids|, k requires 0 <= k < |kids| => ReadPage(doc, kids[k], Ref(PAGES)))) == Some(result)
    ensures ReadPages(doc) == Some(result)
  {
  }

  /** Reading the written file from `startxref` gives every page back, with line ends
      normalised, exactly when every object offset fits its ten digits. */
  lemma PdfRoundTrip(pages: seq<Page>)
    ensures ReadBack(FileOf(Bodies(pages), CATALOG))
         == if OffsetsFit(Bodies(pages)) then Some(NormalPages(pages)) else None
  {
    BodiesPrintValues(pages);
    ValuesSound(pages);
    ReadFileOf(Values(pages), CATALOG);
    ReadPagesOf(pages);
  }

  predicate NoReturns(page: Page) {
    '\r' !in page.title && forall k :: 0 <= k < |page.lines| ==> '\r' !in page.lines[k]
  }

  lemma NormalPageIdentity(page: Page)
    ensures NormalPage(page) == page <==> NoReturns(page)
  {
    NormalEolIdentity(page.title);
    forall k | 0 <= k < |page.lines|
      ensures NormalTexts(page.lines)[k] == page.lines[k] <==> '\r' !in page.lines[k]
    {
      NormalEolIdentity(page.lines[k]);
    }
    if NoReturns(page) {
      assert NormalTexts(page.lines) == page.lines;
    }
  }

  /** The pages come back unchanged exactly when no text holds a carriage return and the
      offsets fit. */
  lemma PdfRoundTripExact(pages: seq<Page>)
    ensures ReadBack(FileOf(Bodies(pages), CATALOG)) == Some(pages)
       <==> OffsetsFit(Bodies(pages)) && forall k :: 0 <= k < |pages| ==> NoReturns(pages[k])
  {
    PdfRoundTrip(pages);
    NormalPagesIdentity(pages);
  }

  lemma NormalPagesIdentity(pages: seq<Page>)
    ensures NormalPages(pages) == pages <==> forall k :: 0 <= k < |pages| ==> NoReturns(pages[k])
  {
    forall k | 0 <= k < |pages|
      ensures NormalPages(pages)[k] == pages[k] <==> NoReturns(pages[k])
    {
      NormalPageIdentity(pages[k]);
    }
    if forall k :: 0 <= k < |pages| ==> NoReturns(pages[k]) {
      assert NormalPages(pages) == pages;
    }
  }
}
