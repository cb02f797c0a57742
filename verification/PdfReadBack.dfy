/** What a reader gets out of the file `build_pdf` writes: the object graph and the text. */
module PdfReadBack {
  import opened Text
  import opened PdfSyntax
  import opened PdfFile
  import opened PdfPages

  // ---- the objects as values

  function CatalogDict(): seq<Obj> { Flat([("Type", Name("Catalog")), ("Pages", Ref(PAGES))]) }

  function KidRefs(ids: seq<nat>): seq<Obj> { seq(|ids|, k requires 0 <= k < |ids| => Ref(ids[k])) }

  function PagesDict(ids: seq<nat>): seq<Obj> {
    Flat([("Type", Name("Pages")), ("Kids", Array(KidRefs(ids))), ("Count", Int(|ids|))])
  }

  function FontDict(name: string): seq<Obj> {
    Flat([("Type", Name("Font")), ("Subtype", Name("Type1")), ("BaseFont", Name(name))])
  }

  function FontMap(): seq<Obj> { Flat([("F1", Ref(3)), ("F2", Ref(4))]) }

  function ResourcesDict(): seq<Obj> { Flat([("Font", Dict(FontMap()))]) }

  const MEDIA_BOX: seq<Obj> := [Int(0), Int(0), Int(595), Int(842)]

  function PageDict(contentId: nat): seq<Obj> {
    Flat([("Type", Name("Page")), ("Parent", Ref(PAGES)), ("MediaBox", Array(MEDIA_BOX)),
          ("Resources", Dict(ResourcesDict())), ("Contents", Ref(contentId))])
  }

  function LengthDict(length: nat): seq<Obj> { Flat([("Length", Int(length))]) }

  function PairValues(page: Page, number: nat, total: nat): seq<Indirect>
    requires number >= 1
  {
    var content := Content(page, number, total);
    [Stream(LengthDict(|content|), content), Plain(PageDict(ContentId(number - 1)))]
  }

  function PageValues(pages: seq<Page>, n: nat): (values: seq<Indirect>)
    requires n <= |pages|
    ensures |values| == 2 * n
  {
    if n == 0 then [] else PageValues(pages, n - 1) + PairValues(pages[n - 1], n, |pages|)
  }

  /** The object table by number, as values. */
  function Values(pages: seq<Page>): seq<Indirect> {
    FrontValues(|pages|) + PageValues(pages, |pages|)
  }

  // ---- the source's literals print these values

  lemma ShowTwo(k1: string, v1: Obj, k2: string, v2: Obj)
    ensures Show(Dict(Flat([(k1, v1), (k2, v2)])))
         == "<< " + ((Field(k1, Show(v1)) + (" " + Field(k2, Show(v2)))) + " >>")
  {
    var none: seq<(string, Obj)> := [];
    FlatCons(k2, v2, none);
    FlatCons(k1, v1, [(k2, v2)]);
    assert [(k2, v2)] == [(k2, v2)] + none && [(k1, v1), (k2, v2)] == [(k1, v1)] + [(k2, v2)];
  }

  lemma ShowThree(k1: string, v1: Obj, k2: string, v2: Obj, k3: string, v3: Obj)
    ensures Show(Dict(Flat([(k1, v1), (k2, v2), (k3, v3)])))
         == "<< " + ((Field(k1, Show(v1)) + (" " + (Field(k2, Show(v2)) + (" " + Field(k3, Show(v3)))))) + " >>")
  {
    var none: seq<(string, Obj)> := [];
    FlatCons(k3, v3, none);
    FlatCons(k2, v2, [(k3, v3)]);
    FlatCons(k1, v1, [(k2, v2), (k3, v3)]);
    assert [(k3, v3)] == [(k3, v3)] + none && [(k2, v2), (k3, v3)] == [(k2, v2)] + [(k3, v3)];
    assert [(k1, v1), (k2, v2), (k3, v3)] == [(k1, v1)] + [(k2, v2), (k3, v3)];
  }

  lemma CatalogPrinted()
    ensures CatalogBody(PAGES) == Show(Dict(CatalogDict()))
  {
    ShowTwo("Type", Name("Catalog"), "Pages", Ref(PAGES));
    CatalogWords(Decimal(PAGES));
  }

  lemma CatalogWords(p: string)
    ensures "<< /Type /Catalog /Pages " + (p + " 0 R >>")
         == "<< " + ((Field("Type", "/" + "Catalog") + (" " + Field("Pages", p + " 0 R"))) + " >>")
  {
  }

  lemma FontPrinted(name: string)
    ensures FontBody(name) == Show(Dict(FontDict(name)))
  {
    ShowThree("Type", Name("Font"), "Subtype", Name("Type1"), "BaseFont", Name(name));
    FontWords(name);
  }

  lemma FontLiteral()
    ensures "<< /Type /Font /Subtype /Type1 /BaseFont /"
         == "<< " + (("/Type " + "/Font") + (" " + (("/Subtype " + "/Type1") + (" " + ("/BaseFont " + "/")))))
  {
  }

  lemma FontWords(n: string)
    ensures "<< /Type /Font /Subtype /Type1 /BaseFont /" + (n + " >>")
         == "<< " + ((Field("Type", "/" + "Font") + (" " + (Field("Subtype", "/" + "Type1") + (" " + Field("BaseFont", "/" + n))))) + " >>")
  {
    FontLiteral();
    Keyed("Type", "/Font");
    Keyed("Subtype", "/Type1");
    Keyed("BaseFont", "/" + n);
    assert "/" + "Font" == "/Font" && "/" + "Type1" == "/Type1";
    FontAssoc("<< ", "/Type " + "/Font", " ", "/Subtype " + "/Type1", "/BaseFont ", "/", n, " >>");
    assert "/Type " == "/" + "Type" + " " && "/Subtype " == "/" + "Subtype" + " " && "/BaseFont " == "/" + "BaseFont" + " ";
  }

  lemma FontAssoc(o: string, t: string, sp: string, u: string, b: string, sl: string, n: string, c: string)
    ensures (o + (t + (sp + (u + (sp + (b + sl)))))) + (n + c) == o + ((t + (sp + (u + (sp + (b + (sl + n)))))) + c)
  {
  }

  lemma Keyed(key: string, shown: string)
    ensures Field(key, shown) == ("/" + key + " ") + shown
  {
  }

  lemma {:induction false} KidsPrinted(ids: seq<nat>)
    ensures Join(" ", KidTexts(ids)) == ShowItems(KidRefs(ids))
  {
    if |ids| > 1 {
      KidsPrinted(ids[1..]);
      assert KidTexts(ids)[1..] == KidTexts(ids[1..]);
      assert KidRefs(ids)[1..] == KidRefs(ids[1..]);
    }
  }

  lemma PagesPrinted(ids: seq<nat>)
    ensures PagesBody(ids) == Show(Dict(PagesDict(ids)))
  {
    KidsPrinted(ids);
    ShowThree("Type", Name("Pages"), "Kids", Array(KidRefs(ids)), "Count", Int(|ids|));
    PagesWords(Join(" ", KidTexts(ids)), Decimal(|ids|));
  }

  lemma PagesLiteral()
    ensures "<< /Type /Pages /Kids [" == "<< " + (("/Type " + "/Pages") + (" " + ("/Kids " + "[")))
    ensures "] /Count " == "]" + (" " + "/Count ")
  {
  }

  lemma PagesWords(k: string, c: string)
    ensures "<< /Type /Pages /Kids [" + (k + ("] /Count " + (c + " >>")))
         == "<< " + ((Field("Type", "/" + "Pages") + (" " + (Field("Kids", "[" + (k + "]")) + (" " + Field("Count", c))))) + " >>")
  {
    PagesLiteral();
    Keyed("Type", "/Pages");
    Keyed("Kids", "[" + (k + "]"));
    Keyed("Count", c);
    assert "/" + "Pages" == "/Pages";
    assert "/Type " == "/" + "Type" + " " && "/Kids " == "/" + "Kids" + " " && "/Count " == "/" + "Count" + " ";
    PagesAssoc("<< ", "/Type " + "/Pages", " ", "/Kids ", "[", k, "]", "/Count ", c, " >>");
  }

  lemma PagesAssoc(o: string, t: string, sp: string, kk: string, lb: string, k: string, rb: string, ck: string, c: string, e: string)
    ensures (o + (t + (sp + (kk + lb)))) + (k + ((rb + (sp + ck)) + (c + e)))
         == o + ((t + (sp + ((kk + (lb + (k + rb))) + (sp + (ck + c))))) + e)
  {
  }

  lemma ResourcesPrinted()
    ensures Resources(3, 4) == Show(Dict(ResourcesDict()))
  {
    var none: seq<(string, Obj)> := [];
    ShowTwo("F1", Ref(3), "F2", Ref(4));
    FlatCons("Font", Dict(FontMap()), none);
    assert [("Font", Dict(FontMap()))] == [("Font", Dict(FontMap()))] + none;
    var a, b := "/F1 " + (Decimal(3) + " 0 R"), "/F2 " + (Decimal(4) + " 0 R");
    assert [a, b][1..] == [b];
    assert Join(" ", [a, b]) == a + " " + b;
    ResourceWords(Decimal(3), Decimal(4));
  }

  lemma ResourceWords(a: string, b: string)
    ensures "<< /Font << " + ((("/F1 " + (a + " 0 R")) + " " + ("/F2 " + (b + " 0 R"))) + " >> >>")
         == "<< " + (Field("Font", "<< " + ((Field("F1", a + " 0 R") + (" " + Field("F2", b + " 0 R"))) + " >>")) + " >>")
  {
  }

  lemma MediaBoxPrinted()
    ensures Show(Array(MEDIA_BOX)) == "[0 0 595 842]"
  {
    var m := MEDIA_BOX;
    var m1, m2 := m[1..], m[2..];
    assert m1 == [Int(0), Int(595), Int(842)] && m2 == [Int(595), Int(842)];
    assert m1[1..] == m2 && m2[1..] == [Int(842)];
    SmallDecimals();
    assert ShowItems([Int(842)]) == "842";
    assert ShowItems(m2) == "595" + (" " + "842");
    assert ShowItems(m1) == "0" + (" " + ("595" + (" " + "842")));
    assert ShowItems(m) == "0" + (" " + ("0" + (" " + ("595" + (" " + "842")))));
    assert "[" + (("0" + (" " + ("0" + (" " + ("595" + (" " + "842")))))) + "]") == "[0 0 595 842]";
  }

  lemma SmallDecimals()
    ensures Decimal(0) == "0" && Decimal(595) == "595" && Decimal(842) == "842"
  {
  }

  lemma PageItems(contentId: nat)
    ensures ShowItems(PageDict(contentId))
         == Field("Type", Show(Name("Page"))) + (" " + (Field("Parent", Show(Ref(PAGES))) + (" " +
            (Field("MediaBox", Show(Array(MEDIA_BOX))) + (" " + (Field("Resources", Show(Dict(ResourcesDict()))) + (" " +
            Field("Contents", Show(Ref(contentId))))))))))
  {
    var none: seq<(string, Obj)> := [];
    var p1 := [("Contents", Ref(contentId))];
    var p2 := [("Resources", Dict(ResourcesDict()))] + p1;
    var p3 := [("MediaBox", Array(MEDIA_BOX))] + p2;
    var p4 := [("Parent", Ref(PAGES))] + p3;
    var p5 := [("Type", Name("Page"))] + p4;
    assert p1 == p1 + none;
    FlatCons("Contents", Ref(contentId), none);
    FlatCons("Resources", Dict(ResourcesDict()), p1);
    FlatCons("MediaBox", Array(MEDIA_BOX), p2);
    FlatCons("Parent", Ref(PAGES), p3);
    FlatCons("Type", Name("Page"), p4);
    assert PageDict(contentId) == Flat(p5) by { PagePairs(contentId); }
  }

  lemma PagePairs(contentId: nat)
    ensures [("Type", Name("Page")), ("Parent", Ref(PAGES)), ("MediaBox", Array(MEDIA_BOX)),
             ("Resources", Dict(ResourcesDict())), ("Contents", Ref(contentId))]
         == [("Type", Name("Page"))] + ([("Parent", Ref(PAGES))] + ([("MediaBox", Array(MEDIA_BOX))]
            + ([("Resources", Dict(ResourcesDict()))] + [("Contents", Ref(contentId))])))
  {
  }

  lemma PagePrinted(contentId: nat)
    ensures PageBody(PAGES, Resources(3, 4), contentId) == Show(Dict(PageDict(contentId)))
  {
    PageItems(contentId);
    MediaBoxPrinted();
    ResourcesPrinted();
    PageWords(Decimal(PAGES), Resources(3, 4), Decimal(contentId));
  }

  lemma PageLiterals()
    ensures "<< /Type /Page /Parent " == "<< " + (("/Type " + "/Page") + (" " + "/Parent "))
    ensures " 0 R /MediaBox [0 0 595 842] " == " 0 R" + (" " + (("/MediaBox " + "[0 0 595 842]") + " "))
    ensures " /Contents " == " " + "/Contents "
    ensures " 0 R >>" == " 0 R" + " >>"
  {
  }

  lemma PageWords(p: string, r: string, c: string)
    ensures "<< /Type /Page /Parent " + (p + (" 0 R /MediaBox [0 0 595 842] " + ("/Resources " + (r + (" /Contents " + (c + " 0 R >>"))))))
         == "<< " + ((Field("Type", "/" + "Page") + (" " + (Field("Parent", p + " 0 R") + (" " + (Field("MediaBox", "[0 0 595 842]")
            + (" " + (Field("Resources", r) + (" " + Field("Contents", c + " 0 R"))))))))) + " >>")
  {
    PageLiterals();
    PageKeys(p, r, c);
    PageAssoc("<< ", "/Type " + "/Page", " ", "/Parent ", p, " 0 R", "/MediaBox " + "[0 0 595 842]", "/Resources ", r,
              "/Contents ", c, " >>");
  }

  lemma PageKeys(p: string, r: string, c: string)
    ensures Field("Type", "/" + "Page") == "/Type " + "/Page"
    ensures Field("Parent", p + " 0 R") == "/Parent " + (p + " 0 R")
    ensures Field("MediaBox", "[0 0 595 842]") == "/MediaBox " + "[0 0 595 842]"
    ensures Field("Resources", r) == "/Resources " + r
    ensures Field("Contents", c + " 0 R") == "/Contents " + (c + " 0 R")
  {
  }

  lemma PageAssoc(o: string, t: string, sp: string, k1: string, p: string, q: string, m: string, k3: string, r: string,
                  k4: string, c: string, e: string)
    ensures (o + (t + (sp + k1))) + (p + ((q + (sp + (m + sp))) + (k3 + (r + ((sp + k4) + (c + (q + e)))))))
         == o + ((t + (sp + ((k1 + (p + q)) + (sp + (m + (sp + ((k3 + r) + (sp + (k4 + (c + q)))))))))) + e)
  {
  }

  lemma ContentPrinted(content: string)
    ensures ContentBody(content) == ShowIndirect(Stream(LengthDict(|content|), content))
  {
    var none: seq<(string, Obj)> := [];
    FlatCons("Length", Int(|content|), none);
    assert [("Length", Int(|content|))] == [("Length", Int(|content|))] + none;
    LengthWords(Decimal(|content|), content + "\nendstream");
  }

  lemma LengthWords(d: string, rest: string)
    ensures "<< /Length " + (d + (" >>\nstream\n" + rest))
         == ("<< " + (Field("Length", d) + " >>")) + ("\nstream\n" + rest)
  {
  }

  lemma PairPrinted(p: Page, n: nat, of: nat)
    requires n > 0
    ensures ShowAll(PairValues(p, n, of)) == PagePair(p, n, of, Resources(3, 4))
  {
    ContentPrinted(Content(p, n, of));
    PagePrinted(ContentId(n - 1));
  }

  lemma {:induction false} PagesOfValues(pages: seq<Page>, n: nat)
    requires n <= |pages|
    ensures ShowAll(PageValues(pages, n)) == PageBodies(pages, n, Resources(3, 4))
  {
    if n > 0 {
      PagesOfValues(pages, n - 1);
      PairPrinted(pages[n - 1], n, |pages|);
      ShowAllAppend(PageValues(pages, n - 1), PairValues(pages[n - 1], n, |pages|));
    }
  }

  lemma ShowAllAppend(a: seq<Indirect>, b: seq<Indirect>)
    ensures ShowAll(a + b) == ShowAll(a) + ShowAll(b)
  {
  }

  function FrontValues(n: nat): seq<Indirect> {
    [Plain(CatalogDict()), Plain(PagesDict(PageIds(n))), Plain(FontDict("Helvetica")), Plain(FontDict("Helvetica-Bold"))]
  }

  lemma ShowFour(a: seq<Obj>, b: seq<Obj>, c: seq<Obj>, d: seq<Obj>)
    ensures ShowAll([Plain(a), Plain(b), Plain(c), Plain(d)]) == [Show(Dict(a)), Show(Dict(b)), Show(Dict(c)), Show(Dict(d))]
  {
  }

  lemma FrontPrinted(n: nat)
    ensures ShowAll(FrontValues(n)) == [CatalogBody(PAGES), PagesBody(PageIds(n)), FontBody("Helvetica"), FontBody("Helvetica-Bold")]
  {
    ShowFour(CatalogDict(), PagesDict(PageIds(n)), FontDict("Helvetica"), FontDict("Helvetica-Bold"));
    CatalogPrinted();
    PagesPrinted(PageIds(n));
    FontPrinted("Helvetica");
    FontPrinted("Helvetica-Bold");
  }

  /** The bytes the source writes for its objects are these values, printed. */
  lemma BodiesPrintValues(pages: seq<Page>)
    ensures Bodies(pages) == ShowAll(Values(pages))
  {
    var n := |pages|;
    FrontPrinted(n);
    PagesOfValues(pages, n);
    ShowAllAppend(FrontValues(n), PageValues(pages, n));
  }
}
