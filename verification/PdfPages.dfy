/** deploy/demo_additions/handling.py, `build_pdf`: pages of text in, a PDF 1.4 file out. */
module PdfPages {
  import opened Text
  import opened PdfSyntax
  import opened PdfFile

  datatype Page = Page(title: string, lines: seq<string>)
  datatype Error = UnicodeEncodeError

  const CATALOG: nat := 1
  const PAGES: nat := 2

  // ---- the object table, as the source writes it

  function LineText(line: string): string { "(" + (PdfText(line) + ") Tj T*") }

  function LineTexts(lines: seq<string>): seq<string> {
    seq(|lines|, k requires 0 <= k < |lines| => LineText(lines[k]))
  }

  function TitleText(title: string): string { "BT /F2 16 Tf 56 780 Td (" + (PdfText(title) + ") Tj ET") }

  function FooterText(number: nat, total: nat): string {
    "BT /F1 9 Tf 56 40 Td (" + (Footer(number, total) + ") Tj ET")
  }

  function Footer(number: nat, total: nat): string {
    "Page " + (Decimal(number) + (" of " + Decimal(total)))
  }

  const BODY_START: string := "BT /F1 11 Tf 15 TL 56 748 Td"

  function HeadParts(title: string): seq<string> { [TitleText(title), BODY_START] }

  function TailParts(number: nat, total: nat): seq<string> { ["ET", FooterText(number, total)] }

  function ContentParts(page: Page, number: nat, total: nat): seq<string> {
    HeadParts(page.title) + LineTexts(page.lines) + TailParts(number, total)
  }

  function Content(page: Page, number: nat, total: nat): string { Join("\n", ContentParts(page, number, total)) }

  function FontBody(name: string): string { "<< /Type /Font /Subtype /Type1 /BaseFont /" + (name + " >>") }

  function Resources(f1: nat, f2: nat): string {
    "<< /Font << " + (Join(" ", ["/F1 " + (Decimal(f1) + " 0 R"), "/F2 " + (Decimal(f2) + " 0 R")]) + " >> >>")
  }

  function ContentBody(content: string): string {
    "<< /Length " + (Decimal(|content|) + (" >>\nstream\n" + (content + "\nendstream")))
  }

  function PageBody(parent: nat, resources: string, contentId: nat): string {
    "<< /Type /Page /Parent " + (Decimal(parent) + (" 0 R /MediaBox [0 0 595 842] " +
    ("/Resources " + (resources + (" /Contents " + (Decimal(contentId) + " 0 R >>"))))))
  }

  function CatalogBody(pages: nat): string { "<< /Type /Catalog /Pages " + (Decimal(pages) + " 0 R >>") }

  function KidTexts(ids: seq<nat>): seq<string> {
    seq(|ids|, k requires 0 <= k < |ids| => Decimal(ids[k]) + " 0 R")
  }

  function PagesBody(ids: seq<nat>): string {
    "<< /Type /Pages /Kids [" + (Join(" ", KidTexts(ids)) + ("] /Count " + (Decimal(|ids|) + " >>")))
  }

  function ContentId(k: nat): nat { 5 + 2 * k }

  function PageId(k: nat): nat { 6 + 2 * k }

  function PageIds(n: nat): seq<nat> { seq(n, k requires 0 <= k < n => PageId(k)) }

  lemma PageIdsSnoc(n: nat)
    ensures PageIds(n + 1) == PageIds(n) + [PageId(n)]
  {
  }

  /** The content stream and the page object of one page. */
  function PagePair(page: Page, number: nat, total: nat, resources: string): (bodies: seq<string>)
    requires number >= 1
    ensures |bodies| == 2
  {
    [ContentBody(Content(page, number, total)), PageBody(PAGES, resources, ContentId(number - 1))]
  }

  /** The pairs of the first n pages, in order. */
  function PageBodies(pages: seq<Page>, n: nat, resources: string): (bodies: seq<string>)
    requires n <= |pages|
    ensures |bodies| == 2 * n
  {
    if n == 0 then [] else PageBodies(pages, n - 1, resources) + PagePair(pages[n - 1], n, |pages|, resources)
  }

  function Bodies(pages: seq<Page>): seq<string> {
    [CatalogBody(PAGES), PagesBody(PageIds(|pages|)), FontBody("Helvetica"), FontBody("Helvetica-Bold")] +
    PageBodies(pages, |pages|, Resources(3, 4))
  }

  // ---- Latin-1

  predicate Latin1(s: string) { forall k :: 0 <= k < |s| ==> s[k] as int < 256 }

  predicate Latin1All(parts: seq<string>) { forall k :: 0 <= k < |parts| ==> Latin1(parts[k]) }

  predicate Latin1Page(page: Page) { Latin1(page.title) && Latin1All(page.lines) }

  /** The first n pages hold Latin-1 text only. */
  predicate Latin1Pages(pages: seq<Page>, n: nat)
    requires n <= |pages|
  {
    n == 0 || (Latin1Pages(pages, n - 1) && Latin1Page(pages[n - 1]))
  }

  lemma {:induction false} Latin1PagesAt(pages: seq<Page>, n: nat, k: nat)
    requires k < n <= |pages| && Latin1Pages(pages, n)
    ensures Latin1Page(pages[k])
  {
    if k < n - 1 { Latin1PagesAt(pages, n - 1, k); }
  }

  lemma {:induction false} Latin1PagesFrom(pages: seq<Page>, n: nat)
    requires n <= |pages| && forall k :: 0 <= k < n ==> Latin1Page(pages[k])
    ensures Latin1Pages(pages, n)
  {
    if n > 0 { Latin1PagesFrom(pages, n - 1); }
  }

  /** A character above U+00FF in the title or in a line. */
  predicate WidePage(page: Page) {
    || (exists i :: 0 <= i < |page.title| && page.title[i] as int > 255)
    || (exists j, i :: 0 <= j < |page.lines| && 0 <= i < |page.lines[j]| && page.lines[j][i] as int > 255)
  }

  lemma WideExactly(page: Page)
    ensures Latin1Page(page) <==> !WidePage(page)
  {
    if !Latin1All(page.lines) {
      var j :| 0 <= j < |page.lines| && !Latin1(page.lines[j]);
      var i :| 0 <= i < |page.lines[j]| && page.lines[j][i] as int >= 256;
    }
    if Latin1Page(page) {
      forall j, i | 0 <= j < |page.lines| && 0 <= i < |page.lines[j]|
        ensures page.lines[j][i] as int < 256
      {
        assert Latin1(page.lines[j]);
      }
    }
  }

  lemma RefusedExactly(pages: seq<Page>)
    ensures Latin1Pages(pages, |pages|) <==> forall k :: 0 <= k < |pages| ==> !WidePage(pages[k])
  {
    forall k | 0 <= k < |pages|
      ensures Latin1Page(pages[k]) <==> !WidePage(pages[k])
    {
      WideExactly(pages[k]);
    }
    if Latin1Pages(pages, |pages|) {
      forall k | 0 <= k < |pages|
        ensures Latin1Page(pages[k])
      {
        Latin1PagesAt(pages, |pages|, k);
      }
    } else if forall k :: 0 <= k < |pages| ==> Latin1Page(pages[k]) {
      Latin1PagesFrom(pages, |pages|);
    }
  }

  lemma NotLatin1(pages: seq<Page>, k: nat)
    requires k < |pages| && !Latin1Page(pages[k])
    ensures !Latin1Pages(pages, |pages|)
  {
    if Latin1Pages(pages, |pages|) {
      Latin1PagesAt(pages, |pages|, k);
    }
  }

  lemma Latin1AllAppend(a: seq<string>, b: seq<string>)
    ensures Latin1All(a + b) <==> Latin1All(a) && Latin1All(b)
  {
    assert forall k :: 0 <= k < |a| ==> (a + b)[k] == a[k];
    assert forall k :: 0 <= k < |b| ==> (a + b)[|a| + k] == b[k];
  }

  lemma Latin1Append(a: string, b: string)
    ensures Latin1(a + b) <==> Latin1(a) && Latin1(b)
  {
    assert forall k :: 0 <= k < |a| ==> (a + b)[k] == a[k];
    assert forall k :: 0 <= k < |b| ==> (a + b)[|a| + k] == b[k];
  }

  lemma {:induction false} Latin1Escape(s: string)
    ensures Latin1(Escape(s)) <==> Latin1(s)
  {
    if s != "" {
      Latin1Escape(s[1..]);
      Latin1Append(EscapeChar(s[0]), Escape(s[1..]));
      assert s == [s[0]] + s[1..];
      Latin1Append([s[0]], s[1..]);
      assert Latin1(EscapeChar(s[0])) <==> Latin1([s[0]]) by {
        assert EscapeChar(s[0])[|EscapeChar(s[0])| - 1] == s[0] == [s[0]][0];
      }
    }
  }

  lemma Latin1Wrapped(front: string, s: string, end: string)
    requires Latin1(front) && Latin1(end)
    ensures Latin1(front + (PdfText(s) + end)) <==> Latin1(s)
  {
    PdfTextIsEscape(s);
    Latin1Escape(s);
    Latin1Append(PdfText(s), end);
    Latin1Append(front, PdfText(s) + end);
  }

  lemma {:induction false} Latin1Join(parts: seq<string>)
    ensures Latin1(Join("\n", parts)) <==> Latin1All(parts)
  {
    if |parts| > 1 {
      Latin1Join(parts[1..]);
      Latin1Append(parts[0] + "\n", Join("\n", parts[1..]));
      Latin1Append(parts[0], "\n");
      assert forall k :: 1 <= k < |parts| ==> parts[k] == parts[1..][k - 1];
    }
  }

  lemma Latin1Digits(n: nat)
    ensures Latin1(Decimal(n))
  {
  }

  lemma Latin1Footer(number: nat, total: nat)
    ensures Latin1(FooterText(number, total))
  {
    Latin1Digits(number);
    Latin1Digits(total);
    Latin1Append(" of ", Decimal(total));
    Latin1Append(Decimal(number), " of " + Decimal(total));
    Latin1Append("Page ", Decimal(number) + (" of " + Decimal(total)));
    Latin1Append(Footer(number, total), ") Tj ET");
    Latin1Append("BT /F1 9 Tf 56 40 Td (", Footer(number, total) + ") Tj ET");
  }

  /** Encoding a content stream fails exactly when the page's own text is not Latin-1. */
  lemma Latin1Content(page: Page, number: nat, total: nat)
    ensures Latin1(Content(page, number, total)) <==> Latin1Page(page)
  {
    Latin1Join(ContentParts(page, number, total));
    Latin1AllAppend(HeadParts(page.title) + LineTexts(page.lines), TailParts(number, total));
    Latin1AllAppend(HeadParts(page.title), LineTexts(page.lines));
    Latin1Ends(page.title, number, total);
    Latin1Lines(page.lines);
  }

  lemma Latin1Ends(title: string, number: nat, total: nat)
    ensures Latin1All(HeadParts(title)) <==> Latin1(title)
    ensures Latin1All(TailParts(number, total))
  {
    Latin1Footer(number, total);
    Latin1Title(title);
    assert HeadParts(title)[0] == TitleText(title);
  }

  lemma Latin1Title(title: string)
    ensures Latin1(TitleText(title)) <==> Latin1(title)
    ensures Latin1(BODY_START)
  {
    Latin1Wrapped("BT /F2 16 Tf 56 780 Td (", title, ") Tj ET");
  }

  lemma Latin1Lines(lines: seq<string>)
    ensures Latin1All(LineTexts(lines)) <==> Latin1All(lines)
  {
    forall k | 0 <= k < |lines|
      ensures Latin1(LineTexts(lines)[k]) <==> Latin1(lines[k])
    {
      Latin1Wrapped("(", lines[k], ") Tj T*");
    }
  }

  // ---- the writer

  /** The content stream of one page, collected line by line. */
  method BuildContent(page: Page, number: nat, total: nat) returns (content: string)
    ensures content == Content(page, number, total)
  {
    var stream := [TitleText(page.title), BODY_START];
    var head := stream;
    for j := 0 to |page.lines|
      invariant stream == head + LineTexts(page.lines[..j])
    {
      stream := stream + [LineText(page.lines[j])];
      assert LineTexts(page.lines[..j + 1]) == LineTexts(page.lines[..j]) + [LineText(page.lines[j])];
    }
    assert page.lines[..|page.lines|] == page.lines;
    stream := stream + ["ET"];
    stream := stream + [FooterText(number, total)];
    content := Join("\n", stream);
    assert stream == ContentParts(page, number, total);
  }

  /** The content stream and the page object of one page, appended to the table. */
  method AddPage(objects: seq<string>, page: Page, number: nat, total: nat, pagesObj: nat, resources: string)
    returns (r: Result<seq<string>, Error>)
    requires number >= 1 && pagesObj == PAGES && |objects| + 1 == ContentId(number - 1)
    ensures r.Success? <==> Latin1Page(page)
    ensures r.Success? ==> r.value == objects + PagePair(page, number, total, resources)
  {
    var content := BuildContent(page, number, total);
    Latin1Content(page, number, total);
    if exists k :: 0 <= k < |content| && content[k] as int >= 256 {
      return Failure(UnicodeEncodeError);
    }
    var added := objects + [ContentBody(content)];
    var contentId := |added|;
    added := added + [PageBody(pagesObj, resources, contentId)];
    assert added == objects + PagePair(page, number, total, resources);
    r := Success(added);
  }

  /** Every page in turn, with the numbers of the page objects. */
  method AddPages(front: seq<string>, pages: seq<Page>, pagesObj: nat, resources: string)
    returns (ok: bool, objects: seq<string>, pageIds: seq<nat>)
    requires |front| == 4 && pagesObj == PAGES
    ensures ok <==> Latin1Pages(pages, |pages|)
    ensures ok ==> objects == front + PageBodies(pages, |pages|, resources) && pageIds == PageIds(|pages|)
  {
    objects, pageIds, ok := front, [], true;
    for i := 0 to |pages|
      invariant ok && |objects| == 4 + 2 * i && Latin1Pages(pages, i)
      invariant objects == front + PageBodies(pages, i, resources)
      invariant pageIds == PageIds(i)
    {
      var one := AddPage(objects, pages[i], i + 1, |pages|, pagesObj, resources);
      if one.Failure? {
        NotLatin1(pages, i);
        ok := false;
        return;
      }
      ghost var before := PageBodies(pages, i, resources);
      objects := one.value;
      pageIds := pageIds + [|objects|];
      PageIdsSnoc(i);
      Assoc(front, before, PagePair(pages[i], i + 1, |pages|, resources));
    }
  }

  /** The object table: two entries are added empty and back-patched once the page objects
      have their numbers. */
  method AssembleObjects(pages: seq<Page>) returns (r: Result<(seq<string>, nat), Error>)
    ensures r == if Latin1Pages(pages, |pages|)
                 then Success((Bodies(pages), CATALOG)) else Failure(UnicodeEncodeError)
  {
    var objects: seq<string> := [""];
    var catalog := |objects|;
    objects := objects + [""];
    var pagesObj := |objects|;
    objects := objects + [FontBody("Helvetica")];
    var f1 := |objects|;
    objects := objects + [FontBody("Helvetica-Bold")];
    var f2 := |objects|;
    var ok, pageIds;
    ok, objects, pageIds := AddPages(objects, pages, pagesObj, Resources(f1, f2));
    if !ok {
      return Failure(UnicodeEncodeError);
    }
    objects := objects[catalog - 1 := CatalogBody(pagesObj)];
    objects := objects[pagesObj - 1 := PagesBody(pageIds)];
    assert objects == Bodies(pages);
    r := Success((objects, catalog));
  }

  /** The bytes of the objects, with the offset of each counted as it is written. */
  method EmitObjects(objects: seq<string>) returns (out: string, offsets: seq<nat>)
    ensures out == EmitTo(objects, |objects|) && offsets == Offsets(objects)
  {
    out, offsets := HEADER, [];
    for i := 0 to |objects|
      invariant out == EmitTo(objects, i) && offsets == Offsets(objects)[..i]
    {
      OffsetsSnoc(objects, i);
      offsets := offsets + [|out|];
      out := out + Wrap(i + 1, objects[i]);
    }
    OffsetsAll(objects);
  }

  lemma OffsetsSnoc(objects: seq<string>, i: nat)
    requires i < |objects|
    ensures Offsets(objects)[..i + 1] == Offsets(objects)[..i] + [|EmitTo(objects, i)|]
    ensures EmitTo(objects, i + 1) == EmitTo(objects, i) + Wrap(i + 1, objects[i])
  {
  }

  lemma OffsetsAll(objects: seq<string>)
    ensures Offsets(objects)[..|objects|] == Offsets(objects)
  {
  }

  method EmitXref(offsets: seq<nat>) returns (out: string)
    ensures out == "xref\n0 " + (Decimal(|offsets| + 1) + ("\n" + (FREE_ENTRY + XrefEntries(offsets))))
  {
    var d := Decimal(|offsets| + 1);
    var entries := "";
    for i := 0 to |offsets|
      invariant entries == XrefEntries(offsets[..i])
    {
      entries := entries + XrefEntry(offsets[i]);
      XrefEntriesSnoc(offsets[..i], offsets[i]);
      assert offsets[..i + 1] == offsets[..i] + [offsets[i]];
    }
    assert offsets[..|offsets|] == offsets;
    out := "xref\n0 " + (d + ("\n" + (FREE_ENTRY + entries)));
  }

  /** `build_pdf`: the whole file, or the error of the first text that is not Latin-1. */
  method BuildPdf(pages: seq<Page>) returns (r: Result<string, Error>)
    ensures r == if Latin1Pages(pages, |pages|)
                 then Success(FileOf(Bodies(pages), CATALOG)) else Failure(UnicodeEncodeError)
    ensures r.Success? <==> forall k :: 0 <= k < |pages| ==> !WidePage(pages[k])
  {
    RefusedExactly(pages);
    var assembled := AssembleObjects(pages);
    if assembled.Failure? {
      return Failure(assembled.error);
    }
    var (objects, catalog) := assembled.value;
    var out, offsets := EmitObjects(objects);
    var xref := |out|;
    var table := EmitXref(offsets);
    var trailer := "trailer\n<< /Size " + (Decimal(|objects| + 1) + (" /Root " + (Decimal(catalog) +
                   (" 0 R >>\nstartxref\n" + (Decimal(xref) + "\n%%EOF\n")))));
    TrailerLiteral(|objects| + 1, catalog, xref);
    r := Success(out + (table + trailer));
  }

  lemma {:induction false} XrefEntriesSnoc(offsets: seq<nat>, o: nat)
    ensures XrefEntries(offsets + [o]) == XrefEntries(offsets) + XrefEntry(o)
  {
    if offsets == [] {
      assert offsets + [o] == [o] && [o][1..] == [];
    } else {
      assert (offsets + [o])[1..] == offsets[1..] + [o];
      XrefEntriesSnoc(offsets[1..], o);
    }
  }

  /** The trailer literal of the source is the printed trailer dictionary. */
  lemma TrailerLiteral(size: nat, root: nat, xref: nat)
    ensures "trailer\n<< /Size " + (Decimal(size) + (" /Root " + (Decimal(root) +
            (" 0 R >>\nstartxref\n" + (Decimal(xref) + "\n%%EOF\n"))))) == TrailerText(size, root, xref)
  {
    var last: seq<(string, Obj)> := [];
    FlatCons("Root", Ref(root), last);
    FlatCons("Size", Int(size), [("Root", Ref(root))]);
    assert [("Root", Ref(root))] == [("Root", Ref(root))] + last;
    assert [("Size", Int(size)), ("Root", Ref(root))] == [("Size", Int(size))] + [("Root", Ref(root))];
    TrailerWords(Decimal(size), Decimal(root), Decimal(xref));
  }

  lemma TrailerLiterals()
    ensures "trailer\n<< /Size " == "trailer\n" + ("<< " + "/Size ")
    ensures " 0 R >>\nstartxref\n" == " 0 R" + (" >>" + "\nstartxref\n")
    ensures " /Root " == " " + "/Root "
    ensures "/Size " == "/" + "Size" + " " && "/Root " == "/" + "Root" + " "
  {
  }

  lemma TrailerWords(s: string, r: string, x: string)
    ensures "trailer\n<< /Size " + (s + (" /Root " + (r + (" 0 R >>\nstartxref\n" + (x + "\n%%EOF\n")))))
         == "trailer\n" + (("<< " + ((Field("Size", s) + (" " + Field("Root", r + " 0 R"))) + " >>"))
            + ("\nstartxref\n" + (x + "\n%%EOF\n")))
  {
    TrailerLiterals();
    assert Field("Size", s) == "/Size " + s && Field("Root", r + " 0 R") == "/Root " + (r + " 0 R");
    TrailerAssoc("trailer\n", "<< ", "/Size ", s, " ", "/Root ", r, " 0 R", " >>", "\nstartxref\n", x + "\n%%EOF\n");
  }

  lemma TrailerAssoc(t: string, o: string, k: string, s: string, sp: string, kr: string, r: string, q: string, c: string,
                     u: string, e: string)
    ensures (t + (o + k)) + (s + ((sp + kr) + (r + ((q + (c + u)) + e))))
         == t + ((o + (((k + s) + (sp + (kr + (r + q)))) + c)) + (u + e))
  {
  }
}
