/** The object graph of the file `build_pdf` writes: references, page tree, reachability. */
module PdfGraph {
  import opened Text
  import opened PdfSyntax
  import opened PdfFile
  import opened PdfPages
  import opened PdfReadBack
  import opened PdfTheorems

  function DocumentOf(pages: seq<Page>): Document { Document(CATALOG, Values(pages)) }

  // ---- the page tree

  /** A page of this tree, whose content stream says its own byte count. */
  predicate PageNode(doc: Document, pages: seq<Page>, k: nat, id: nat)
    requires k < |pages|
  {
    var dict := DictOf(doc, Ref(id), "Page");
    && dict.Some?
    && Get(dict.value, "Parent") == Some(Ref(PAGES))
    && Get(dict.value, "Contents").Some?
    && var stream := ObjectOf(doc, Get(dict.value, "Contents").value);
       && stream.Some? && stream.value.Stream?
       && stream.value.data == Content(pages[k], k + 1, |pages|)
       && Get(stream.value.dict, "Length") == Some(Int(|stream.value.data|))
  }

  /** The kids are the page objects in order, and /Count is right. */
  predicate PageTree(doc: Document, pages: seq<Page>, ids: seq<nat>) {
    var tree := DictOf(doc, Ref(PAGES), "Pages");
    && |ids| == |pages|
    && tree.Some?
    && Get(tree.value, "Kids") == Some(Array(KidRefs(ids)))
    && Get(tree.value, "Count") == Some(Int(|pages|))
    && forall k :: 0 <= k < |pages| ==> PageNode(doc, pages, k, ids[k])
  }

  lemma PageNodeOf(pages: seq<Page>, k: nat)
    requires k < |pages|
    ensures PageNode(DocumentOf(pages), pages, k, PageId(k))
  {
    ValuesAt(pages);
    assert ContentAt(pages, k);
    PageGets(ContentId(k));
    LengthFacts(|Content(pages[k], k + 1, |pages|)|);
  }

  /** After back-patching the page tree holds every page in order, for every page list. */
  lemma PageTreeOf(pages: seq<Page>)
    ensures PageTree(DocumentOf(pages), pages, PageIds(|pages|))
  {
    ValuesAt(pages);
    PagesGets(PageIds(|pages|));
    forall k | 0 <= k < |pages|
      ensures PageNode(DocumentOf(pages), pages, k, PageIds(|pages|)[k])
    {
      PageNodeOf(pages, k);
    }
  }

  // ---- references

  /** The object numbers object n refers to. */
  function RefsAt(doc: Document, n: nat): set<nat> {
    if 1 <= n <= |doc.objects| then RefsIn(doc.objects[n - 1].dict) else {}
  }

  /** The same, for a file of m pages. */
  function Links(m: nat, n: nat): set<nat> {
    if n == CATALOG then {PAGES}
    else if n == PAGES then set k | 0 <= k < m :: PageId(k)
    else if 5 <= n <= 4 + 2 * m && n % 2 == 0 then {PAGES, 3, 4, n - 1}
    else {}
  }

  lemma KidNumbers(m: nat)
    ensures (set k | 0 <= k < |PageIds(m)| :: PageIds(m)[k]) == set k | 0 <= k < m :: PageId(k)
  {
    var ids := PageIds(m);
    forall k | 0 <= k < m
      ensures PageId(k) in set j | 0 <= j < |ids| :: ids[j]
    {
      assert ids[k] == PageId(k);
    }
  }

  lemma FrontLinks(pages: seq<Page>, n: nat)
    requires n <= 4
    ensures RefsAt(DocumentOf(pages), n) == Links(|pages|, n)
  {
    ValuesAt(pages);
    FontNames();
    if n == 1 {
      CatalogLinks(DocumentOf(pages));
    } else if n == 2 {
      TreeLinks(DocumentOf(pages), |pages|);
    } else if n == 3 {
      FontLinks(DocumentOf(pages), n, "Helvetica");
    } else if n == 4 {
      FontLinks(DocumentOf(pages), n, "Helvetica-Bold");
    }
  }

  lemma CatalogLinks(doc: Document)
    requires doc.objects != [] && doc.objects[0] == Plain(CatalogDict())
    ensures RefsAt(doc, CATALOG) == {PAGES}
  {
    CatalogFacts();
  }

  lemma TreeLinks(doc: Document, m: nat)
    requires |doc.objects| >= 2 && doc.objects[1] == Plain(PagesDict(PageIds(m)))
    ensures RefsAt(doc, PAGES) == set k | 0 <= k < m :: PageId(k)
  {
    PagesFacts(PageIds(m));
    KidNumbers(m);
  }

  lemma FontLinks(doc: Document, n: nat, name: string)
    requires 1 <= n <= |doc.objects| && doc.objects[n - 1] == Plain(FontDict(name)) && RegularWord(name)
    ensures RefsAt(doc, n) == {}
  {
    FontFacts(name);
  }

  lemma PairLinks(pages: seq<Page>, k: nat)
    requires k < |pages|
    ensures RefsAt(DocumentOf(pages), ContentId(k)) == {}
    ensures RefsAt(DocumentOf(pages), PageId(k)) == {PAGES, 3, 4, ContentId(k)}
  {
    ValuesAt(pages);
    assert ContentAt(pages, k);
    PageRefs(ContentId(k));
    LengthFacts(|Content(pages[k], k + 1, |pages|)|);
  }

  ghost predicate LinksAre(doc: Document, m: nat) {
    && doc.root == CATALOG && |doc.objects| == 4 + 2 * m
    && forall n: nat :: RefsAt(doc, n) == Links(m, n)
  }

  lemma DocumentLinks(pages: seq<Page>)
    ensures LinksAre(DocumentOf(pages), |pages|)
  {
    var doc := DocumentOf(pages);
    ValuesAt(pages);
    forall n: nat
      ensures RefsAt(doc, n) == Links(|pages|, n)
    {
      if n <= 4 {
        FrontLinks(pages, n);
      } else if n <= 4 + 2 * |pages| {
        var k := (n - 5) / 2;
        PairLinks(pages, k);
        assert n == ContentId(k) || n == PageId(k);
      }
    }
  }

  /** Every `n 0 R` names an object of the file. */
  lemma RefsInRange(pages: seq<Page>, n: nat, r: nat)
    requires r in RefsAt(DocumentOf(pages), n)
    ensures 1 <= r <= |DocumentOf(pages).objects|
  {
    DocumentLinks(pages);
    assert r in Links(|pages|, n);
  }

  // ---- reachability

  /** Object numbers reached from /Root by following at most `steps` references. */
  ghost function ReachIn(doc: Document, steps: nat): set<nat> {
    if steps == 0 then {doc.root} else
      ReachIn(doc, steps - 1) + set n, r | n in ReachIn(doc, steps - 1) && r in RefsAt(doc, n) :: r
  }

  ghost predicate Reachable(doc: Document, n: nat) { exists steps: nat :: n in ReachIn(doc, steps) }

  lemma {:induction false} ReachEmpty(doc: Document, steps: nat)
    requires LinksAre(doc, 0)
    ensures ReachIn(doc, steps) <= {CATALOG, PAGES}
  {
    if steps > 0 { ReachEmpty(doc, steps - 1); }
  }

  lemma ReachStep(doc: Document, steps: nat, n: nat, r: nat)
    requires n in ReachIn(doc, steps) && r in RefsAt(doc, n)
    ensures r in ReachIn(doc, steps + 1)
  {
  }

  lemma PageReached(doc: Document, m: nat, k: nat)
    requires LinksAre(doc, m) && k < m
    ensures PAGES in ReachIn(doc, 1) && PageId(k) in ReachIn(doc, 2)
    ensures forall r :: r in {3, 4, ContentId(k)} ==> r in ReachIn(doc, 3)
  {
    ReachStep(doc, 0, CATALOG, PAGES);
    assert PageId(k) in Links(m, PAGES);
    ReachStep(doc, 1, PAGES, PageId(k));
    forall r | r in {3, 4, ContentId(k)}
      ensures r in ReachIn(doc, 3)
    {
      assert r in Links(m, PageId(k));
      ReachStep(doc, 2, PageId(k), r);
    }
  }

  lemma ObjectReached(doc: Document, m: nat, n: nat)
    requires LinksAre(doc, m) && m > 0 && 1 <= n <= 4 + 2 * m
    ensures Reachable(doc, n)
  {
    assert CATALOG in ReachIn(doc, 0);
    if n >= 5 {
      var k := (n - 5) / 2;
      PageReached(doc, m, k);
      if n % 2 == 0 {
        assert n == PageId(k) && n in ReachIn(doc, 2);
      } else {
        assert n == ContentId(k) && n in ReachIn(doc, 3);
      }
    } else {
      PageReached(doc, m, 0);
      assert n in ReachIn(doc, if n == 1 then 0 else if n == 2 then 1 else 3);
    }
  }

  /** Every object is reachable from /Root exactly when there is a page: the two fonts of a
      file without pages hang loose. */
  lemma AllReachable(pages: seq<Page>)
    ensures (forall n :: 1 <= n <= |DocumentOf(pages).objects| ==> Reachable(DocumentOf(pages), n)) <==> pages != []
  {
    var doc := DocumentOf(pages);
    DocumentLinks(pages);
    if pages == [] {
      forall steps: nat
        ensures 3 !in ReachIn(doc, steps)
      {
        ReachEmpty(doc, steps);
      }
      assert !Reachable(doc, 3);
    } else {
      forall n | 1 <= n <= |doc.objects|
        ensures Reachable(doc, n)
      {
        ObjectReached(doc, |pages|, n);
      }
    }
  }
}
