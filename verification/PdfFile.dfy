/** The file structure of ISO 32000-1: the bytes the writer emits around its object table,
    and a reader that follows sections 7.5.4 (cross-reference table) and 7.5.5 (trailer). */
module PdfFile {
  import opened Text
  import opened PdfSyntax

  /** An indirect object is a dictionary, with or without a stream after it. */
  datatype Indirect = Plain(dict: seq<Obj>) | Stream(dict: seq<Obj>, data: string)

  /** Object number n is objects[n - 1]. */
  datatype Document = Document(root: nat, objects: seq<Indirect>)

  // ---- writing

  const HEADER: string := "%PDF-1.4\n%\U{E2}\U{E3}\U{CF}\U{D3}\n"
  const FREE_ENTRY: string := "0000000000 65535 f \n"

  function Wrap(number: nat, body: string): string {
    Decimal(number) + (" 0 obj\n" + (body + "\nendobj\n"))
  }

  /** The bytes written once the first k objects are out. */
  function EmitTo(bodies: seq<string>, k: nat): string
    requires k <= |bodies|
  {
    if k == 0 then HEADER else EmitTo(bodies, k - 1) + Wrap(k, bodies[k - 1])
  }

  /** The bytes of the objects after the first k. */
  function EmitFrom(bodies: seq<string>, k: nat): string
    requires k <= |bodies|
    decreases |bodies| - k
  {
    if k == |bodies| then "" else Wrap(k + 1, bodies[k]) + EmitFrom(bodies, k + 1)
  }

  function Offsets(bodies: seq<string>): seq<nat> {
    seq(|bodies|, k requires 0 <= k < |bodies| => |EmitTo(bodies, k)|)
  }

  function XrefEntry(offset: nat): string { Padded(offset, 10) + " 00000 n \n" }

  function XrefEntries(offsets: seq<nat>): string {
    if offsets == [] then "" else XrefEntry(offsets[0]) + XrefEntries(offsets[1..])
  }

  function TrailerDict(size: nat, root: nat): seq<Obj> {
    Flat([("Size", Int(size)), ("Root", Ref(root))])
  }

  function TrailerText(size: nat, root: nat, xref: nat): string {
    "trailer\n" + (Show(Dict(TrailerDict(size, root))) + ("\nstartxref\n" + (Decimal(xref) + "\n%%EOF\n")))
  }

  function XrefText(bodies: seq<string>): string {
    "xref\n0 " + (Decimal(|bodies| + 1) + ("\n" + (FREE_ENTRY + XrefEntries(Offsets(bodies)))))
  }

  function FileOf(bodies: seq<string>, root: nat): string {
    var objects := EmitTo(bodies, |bodies|);
    objects + (XrefText(bodies) + TrailerText(|bodies| + 1, root, |objects|))
  }

  function ShowIndirect(o: Indirect): string {
    match o
    case Plain(dict) => Show(Dict(dict))
    case Stream(dict, data) => Show(Dict(dict)) + ("\nstream\n" + (data + "\nendstream"))
  }

  function ShowAll(objects: seq<Indirect>): (bodies: seq<string>)
    ensures |bodies| == |objects| && forall k :: 0 <= k < |bodies| ==> bodies[k] == ShowIndirect(objects[k])
  {
    seq(|objects|, k requires 0 <= k < |objects| => ShowIndirect(objects[k]))
  }

  /** Objects that can be read back: printable, and a stream says how long it is. */
  predicate Sound(o: Indirect) {
    && Printable(Dict(o.dict))
    && (o.Stream? ==> Get(o.dict, "Length") == Some(Int(|o.data|)))
  }

  /** Every offset fits the ten digits of a cross-reference entry. */
  predicate OffsetsFit(bodies: seq<string>) { Fits(Offsets(bodies)) }

  // ---- reading

  datatype Entry = Entry(offset: nat, inUse: bool)

  /** Section 7.5.4: ten digits, space, the generation (that of a first object, or of the head
      of the free list), space, `n` or `f`, two-byte end of line. */
  function ReadEntry(e: string): Option<Entry>
    requires |e| == 20
  {
    if AllDigits(e[..10]) && e[10] == ' ' && e[11..16] == (if e[17] == 'n' then "00000" else "65535") && e[16] == ' '
       && (e[17] == 'n' || e[17] == 'f') && (e[18..] == " \n" || e[18..] == " \r" || e[18..] == "\r\n")
    then Some(Entry(Value(e[..10]), e[17] == 'n'))
    else None
  }

  function ReadEntries(s: string, n: nat): Option<(seq<Entry>, string)> {
    if n == 0 then Some(([], s))
    else if |s| < 20 then None
    else
      var e :- ReadEntry(s[..20]);
      var (es, rest) :- ReadEntries(s[20..], n - 1);
      Some(([e] + es, rest))
  }

  /** One section with one subsection that starts at object 0. */
  function ReadXref(s: string): Option<(seq<Entry>, string)> {
    var r1 :- Expect(s, "xref\n0 ");
    var (n, r2) :- ReadNumber(r1);
    var r3 :- Expect(r2, "\n");
    ReadEntries(r3, n)
  }

  /** How many digits the string ends with. */
  function DigitTail(s: string): (k: nat)
    ensures k <= |s| && AllDigits(s[|s| - k..])
  {
    if s == "" || !IsDigit(s[|s| - 1]) then 0 else
      var k := DigitTail(s[..|s| - 1]);
      assert s[|s| - (k + 1)..] == s[..|s| - 1][|s| - 1 - k..] + [s[|s| - 1]];
      k + 1
  }

  predicate EndsWith(s: string, end: string) { |end| <= |s| && s[|s| - |end|..] == end }

  /** Section 7.5.5: the last lines are `startxref`, the byte offset, and `%%EOF`. */
  function FindXref(file: string): Option<nat> {
    if !EndsWith(file, "\n%%EOF\n") then None
    else
      var s := file[..|file| - 7];
      var k := DigitTail(s);
      if k > 0 && EndsWith(s[..|s| - k], "startxref\n") then Some(Value(s[|s| - k..])) else None
  }

  function ReadIndirect(s: string, number: nat): Option<Indirect> {
    var (n, r1) :- ReadNumber(s);
    var r2 :- Expect(r1, " 0 obj\n");
    var (dict, r3) :- ReadDict(r2);
    if n != number then None else
    match Expect(r3, "\nstream\n")
    case None =>
      var _ :- Expect(r3, "\nendobj\n");
      Some(Plain(dict))
    case Some(r4) =>
      match Get(dict, "Length")
      case Some(Int(length)) =>
        if length > |r4| then None else
          var _ :- Expect(r4[length..], "\nendstream\nendobj\n");
          Some(Stream(dict, r4[..length]))
      case _ => None
  }

  function Fetch(file: string, e: Entry, number: nat): Option<Indirect> {
    if !e.inUse || e.offset > |file| then None else ReadIndirect(file[e.offset..], number)
  }

  function Fetches(file: string, entries: seq<Entry>): (r: seq<Option<Indirect>>)
    requires entries != []
    ensures |r| == |entries| - 1
    ensures forall k :: 0 <= k < |r| ==> r[k] == Fetch(file, entries[k + 1], k + 1)
  {
    seq(|entries| - 1, k requires 0 <= k < |entries| - 1 => Fetch(file, entries[k + 1], k + 1))
  }

  /** Every object through its entry; entry 0 is the head of the free list. */
  function ReadObjects(file: string, entries: seq<Entry>): Option<seq<Indirect>>
    requires entries != []
  {
    AllSome(Fetches(file, entries))
  }

  /** The trailer's size and root. */
  function ReadTrailer(s: string): Option<(nat, nat)> {
    var r :- Expect(s, "trailer\n");
    var (dict, _) :- ReadDict(r);
    match (Get(dict, "Size"), Get(dict, "Root"))
    case (Some(Int(size)), Some(Ref(root))) => Some((size, root))
    case _ => None
  }

  function ReadDocument(file: string): Option<Document> {
    var x :- FindXref(file);
    if x > |file| then None else
      var (entries, rest) :- ReadXref(file[x..]);
      var (size, root) :- ReadTrailer(rest);
      if entries == [] || entries[0].inUse || size != |entries| then None else
        var objects :- ReadObjects(file, entries);
        Some(Document(root, objects))
  }

  // ---- one object

  /** The number, the keyword and the dictionary of an object. */
  lemma ReadHeadOf(number: nat, dict: seq<Obj>, after: string)
    requires Printable(Dict(dict))
    ensures var r2 := Show(Dict(dict)) + after;
            && ReadNumber(Decimal(number) + (" 0 obj\n" + r2)) == Some((number, " 0 obj\n" + r2))
            && Expect(" 0 obj\n" + r2, " 0 obj\n") == Some(r2)
            && ReadDict(r2) == Some((dict, after))
  {
    var r2 := Show(Dict(dict)) + after;
    assert (" 0 obj\n" + r2)[0] == ' ';
    ReadNumberOf(number, " 0 obj\n" + r2);
    ExpectOf(" 0 obj\n", r2);
    ReadShownDict(dict, after);
  }

  lemma ReadPlainOf(number: nat, dict: seq<Obj>, rest: string)
    requires Printable(Dict(dict))
    ensures ReadIndirect(Wrap(number, Show(Dict(dict))) + rest, number) == Some(Plain(dict))
  {
    var after := "\nendobj\n" + rest;
    ReadHeadOf(number, dict, after);
    assert Wrap(number, Show(Dict(dict))) + rest == Decimal(number) + (" 0 obj\n" + (Show(Dict(dict)) + after));
    ExpectOf("\nendobj\n", rest);
    assert after[1] == 'e' && "\nstream\n"[1] == 's';
  }

  lemma WrapStream(number: nat, shown: string, data: string, rest: string)
    ensures Wrap(number, shown + ("\nstream\n" + (data + "\nendstream"))) + rest
         == Decimal(number) + (" 0 obj\n" + (shown + ("\nstream\n" + (data + ("\nendstream\nendobj\n" + rest)))))
  {
  }

  lemma ReadIndirectStep(s: string, number: nat, r1: string, r2: string, dict: seq<Obj>, r4: string, data: string, rest: string)
    requires ReadNumber(s) == Some((number, r1)) && Expect(r1, " 0 obj\n") == Some(r2)
    requires ReadDict(r2) == Some((dict, "\nstream\n" + r4))
    requires Expect("\nstream\n" + r4, "\nstream\n") == Some(r4) && Get(dict, "Length") == Some(Int(|data|))
    requires |data| <= |r4| && r4[..|data|] == data && Expect(r4[|data|..], "\nendstream\nendobj\n") == Some(rest)
    ensures ReadIndirect(s, number) == Some(Stream(dict, data))
  {
  }

  lemma ReadIndirectOf(number: nat, o: Indirect, rest: string)
    requires Sound(o)
    ensures ReadIndirect(Wrap(number, ShowIndirect(o)) + rest, number) == Some(o)
  {
    match o
    case Plain(dict) => ReadPlainOf(number, dict, rest);
    case Stream(dict, data) =>
      var shown := Show(Dict(dict));
      var r4 := data + ("\nendstream\nendobj\n" + rest);
      var r2 := shown + ("\nstream\n" + r4);
      ReadHeadOf(number, dict, "\nstream\n" + r4);
      ReadStreamOf(data, rest);
      WrapStream(number, shown, data, rest);
      ReadIndirectStep(Decimal(number) + (" 0 obj\n" + r2), number, " 0 obj\n" + r2, r2, dict, r4, data, rest);
  }

  lemma ReadStreamOf(data: string, rest: string)
    ensures var r4 := data + ("\nendstream\nendobj\n" + rest);
            && Expect("\nstream\n" + r4, "\nstream\n") == Some(r4)
            && |data| <= |r4| && r4[..|data|] == data
            && Expect(r4[|data|..], "\nendstream\nendobj\n") == Some(rest)
  {
  }

  // ---- offsets

  lemma {:induction false} EmitSplit(bodies: seq<string>, k: nat)
    requires k <= |bodies|
    ensures EmitTo(bodies, |bodies|) == EmitTo(bodies, k) + EmitFrom(bodies, k)
    decreases |bodies| - k
  {
    if k < |bodies| {
      EmitSplit(bodies, k + 1);
      assert EmitTo(bodies, k + 1) + EmitFrom(bodies, k + 1)
          == EmitTo(bodies, k) + (Wrap(k + 1, bodies[k]) + EmitFrom(bodies, k + 1));
    }
  }

  /** Recorded offset k lands on object k + 1, whatever follows the objects. */
  lemma OffsetLands(bodies: seq<string>, k: nat, tail: string, offset: nat, file: string)
    requires k < |bodies| && offset == Offsets(bodies)[k] && file == EmitTo(bodies, |bodies|) + tail
    ensures offset <= |file| && file[offset..] == Wrap(k + 1, bodies[k]) + (EmitFrom(bodies, k + 1) + tail)
  {
    EmitSplit(bodies, k);
    var a, b := EmitTo(bodies, k), EmitFrom(bodies, k);
    assert (a + b) + tail == a + (b + tail);
    assert (a + (b + tail))[|a|..] == b + tail;
    assert b + tail == Wrap(k + 1, bodies[k]) + (EmitFrom(bodies, k + 1) + tail);
  }

  lemma FetchAt(objects: seq<Indirect>, tail: string, k: nat, offset: nat, file: string)
    requires k < |objects| && Sound(objects[k])
    requires offset == Offsets(ShowAll(objects))[k] && file == EmitTo(ShowAll(objects), |objects|) + tail
    ensures Fetch(file, Entry(offset, true), k + 1) == Some(objects[k])
  {
    var bodies := ShowAll(objects);
    OffsetLands(bodies, k, tail, offset, file);
    ReadIndirectOf(k + 1, objects[k], EmitFrom(bodies, k + 1) + tail);
  }

  // ---- the cross-reference table

  lemma EntryText(d: string, tail: string)
    requires |d| >= 10 && AllDigits(d)
    ensures var s := (d + " 00000 n \n") + tail;
            |s| >= 20 && ReadEntry(s[..20]) == if |d| == 10 then Some(Entry(Value(d), true)) else None
    ensures |d| == 10 ==> ((d + " 00000 n \n") + tail)[20..] == tail
  {
    var s := (d + " 00000 n \n") + tail;
    var e := s[..20];
    if |d| == 10 {
      assert e == d + " 00000 n \n";
      assert e[..10] == d && e[11..16] == "00000" && e[18..] == " \n";
    } else {
      assert e[10] == d[10];
    }
  }

  /** An entry is exactly 20 bytes when the offset fits ten digits, and unreadable otherwise. */
  lemma XrefEntryReads(offset: nat, tail: string)
    ensures var s := XrefEntry(offset) + tail;
            |s| >= 20 && ReadEntry(s[..20]) == if offset < Pow10(10) then Some(Entry(offset, true)) else None
    ensures offset < Pow10(10) <==> |XrefEntry(offset)| == 20
    ensures offset < Pow10(10) ==> (XrefEntry(offset) + tail)[20..] == tail
  {
    PaddedValue(offset, 10);
    DecimalWidth(offset, 10);
    EntryText(Padded(offset, 10), tail);
  }

  function EntriesOf(offsets: seq<nat>): seq<Entry> {
    seq(|offsets|, k requires 0 <= k < |offsets| => Entry(offsets[k], true))
  }

  predicate Fits(offsets: seq<nat>) { forall k :: 0 <= k < |offsets| ==> offsets[k] < Pow10(10) }

  lemma ReadEntriesStep(s: string, n: nat, rest: string)
    requires |s| >= 20
    ensures ReadEntry(s[..20]) == None ==> ReadEntries(s, n + 1) == None
    ensures ReadEntry(s[..20]).Some? && s[20..] == rest && ReadEntries(rest, n) == None ==> ReadEntries(s, n + 1) == None
    ensures ReadEntry(s[..20]).Some? && s[20..] == rest && ReadEntries(rest, n).Some? ==>
              ReadEntries(s, n + 1)
              == Some(([ReadEntry(s[..20]).value] + ReadEntries(rest, n).value.0, ReadEntries(rest, n).value.1))
  {
  }

  lemma {:induction false} ReadEntriesOf(offsets: seq<nat>, tail: string)
    ensures ReadEntries(XrefEntries(offsets) + tail, |offsets|)
         == if Fits(offsets) then Some((EntriesOf(offsets), tail)) else None
  {
    if offsets == [] {
      assert XrefEntries(offsets) + tail == tail;
      assert EntriesOf(offsets) == [];
    } else {
      var rest := XrefEntries(offsets[1..]) + tail;
      var s := XrefEntries(offsets) + tail;
      assert s == XrefEntry(offsets[0]) + rest;
      XrefEntryReads(offsets[0], rest);
      ReadEntriesOf(offsets[1..], tail);
      FitsCons(offsets);
      ReadEntriesStep(s, |offsets| - 1, rest);
    }
  }

  lemma FitsCons(offsets: seq<nat>)
    requires offsets != []
    ensures Fits(offsets) <==> offsets[0] < Pow10(10) && Fits(offsets[1..])
    ensures EntriesOf(offsets) == [Entry(offsets[0], true)] + EntriesOf(offsets[1..])
  {
  }

  lemma FreeEntryReads(tail: string)
    ensures |FREE_ENTRY + tail| >= 20 && (FREE_ENTRY + tail)[20..] == tail
    ensures ReadEntry((FREE_ENTRY + tail)[..20]) == Some(Entry(0, false))
  {
    var e := (FREE_ENTRY + tail)[..20];
    assert |FREE_ENTRY| == 20;
    assert e == FREE_ENTRY;
    ZerosDigits(10);
    assert e[..10] == "0000000000" == Zeros(10) by { TenZeros(); }
    assert e[11..16] == "65535" && e[18..] == " \n";
  }

  lemma TenZeros()
    ensures "0000000000" == Zeros(10)
  {
  }

  lemma ReadXrefOf(bodies: seq<string>, tail: string)
    ensures ReadXref(XrefText(bodies) + tail)
         == if OffsetsFit(bodies) then Some(([Entry(0, false)] + EntriesOf(Offsets(bodies)), tail)) else None
  {
    var entries := XrefEntries(Offsets(bodies)) + tail;
    var r3 := FREE_ENTRY + entries;
    var n := |bodies| + 1;
    assert XrefText(bodies) + tail == "xref\n0 " + (Decimal(n) + ("\n" + r3));
    ExpectOf("xref\n0 ", Decimal(n) + ("\n" + r3));
    ReadNumberOf(n, "\n" + r3);
    ExpectOf("\n", r3);
    FreeEntryReads(entries);
    ReadEntriesOf(Offsets(bodies), tail);
  }

  // ---- the tail of the file

  lemma {:induction false} DigitTailOf(p: string, d: string)
    requires AllDigits(d) && (p == "" || !IsDigit(p[|p| - 1]))
    ensures DigitTail(p + d) == |d|
  {
    if d == "" {
      assert p + d == p;
    } else {
      var s := p + d;
      assert s[|s| - 1] == d[|d| - 1];
      assert s[..|s| - 1] == p + d[..|d| - 1];
      DigitTailOf(p, d[..|d| - 1]);
    }
  }

  lemma FindXrefOf(front: string, x: nat)
    ensures FindXref(front + ("startxref\n" + (Decimal(x) + "\n%%EOF\n"))) == Some(x)
  {
    var p, d, end := front + "startxref\n", Decimal(x), "\n%%EOF\n";
    Assoc(front, "startxref\n", d + end);
    Assoc(p, d, end);
    CutEnd(p + d, end);
    CutEnd(p, d);
    CutEnd(front, "startxref\n");
    DecimalValue(x);
    DigitTailOf(p, d);
  }

  lemma CutEnd(s: string, end: string)
    ensures EndsWith(s + end, end) && (s + end)[..|s + end| - |end|] == s
  {
  }

  lemma TrailerDictReads(size: nat, root: nat)
    ensures Printable(Dict(TrailerDict(size, root)))
    ensures Get(TrailerDict(size, root), "Size") == Some(Int(size))
    ensures Get(TrailerDict(size, root), "Root") == Some(Ref(root))
  {
    var pairs := [("Size", Int(size)), ("Root", Ref(root))];
    assert RegularWord("Size") && RegularWord("Root");
    FlatPrintable(pairs);
    FlatGet(pairs, "Size");
    FlatGet(pairs, "Root");
    assert pairs[1..] == [("Root", Ref(root))];
  }

  lemma ReadTrailerOf(size: nat, root: nat, xref: nat)
    ensures ReadTrailer(TrailerText(size, root, xref)) == Some((size, root))
  {
    var items := TrailerDict(size, root);
    var after := "\nstartxref\n" + (Decimal(xref) + "\n%%EOF\n");
    ExpectOf("trailer\n", Show(Dict(items)) + after);
    TrailerDictReads(size, root);
    ReadShownDict(items, after);
  }

  lemma ReadDocumentStep(file: string, x: nat, entries: seq<Entry>, rest: string, root: nat, objects: seq<Indirect>)
    requires FindXref(file) == Some(x) && x <= |file| && ReadXref(file[x..]) == Some((entries, rest))
    requires entries != [] && !entries[0].inUse && ReadTrailer(rest) == Some((|entries|, root))
    requires ReadObjects(file, entries) == Some(objects)
    ensures ReadDocument(file) == Some(Document(root, objects))
  {
  }

  lemma ReadDocumentFails(file: string, x: nat)
    requires FindXref(file) == Some(x) && x <= |file| && ReadXref(file[x..]) == None
    ensures ReadDocument(file) == None
  {
  }

  lemma FetchesAt(file: string, offsets: seq<nat>, k: nat, o: Indirect)
    requires k < |offsets| && Fetch(file, Entry(offsets[k], true), k + 1) == Some(o)
    ensures Fetches(file, [Entry(0, false)] + EntriesOf(offsets))[k] == Some(o)
  {
    assert ([Entry(0, false)] + EntriesOf(offsets))[k + 1] == Entry(offsets[k], true);
  }

  lemma AllObjectsRead(objects: seq<Indirect>, tail: string, offsets: seq<nat>, file: string, all: seq<Option<Indirect>>)
    requires forall k :: 0 <= k < |objects| ==> Sound(objects[k])
    requires offsets == Offsets(ShowAll(objects)) && file == EmitTo(ShowAll(objects), |objects|) + tail
    requires all == Fetches(file, [Entry(0, false)] + EntriesOf(offsets))
    ensures AllSome(all) == Some(objects)
  {
    forall k | 0 <= k < |objects|
      ensures all[k] == Some(objects[k])
    {
      FetchAt(objects, tail, k, offsets[k], file);
      FetchesAt(file, offsets, k, objects[k]);
    }
    AllSomeOf(all, objects);
  }

  /** Following `startxref` recovers every object, byte for byte, exactly when every offset
      fits the ten digits of an entry; a wider offset makes the table unreadable. */
  lemma ReadFileOf(objects: seq<Indirect>, root: nat)
    requires forall k :: 0 <= k < |objects| ==> Sound(objects[k])
    ensures var bodies := ShowAll(objects);
            ReadDocument(FileOf(bodies, root)) == if OffsetsFit(bodies) then Some(Document(root, objects)) else None
  {
    var bodies := ShowAll(objects);
    var emitted := EmitTo(bodies, |bodies|);
    var x := |emitted|;
    var size := |bodies| + 1;
    var trailer := TrailerText(size, root, x);
    var tail := XrefText(bodies) + trailer;
    var file := FileOf(bodies, root);
    assert file == emitted + tail && file[x..] == tail;
    FileEnds(bodies, root);
    ReadXrefOf(bodies, trailer);
    if OffsetsFit(bodies) {
      var entries := [Entry(0, false)] + EntriesOf(Offsets(bodies));
      assert |entries| == size;
      ReadTrailerOf(size, root, x);
      AllObjectsRead(objects, tail, Offsets(bodies), file, Fetches(file, entries));
      ReadDocumentStep(file, x, entries, trailer, root, objects);
    } else {
      ReadDocumentFails(file, x);
    }
  }

  lemma EmittedBefore(bodies: seq<string>, k: nat)
    requires k <= |bodies|
    ensures |EmitTo(bodies, k)| <= |EmitTo(bodies, |bodies|)|
  {
    EmitSplit(bodies, k);
  }

  /** A file of at most ten thousand million bytes always has offsets that fit. */
  lemma ShortFileFits(bodies: seq<string>, root: nat)
    requires |FileOf(bodies, root)| <= Pow10(10)
    ensures OffsetsFit(bodies)
  {
    forall k | 0 <= k < |bodies|
      ensures Offsets(bodies)[k] < Pow10(10)
    {
      EmittedBefore(bodies, k);
    }
  }

  lemma FileEnds(bodies: seq<string>, root: nat)
    ensures FindXref(FileOf(bodies, root)) == Some(|EmitTo(bodies, |bodies|)|)
  {
    var emitted := EmitTo(bodies, |bodies|);
    var x := |emitted|;
    var shown := Show(Dict(TrailerDict(|bodies| + 1, root)));
    var front := emitted + (XrefText(bodies) + ("trailer\n" + (shown + "\n")));
    FindXrefOf(front, x);
    LastLines(emitted, XrefText(bodies), shown, Decimal(x));
  }

  lemma LastLines(emitted: string, xref: string, shown: string, d: string)
    ensures emitted + (xref + ("trailer\n" + (shown + ("\nstartxref\n" + (d + "\n%%EOF\n")))))
         == (emitted + (xref + ("trailer\n" + (shown + "\n")))) + ("startxref\n" + (d + "\n%%EOF\n"))
  {
  }
}
