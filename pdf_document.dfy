/**
 * The objects of a generated PDF file and their serialisation: the object
 * layout (catalog, page tree, a page and its content stream per page, one
 * font), the indirect-object records at their byte offsets, the classic
 * cross-reference table and the trailer (sections 7.5.2 to 7.5.5 of
 * ISO 32000-1).
 */
module PdfDocument {
  import opened Numbers
  import opened PageModel
  import opened PdfContent

  /** The kinds of object a write creates; Render gives each one's text. */
  datatype Body =
    | Catalog(pages: int)
    | PageTree(count: nat, kids: seq<int>)
    | PageNode(parent: int, width: real, height: real, contents: int, font: int)
    | Contents(stream: string)
    | Font

  /** An object a write is about to create: its number and what it holds. */
  datatype Planned = Planned(id: int, body: Body)

  /** An indirect object: its number, its byte offset once written, and its text. */
  datatype PdfObject = PdfObject(id: int, offset: nat, content: string)

  /** An indirect reference "id 0 R". */
  function Ref(id: int): string { IntToString(id) + " 0 R" }

  /** The /Kids array's entries, each followed by a space. */
  function KidsText(kids: seq<int>): string
    decreases |kids|
  {
    if |kids| == 0 then [] else KidsText(kids[..|kids| - 1]) + Ref(kids[|kids| - 1]) + " "
  }

  /**
   * The text of an object. It goes through RenderAt, a recursive function,
   * so that proofs about whole object lists keep the text folded;
   * RenderIs unfolds it.
   */
  function Render(b: Body): string
  {
    RenderAt(b, 2)
  }

  function RenderAt(b: Body, layer: nat): string
  {
    if layer == 0 then BodyText(b) else RenderAt(b, layer - 1)
  }

  lemma RenderIs(b: Body)
    ensures Render(b) == BodyText(b)
  {
    assert RenderAt(b, 1) == RenderAt(b, 0);
  }

  /** The dictionary (and stream) text of an object. The MediaBox uses the default %g-like printing. */
  function BodyText(b: Body): string
  {
    match b
    case Catalog(p) => "<<\n/Type /Catalog\n/Pages " + Ref(p) + "\n>>\n"
    case PageTree(n, kids) =>
      "<<\n/Type /Pages\n/Count " + NatToString(n) + "\n/Kids [" + KidsText(kids) + "]\n>>\n"
    case PageNode(parent, w, h, c, f) =>
      "<<\n/Type /Page\n/Parent " + Ref(parent) + "\n/MediaBox [0 0 " + FormatGeneral(w) + " "
      + FormatGeneral(h) + "]\n/Contents " + Ref(c) + "\n/Resources <<\n  /Font << /F1 " + Ref(f)
      + " >>\n>>\n>>\n"
    case Contents(s) => "<<\n/Length " + NatToString(|s|) + "\n>>\nstream\n" + s + "\nendstream\n"
    case Font => "<<\n/Type /Font\n/Subtype /Type1\n/BaseFont /Helvetica\n>>\n"
  }

  /**
   * A content object's /Length reads back as the number of bytes between
   * "stream\n" and "\nendstream".
   */
  lemma StreamLength(s: string)
    ensures var t := Render(Contents(s)); var d := NatToString(|s|);
      |t| == 33 + |d| + |s| && t[11..11 + |d|] == d && AllDigits(d) && DigitsValue(d) == |s|
      && t[22 + |d|..22 + |d| + |s|] == s
  {
    var d := NatToString(|s|);
    var t := Render(Contents(s));
    RenderIs(Contents(s));
    assert t == "<<\n/Length " + d + "\n>>\nstream\n" + s + "\nendstream\n";
    NatToStringValue(|s|);
  }

  // ---------------------------------------------------------------
  // The object layout of one write.
  // ---------------------------------------------------------------

  /** The page tree's kids: the ids that follow first, one per page. */
  function Kids(first: int, n: nat): seq<int>
  {
    seq(n, i => first + i)
  }

  /**
   * Each page gives a page object and, right after it, its content stream;
   * streams holds the rendered content of each page.
   */
  function PageObjects(first: int, parent: int, font: int, pages: seq<Page>, streams: seq<string>, n: nat): (r: seq<Planned>)
    requires |streams| == |pages| && n <= |pages|
    ensures |r| == 2 * n
    ensures forall j :: 0 <= j < |r| ==> r[j].id == first + j
  {
    if n == 0 then []
    else
      var k := n - 1;
      var p := pages[k];
      var id := first + 2 * k;
      PageObjects(first, parent, font, pages, streams, k)
      + [Planned(id, PageNode(parent, p.width, p.height, id + 1, font)),
         Planned(id + 1, Contents(streams[k]))]
  }

  /** The content stream of every page, in page order. */
  function Streams(pages: seq<Page>): (r: seq<string>)
    ensures |r| == |pages|
  {
    seq(|pages|, i requires 0 <= i < |pages| => PageStream(pages[i]))
  }

  /**
   * The object at index 1 once the catalog and the page tree have been
   * appended to olds; every page names it as its /Parent.
   */
  function ParentId(olds: seq<PdfObject>, next: int): int
  {
    if |olds| >= 2 then olds[1].id else if |olds| == 1 then next else next + 1
  }

  /** The objects one write appends, numbered from next by the counter. */
  function NewObjects(next: int, olds: seq<PdfObject>, pages: seq<Page>, streams: seq<string>): (r: seq<Planned>)
    requires |streams| == |pages|
    ensures |r| == 3 + 2 * |pages|
    ensures forall j :: 0 <= j < |r| ==> r[j].id == next + j
  {
    var n := |pages|;
    [Planned(next, Catalog(next + 1)), Planned(next + 1, PageTree(n, Kids(next + 2, n)))]
    + PageObjects(next + 2, ParentId(olds, next), next + 2 + 2 * n, pages, streams, n)
    + [Planned(next + 2 + 2 * n, Font)]
  }

  /** A planned object as created: it holds the text of its body, its offset not yet known. */
  function Create(p: Planned): seq<PdfObject>
  {
    [PdfObject(p.id, 0, Render(p.body))]
  }

  /** The objects as created, in order. */
  function Created(planned: seq<Planned>): seq<PdfObject>
  {
    FlatMap(planned, Create)
  }

  /** Creation keeps the plan's numbers, in order. */
  lemma {:induction false} CreatedIds(planned: seq<Planned>)
    ensures |Created(planned)| == |planned|
    ensures forall i :: 0 <= i < |planned| ==> Created(planned)[i].id == planned[i].id
    decreases |planned|
  {
    if planned != [] {
      var init := planned[..|planned| - 1];
      CreatedIds(init);
      assert Created(planned) == Created(init) + Create(planned[|planned| - 1]);
      assert forall i :: 0 <= i < |init| ==> init[i] == planned[i];
    }
  }

  lemma {:induction false} PageObjectsAt(first: int, parent: int, font: int, pages: seq<Page>, streams: seq<string>,
                                        n: nat, i: nat)
    requires |streams| == |pages| && i < n <= |pages|
    ensures PageObjects(first, parent, font, pages, streams, n)[2 * i].body
      == PageNode(parent, pages[i].width, pages[i].height, first + 2 * i + 1, font)
    ensures PageObjects(first, parent, font, pages, streams, n)[2 * i + 1].body == Contents(streams[i])
  {
    if i < n - 1 {
      PageObjectsAt(first, parent, font, pages, streams, n - 1, i);
    }
  }

  /**
   * The layout of one write of n pages: the catalog names the page tree,
   * the tree counts n pages, page i is followed by its content stream and
   * names the font, which is the last object.
   */
  lemma Layout(next: int, olds: seq<PdfObject>, pages: seq<Page>, streams: seq<string>, i: nat)
    requires |streams| == |pages| && i < |pages|
    ensures var objs := NewObjects(next, olds, pages, streams); var n := |pages|;
      objs[0].body == Catalog(objs[1].id)
      && objs[1].body == PageTree(n, Kids(next + 2, n))
      && objs[2 + 2 * i].body
        == PageNode(ParentId(olds, next), pages[i].width, pages[i].height, objs[3 + 2 * i].id, objs[2 + 2 * n].id)
      && objs[3 + 2 * i].body == Contents(streams[i])
      && objs[2 + 2 * n].body == Font
  {
    var n := |pages|;
    var body := PageObjects(next + 2, ParentId(olds, next), next + 2 + 2 * n, pages, streams, n);
    PageObjectsAt(next + 2, ParentId(olds, next), next + 2 + 2 * n, pages, streams, n, i);
    var objs := NewObjects(next, olds, pages, streams);
    assert objs[2 + 2 * i] == body[2 * i];
    assert objs[3 + 2 * i] == body[2 * i + 1];
  }

  /**
   * After Initialize (counter 1, no objects): the catalog is object 1 and
   * names object 2, page i is object 3 + 2i with contents 4 + 2i, and the
   * font every page names is object 3 + 2n.
   */
  lemma FreshLayout(pages: seq<Page>, streams: seq<string>, i: nat)
    requires |streams| == |pages| && i < |pages|
    ensures var objs := NewObjects(1, [], pages, streams); var n := |pages|;
      objs[0].id == 1 && objs[0].body == Catalog(2)
      && objs[1].id == 2 && objs[1].body == PageTree(n, Kids(3, n))
      && objs[2 + 2 * i].id == 3 + 2 * i
      && objs[2 + 2 * i].body == PageNode(2, pages[i].width, pages[i].height, 4 + 2 * i, 3 + 2 * n)
      && objs[2 + 2 * n].id == 3 + 2 * n && objs[2 + 2 * n].body == Font
  {
    Layout(1, [], pages, streams, i);
  }

  /** The kids name the page objects exactly when there is at most one page. */
  lemma KidsMatchPages(next: int, olds: seq<PdfObject>, pages: seq<Page>, streams: seq<string>)
    requires |streams| == |pages|
    ensures var objs := NewObjects(next, olds, pages, streams);
      (forall i :: 0 <= i < |pages| ==> Kids(next + 2, |pages|)[i] == objs[2 + 2 * i].id)
      <==> |pages| <= 1
  {
    var objs := NewObjects(next, olds, pages, streams);
    if |pages| >= 2 {
      assert Kids(next + 2, |pages|)[1] == next + 3 != objs[4].id;
    }
  }

  /** Object numbers strictly increase along the list. */
  predicate Increasing(objs: seq<PdfObject>)
  {
    forall i, j :: 0 <= i < j < |objs| ==> objs[i].id < objs[j].id
  }

  /** All numbers are below the counter. */
  predicate Below(objs: seq<PdfObject>, next: int)
  {
    forall i :: 0 <= i < |objs| ==> objs[i].id < next
  }

  /**
   * Numbers are never reused: appending a write's objects to objects
   * numbered below the counter keeps the numbers strictly increasing and
   * below the advanced counter.
   */
  lemma IdsIncrease(next: int, olds: seq<PdfObject>, pages: seq<Page>, streams: seq<string>)
    requires |streams| == |pages|
    requires Increasing(olds) && Below(olds, next)
    ensures Increasing(olds + Created(NewObjects(next, olds, pages, streams)))
    ensures Below(olds + Created(NewObjects(next, olds, pages, streams)), next + 3 + 2 * |pages|)
  {
    var all := olds + Created(NewObjects(next, olds, pages, streams));
    CreatedIds(NewObjects(next, olds, pages, streams));
    forall i, j | 0 <= i < j < |all|
      ensures all[i].id < all[j].id
    {
      if j >= |olds| && i < |olds| {
        assert all[i] == olds[i];
      }
    }
  }

  // ---------------------------------------------------------------
  // Serialisation.
  // ---------------------------------------------------------------

  /** The %PDF-x.y header line and the binary comment that follows it. */
  function FileHeader(level: real): string
  {
    "%PDF-" + FormatFixed(level, 1) + "\n%" + ['\U{E2}', '\U{E3}', '\U{CF}', '\U{D3}'] + "\n"
  }

  /** One indirect object as written: "id 0 obj", its text, "endobj" and a blank line. */
  function Record(o: PdfObject): string
  {
    IntToString(o.id) + " 0 obj\n" + o.content + "endobj\n\n"
  }

  /** Every object's record, in order. */
  function Records(objs: seq<PdfObject>): string
  {
    FlatMap(objs, Record)
  }

  /** The objects with each offset set to the output length before its record. */
  function Place(objs: seq<PdfObject>, start: nat): seq<PdfObject>
  {
    seq(|objs|, j requires 0 <= j < |objs| => objs[j].(offset := start + |Records(objs[..j])|))
  }

  function Offsets(objs: seq<PdfObject>): seq<nat>
  {
    seq(|objs|, j requires 0 <= j < |objs| => objs[j].offset)
  }

  /** An in-use cross-reference entry: a ten-digit offset, generation 0. */
  function XrefEntry(offset: nat): string
  {
    ZeroPad(NatToString(offset), 10) + " 00000 n \n"
  }

  function XrefEntries(offsets: seq<nat>): string
  {
    FlatMap(offsets, XrefEntry)
  }

  /** The first lines of the table: the keyword, the subsection and the free head. */
  function XrefHead(count: nat): string
  {
    "xref\n0 " + NatToString(count + 1) + "\n0000000000 65535 f \n"
  }

  function XrefTable(offsets: seq<nat>): string
  {
    XrefHead(|offsets|) + XrefEntries(offsets)
  }

  /** The trailer dictionary, then the offset of the table and the end-of-file marker. */
  function Trailer(count: nat, root: int, startxref: nat): string
  {
    "trailer\n<<\n/Size " + NatToString(count + 1) + "\n/Root " + Ref(root) + "\n>>\n" + FileEnd(startxref)
  }

  function FileEnd(startxref: nat): string
  {
    "startxref\n" + NatToString(startxref) + "\n%%EOF\n"
  }

  /**
   * The whole file: the header, every object's record in order, the table
   * of their offsets and the trailer naming the first object as root.
   */
  function Document(header: string, objs: seq<PdfObject>): string
    requires objs != []
  {
    header + Records(objs) + XrefTable(Offsets(Place(objs, |header|)))
    + Trailer(|objs|, objs[0].id, |header| + |Records(objs)|)
  }

  /** Object j is placed right after the records of the objects before it. */
  lemma PlaceAt(objs: seq<PdfObject>, start: nat, j: nat)
    requires j < |objs|
    ensures Place(objs, start)[j] == objs[j].(offset := start + |Records(objs[..j])|)
  {
  }

  /** A slice of the part r of a text h + r + x + t. */
  lemma InPart<T>(h: seq<T>, r: seq<T>, x: seq<T>, t: seq<T>, m: nat, n: nat)
    requires m + n <= |r|
    ensures |h| + m + n <= |h + r + x + t|
    ensures (h + r + x + t)[|h| + m..|h| + m + n] == r[m..m + n]
  {
  }

  /** Object j's record follows the records of the objects before it. */
  lemma RecordsAt(objs: seq<PdfObject>, j: nat)
    requires j < |objs|
    ensures var m := |Records(objs[..j])|;
      m + |Record(objs[j])| <= |Records(objs)| && Records(objs)[m..m + |Record(objs[j])|] == Record(objs[j])
  {
    FlatMapAt(objs, Record, j);
  }

  /** Object j's record follows the header and the records before it, whatever table and trailer follow. */
  lemma RecordFollows(header: string, objs: seq<PdfObject>, table: string, trailer: string, j: nat)
    requires j < |objs|
    ensures var doc := header + Records(objs) + table + trailer;
      var off := |header| + |Records(objs[..j])|;
      off + |Record(objs[j])| <= |doc| && doc[off..off + |Record(objs[j])|] == Record(objs[j])
  {
    RecordsAt(objs, j);
    InPart(header, Records(objs), table, trailer, |Records(objs[..j])|, |Record(objs[j])|);
  }

  lemma SliceAt<T>(doc: seq<T>, r: seq<T>, a: nat, b: nat)
    requires a == b && b + |r| <= |doc| && doc[b..b + |r|] == r
    ensures a + |r| <= |doc| && doc[a..a + |r|] == r
  {
  }

  /**
   * Object j's record sits at its recorded offset, whatever table and
   * trailer follow the records (Document's are one case).
   */
  lemma RecordAt(header: string, objs: seq<PdfObject>, table: string, trailer: string, j: nat)
    requires j < |objs|
    ensures var doc := header + Records(objs) + table + trailer;
      var off := Place(objs, |header|)[j].offset;
      off + |Record(objs[j])| <= |doc| && doc[off..off + |Record(objs[j])|] == Record(objs[j])
  {
    PlaceAt(objs, |header|, j);
    RecordFollows(header, objs, table, trailer, j);
    SliceAt(header + Records(objs) + table + trailer, Record(objs[j]),
      Place(objs, |header|)[j].offset, |header| + |Records(objs[..j])|);
  }

  /** A record starts with the object's number and "0 obj". */
  lemma RecordStart(o: PdfObject)
    ensures var h := IntToString(o.id) + " 0 obj\n"; |h| <= |Record(o)| && Record(o)[..|h|] == h
  {
  }

  /** A prefix of the objects writes a shorter prefix of the records. */
  lemma RecordsPrefix(objs: seq<PdfObject>, i: nat, j: nat)
    requires i < j <= |objs|
    ensures |Records(objs[..i])| < |Records(objs[..j])|
  {
    FlatMapSplit(objs[..j], Record, i);
    assert objs[..j][..i] == objs[..i];
  }

  /** Offsets strictly increase in object order. */
  lemma OffsetsIncrease(objs: seq<PdfObject>, start: nat)
    ensures forall i, j :: 0 <= i < j < |objs| ==>
      Place(objs, start)[i].offset < Place(objs, start)[j].offset
  {
    forall i, j | 0 <= i < j < |objs|
      ensures Place(objs, start)[i].offset < Place(objs, start)[j].offset
    {
      RecordsPrefix(objs, i, j);
    }
  }

  lemma PrefixAt<T>(p: seq<T>, a: seq<T>, q: seq<T>, k: nat)
    requires k <= |a|
    ensures |p| + k <= |p + a + q| && (p + a + q)[|p|..|p| + k] == a[..k]
  {
  }

  lemma SuffixAt<T>(p: seq<T>, t: seq<T>)
    ensures |t| <= |p + t| && (p + t)[|p + t| - |t|..] == t
  {
  }

  /**
   * The table starts where startxref says: "xref" follows the last record,
   * and the file ends with that offset and %%EOF. This holds for any
   * records and any table entries, and so for Document.
   */
  lemma StartXref(header: string, records: string, offsets: seq<nat>, count: nat, root: int)
    ensures var x := |header| + |records|;
      var doc := header + records + XrefTable(offsets) + Trailer(count, root, x);
      x + 4 <= |doc| && doc[x..x + 4] == "xref"
      && |FileEnd(x)| <= |doc| && doc[|doc| - |FileEnd(x)|..] == FileEnd(x)
  {
    var x := |header| + |records|;
    var table := XrefTable(offsets);
    var t := Trailer(count, root, x);
    PrefixAt(header + records, table, t, 4);
    assert table[..4] == "xref";
    var lead := "trailer\n<<\n/Size " + NatToString(count + 1) + "\n/Root " + Ref(root) + "\n>>\n";
    assert header + records + table + t == (header + records + table + lead) + FileEnd(x);
    SuffixAt(header + records + table + lead, FileEnd(x));
  }

  // ---------------------------------------------------------------
  // The cross-reference entries.
  // ---------------------------------------------------------------

  predicate TenDigits(offsets: seq<nat>)
  {
    forall k :: 0 <= k < |offsets| ==> offsets[k] < Pow10(10)
  }

  /** An entry of an offset below 10^10 is 20 bytes and its first ten read back as the offset. */
  lemma XrefEntryShape(offset: nat)
    requires offset < Pow10(10)
    ensures |XrefEntry(offset)| == 20
    ensures AllDigits(XrefEntry(offset)[..10]) && DigitsValue(XrefEntry(offset)[..10]) == offset
  {
    PadTenLength(offset);
    ZeroPadValue(offset, 10);
    assert XrefEntry(offset)[..10] == ZeroPad(NatToString(offset), 10);
  }

  /** One 20-byte entry per offset, in order: entry k is bytes 20k to 20k + 20. */
  lemma XrefEntriesShape(offsets: seq<nat>, k: nat)
    requires TenDigits(offsets) && k < |offsets|
    ensures |XrefEntries(offsets)| == 20 * |offsets|
    ensures XrefEntries(offsets)[20 * k..20 * k + 20] == XrefEntry(offsets[k])
  {
    forall i | 0 <= i < |offsets|
      ensures |XrefEntry(offsets[i])| == 20
    {
      XrefEntryShape(offsets[i]);
    }
    FlatMapUniform(offsets, XrefEntry, 20);
    FlatMapUniform(offsets[..k], XrefEntry, 20);
    FlatMapAt(offsets, XrefEntry, k);
  }

  /** A chunk w found at a of the part e of b + (h + e) + t. */
  lemma InTable<T>(b: seq<T>, h: seq<T>, e: seq<T>, t: seq<T>, a: nat, n: nat, w: seq<T>)
    requires a + n <= |e| && e[a..a + n] == w
    ensures var p := |b| + |h| + a;
      p + n <= |b + (h + e) + t| && (b + (h + e) + t)[p..p + n] == w
  {
    var p := |b| + |h| + a;
    assert (b + (h + e) + t)[p..p + n] == e[a..a + n];
  }

  /**
   * Entry k of the table, 20 bytes after the head for each entry before
   * it, is the entry of offset k, whatever precedes and follows the table;
   * by XrefEntryShape its ten digits read back as that offset.
   */
  lemma CrossReference(body: string, offsets: seq<nat>, trailer: string, k: nat)
    requires k < |offsets| && TenDigits(offsets)
    ensures var doc := body + XrefTable(offsets) + trailer;
      var p := |body| + |XrefHead(|offsets|)| + 20 * k;
      p + 20 <= |doc| && doc[p..p + 20] == XrefEntry(offsets[k])
  {
    var entries := XrefEntries(offsets);
    XrefEntriesShape(offsets, k);
    InTable(body, XrefHead(|offsets|), entries, trailer, 20 * k, 20, XrefEntry(offsets[k]));
  }

  /** Document's table lists the offsets at which RecordAt finds the records. */
  lemma TableOffsets(header: string, objs: seq<PdfObject>, k: nat)
    requires k < |objs|
    ensures |Offsets(Place(objs, |header|))| == |objs|
    ensures Offsets(Place(objs, |header|))[k] == Place(objs, |header|)[k].offset
  {
  }

  /**
   * A second write without Clear or Initialize: the counter continues, so
   * the new catalog and page tree are numbered 4 + 2n and 5 + 2n for the n
   * pages written first, yet every new page names object 2 (the first
   * write's page tree) as /Parent and the trailer names object 1 as /Root.
   */
  lemma SecondWrite(first: seq<Page>, firstStreams: seq<string>, second: seq<Page>, secondStreams: seq<string>, start: nat)
    requires |firstStreams| == |first| && |secondStreams| == |second|
    ensures var olds := Place(Created(NewObjects(1, [], first, firstStreams)), start);
      var next := 4 + 2 * |first|;
      var objs := NewObjects(next, olds, second, secondStreams);
      ParentId(olds, next) == 2 && (olds + Created(objs))[0].id == 1
      && objs[0].id == next && objs[0].body == Catalog(next + 1)
      && next + 1 != 2
  {
    CreatedIds(NewObjects(1, [], first, firstStreams));
  }
}
