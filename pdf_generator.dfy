/**
 * The PDF generator: it copies the parser's pages, creates the catalog,
 * page tree, page, content and font objects with a running object number,
 * and writes them with their byte offsets, the cross-reference table and
 * the trailer. The output file is the returned text; whether it can be
 * opened is a parameter.
 */
module PdfGenerator {
  import opened Numbers
  import opened Options
  import opened PageModel
  import opened PdfContent
  import opened PdfDocument
  import opened PostScript

  /** The document information; a default one has the library's creator and producer. */
  datatype Metadata = Metadata(
    title: string,
    author: string,
    subject: string,
    keywords: string,
    creator: string,
    producer: string,
    compatibilityLevel: real)

  const DefaultMetadata := Metadata("", "", "", "", "PDF_LIB", "PDF_LIB PostScript to PDF Converter", 1.7)

  /** The objects after one write: the earlier ones, then the write's own. */
  function AllObjects(olds: seq<PdfObject>, next: int, pages: seq<Page>): (r: seq<PdfObject>)
    ensures |r| == |olds| + 3 + 2 * |pages|
  {
    CreatedIds(NewObjects(next, olds, pages, Streams(pages)));
    olds + Created(NewObjects(next, olds, pages, Streams(pages)))
  }

  /** The file one write produces. */
  function Output(olds: seq<PdfObject>, next: int, pages: seq<Page>, level: real): string
  {
    Document(FileHeader(level), AllObjects(olds, next, pages))
  }

  /** The value kept when the parser's one is empty. */
  function NonEmptyOr(s: string, keep: string): string { if s != [] then s else keep }

  lemma KidsSnoc(first: int, i: nat)
    ensures KidsText(Kids(first, i + 1)) == KidsText(Kids(first, i)) + Ref(first + i) + " "
  {
    assert Kids(first, i + 1)[..i] == Kids(first, i);
  }

  lemma CreatedAppend(a: seq<Planned>, b: seq<Planned>)
    ensures Created(a + b) == Created(a) + Created(b)
  {
    FlatMapAppend(a, b, Create);
  }

  lemma CreatedOne(p: Planned)
    ensures Created([p]) == [PdfObject(p.id, 0, Render(p.body))]
  {
    FlatMapOne(p, Create);
  }

  lemma CreatedTwo(p: Planned, q: Planned)
    ensures Created([p, q]) == [PdfObject(p.id, 0, Render(p.body)), PdfObject(q.id, 0, Render(q.body))]
  {
    CreatedAppend([p], [q]);
    CreatedOne(p);
    CreatedOne(q);
    assert [p] + [q] == [p, q];
  }

  /** One more page adds its page object and its content stream to the planned objects. */
  lemma PageStep(first: int, parent: int, font: int, pages: seq<Page>, streams: seq<string>, k: nat)
    requires |streams| == |pages| && k < |pages|
    ensures PageObjects(first, parent, font, pages, streams, k + 1)
      == PageObjects(first, parent, font, pages, streams, k)
         + [Planned(first + 2 * k, PageNode(parent, pages[k].width, pages[k].height, first + 2 * k + 1, font)),
            Planned(first + 2 * k + 1, Contents(streams[k]))]
  {
  }

  /** Appending the objects created from b to those created from a creates a + b. */
  lemma CreatedStep(olds: seq<PdfObject>, a: seq<Planned>, b: seq<Planned>, ab: seq<Planned>,
                    before: seq<PdfObject>, after: seq<PdfObject>)
    requires before == olds + Created(a) && after == before + Created(b) && ab == a + b
    ensures after == olds + Created(ab)
  {
    CreatedAppend(a, b);
    Assoc(olds, Created(a), Created(b));
  }

  /** The page and content objects as written by CreatePageObjects. */
  lemma PagePair(pageId: int, parent: int, width: real, height: real, contentId: int, font: int, stream: string,
                 pageText: string, contentText: string)
    requires Render(PageNode(parent, width, height, contentId, font)) == pageText
    requires Render(Contents(stream)) == contentText
    ensures Created([Planned(pageId, PageNode(parent, width, height, contentId, font)), Planned(contentId, Contents(stream))])
      == [PdfObject(pageId, 0, pageText), PdfObject(contentId, 0, contentText)]
  {
    CreatedTwo(Planned(pageId, PageNode(parent, width, height, contentId, font)), Planned(contentId, Contents(stream)));
  }

  lemma PageNodeText(parent: int, width: real, height: real, contents: int, font: int, text: string)
    requires text == "<<\n/Type /Page\n/Parent " + Ref(parent) + "\n/MediaBox [0 0 "
      + FormatGeneral(width) + " " + FormatGeneral(height) + "]\n/Contents " + Ref(contents)
      + "\n/Resources <<\n  /Font << /F1 " + Ref(font) + " >>\n>>\n>>\n"
    ensures Render(PageNode(parent, width, height, contents, font)) == text
  {
    RenderIs(PageNode(parent, width, height, contents, font));
  }

  lemma ContentsText(stream: string, text: string)
    requires text == "<<\n/Length " + NatToString(|stream|) + "\n>>\nstream\n" + stream + "\nendstream\n"
    ensures Render(Contents(stream)) == text
  {
    RenderIs(Contents(stream));
  }

  /** The four creation steps of a write together append the write's objects. */
  lemma Assemble(olds: seq<PdfObject>, next: int, pages: seq<Page>)
    ensures olds + Created([Planned(next, Catalog(next + 1))])
        + Created([Planned(next + 1, PageTree(|pages|, Kids(next + 2, |pages|)))])
        + Created(PageObjects(next + 2, ParentId(olds, next), next + 2 + 2 * |pages|, pages, Streams(pages), |pages|))
        + Created([Planned(next + 2 + 2 * |pages|, Font)])
      == AllObjects(olds, next, pages)
  {
    var n := |pages|;
    NewObjectsParts(next, olds, pages, Streams(pages), n);
    Join(olds, Created([Planned(next, Catalog(next + 1))]), Created([Planned(next + 1, PageTree(n, Kids(next + 2, n)))]),
      Created(PageObjects(next + 2, ParentId(olds, next), next + 2 + 2 * n, pages, Streams(pages), n)),
      Created([Planned(next + 2 + 2 * n, Font)]),
      Created(NewObjects(next, olds, pages, Streams(pages))), AllObjects(olds, next, pages));
  }

  /** The objects after the four creation steps are the write's objects, numbered in increasing order. */
  lemma Assembled(olds: seq<PdfObject>, next: int, pages: seq<Page>, head: seq<PdfObject>, body: seq<PdfObject>, objs: seq<PdfObject>)
    requires Increasing(olds) && Below(olds, next)
    requires head == olds + Created([Planned(next, Catalog(next + 1))])
        + Created([Planned(next + 1, PageTree(|pages|, Kids(next + 2, |pages|)))])
    requires body == head + Created(PageObjects(next + 2, ParentId(olds, next), next + 2 + 2 * |pages|, pages, Streams(pages), |pages|))
    requires objs == body + Created([Planned(next + 2 + 2 * |pages|, Font)])
    ensures objs == AllObjects(olds, next, pages)
    ensures Increasing(objs) && Below(objs, next + 3 + 2 * |pages|)
  {
    Assemble(olds, next, pages);
    IdsIncrease(next, olds, pages, Streams(pages));
  }

  lemma Join<T>(olds: seq<T>, a: seq<T>, b: seq<T>, c: seq<T>, d: seq<T>, created: seq<T>, all: seq<T>)
    requires created == a + b + c + d && all == olds + created
    ensures olds + a + b + c + d == all
  {
    assert olds + a + b + c + d == olds + (a + b + c + d);
  }

  lemma HeadParent(olds: seq<PdfObject>, c: seq<PdfObject>, t: seq<PdfObject>, next: int)
    requires |c| == 1 && |t| == 1 && c[0].id == next && t[0].id == next + 1
    ensures (olds + c + t)[1].id == ParentId(olds, next)
  {
  }

  /** The catalog and the page tree, the pages' objects, then the font. */
  lemma NewObjectsShape(next: int, olds: seq<PdfObject>, pages: seq<Page>, streams: seq<string>, n: nat)
    requires |streams| == |pages| && n == |pages|
    ensures NewObjects(next, olds, pages, streams)
      == [Planned(next, Catalog(next + 1)), Planned(next + 1, PageTree(n, Kids(next + 2, n)))]
       + PageObjects(next + 2, ParentId(olds, next), next + 2 + 2 * n, pages, streams, n)
       + [Planned(next + 2 + 2 * n, Font)]
  {
  }

  /** The objects of a write, by kind. */
  lemma NewObjectsParts(next: int, olds: seq<PdfObject>, pages: seq<Page>, streams: seq<string>, n: nat)
    requires |streams| == |pages| && n == |pages|
    ensures Created(NewObjects(next, olds, pages, streams))
      == Created([Planned(next, Catalog(next + 1))]) + Created([Planned(next + 1, PageTree(n, Kids(next + 2, n)))])
        + Created(PageObjects(next + 2, ParentId(olds, next), next + 2 + 2 * n, pages, streams, n))
        + Created([Planned(next + 2 + 2 * n, Font)])
  {
    var cat := Planned(next, Catalog(next + 1));
    var tree := Planned(next + 1, PageTree(n, Kids(next + 2, n)));
    var font := Planned(next + 2 + 2 * n, Font);
    var body := PageObjects(next + 2, ParentId(olds, next), next + 2 + 2 * n, pages, streams, n);
    NewObjectsShape(next, olds, pages, streams, n);
    CreatedAppend([cat, tree] + body, [font]);
    CreatedAppend([cat, tree], body);
    Pair(cat, tree);
    CreatedAppend([cat], [tree]);
  }

  lemma Pair<T>(a: T, b: T)
    ensures [a] + [b] == [a, b]
  {
  }

  /** The records, the table and the trailer of the placed objects make up the document. */
  lemma WrittenDocument(header: string, objs: seq<PdfObject>, placed: seq<PdfObject>,
                        body: string, table: string, trailer: string)
    requires objs != [] && placed == Place(objs, |header|) && body == header + Records(objs)
    requires table == XrefTable(Offsets(placed))
    requires |placed| == |objs| && placed[0].id == objs[0].id
    requires trailer == Trailer(|placed|, placed[0].id, |body|)
    ensures body + table + trailer == Document(header, objs)
  {
    TrailerOfPlaced(|placed|, placed[0].id, |body|, |objs|, objs[0].id, |header| + |Records(objs)|);
    DocumentParts(header, objs, body, table, trailer);
  }

  /** The written parts make up the document of the objects. */
  lemma DocumentParts(header: string, objs: seq<PdfObject>, body: string, table: string, trailer: string)
    requires objs != []
    requires body == header + Records(objs)
    requires table == XrefTable(Offsets(Place(objs, |header|)))
    requires trailer == Trailer(|objs|, objs[0].id, |header| + |Records(objs)|)
    ensures body + table + trailer == Document(header, objs)
  {
  }

  /** The same trailer, from the placed objects and the written body. */
  lemma TrailerOfPlaced(n: nat, root: int, at: nat, n': nat, root': int, at': nat)
    requires n == n' && root == root' && at == at'
    ensures Trailer(n, root, at) == Trailer(n', root', at')
  {
  }

  /** Placing objects at their offsets keeps their numbers. */
  lemma PlaceKeepsIds(objs: seq<PdfObject>, start: nat, next: int)
    ensures |Place(objs, start)| == |objs|
    ensures forall j :: 0 <= j < |objs| ==> Place(objs, start)[j].id == objs[j].id
    ensures Increasing(objs) ==> Increasing(Place(objs, start))
    ensures Below(objs, next) ==> Below(Place(objs, start), next)
  {
  }

  class PDFGenerator {
    var pages: seq<Page>
    var metadata: Metadata
    var options: ProcessingOptions
    var objects: seq<PdfObject>
    var nextObjectId: int
    /** The (code, message) errors reported. */
    ghost var errors: seq<(int, string)>

    /** Object numbers strictly increase and stay below the counter. */
    ghost predicate Valid()
      reads this
    {
      Increasing(objects) && Below(objects, nextObjectId)
    }

    constructor ()
      ensures Valid()
      ensures pages == [] && metadata == DefaultMetadata && options == Defaults
      ensures objects == [] && nextObjectId == 1 && errors == []
    {
      pages := [];
      metadata := DefaultMetadata;
      options := Defaults;
      objects := [];
      nextObjectId := 1;
      errors := [];
    }

    /** Initialize: take the options and their compatibility level, drop pages and objects, restart numbering at 1. */
    method Initialize(opts: ProcessingOptions) returns (ok: bool)
      modifies this
      ensures ok && Valid()
      ensures options == opts && metadata == old(metadata).(compatibilityLevel := opts.compatibilityLevel)
      ensures pages == [] && objects == [] && nextObjectId == 1 && errors == old(errors)
    {
      options := opts;
      metadata := metadata.(compatibilityLevel := opts.compatibilityLevel);
      pages := [];
      objects := [];
      nextObjectId := 1;
      ok := true;
    }

    method CreateCatalogObject()
      modifies this`objects, this`nextObjectId
      ensures objects == old(objects) + Created([Planned(old(nextObjectId), Catalog(old(nextObjectId) + 1))])
      ensures nextObjectId == old(nextObjectId) + 1
    {
      var id := nextObjectId;
      nextObjectId := nextObjectId + 1;
      var content := "<<\n/Type /Catalog\n/Pages " + Ref(nextObjectId) + "\n>>\n";
      RenderIs(Catalog(nextObjectId));
      CreatedOne(Planned(id, Catalog(nextObjectId)));
      objects := objects + [PdfObject(id, 0, content)];
    }

    /**
     * The page tree; its kids are numbered from first, the counter after
     * this object, one per page of ps (the pages).
     */
    method CreatePagesObject(ghost ps: seq<Page>, ghost first: int)
      requires pages == ps && first == nextObjectId + 1
      modifies this`objects, this`nextObjectId
      ensures objects == old(objects) + Created([Planned(old(nextObjectId), PageTree(|ps|, Kids(first, |ps|)))])
      ensures nextObjectId == first
    {
      var id := nextObjectId;
      nextObjectId := nextObjectId + 1;
      var kids := [];
      for i := 0 to |pages|
        invariant objects == old(objects) && nextObjectId == first
        invariant kids == KidsText(Kids(first, i))
      {
        KidsSnoc(first, i);
        kids := kids + Ref(nextObjectId + i) + " ";
      }
      var content := "<<\n/Type /Pages\n/Count " + NatToString(|pages|) + "\n/Kids [" + kids + "]\n>>\n";
      RenderIs(PageTree(|ps|, Kids(first, |ps|)));
      CreatedOne(Planned(id, PageTree(|ps|, Kids(first, |ps|))));
      objects := objects + [PdfObject(id, 0, content)];
    }

    /** The texts of a page object and of its content stream. */
    method PageTexts(parentId: int, page: Page, contentId: int, fontId: int, stream: string)
      returns (pageText: string, contentText: string)
      ensures pageText == Render(PageNode(parentId, page.width, page.height, contentId, fontId))
      ensures contentText == Render(Contents(stream))
    {
      contentText := "<<\n/Length " + NatToString(|stream|) + "\n>>\nstream\n" + stream + "\nendstream\n";
      pageText := "<<\n/Type /Page\n/Parent " + Ref(parentId) + "\n/MediaBox [0 0 "
        + FormatGeneral(page.width) + " " + FormatGeneral(page.height) + "]\n/Contents " + Ref(contentId)
        + "\n/Resources <<\n  /Font << /F1 " + Ref(fontId) + " >>\n>>\n>>\n";
      PageNodeText(parentId, page.width, page.height, contentId, fontId, pageText);
      ContentsText(stream, contentText);
    }

    /**
     * One page's two objects: the page, whose parent is object 1 of the
     * list, and its content stream, numbered by the counter.
     */
    method CreatePage(page: Page, fontId: int)
      requires AllWellFormed(page.texts) && |objects| >= 2
      modifies this`objects, this`nextObjectId
      ensures objects == old(objects)
        + Created([Planned(old(nextObjectId), PageNode(old(objects)[1].id, page.width, page.height, old(nextObjectId) + 1, fontId)),
                   Planned(old(nextObjectId) + 1, Contents(PageStream(page)))])
      ensures nextObjectId == old(nextObjectId) + 2
    {
      var stream := GeneratePageContent(page);
      var pageId := nextObjectId;
      var contentId := pageId + 1;
      var pageText, contentText := PageTexts(objects[1].id, page, contentId, fontId, stream);
      PagePair(pageId, objects[1].id, page.width, page.height, contentId, fontId, stream, pageText, contentText);
      nextObjectId := nextObjectId + 2;
      objects := objects + [PdfObject(pageId, 0, pageText), PdfObject(contentId, 0, contentText)];
    }

    /**
     * The step of CreatePageObjects for page k: after it, the objects are
     * those of the pages before k and of page k.
     */
    method CreatePageStep(ghost olds: seq<PdfObject>, ghost first: int, ghost parent: int, k: nat, fontId: int)
      requires k < |pages| && PagesWellFormed(pages) && |objects| >= 2 && objects[1].id == parent
      requires nextObjectId == first + 2 * k
      requires objects == olds + Created(PageObjects(first, parent, fontId, pages, Streams(pages), k))
      modifies this`objects, this`nextObjectId
      ensures nextObjectId == first + 2 * (k + 1) && |objects| >= 2 && objects[1].id == parent
      ensures objects == olds + Created(PageObjects(first, parent, fontId, pages, Streams(pages), k + 1))
    {
      ghost var before := objects;
      CreatePage(pages[k], fontId);
      PageStep(first, parent, fontId, pages, Streams(pages), k);
      CreatedStep(olds, PageObjects(first, parent, fontId, pages, Streams(pages), k),
        [Planned(first + 2 * k, PageNode(parent, pages[k].width, pages[k].height, first + 2 * k + 1, fontId)),
         Planned(first + 2 * k + 1, Contents(Streams(pages)[k]))],
        PageObjects(first, parent, fontId, pages, Streams(pages), k + 1),
        before, objects);
    }

    /**
     * A page object and its content stream per page of ps (the pages).
     * Every page names object 1 of the list, parent, as its parent and the
     * font numbered after all the pages' objects.
     */
    method CreatePageObjects(ghost ps: seq<Page>, ghost parent: int, ghost first: int)
      requires pages == ps && PagesWellFormed(pages) && |objects| >= 2 && objects[1].id == parent
      requires first == nextObjectId
      modifies this`objects, this`nextObjectId
      ensures objects == old(objects) + Created(PageObjects(first, parent, first + 2 * |ps|, ps, Streams(ps), |ps|))
      ensures nextObjectId == first + 2 * |ps|
    {
      var fontId := nextObjectId + 2 * |pages|;
      ghost var olds := objects;
      for k := 0 to |pages|
        invariant nextObjectId == first + 2 * k
        invariant |objects| >= 2 && objects[1].id == parent
        invariant objects == olds + Created(PageObjects(first, parent, fontId, pages, Streams(pages), k))
      {
        CreatePageStep(olds, first, parent, k, fontId);
      }
      assert fontId == first + 2 * |ps|;
    }

    method CreateFontObject()
      modifies this`objects, this`nextObjectId
      ensures objects == old(objects) + Created([Planned(old(nextObjectId), Font)])
      ensures nextObjectId == old(nextObjectId) + 1
    {
      var id := nextObjectId;
      nextObjectId := nextObjectId + 1;
      var content := "<<\n/Type /Font\n/Subtype /Type1\n/BaseFont /Helvetica\n>>\n";
      RenderIs(Font);
      CreatedOne(Planned(id, Font));
      objects := objects + [PdfObject(id, 0, content)];
    }

    /**
     * The object loop of WritePDF: each object's offset becomes the length
     * written so far, then its record is written.
     */
    method WriteObjects(header: string) returns (out: string, offsets: seq<nat>)
      modifies this`objects
      ensures objects == Place(old(objects), |header|)
      ensures out == header + Records(old(objects))
      ensures offsets == Offsets(objects)
    {
      ghost var olds := objects;
      var placed := Place(olds, |header|);
      out := header;
      offsets := [];
      for i := 0 to |objects|
        invariant |objects| == |olds|
        invariant forall k :: 0 <= k < i ==> objects[k] == placed[k]
        invariant forall k :: i <= k < |objects| ==> objects[k] == olds[k]
        invariant out == header + Records(olds[..i])
        invariant |offsets| == i && forall k :: 0 <= k < i ==> offsets[k] == objects[k].offset
      {
        PlaceAt(olds, |header|, i);
        var record := IntToString(objects[i].id) + " 0 obj\n" + objects[i].content + "endobj\n\n";
        assert out + record == header + Records(olds[..i + 1]) by {
          assert record == Record(olds[i]);
          FlatMapSnoc(olds, Record, i);
          Assoc(header, Records(olds[..i]), Record(olds[i]));
        }
        objects := objects[i := objects[i].(offset := |out|)];
        offsets := offsets + [|out|];
        out := out + record;
      }
      assert olds[..|olds|] == olds;
      assert objects == placed;
    }

    /** The cross-reference table: the head, then one entry per offset in order. */
    method WriteCrossReferenceTable(offsets: seq<nat>) returns (table: string)
      ensures table == XrefTable(offsets)
    {
      table := "xref\n0 " + NatToString(|offsets| + 1) + "\n0000000000 65535 f \n";
      for i := 0 to |offsets|
        invariant table == XrefHead(|offsets|) + XrefEntries(offsets[..i])
      {
        FlatMapSnoc(offsets, XrefEntry, i);
        Assoc(XrefHead(|offsets|), XrefEntries(offsets[..i]), XrefEntry(offsets[i]));
        table := table + (ZeroPad(NatToString(offsets[i]), 10) + " 00000 n \n");
      }
      assert offsets[..|offsets|] == offsets;
    }

    /** The trailer: the entry count with the free head, the first object as root, the table's offset. */
    method WriteTrailer(xrefOffset: nat) returns (trailer: string)
      requires objects != []
      ensures trailer == Trailer(|objects|, objects[0].id, xrefOffset)
    {
      trailer := "trailer\n<<\n/Size " + NatToString(|objects| + 1) + "\n/Root " + Ref(objects[0].id) + "\n>>\n"
        + ("startxref\n" + NatToString(xrefOffset) + "\n%%EOF\n");
    }

    /**
     * The catalog, the page tree, each page's two objects and the font,
     * appended in that order and numbered by the counter.
     */
    method CreateObjects()
      requires Valid() && PagesWellFormed(pages)
      modifies this`objects, this`nextObjectId
      ensures objects == AllObjects(old(objects), old(nextObjectId), old(pages))
      ensures nextObjectId == old(nextObjectId) + 3 + 2 * |pages|
      ensures Valid() && objects != []
    {
      ghost var olds, next, ps := objects, nextObjectId, pages;
      CreateHead(ps);
      ghost var head := objects;
      CreatePageObjects(ps, ParentId(olds, next), next + 2);
      ghost var body := objects;
      CreateFontObject();
      Assembled(olds, next, ps, head, body, objects);
    }

    /** The catalog, then the page tree; the latter is the second object of the list. */
    method CreateHead(ghost ps: seq<Page>)
      requires pages == ps
      modifies this`objects, this`nextObjectId
      ensures objects == old(objects) + Created([Planned(old(nextObjectId), Catalog(old(nextObjectId) + 1))])
        + Created([Planned(old(nextObjectId) + 1, PageTree(|ps|, Kids(old(nextObjectId) + 2, |ps|)))])
      ensures nextObjectId == old(nextObjectId) + 2
      ensures |objects| >= 2 && objects[1].id == ParentId(old(objects), old(nextObjectId))
    {
      ghost var olds, next := objects, nextObjectId;
      CreateCatalogObject();
      CreatePagesObject(ps, next + 2);
      CreatedOne(Planned(next, Catalog(next + 1)));
      CreatedOne(Planned(next + 1, PageTree(|ps|, Kids(next + 2, |ps|))));
      HeadParent(olds, Created([Planned(next, Catalog(next + 1))]),
        Created([Planned(next + 1, PageTree(|ps|, Kids(next + 2, |ps|)))]), next);
    }

    /**
     * The objects' records after the header, then the cross-reference
     * table and the trailer; each object's offset is set on the way.
     */
    method WriteFile(header: string) returns (out: string)
      requires Valid() && objects != []
      modifies this`objects
      ensures objects == Place(old(objects), |header|)
      ensures out == Document(header, old(objects))
      ensures Valid()
    {
      ghost var all := objects;
      var body, offsets := WriteObjects(header);
      assert Valid() && |objects| == |all| && objects[0].id == all[0].id by {
        PlaceKeepsIds(all, |header|, nextObjectId);
      }
      var table := WriteCrossReferenceTable(offsets);
      var trailer := WriteTrailer(|body|);
      WrittenDocument(header, all, objects, body, table, trailer);
      out := body + table + trailer;
    }

    /**
     * What WritePDF leaves behind, from the objects, counter, errors,
     * pages and compatibility level it started with.
     */
    ghost predicate Wrote(filepath: string, canOpen: bool, ok: bool, out: string,
                          olds: seq<PdfObject>, next: int, errs: seq<(int, string)>, ps: seq<Page>, level: real)
      reads this
    {
      if canOpen then
        ok && errors == errs && nextObjectId == next + 3 + 2 * |ps|
        && objects == Place(AllObjects(olds, next, ps), |FileHeader(level)|)
        && out == Output(olds, next, ps, level)
      else
        !ok && out == [] && objects == olds && nextObjectId == next
        && errors == errs + [(-4, "Cannot create PDF file: " + filepath)]
    }

    /** The part of WritePDF after the file is open: the objects, then the file's text. */
    method WriteOpened(header: string) returns (out: string)
      requires Valid() && PagesWellFormed(pages)
      modifies this`objects, this`nextObjectId
      ensures Valid()
      ensures nextObjectId == old(nextObjectId) + 3 + 2 * |pages|
      ensures objects == Place(AllObjects(old(objects), old(nextObjectId), pages), |header|)
      ensures out == Document(header, AllObjects(old(objects), old(nextObjectId), pages))
    {
      CreateObjects();
      out := WriteFile(header);
    }

    /**
     * WritePDF: when the file cannot be opened, error -4 and no change;
     * otherwise the objects of this write are appended to the existing
     * ones, and the file is the header, every object's record, the table
     * and the trailer.
     */
    method WritePDF(filepath: string, canOpen: bool) returns (ok: bool, out: string)
      requires Valid() && PagesWellFormed(pages)
      modifies this`objects, this`nextObjectId, this`errors
      ensures Valid()
      ensures Wrote(filepath, canOpen, ok, out, old(objects), old(nextObjectId), old(errors),
                    pages, metadata.compatibilityLevel)
    {
      if !canOpen {
        errors := errors + [(-4, "Cannot create PDF file: " + filepath)];
        return false, [];
      }
      out := WriteOpened(FileHeader(metadata.compatibilityLevel));
      ok := true;
    }

    /**
     * CreatePDF: the pages become copies of the parser's pages (with the A4
     * size for a page without dimensions), a non-empty title and creator
     * replace the metadata's, then the file is written.
     */
    method CreatePDF(parser: PostScriptParser, filepath: string, canOpen: bool) returns (ok: bool, out: string)
      requires Valid() && PagesWellFormed(parser.pages)
      modifies this
      ensures Valid()
      ensures pages == parser.pages && options == old(options)
      ensures metadata == old(metadata).(title := NonEmptyOr(parser.title, old(metadata).title),
                                         creator := NonEmptyOr(parser.creator, old(metadata).creator))
      ensures Wrote(filepath, canOpen, ok, out, old(objects), old(nextObjectId), old(errors),
                    pages, metadata.compatibilityLevel)
    {
      var copied := [];
      var count := parser.GetPageCount();
      for i := 0 to count
        invariant copied == parser.pages[..i]
      {
        var width, height := A4Width, A4Height;
        var dimensions := parser.GetPageDimensions(i);
        if dimensions.Some? {
          width, height := dimensions.value.0, dimensions.value.1;
        }
        var page := Page(width, height, parser.GetPagePaths(i), parser.GetPageText(i));
        assert page == parser.pages[i];
        assert parser.pages[..i + 1] == parser.pages[..i] + [page];
        copied := copied + [page];
      }
      assert parser.pages[..count] == parser.pages;
      pages := copied;
      if parser.GetTitle() != [] {
        metadata := metadata.(title := parser.GetTitle());
      }
      if parser.GetCreator() != [] {
        metadata := metadata.(creator := parser.GetCreator());
      }
      ok, out := WritePDF(filepath, canOpen);
    }

    method AddPage(page: Page) returns (ok: bool)
      modifies this`pages
      ensures ok && pages == old(pages) + [page]
    {
      pages := pages + [page];
      ok := true;
    }

    method SetMetadata(m: Metadata)
      modifies this`metadata
      ensures metadata == m
    {
      metadata := m;
    }

    /** Clear: no pages, no objects, numbering restarts at 1. */
    method Clear()
      modifies this`pages, this`objects, this`nextObjectId
      ensures Valid()
      ensures pages == [] && objects == [] && nextObjectId == 1
    {
      pages := [];
      objects := [];
      nextObjectId := 1;
    }
  }
}
