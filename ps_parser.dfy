/**
 * The PostScript parser object: it splits the content into lines, reads
 * the DSC header comments, fits the bounding box onto the target page and
 * interprets every line's tokens into pages of paths and text.
 */
module PostScript {
  import opened Wrappers
  import opened StringUtils
  import opened PageModel
  import opened PsTokens
  import opened PsHeader
  import opened PsMachine

  /** ParseBoundingBox's page effect: the first page, if there is one, takes the box's size. */
  function ResizeFirstPage(pages: seq<Page>, b: BBox): (r: seq<Page>)
    ensures |r| == |pages|
    ensures pages != [] ==>
      && r[1..] == pages[1..]
      && r[0].width == b.x2 - b.x1 && r[0].height == b.y2 - b.y1
      && r[0].paths == pages[0].paths && r[0].texts == pages[0].texts
  {
    if pages == [] then [] else [pages[0].(width := b.x2 - b.x1, height := b.y2 - b.y1)] + pages[1..]
  }

  lemma ResizeIsUpdate(pages: seq<Page>, b: BBox)
    requires pages != []
    ensures ResizeFirstPage(pages, b) == pages[0 := pages[0].(width := b.x2 - b.x1, height := b.y2 - b.y1)]
  {
    var r := ResizeFirstPage(pages, b);
    assert forall i :: 0 <= i < |r| ==> r[i] == pages[0 := pages[0].(width := b.x2 - b.x1, height := b.y2 - b.y1)][i];
  }

  /** The pages after the comment loop has read one line. */
  function CommentPage(pages: seq<Page>, line: string): seq<Page>
  {
    match BoxOfLine(line)
    case Some(b) => ResizeFirstPage(pages, b)
    case None => pages
  }

  /** The pages after the comment loop has read every line. */
  function CommentPages(pages: seq<Page>, lines: seq<string>): seq<Page>
    decreases |lines|
  {
    if lines == [] then pages else CommentPages(CommentPage(pages, lines[0]), lines[1..])
  }

  /** With no page yet, as in ParseContent, the comment pass has no page to resize. */
  lemma {:induction false} CommentPassWithoutPages(lines: seq<string>)
    ensures CommentPages([], lines) == []
    decreases |lines|
  {
    if lines != [] {
      CommentPassWithoutPages(lines[1..]);
    }
  }

  /**
   * With a page, the comment pass leaves the first page the size of the
   * box the header ends with when a box line matched, and every page as
   * it was when none did; only the first page's size can change.
   */
  lemma {:induction false} CommentPagesFollowHeader(pages: seq<Page>, h: Header, lines: seq<string>)
    requires pages != []
    ensures var r := CommentPages(pages, lines);
      var bb := ApplyComments(h, lines).bbox;
      |r| == |pages| && r[1..] == pages[1..]
      && r[0].paths == pages[0].paths && r[0].texts == pages[0].texts
      && (HasBoxLine(lines) ==> r[0].width == bb.x2 - bb.x1 && r[0].height == bb.y2 - bb.y1)
      && (!HasBoxLine(lines) ==> r == pages)
    decreases |lines|
  {
    if lines != [] {
      var line, rest := lines[0], lines[1..];
      assert forall i :: 0 <= i < |rest| ==> rest[i] == lines[i + 1];
      var p1 := CommentPage(pages, line);
      var h1 := ApplyComment(h, line);
      CommentPagesFollowHeader(p1, h1, rest);
      if !HasBoxLine(rest) {
        BoxUntouched(h1, rest);
        if BoxOfLine(line).None? {
          assert !HasBoxLine(lines) by {
            forall i | 0 <= i < |lines|
              ensures BoxOfLine(lines[i]).None?
            {
              if i > 0 {
                assert lines[i] == rest[i - 1];
              }
            }
          }
        } else {
          assert BoxOfLine(lines[0]).Some?;
        }
      } else {
        var k :| 0 <= k < |rest| && BoxOfLine(rest[k]).Some?;
        assert BoxOfLine(lines[k + 1]).Some?;
      }
    }
  }

  class PostScriptParser {
    var pages: seq<Page>
    var title: string
    var creator: string
    var bbox: BBox
    var dscCompliant: bool
    var transform: Transform
    var state: GraphicsState
    var stack: seq<GraphicsState>
    var currentPath: seq<PathElement>
    /** The (code, message) errors reported to the error handler. */
    ghost var errors: seq<(int, string)>

    /** The header fields as one value. */
    function HeaderState(): Header
      reads this
    {
      Header(title, creator, bbox, dscCompliant)
    }

    /** The fields the token loop changes, as one value. */
    function MachineState(): Machine
      reads this
    {
      Machine(pages, state, stack, currentPath)
    }

    constructor ()
      ensures pages == [] && title == [] && creator == [] && !dscCompliant
      ensures bbox == DefaultBBox && transform == InitialTransform
      ensures state == InitialState && stack == [] && currentPath == []
      ensures errors == []
    {
      errors := [];
      pages := [];
      title := [];
      creator := [];
      bbox := DefaultBBox;
      dscCompliant := false;
      transform := InitialTransform;
      state := InitialState;
      stack := [];
      currentPath := [];
    }

    /**
     * ParseFile: the content of the file at filepath, or None when it
     * cannot be opened; then -1 is reported with the path and nothing is
     * parsed.
     */
    method ParseFile(filepath: string, file: Option<string>) returns (ok: bool)
      modifies this
      ensures file.None? ==>
        !ok && MachineState() == old(MachineState()) && HeaderState() == old(HeaderState())
        && transform == old(transform)
      ensures file.None? ==> errors == old(errors) + [(-1, "Cannot open PostScript file: " + filepath)]
      ensures file.Some? ==> ok && Parsed(file.value, old(bbox), old(state), old(stack), old(currentPath))
      ensures file.Some? ==> errors == old(errors)
    {
      if file.None? {
        errors := errors + [(-1, "Cannot open PostScript file: " + filepath)];
        return false;
      }
      ok := ParseContent(file.value);
    }

    /**
     * The state after parsing content: the header read from the lines, a
     * transform fitted to its bounding box, and one initial page followed
     * by the effect of every line. The previous bounding box, graphics
     * state, save stack and pending path are not reset.
     */
    ghost predicate Parsed(content: string, bbox0: BBox, state0: GraphicsState,
                           stack0: seq<GraphicsState>, path0: seq<PathElement>)
      reads this
    {
      var lines := Lines(content);
      && HeaderState() == ApplyComments(Header([], [], bbox0, false), lines)
      && transform == FitTransform(bbox)
      && MachineState() == RunLines(Machine([EmptyPage], state0, stack0, path0), lines, transform)
    }

    /**
     * ParseContent always succeeds. It leaves one page more than the
     * content has showpage operators, each A4-sized and each text element
     * coloured with three components.
     */
    method ParseContent(content: string) returns (ok: bool)
      modifies this`pages, this`title, this`creator, this`bbox, this`dscCompliant, this`transform,
        this`state, this`stack, this`currentPath
      ensures ok && Parsed(content, old(bbox), old(state), old(stack), old(currentPath))
      ensures |pages| == 1 + ShowpagesIn(Lines(content))
      ensures Good(MachineState())
    {
      pages := [];
      title := [];
      creator := [];
      dscCompliant := false;
      var lines := SplitLines(content);
      ParseDSCComments(lines);
      CommentPassWithoutPages(lines);
      assert pages == [];
      SetupCoordinateTransform();
      pages := [EmptyPage];
      ghost var start := MachineState();
      ParseLines(lines);
      RunLinesPageCount(start, lines, transform);
      RunLinesKeepsGood(start, lines, transform);
      ok := true;
    }

    /** The line loop of ParseContent: every line's tokens in turn. */
    method ParseLines(lines: seq<string>)
      modifies this`pages, this`state, this`stack, this`currentPath
      ensures MachineState() == RunLines(old(MachineState()), lines, transform)
      ensures HeaderState() == old(HeaderState()) && transform == old(transform)
    {
      for i := 0 to |lines|
        invariant RunLines(MachineState(), lines[i..], transform) == RunLines(old(MachineState()), lines, transform)
        invariant HeaderState() == old(HeaderState()) && transform == old(transform)
      {
        assert lines[i..] == [lines[i]] + lines[i + 1..];
        ParseLine(lines[i]);
      }
      assert lines[|lines|..] == [];
    }

    /** Reads every "%%" comment line into the header fields; a matching box line also resizes the first page. */
    method ParseDSCComments(lines: seq<string>)
      modifies this`pages, this`title, this`creator, this`bbox, this`dscCompliant
      ensures HeaderState() == ApplyComments(old(HeaderState()), lines)
      ensures pages == CommentPages(old(pages), lines)
      ensures state == old(state) && stack == old(stack) && currentPath == old(currentPath)
      ensures transform == old(transform)
    {
      for i := 0 to |lines|
        invariant ApplyComments(HeaderState(), lines[i..]) == ApplyComments(old(HeaderState()), lines)
        invariant CommentPages(pages, lines[i..]) == CommentPages(old(pages), lines)
        invariant state == old(state) && stack == old(stack) && currentPath == old(currentPath)
        invariant transform == old(transform)
      {
        assert lines[i..] == [lines[i]] + lines[i + 1..];
        ParseDSCLine(lines[i]);
      }
      assert lines[|lines|..] == [];
    }

    /** The body of the comment loop: one line's effect on the header and the pages. */
    method ParseDSCLine(line: string)
      modifies this`pages, this`title, this`creator, this`bbox, this`dscCompliant
      ensures HeaderState() == ApplyComment(old(HeaderState()), line)
      ensures pages == CommentPage(old(pages), line)
    {
      if StartsWith(line, "%%") {
        dscCompliant := true;
        if StartsWith(line, "%%Title:") {
          title := Trim(line[8..]);
        } else if StartsWith(line, "%%Creator:") {
          creator := Trim(line[10..]);
        } else if StartsWith(line, BBoxKeyword) {
          ParseBoundingBox(line);
        }
      }
    }

    /** A matching box line sets the box and, when there is a page, the first page's size. */
    method ParseBoundingBox(line: string)
      modifies this`pages, this`bbox
      ensures bbox == BoundingBoxOf(line, old(bbox))
      ensures pages == (match SearchBBox(line, 0)
        case Some(b) => ResizeFirstPage(old(pages), b)
        case None => old(pages))
    {
      var found := SearchBBox(line, 0);
      match found {
        case Some(b) =>
          bbox := b;
          if pages != [] {
            var first := pages[0].(width := b.x2 - b.x1, height := b.y2 - b.y1);
            ResizeIsUpdate(pages, b);
            pages := pages[0 := first];
          }
        case None =>
      }
    }

    /** Fits the bounding box onto the target page, keeping its aspect ratio. */
    method SetupCoordinateTransform()
      modifies this`transform
      ensures transform == FitTransform(bbox)
      ensures HeaderState() == old(HeaderState()) && MachineState() == old(MachineState())
    {
      transform := FitTransform(bbox);
    }

    /** Interprets the tokens of one line; blank and comment lines do nothing. */
    method ParseLine(line: string)
      modifies this`pages, this`state, this`stack, this`currentPath
      ensures MachineState() == RunLine(old(MachineState()), line, transform)
      ensures HeaderState() == old(HeaderState()) && transform == old(transform)
    {
      var trimmed := Trim(line);
      if trimmed == [] || trimmed[0] == '%' {
        return;
      }
      var tokens := Tokenize(trimmed);
      TokensNonEmpty(trimmed);
      assert tokens == LineTokens(line);
      for i := 0 to |tokens|
        invariant MachineState() == Run(old(MachineState()), tokens, i, transform)
        invariant HeaderState() == old(HeaderState()) && transform == old(transform)
      {
        ExecuteToken(tokens, i);
      }
    }

    /** One pass of the token loop: the operator tokens[i] names, if its operands are there. */
    method ExecuteToken(tokens: seq<string>, i: nat)
      requires i < |tokens| && NonEmptyTokens(tokens)
      modifies this`pages, this`state, this`stack, this`currentPath
      ensures MachineState() == Step(old(MachineState()), tokens, i, transform)
      ensures HeaderState() == old(HeaderState()) && transform == old(transform)
    {
      match OpOf(tokens[i]) {
        case Gsave => StateOperator(tokens, i);
        case Grestore => StateOperator(tokens, i);
        case SetLineWidth => StateOperator(tokens, i);
        case SetRgbColor => StateOperator(tokens, i);
        case MoveTo => PointOperator(tokens, i);
        case LineTo => PointOperator(tokens, i);
        case CurveTo => CurveOperator(tokens, i);
        case ClosePath => currentPath := currentPath + [PathElement(CLOSE_PATH, [])];
        case Stroke => PaintOperator(tokens, i);
        case Fill => PaintOperator(tokens, i);
        case Show => ShowOperator(tokens, i);
        case Showpage => pages := pages + [EmptyPage];
        case NotAnOperator =>
      }
    }

    /** gsave, grestore, setlinewidth and setrgbcolor. */
    method StateOperator(tokens: seq<string>, i: nat)
      requires i < |tokens| && NonEmptyTokens(tokens)
      requires OpOf(tokens[i]) in {Gsave, Grestore, SetLineWidth, SetRgbColor}
      modifies this`state, this`stack
      ensures MachineState() == Step(old(MachineState()), tokens, i, transform)
      ensures HeaderState() == old(HeaderState()) && transform == old(transform)
    {
      var op := OpOf(tokens[i]);
      if op == Gsave {
        stack := stack + [state];
      } else if op == Grestore {
        if stack != [] {
          state := stack[|stack| - 1];
          stack := stack[..|stack| - 1];
        }
      } else if op == SetLineWidth {
        if NumericBefore(tokens, i, 1) {
          state := state.(lineWidth := Num(tokens[i - 1]));
        }
      } else {
        if NumericBefore(tokens, i, 3) {
          state := state.(color := (Num(tokens[i - 3]), Num(tokens[i - 2]), Num(tokens[i - 1])));
        }
      }
    }

    /**
     * moveto and lineto: the point goes through the transform
     * (TransformCoordinates, which is Apply) before it is stored.
     */
    method PointOperator(tokens: seq<string>, i: nat)
      requires i < |tokens| && NonEmptyTokens(tokens)
      requires OpOf(tokens[i]) in {MoveTo, LineTo}
      modifies this`state, this`currentPath
      ensures MachineState() == Step(old(MachineState()), tokens, i, transform)
      ensures HeaderState() == old(HeaderState()) && transform == old(transform)
    {
      if NumericBefore(tokens, i, 2) {
        var kind := if OpOf(tokens[i]) == MoveTo then MOVE_TO else LINE_TO;
        var p := Apply(transform, Num(tokens[i - 2]), Num(tokens[i - 1]));
        state := state.(currentX := p.0, currentY := p.1);
        currentPath := currentPath + [PathElement(kind, [p.0, p.1])];
      }
    }

    /** curveto: three transformed points; the last becomes the current point. */
    method CurveOperator(tokens: seq<string>, i: nat)
      requires i < |tokens| && NonEmptyTokens(tokens)
      requires OpOf(tokens[i]) == CurveTo
      modifies this`state, this`currentPath
      ensures MachineState() == Step(old(MachineState()), tokens, i, transform)
      ensures HeaderState() == old(HeaderState()) && transform == old(transform)
    {
      PsMachine.CurveOperator(MachineState(), tokens, i, transform);
      if NumericBefore(tokens, i, 6) {
        var p1 := Apply(transform, Num(tokens[i - 6]), Num(tokens[i - 5]));
        var p2 := Apply(transform, Num(tokens[i - 4]), Num(tokens[i - 3]));
        var p3 := Apply(transform, Num(tokens[i - 2]), Num(tokens[i - 1]));
        currentPath := currentPath + [PathElement(CURVE_TO, [p1.0, p1.1, p2.0, p2.1, p3.0, p3.1])];
        state := state.(currentX := p3.0, currentY := p3.1);
      }
    }

    /** stroke commits a non-empty path; fill commits it too and always clears it. */
    method PaintOperator(tokens: seq<string>, i: nat)
      requires i < |tokens| && NonEmptyTokens(tokens)
      requires OpOf(tokens[i]) in {Stroke, Fill}
      modifies this`pages, this`currentPath
      ensures MachineState() == Step(old(MachineState()), tokens, i, transform)
      ensures HeaderState() == old(HeaderState()) && transform == old(transform)
    {
      if OpOf(tokens[i]) == Stroke {
        if currentPath != [] && pages != [] {
          CommitPath();
        }
      } else {
        if pages != [] && currentPath != [] {
          CommitPath();
        }
        currentPath := [];
      }
    }

    /** show records the parenthesised operand before it as text on the last page. */
    method ShowOperator(tokens: seq<string>, i: nat)
      requires i < |tokens| && NonEmptyTokens(tokens)
      requires OpOf(tokens[i]) == Show
      modifies this`pages
      ensures MachineState() == Step(old(MachineState()), tokens, i, transform)
      ensures HeaderState() == old(HeaderState()) && transform == old(transform)
    {
      if i > 0 {
        var operand := tokens[i - 1];
        if operand[0] == '(' && operand[|operand| - 1] == ')' {
          var text := operand[1..|operand| - 1];
          var p := Apply(transform, state.currentX, state.currentY);
          var element := ShowElement(text, p.0, p.1, state);
          if pages != [] {
            var last := pages[|pages| - 1];
            pages := pages[|pages| - 1 := last.(texts := last.texts + [element])];
          }
        }
      }
    }

    /** Copies the pending path, element by element, onto the last page and clears it. */
    method CommitPath()
      requires pages != []
      modifies this`pages, this`currentPath
      ensures pages == AppendPaths(old(pages), old(currentPath)) && currentPath == []
      ensures state == old(state) && stack == old(stack)
      ensures HeaderState() == old(HeaderState()) && transform == old(transform)
    {
      ghost var last0 := pages[|pages| - 1];
      var k := 0;
      assert last0.paths + currentPath[..0] == last0.paths;
      while k < |currentPath|
        invariant 0 <= k <= |currentPath|
        invariant pages == old(pages)[|old(pages)| - 1 := last0.(paths := last0.paths + currentPath[..k])]
        invariant currentPath == old(currentPath)
        invariant state == old(state) && stack == old(stack)
        invariant HeaderState() == old(HeaderState()) && transform == old(transform)
      {
        var last := pages[|pages| - 1];
        assert last.paths == last0.paths + currentPath[..k];
        assert currentPath[..k + 1] == currentPath[..k] + [currentPath[k]];
        assert last.paths + [currentPath[k]] == last0.paths + currentPath[..k + 1];
        pages := pages[|pages| - 1 := last.(paths := last.paths + [currentPath[k]])];
        k := k + 1;
      }
      assert currentPath[..k] == currentPath;
      currentPath := [];
    }

    function GetPageCount(): (n: nat)
      reads this
      ensures n == |pages|
    {
      |pages|
    }

    /** The width and height of a page, or None for an index out of range. */
    function GetPageDimensions(index: int): (r: Option<(real, real)>)
      reads this
      ensures r.Some? <==> 0 <= index < |pages|
      ensures r.Some? ==> r.value == (pages[index].width, pages[index].height)
    {
      if index < 0 || index >= |pages| then None
      else Some((pages[index].width, pages[index].height))
    }

    /** The paths of a page, or none for an index out of range. */
    function GetPagePaths(index: int): (r: seq<PathElement>)
      reads this
      ensures 0 <= index < |pages| ==> r == pages[index].paths
      ensures !(0 <= index < |pages|) ==> r == []
    {
      if index < 0 || index >= |pages| then [] else pages[index].paths
    }

    /** The text elements of a page, or none for an index out of range. */
    function GetPageText(index: int): (r: seq<TextElement>)
      reads this
      ensures 0 <= index < |pages| ==> r == pages[index].texts
      ensures !(0 <= index < |pages|) ==> r == []
    {
      if index < 0 || index >= |pages| then [] else pages[index].texts
    }

    function GetBoundingBox(): (b: BBox)
      reads this
      ensures b == bbox
    {
      bbox
    }

    function IsDSCCompliant(): (r: bool)
      reads this
      ensures r == dscCompliant
    {
      dscCompliant
    }

    function GetTitle(): (r: string)
      reads this
      ensures r == title
    {
      title
    }

    function GetCreator(): (r: string)
      reads this
      ensures r == creator
    {
      creator
    }
  }
}
