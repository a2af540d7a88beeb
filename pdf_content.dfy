/**
 * A page's content stream: a fixed prologue with a test rectangle, the
 * page's path elements, a text block and a closing restore. The stream is
 * modelled as its list of operator lines, each written with a trailing
 * newline.
 */
module PdfContent {
  import opened Numbers
  import opened PageModel

  /** Lines written one after another, each followed by "\n". */
  function Unlines(lines: seq<string>): string
    decreases |lines|
  {
    if |lines| == 0 then [] else Unlines(lines[..|lines| - 1]) + lines[|lines| - 1] + "\n"
  }

  lemma {:induction false} UnlinesAppend(a: seq<string>, b: seq<string>)
    ensures Unlines(a + b) == Unlines(a) + Unlines(b)
    decreases |b|
  {
    if b == [] {
      assert a + b == a;
    } else {
      var b' := b[..|b| - 1];
      assert (a + b)[..|a + b| - 1] == a + b';
      UnlinesAppend(a, b');
    }
  }

  /** The number of lines equal to l. */
  function CountLine(lines: seq<string>, l: string): nat
    decreases |lines|
  {
    if |lines| == 0 then 0
    else CountLine(lines[..|lines| - 1], l) + (if lines[|lines| - 1] == l then 1 else 0)
  }

  lemma {:induction false} CountLineAppend(a: seq<string>, b: seq<string>, l: string)
    ensures CountLine(a + b, l) == CountLine(a, l) + CountLine(b, l)
    decreases |b|
  {
    if b == [] {
      assert a + b == a;
    } else {
      var b' := b[..|b| - 1];
      assert (a + b)[..|a + b| - 1] == a + b';
      CountLineAppend(a, b', l);
    }
  }

  /** No line is l. */
  predicate Avoids(lines: seq<string>, l: string)
  {
    forall k :: 0 <= k < |lines| ==> lines[k] != l
  }

  lemma {:induction false} AvoidsCount(lines: seq<string>, l: string)
    requires Avoids(lines, l)
    ensures CountLine(lines, l) == 0
    decreases |lines|
  {
    if lines != [] {
      AvoidsCount(lines[..|lines| - 1], l);
    }
  }

  /** The line's last character is c. */
  predicate EndsWith(line: string, c: char) { line != [] && line[|line| - 1] == c }

  // ---------------------------------------------------------------
  // Literal-string escaping (section 7.3.4.2 of ISO 32000-1).
  // ---------------------------------------------------------------

  predicate NeedsEscape(c: char) { c == '(' || c == ')' || c == '\\' }

  /** EscapeString: a backslash before every parenthesis and backslash. */
  function Escape(s: string): string
    decreases |s|
  {
    if |s| == 0 then []
    else (if NeedsEscape(s[0]) then ['\\', s[0]] else [s[0]]) + Escape(s[1..])
  }

  /** Drops the backslash of every two-character escape. */
  function Unescape(s: string): string
    decreases |s|
  {
    if |s| == 0 then []
    else if s[0] == '\\' && |s| >= 2 then [s[1]] + Unescape(s[2..])
    else [s[0]] + Unescape(s[1..])
  }

  function CountEscapes(s: string): nat
    decreases |s|
  {
    if |s| == 0 then 0 else (if NeedsEscape(s[0]) then 1 else 0) + CountEscapes(s[1..])
  }

  lemma {:induction false} EscapeAppend(a: string, b: string)
    ensures Escape(a + b) == Escape(a) + Escape(b)
    decreases |a|
  {
    if a == [] {
      assert a + b == b;
    } else {
      assert (a + b)[1..] == a[1..] + b;
      EscapeAppend(a[1..], b);
    }
  }

  /** Removing the inserted backslashes gives back the original text. */
  lemma {:induction false} UnescapeEscape(s: string)
    ensures Unescape(Escape(s)) == s
    decreases |s|
  {
    if s != [] {
      UnescapeEscape(s[1..]);
      var e := Escape(s);
      if NeedsEscape(s[0]) {
        assert e[2..] == Escape(s[1..]);
      } else {
        assert e[1..] == Escape(s[1..]);
      }
    }
  }

  /** The escaped text is longer by exactly the number of escaped characters. */
  lemma {:induction false} EscapeLength(s: string)
    ensures |Escape(s)| == |s| + CountEscapes(s)
    decreases |s|
  {
    if s != [] {
      EscapeLength(s[1..]);
    }
  }

  /** Text without parentheses or backslashes is written unchanged. */
  lemma {:induction false} EscapePlain(s: string)
    requires forall i :: 0 <= i < |s| ==> !NeedsEscape(s[i])
    ensures Escape(s) == s
    decreases |s|
  {
    if s != [] {
      EscapePlain(s[1..]);
    }
  }

  /** EscapeString, appending to the result character by character. */
  method EscapeString(str: string) returns (result: string)
    ensures result == Escape(str)
  {
    result := [];
    for i := 0 to |str|
      invariant result == Escape(str[..i])
    {
      if str[i] == '(' || str[i] == ')' || str[i] == '\\' {
        result := result + ['\\'];
      }
      result := result + [str[i]];
      assert str[..i + 1] == str[..i] + [str[i]];
      EscapeAppend(str[..i], [str[i]]);
    }
    assert str[..|str|] == str;
  }

  // ---------------------------------------------------------------
  // The lines of a content stream.
  // ---------------------------------------------------------------

  /** Numbers in the content stream are written fixed-point with two decimals. */
  function Fixed2(r: real): string { FormatFixed(r, 2) }

  /** Graphics defaults and the test rectangle written before the page's own paths. */
  const Prologue: seq<string> := [
    "q", "1 0 0 1 0 0 cm", "0 0 0 RG", "0 0 0 rg", "1 w", "1 J", "1 j",
    "% Test rectangle", "100 100 m", "150 100 l", "150 150 l", "100 150 l", "h", "S"]

  /** A moveto with both coordinates: the only element that opens a subpath. */
  predicate StartsSubpath(e: PathElement) { e.kind == MOVE_TO && |e.points| >= 2 }

  /** Whether a subpath is open after rendering these elements. */
  function OpenAfter(paths: seq<PathElement>): bool
    decreases |paths|
  {
    |paths| > 0 && (OpenAfter(paths[..|paths| - 1]) || StartsSubpath(paths[|paths| - 1]))
  }

  /** The lines one element renders; a moveto first strokes an open subpath. */
  function ElementLines(e: PathElement, open: bool): seq<string>
  {
    var p := e.points;
    match e.kind
    case MOVE_TO =>
      if |p| >= 2 then (if open then ["S"] else []) + [Fixed2(p[0]) + " " + Fixed2(p[1]) + " m"] else []
    case LINE_TO =>
      if |p| >= 2 then [Fixed2(p[0]) + " " + Fixed2(p[1]) + " l"] else []
    case CURVE_TO =>
      if |p| >= 6 then
        [Fixed2(p[0]) + " " + Fixed2(p[1]) + " " + Fixed2(p[2]) + " " + Fixed2(p[3]) + " "
         + Fixed2(p[4]) + " " + Fixed2(p[5]) + " c"]
      else []
    case CLOSE_PATH => ["h"]
  }

  /** The lines of the path elements, before the final stroke. */
  function PathBody(paths: seq<PathElement>): seq<string>
    decreases |paths|
  {
    if |paths| == 0 then []
    else
      var prefix := paths[..|paths| - 1];
      PathBody(prefix) + ElementLines(paths[|paths| - 1], OpenAfter(prefix))
  }

  /** The page's paths: their lines and a stroke of the last open subpath. */
  function PathLines(paths: seq<PathElement>): seq<string>
  {
    PathBody(paths) + (if OpenAfter(paths) then ["S"] else [])
  }

  /**
   * Colour component k of a text element. Every element the parser records
   * has three components; a shorter vector reads as 0 so that rendering is
   * defined for every element.
   */
  function Component(e: TextElement, k: nat): real
  {
    if k < |e.color| then e.color[k] else 0.0
  }

  /** One text element: its fill colour, its text matrix and the escaped string. */
  function TextElementLines(e: TextElement): (r: seq<string>)
    ensures |r| == 3
  {
    [Fixed2(Component(e, 0)) + " " + Fixed2(Component(e, 1)) + " " + Fixed2(Component(e, 2)) + " rg",
     "1 0 0 1 " + Fixed2(e.x) + " " + Fixed2(e.y) + " Tm",
     "(" + Escape(e.text) + ") Tj"]
  }

  /** f's output for every element, in order. */
  function FlatMap<T, U>(xs: seq<T>, f: T -> seq<U>): seq<U>
    decreases |xs|
  {
    if |xs| == 0 then [] else FlatMap(xs[..|xs| - 1], f) + f(xs[|xs| - 1])
  }

  lemma {:induction false} FlatMapAppend<T, U>(a: seq<T>, b: seq<T>, f: T -> seq<U>)
    ensures FlatMap(a + b, f) == FlatMap(a, f) + FlatMap(b, f)
    decreases |b|
  {
    if b == [] {
      assert a + b == a;
    } else {
      var b' := b[..|b| - 1];
      assert (a + b)[..|a + b| - 1] == a + b';
      assert (a + b)[|a + b| - 1] == b[|b| - 1];
      FlatMapAppend(a, b', f);
    }
  }

  /** Element j's output sits between the output of the elements before and after it. */
  lemma FlatMapSplit<T, U>(xs: seq<T>, f: T -> seq<U>, j: nat)
    requires j < |xs|
    ensures FlatMap(xs, f) == FlatMap(xs[..j], f) + f(xs[j]) + FlatMap(xs[j + 1..], f)
  {
    var a, b := xs[..j], xs[j + 1..];
    assert xs == a + ([xs[j]] + b);
    FlatMapAppend(a, [xs[j]] + b, f);
    FlatMapAppend([xs[j]], b, f);
    FlatMapOne(xs[j], f);
  }

  /** Element j's output is found right after the output of the elements before it. */
  lemma FlatMapAt<T, U>(xs: seq<T>, f: T -> seq<U>, j: nat)
    requires j < |xs|
    ensures |FlatMap(xs[..j], f)| + |f(xs[j])| <= |FlatMap(xs, f)|
    ensures FlatMap(xs, f)[|FlatMap(xs[..j], f)|..|FlatMap(xs[..j], f)| + |f(xs[j])|] == f(xs[j])
  {
    FlatMapSplit(xs, f, j);
    SliceMiddle(FlatMap(xs[..j], f), f(xs[j]), FlatMap(xs[j + 1..], f));
  }

  lemma SliceMiddle<U>(a: seq<U>, b: seq<U>, c: seq<U>)
    ensures (a + b + c)[|a|..|a| + |b|] == b
  {
  }

  lemma FlatMapOne<T, U>(x: T, f: T -> seq<U>)
    ensures FlatMap([x], f) == f(x)
  {
    assert [x][..0] == [];
  }

  /** When every element yields n items, element j's output starts at n * j. */
  lemma {:induction false} FlatMapUniform<T, U>(xs: seq<T>, f: T -> seq<U>, n: nat)
    requires forall i :: 0 <= i < |xs| ==> |f(xs[i])| == n
    ensures |FlatMap(xs, f)| == n * |xs|
    decreases |xs|
  {
    if xs != [] {
      var init := xs[..|xs| - 1];
      assert forall i :: 0 <= i < |init| ==> init[i] == xs[i];
      FlatMapUniform(init, f, n);
      assert FlatMap(xs, f) == FlatMap(init, f) + f(xs[|xs| - 1]);
      assert |FlatMap(xs, f)| == n * |init| + n;
      assert n * |init| + n == n * |xs|;
    }
  }

  function TextBody(texts: seq<TextElement>): (r: seq<string>)
    ensures |r| == 3 * |texts|
  {
    FlatMapUniform(texts, TextElementLines, 3);
    FlatMap(texts, TextElementLines)
  }

  /** The text block: present only when there is text, with one font selection. */
  function TextLines(texts: seq<TextElement>): seq<string>
  {
    if |texts| == 0 then [] else ["BT", "/F1 12 Tf"] + TextBody(texts) + ["ET"]
  }

  function PageLines(page: Page): seq<string>
  {
    Prologue + PathLines(page.paths) + TextLines(page.texts) + ["Q"]
  }

  /**
   * GeneratePageContent's output for a page. It goes through StreamAt, a
   * recursive function, so that proofs about whole documents keep the
   * stream folded; PageStreamLines unfolds it.
   */
  function PageStream(page: Page): string
  {
    StreamAt(page, 2)
  }

  function StreamAt(page: Page, layer: nat): string
  {
    if layer == 0 then Unlines(PageLines(page)) else StreamAt(page, layer - 1)
  }

  /** The stream of a page: its lines, each ended by a newline. */
  lemma PageStreamLines(page: Page)
    ensures PageStream(page) == Unlines(PageLines(page))
  {
    assert StreamAt(page, 1) == StreamAt(page, 0) == Unlines(PageLines(page));
  }

  // ---------------------------------------------------------------
  // Properties of the content stream.
  // ---------------------------------------------------------------

  /** The number of elements that open a subpath. */
  function Subpaths(paths: seq<PathElement>): nat
    decreases |paths|
  {
    if |paths| == 0 then 0
    else Subpaths(paths[..|paths| - 1]) + (if StartsSubpath(paths[|paths| - 1]) then 1 else 0)
  }

  lemma {:induction false} OpenIffSubpath(paths: seq<PathElement>)
    ensures OpenAfter(paths) <==> Subpaths(paths) > 0
    decreases |paths|
  {
    if paths != [] {
      OpenIffSubpath(paths[..|paths| - 1]);
    }
  }

  /** A one-line list counts that line once, and any other line not at all. */
  lemma CountOne(x: string, l: string)
    ensures CountLine([x], l) == if x == l then 1 else 0
  {
    assert [x][..0] == [];
  }

  /** A line ending in an operator other than S is not the stroke line. */
  lemma NotStroke(operands: string, op: string)
    requires |op| > 0 && op[|op| - 1] != 'S'
    ensures operands + op != "S"
  {
    var x := operands + op;
    assert x[|x| - 1] == op[|op| - 1];
  }

  lemma MoveStrokes(e: PathElement, open: bool)
    requires e.kind == MOVE_TO && |e.points| >= 2
    ensures CountLine(ElementLines(e, open), "S") == if open then 1 else 0
  {
    var p := e.points;
    var m := Fixed2(p[0]) + " " + Fixed2(p[1]) + " m";
    NotStroke(Fixed2(p[0]) + " " + Fixed2(p[1]), " m");
    CountOne(m, "S");
    if open {
      CountOne("S", "S");
      CountLineAppend(["S"], [m], "S");
    } else {
      assert [] + [m] == [m];
    }
  }

  lemma LineNoStroke(e: PathElement, open: bool)
    requires e.kind == LINE_TO && |e.points| >= 2
    ensures CountLine(ElementLines(e, open), "S") == 0
  {
    var p := e.points;
    NotStroke(Fixed2(p[0]) + " " + Fixed2(p[1]), " l");
    CountOne(Fixed2(p[0]) + " " + Fixed2(p[1]) + " l", "S");
  }

  lemma CurveNoStroke(e: PathElement, open: bool)
    requires e.kind == CURVE_TO && |e.points| >= 6
    ensures CountLine(ElementLines(e, open), "S") == 0
  {
    var p := e.points;
    var operands := Fixed2(p[0]) + " " + Fixed2(p[1]) + " " + Fixed2(p[2]) + " " + Fixed2(p[3]) + " "
                    + Fixed2(p[4]) + " " + Fixed2(p[5]);
    NotStroke(operands, " c");
    CountOne(operands + " c", "S");
  }

  /** An element's lines hold one stroke exactly when it opens a subpath after another. */
  lemma ElementStrokes(e: PathElement, open: bool)
    ensures CountLine(ElementLines(e, open), "S") == if StartsSubpath(e) && open then 1 else 0
  {
    match e.kind {
      case MOVE_TO =>
        if |e.points| >= 2 { MoveStrokes(e, open); }
      case LINE_TO =>
        if |e.points| >= 2 { LineNoStroke(e, open); }
      case CURVE_TO =>
        if |e.points| >= 6 { CurveNoStroke(e, open); }
      case CLOSE_PATH =>
        CountOne("h", "S");
    }
  }

  lemma {:induction false} BodyStrokes(paths: seq<PathElement>)
    ensures CountLine(PathBody(paths), "S") + (if OpenAfter(paths) then 1 else 0) == Subpaths(paths)
    decreases |paths|
  {
    if paths != [] {
      var prefix := paths[..|paths| - 1];
      var e := paths[|paths| - 1];
      BodyStrokes(prefix);
      CountLineAppend(PathBody(prefix), ElementLines(e, OpenAfter(prefix)), "S");
      ElementStrokes(e, OpenAfter(prefix));
    }
  }

  /**
   * The page's paths are stroked once per subpath: the number of "S"
   * lines equals the number of moveto elements with both coordinates.
   */
  lemma PathStrokes(paths: seq<PathElement>)
    ensures CountLine(PathLines(paths), "S") == Subpaths(paths)
  {
    BodyStrokes(paths);
    CountLineAppend(PathBody(paths), if OpenAfter(paths) then ["S"] else [], "S");
    assert ["S"][..0] == [];
  }

  lemma {:induction false} FlatMapAvoids<T>(xs: seq<T>, f: T -> seq<string>, l: string)
    requires forall x :: Avoids(f(x), l)
    ensures Avoids(FlatMap(xs, f), l)
    decreases |xs|
  {
    if xs != [] {
      FlatMapAvoids(xs[..|xs| - 1], f, l);
    }
  }

  /** A text element's three lines end in "rg", "Tm" and "Tj", so none selects the font. */
  lemma ElementAvoidsFont(e: TextElement)
    ensures Avoids(TextElementLines(e), "/F1 12 Tf")
  {
    var lines := TextElementLines(e);
    var rg := lines[0];
    var tm := lines[1];
    var tj := lines[2];
    assert rg[|rg| - 1] == 'g' && tm[|tm| - 1] == 'm' && tj[|tj| - 1] == 'j';
  }

  lemma TextBodyAvoidsFont(texts: seq<TextElement>)
    ensures Avoids(TextBody(texts), "/F1 12 Tf")
  {
    forall e: TextElement
      ensures Avoids(TextElementLines(e), "/F1 12 Tf")
    {
      ElementAvoidsFont(e);
    }
    FlatMapAvoids(texts, TextElementLines, "/F1 12 Tf");
  }

  /** Path lines are "S", "h", or end in "m", "l" or "c". */
  lemma {:induction false} PathBodyShapes(paths: seq<PathElement>)
    ensures forall k :: 0 <= k < |PathBody(paths)| ==>
      PathBody(paths)[k] in {"S", "h"} || EndsWith(PathBody(paths)[k], 'm')
      || EndsWith(PathBody(paths)[k], 'l') || EndsWith(PathBody(paths)[k], 'c')
    decreases |paths|
  {
    if paths != [] {
      var prefix := paths[..|paths| - 1];
      PathBodyShapes(prefix);
      var e := paths[|paths| - 1];
      var p := e.points;
      match e.kind {
        case MOVE_TO =>
          if |p| >= 2 {
            var m := Fixed2(p[0]) + " " + Fixed2(p[1]) + " m";
            assert m[|m| - 1] == 'm';
          }
        case LINE_TO =>
          if |p| >= 2 {
            var l := Fixed2(p[0]) + " " + Fixed2(p[1]) + " l";
            assert l[|l| - 1] == 'l';
          }
        case CURVE_TO =>
          if |p| >= 6 {
            var c := Fixed2(p[0]) + " " + Fixed2(p[1]) + " " + Fixed2(p[2]) + " " + Fixed2(p[3]) + " "
                     + Fixed2(p[4]) + " " + Fixed2(p[5]) + " c";
            assert c[|c| - 1] == 'c';
          }
        case CLOSE_PATH =>
      }
    }
  }

  /** Outside the text block no line is "BT" or the font selection. */
  lemma PathsAvoidTextOperators(paths: seq<PathElement>)
    ensures Avoids(Prologue + PathLines(paths), "BT")
    ensures Avoids(Prologue + PathLines(paths), "/F1 12 Tf")
  {
    PathBodyShapes(paths);
  }

  /** The page has a text block exactly when it has text elements. */
  lemma TextBlock(page: Page)
    ensures ("BT" in PageLines(page)) <==> page.texts != []
  {
    var head := Prologue + PathLines(page.paths);
    PathsAvoidTextOperators(page.paths);
    if page.texts == [] {
      assert PageLines(page) == head + ["Q"];
      assert "BT" !in PageLines(page);
    } else {
      assert PageLines(page) == head + (["BT", "/F1 12 Tf"] + TextBody(page.texts) + ["ET"]) + ["Q"];
      assert PageLines(page)[|head|] == "BT";
    }
  }

  /** The text block selects the one font once, whatever the elements' own sizes. */
  lemma FontSelectedOnce(page: Page)
    ensures CountLine(PageLines(page), "/F1 12 Tf") == if page.texts == [] then 0 else 1
  {
    var head := Prologue + PathLines(page.paths);
    var f := "/F1 12 Tf";
    PathsAvoidTextOperators(page.paths);
    AvoidsCount(head, f);
    CountLineAppend(head + TextLines(page.texts), ["Q"], f);
    CountLineAppend(head, TextLines(page.texts), f);
    assert ["Q"][..0] == [];
    if page.texts != [] {
      TextLinesFont(page.texts);
    }
  }

  lemma TextLinesFont(texts: seq<TextElement>)
    requires texts != []
    ensures CountLine(TextLines(texts), "/F1 12 Tf") == 1
  {
    var f := "/F1 12 Tf";
    var body := TextBody(texts);
    TextBodyAvoidsFont(texts);
    AvoidsCount(body, f);
    CountLineAppend(["BT", f] + body, ["ET"], f);
    CountLineAppend(["BT", f], body, f);
    assert ["BT", f][..1] == ["BT"];
    assert ["BT"][..0] == [];
    assert ["ET"][..0] == [];
  }

  /**
   * Text elements are written in order: the body for a + b is the body for
   * a followed by the body for b, and one element gives its three lines.
   */
  lemma TextOrder(a: seq<TextElement>, b: seq<TextElement>)
    ensures TextBody(a + b) == TextBody(a) + TextBody(b)
  {
    FlatMapAppend(a, b, TextElementLines);
  }

  lemma TextSingle(e: TextElement)
    ensures TextBody([e]) == TextElementLines(e)
  {
    assert [e][..0] == [];
  }
  // ---------------------------------------------------------------
  // GeneratePageContent, writing the stream line by line.
  // ---------------------------------------------------------------

  lemma UnlinesSnoc(lines: seq<string>, l: string)
    ensures Unlines(lines + [l]) == Unlines(lines) + l + "\n"
  {
    assert (lines + [l])[..|lines|] == lines;
  }

  lemma Assoc<T>(a: seq<T>, b: seq<T>, c: seq<T>)
    ensures a + b + c == a + (b + c)
  {
  }

  /** The output for one more element is the output so far followed by f's output for it. */
  lemma FlatMapSnoc<T, U>(xs: seq<T>, f: T -> seq<U>, i: nat)
    requires i < |xs|
    ensures FlatMap(xs[..i + 1], f) == FlatMap(xs[..i], f) + f(xs[i])
  {
    assert xs[..i + 1][..i] == xs[..i];
  }

  lemma PathBodySnoc(paths: seq<PathElement>, i: nat)
    requires i < |paths|
    ensures PathBody(paths[..i + 1]) == PathBody(paths[..i]) + ElementLines(paths[i], OpenAfter(paths[..i]))
    ensures OpenAfter(paths[..i + 1]) == (OpenAfter(paths[..i]) || StartsSubpath(paths[i]))
  {
    assert paths[..i + 1][..i] == paths[..i];
  }

  lemma UnlinesOne(a: string)
    ensures Unlines([a]) == a + "\n"
  {
    UnlinesSnoc([], a);
  }

  lemma UnlinesTwo(a: string, b: string)
    ensures Unlines([a, b]) == a + "\n" + b + "\n"
  {
    UnlinesSnoc([], a);
    UnlinesSnoc([a], b);
    assert [a] + [b] == [a, b];
  }

  lemma UnlinesThree(a: string, b: string, c: string)
    ensures Unlines([a, b, c]) == a + "\n" + b + "\n" + c + "\n"
  {
    UnlinesTwo(a, b);
    UnlinesSnoc([a, b], c);
    assert [a, b] + [c] == [a, b, c];
  }

  /** One case of the path switch: the element's lines and the new has_open_path. */
  method WriteElement(e: PathElement, open: bool) returns (out: string, nowOpen: bool)
    ensures out == Unlines(ElementLines(e, open))
    ensures nowOpen == (open || StartsSubpath(e))
  {
    var p := e.points;
    out := [];
    nowOpen := open;
    match e.kind
    case MOVE_TO =>
      if |p| >= 2 {
        var line := Fixed2(p[0]) + " " + Fixed2(p[1]) + " m";
        if open {
          out := "S\n";
          nowOpen := false;
          UnlinesTwo("S", line);
          assert ElementLines(e, open) == ["S", line];
        } else {
          UnlinesOne(line);
          assert ElementLines(e, open) == [line];
        }
        out := out + line + "\n";
        nowOpen := true;
      }
    case LINE_TO =>
      if |p| >= 2 {
        var line := Fixed2(p[0]) + " " + Fixed2(p[1]) + " l";
        UnlinesOne(line);
        out := line + "\n";
      }
    case CURVE_TO =>
      if |p| >= 6 {
        var line := Fixed2(p[0]) + " " + Fixed2(p[1]) + " " + Fixed2(p[2]) + " " + Fixed2(p[3]) + " "
          + Fixed2(p[4]) + " " + Fixed2(p[5]) + " c";
        UnlinesOne(line);
        out := line + "\n";
      }
    case CLOSE_PATH =>
      UnlinesOne("h");
      out := "h\n";
  }

  /** One text element's colour, matrix and string lines. */
  method WriteText(e: TextElement) returns (out: string)
    requires WellFormedText(e)
    ensures out == Unlines(TextElementLines(e))
  {
    var escaped := EscapeString(e.text);
    var rg := Fixed2(e.color[0]) + " " + Fixed2(e.color[1]) + " " + Fixed2(e.color[2]) + " rg";
    var tm := "1 0 0 1 " + Fixed2(e.x) + " " + Fixed2(e.y) + " Tm";
    var tj := "(" + escaped + ") Tj";
    out := rg + "\n" + tm + "\n" + tj + "\n";
    UnlinesThree(rg, tm, tj);
    assert TextElementLines(e) == [rg, tm, tj];
  }

  /** The path loop with its has_open_path flag, then the final stroke. */
  method WritePaths(paths: seq<PathElement>) returns (out: string)
    ensures out == Unlines(PathLines(paths))
  {
    out := [];
    var hasOpenPath := false;
    for i := 0 to |paths|
      invariant hasOpenPath == OpenAfter(paths[..i])
      invariant out == Unlines(PathBody(paths[..i]))
    {
      ghost var element := ElementLines(paths[i], hasOpenPath);
      var lines;
      lines, hasOpenPath := WriteElement(paths[i], hasOpenPath);
      PathBodySnoc(paths, i);
      UnlinesAppend(PathBody(paths[..i]), element);
      out := out + lines;
    }
    assert paths[..|paths|] == paths;
    if hasOpenPath {
      UnlinesSnoc(PathBody(paths), "S");
      out := out + "S\n";
    } else {
      assert PathLines(paths) == PathBody(paths);
    }
  }

  /** The text block: nothing without text, else BT, the font, each element and ET. */
  method WriteTexts(texts: seq<TextElement>) returns (out: string)
    requires AllWellFormed(texts)
    ensures out == Unlines(TextLines(texts))
  {
    out := [];
    if texts != [] {
      var body := [];
      for j := 0 to |texts|
        invariant body == Unlines(TextBody(texts[..j]))
      {
        var lines := WriteText(texts[j]);
        FlatMapSnoc(texts, TextElementLines, j);
        UnlinesAppend(TextBody(texts[..j]), TextElementLines(texts[j]));
        body := body + lines;
      }
      assert texts[..|texts|] == texts;
      out := "BT\n" + "/F1 12 Tf\n" + body + "ET\n";
      TextBlockText(TextBody(texts), body);
    }
  }

  lemma TextBlockText(lines: seq<string>, body: string)
    requires body == Unlines(lines)
    ensures Unlines(["BT", "/F1 12 Tf"] + lines + ["ET"]) == "BT\n" + "/F1 12 Tf\n" + body + "ET\n"
  {
    UnlinesAppend(["BT", "/F1 12 Tf"] + lines, ["ET"]);
    UnlinesAppend(["BT", "/F1 12 Tf"], lines);
    UnlinesTwo("BT", "/F1 12 Tf");
    UnlinesOne("ET");
  }

  /** GeneratePageContent: the prologue, the paths, the text block and the closing restore. */
  method GeneratePageContent(page: Page) returns (content: string)
    requires AllWellFormed(page.texts)
    ensures content == PageStream(page)
  {
    var paths := WritePaths(page.paths);
    var texts := WriteTexts(page.texts);
    content := Unlines(Prologue) + paths + texts + "Q\n";
    PageText(Prologue, PathLines(page.paths), TextLines(page.texts));
    PageStreamLines(page);
  }

  lemma PageText(a: seq<string>, b: seq<string>, c: seq<string>)
    ensures Unlines(a + b + c + ["Q"]) == Unlines(a) + Unlines(b) + Unlines(c) + "Q\n"
  {
    UnlinesAppend(a + b + c, ["Q"]);
    UnlinesAppend(a + b, c);
    UnlinesAppend(a, b);
    UnlinesOne("Q");
  }
}
