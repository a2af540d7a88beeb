/**
 * The document-structuring-comment pass of the PostScript parser and the
 * fit-and-centre coordinate transform computed from its bounding box.
 */
module PsHeader {
  import opened Wrappers
  import opened Numbers
  import opened StringUtils

  datatype BBox = BBox(x1: real, y1: real, x2: real, y2: real)

  /** The bounding box of a freshly constructed parser (A4). */
  const DefaultBBox := BBox(0.0, 0.0, 595.276, 841.890)

  /** What the comment pass records. */
  datatype Header = Header(title: string, creator: string, bbox: BBox, dscCompliant: bool)

  const BBoxKeyword := "%%BoundingBox:"

  /** End of a non-empty digit run starting at i, or None. */
  function DigitRun(line: string, i: nat): (r: Option<nat>)
    requires i <= |line|
    ensures r.Some? ==> i < r.value <= |line| && AllDigits(line[i..r.value])
    ensures r.Some? ==> r.value == |line| || !IsDigit(line[r.value])
  {
    var j := SpanEnd(line, i, IsDigit);
    if j == i then None
    else
      assert AllDigits(line[i..j]);
      Some(j)
  }

  /**
   * One "\s*(\d+)" (first field) or "\s+(\d+)" (later fields) from i:
   * the field's value and the index after its digits.
   */
  function NextField(line: string, i: nat, needSpace: bool): (r: Option<(nat, nat)>)
    requires i <= |line|
    ensures r.Some? ==> i < r.value.1 <= |line|
  {
    var s := SpanEnd(line, i, IsCSpace);
    if needSpace && s == i then None
    else
      match DigitRun(line, s)
      case None => None
      case Some(e) => Some((DigitsValue(line[s..e]), e))
  }

  /**
   * count fields in a row from i: the first is "\s*(\d+)" when first holds,
   * every other one "\s+(\d+)".
   */
  function Fields(line: string, i: nat, count: nat, first: bool): Option<seq<nat>>
    requires i <= |line|
    decreases count
  {
    if count == 0 then Some([])
    else
      match NextField(line, i, !first)
      case None => None
      case Some((v, e)) =>
        match Fields(line, e, count - 1, false)
        case None => None
        case Some(vs) => Some([v] + vs)
  }

  /**
   * The pattern "%%BoundingBox:\s*(\d+)\s+(\d+)\s+(\d+)\s+(\d+)" tried at
   * position p. Every quantifier is greedy and each run is followed by a
   * character class it cannot contain, so the match, when there is one,
   * takes maximal runs and is unique.
   */
  function MatchBBoxAt(line: string, p: nat): Option<BBox>
    requires p <= |line|
  {
    if !(p + |BBoxKeyword| <= |line| && line[p..p + |BBoxKeyword|] == BBoxKeyword) then None
    else
      match Fields(line, p + |BBoxKeyword|, 4, true)
      case Some(vs) =>
        if |vs| == 4 then Some(BBox(vs[0] as real, vs[1] as real, vs[2] as real, vs[3] as real)) else None
      case None => None
  }

  /** regex_search: the match at the leftmost position where there is one. */
  function SearchBBox(line: string, p: nat): Option<BBox>
    requires p <= |line|
    decreases |line| - p
  {
    match MatchBBoxAt(line, p)
    case Some(b) => Some(b)
    case None => if p == |line| then None else SearchBBox(line, p + 1)
  }

  /** ParseBoundingBox: the four numbers when the line matches, else the old box. */
  function BoundingBoxOf(line: string, previous: BBox): BBox
  {
    match SearchBBox(line, 0)
    case Some(b) => b
    case None => previous
  }

  /** The effect of one line on the header (the body of the comment loop). */
  function ApplyComment(h: Header, line: string): Header
  {
    if StartsWith(line, "%%") then
      if StartsWith(line, "%%Title:") then h.(dscCompliant := true, title := Trim(line[8..]))
      else if StartsWith(line, "%%Creator:") then h.(dscCompliant := true, creator := Trim(line[10..]))
      else if StartsWith(line, BBoxKeyword) then h.(dscCompliant := true, bbox := BoundingBoxOf(line, h.bbox))
      else h.(dscCompliant := true)
    else h
  }

  /**
   * The box a line sets when the comment loop reaches the bounding-box
   * branch and the line matches; None for every other line.
   */
  function BoxOfLine(line: string): Option<BBox>
  {
    if StartsWith(line, "%%") && !StartsWith(line, "%%Title:") && !StartsWith(line, "%%Creator:")
      && StartsWith(line, BBoxKeyword)
    then SearchBBox(line, 0)
    else None
  }

  predicate HasBoxLine(lines: seq<string>)
  {
    exists i :: 0 <= i < |lines| && BoxOfLine(lines[i]).Some?
  }

  /** Without a matching box line the comment pass keeps the box it started with. */
  lemma {:induction false} BoxUntouched(h: Header, lines: seq<string>)
    requires !HasBoxLine(lines)
    ensures ApplyComments(h, lines).bbox == h.bbox
    decreases |lines|
  {
    if lines != [] {
      assert BoxOfLine(lines[0]).None?;
      assert forall i :: 0 <= i < |lines[1..]| ==> lines[1..][i] == lines[i + 1];
      BoxUntouched(ApplyComment(h, lines[0]), lines[1..]);
    }
  }

  function ApplyComments(h: Header, lines: seq<string>): Header
    decreases |lines|
  {
    if lines == [] then h else ApplyComments(ApplyComment(h, lines[0]), lines[1..])
  }

  predicate IsDscLine(line: string) { StartsWith(line, "%%") }

  /** A document is DSC-compliant iff one of its lines starts with "%%". */
  lemma {:induction false} DscIffCommentLine(h: Header, lines: seq<string>)
    ensures ApplyComments(h, lines).dscCompliant
      <==> h.dscCompliant || exists i :: 0 <= i < |lines| && IsDscLine(lines[i])
    decreases |lines|
  {
    if lines != [] {
      DscIffCommentLine(ApplyComment(h, lines[0]), lines[1..]);
      if exists i :: 0 <= i < |lines| && IsDscLine(lines[i]) {
        var i :| 0 <= i < |lines| && IsDscLine(lines[i]);
        if i > 0 { assert IsDscLine(lines[1..][i - 1]); }
      }
      if exists i :: 0 <= i < |lines[1..]| && IsDscLine(lines[1..][i]) {
        var i :| 0 <= i < |lines[1..]| && IsDscLine(lines[1..][i]);
        assert IsDscLine(lines[i + 1]);
      }
    }
  }

  /** The title is the trimmed text after "%%Title:" on the last such line. */
  lemma LastTitleWins(h: Header, before: seq<string>, value: string, after: seq<string>)
    requires forall i :: 0 <= i < |after| ==> !StartsWith(after[i], "%%Title:")
    ensures ApplyComments(h, before + ["%%Title:" + value] + after).title == Trim(value)
  {
    ApplyCommentsAppend(h, before + ["%%Title:" + value], after);
    ApplyCommentsAppend(h, before, ["%%Title:" + value]);
    var line := "%%Title:" + value;
    assert StartsWith(line, "%%") && StartsWith(line, "%%Title:");
    assert line[8..] == value;
    TitleUntouched(ApplyComments(h, before + [line]), after);
  }

  lemma {:induction false} TitleUntouched(h: Header, lines: seq<string>)
    requires forall i :: 0 <= i < |lines| ==> !StartsWith(lines[i], "%%Title:")
    ensures ApplyComments(h, lines).title == h.title
    decreases |lines|
  {
    if lines != [] {
      TitleUntouched(ApplyComment(h, lines[0]), lines[1..]);
    }
  }

  lemma {:induction false} ApplyCommentsAppend(h: Header, a: seq<string>, b: seq<string>)
    ensures ApplyComments(h, a + b) == ApplyComments(ApplyComments(h, a), b)
    decreases |a|
  {
    if a == [] {
      assert a + b == b;
    } else {
      assert (a + b)[1..] == a[1..] + b;
      ApplyCommentsAppend(ApplyComment(h, a[0]), a[1..], b);
    }
  }

  /**
   * Fields of the pattern from i, located by index: for the field (a, b),
   * white space on [i, a) (non-empty unless it is a first field), digits on
   * [a, b), and no digit at b; the next field starts at b.
   */
  predicate FieldRuns(line: string, i: nat, bounds: seq<(nat, nat)>, first: bool)
    decreases |bounds|
  {
    bounds == [] ||
    (var a, b := bounds[0].0, bounds[0].1;
     i <= a < b <= |line| && (first || i < a)
     && (forall j :: i <= j < a ==> IsCSpace(line[j]))
     && (forall j :: a <= j < b ==> IsDigit(line[j]))
     && (b < |line| ==> !IsDigit(line[b]))
     && FieldRuns(line, b, bounds[1..], false))
  }

  /** The number the digits line[a..b] denote, as std::stod reads them. */
  function RunValue(line: string, a: nat, b: nat): nat
    requires a <= b <= |line| && forall j :: a <= j < b ==> IsDigit(line[j])
  {
    assert AllDigits(line[a..b]) by {
      forall k | 0 <= k < b - a ensures IsDigit(line[a..b][k]) { assert line[a..b][k] == line[a + k]; }
    }
    DigitsValue(line[a..b])
  }

  /** The numbers of the fields located by bounds. */
  function RunValues(line: string, i: nat, bounds: seq<(nat, nat)>, first: bool): (r: seq<nat>)
    requires FieldRuns(line, i, bounds, first)
    ensures |r| == |bounds|
    decreases |bounds|
  {
    if bounds == [] then []
    else [RunValue(line, bounds[0].0, bounds[0].1)] + RunValues(line, bounds[0].1, bounds[1..], false)
  }

  /** One field: white space on [i, a), digits on [a, b), then no digit. */
  lemma FieldRead(line: string, i: nat, a: nat, b: nat, needSpace: bool)
    requires i <= a < b <= |line| && (needSpace ==> i < a)
    requires forall j :: i <= j < a ==> IsCSpace(line[j])
    requires forall j :: a <= j < b ==> IsDigit(line[j])
    requires b < |line| ==> !IsDigit(line[b])
    ensures NextField(line, i, needSpace) == Some((RunValue(line, a, b), b))
  {
    SpanTo(line, i, a, IsCSpace);
    SpanTo(line, a, b, IsDigit);
  }

  /** A run of p from i that stops at a. */
  lemma {:induction false} SpanTo(line: string, i: nat, a: nat, p: char -> bool)
    requires i <= a <= |line|
    requires forall j :: i <= j < a ==> p(line[j])
    requires a < |line| ==> !p(line[a])
    ensures SpanEnd(line, i, p) == a
    decreases a - i
  {
    if i < a {
      SpanTo(line, i + 1, a, p);
    }
  }

  /** Fields reads every located field, whatever its white-space runs and whatever follows. */
  lemma {:induction false} FieldsOfRuns(line: string, i: nat, bounds: seq<(nat, nat)>, first: bool)
    requires i <= |line| && FieldRuns(line, i, bounds, first)
    ensures Fields(line, i, |bounds|, first) == Some(RunValues(line, i, bounds, first))
    decreases |bounds|
  {
    if bounds != [] {
      var a, b := bounds[0].0, bounds[0].1;
      FieldRead(line, i, a, b, !first);
      FieldsOfRuns(line, b, bounds[1..], false);
      FieldsStep(line, i, first, RunValue(line, a, b), b, RunValues(line, b, bounds[1..], false));
      assert RunValues(line, i, bounds, first) == [RunValue(line, a, b)] + RunValues(line, b, bounds[1..], false);
    }
  }

  /** One field read, then the remaining ones. */
  lemma FieldsStep(line: string, i: nat, first: bool, v: nat, e: nat, vs: seq<nat>)
    requires i <= e <= |line|
    requires NextField(line, i, !first) == Some((v, e))
    requires Fields(line, e, |vs|, false) == Some(vs)
    ensures Fields(line, i, |vs| + 1, first) == Some([v] + vs)
  {
  }

  /**
   * A "%%BoundingBox:" line with four digit fields, separated by any
   * white-space runs and followed by any text that does not continue the
   * last number, sets the box to exactly those four numbers.
   */
  lemma BoundingBoxExact(line: string, bounds: seq<(nat, nat)>, previous: BBox)
    requires StartsWith(line, BBoxKeyword) && |bounds| == 4
    requires FieldRuns(line, |BBoxKeyword|, bounds, true)
    ensures var v := RunValues(line, |BBoxKeyword|, bounds, true);
      BoundingBoxOf(line, previous) == BBox(v[0] as real, v[1] as real, v[2] as real, v[3] as real)
  {
    var k := |BBoxKeyword|;
    assert line[0..0 + k] == BBoxKeyword;
    FieldsOfRuns(line, k, bounds, true);
  }

  /** The number of digit characters in s. */
  function DigitCount(s: string): nat
    decreases |s|
  {
    if s == [] then 0 else (if IsDigit(s[0]) then 1 else 0) + DigitCount(s[1..])
  }

  /** A later suffix holds no more digits. */
  lemma {:induction false} DigitCountShrinks(line: string, i: nat, j: nat)
    requires i <= j <= |line|
    ensures DigitCount(line[j..]) <= DigitCount(line[i..])
    decreases j - i
  {
    if i < j {
      assert line[i..][1..] == line[i + 1..];
      DigitCountShrinks(line, i + 1, j);
    }
  }

  /** A digit at s, between i and e, is one more digit in line[i..] than in line[e..]. */
  lemma DigitBetween(line: string, i: nat, s: nat, e: nat)
    requires i <= s < e <= |line| && IsDigit(line[s])
    ensures DigitCount(line[e..]) + 1 <= DigitCount(line[i..])
  {
    DigitCountShrinks(line, i, s);
    assert line[s..][1..] == line[s + 1..];
    DigitCountShrinks(line, s + 1, e);
  }

  /** Reading n fields needs n digits. */
  lemma {:induction false} FieldsNeedDigits(line: string, i: nat, n: nat, first: bool)
    requires i <= |line| && Fields(line, i, n, first).Some?
    ensures n <= DigitCount(line[i..])
    decreases n
  {
    if n > 0 {
      var f := NextField(line, i, !first).value;
      var s := SpanEnd(line, i, IsCSpace);
      assert DigitRun(line, s) == Some(f.1);
      assert line[s..f.1][0] == line[s];
      DigitBetween(line, i, s, f.1);
      FieldsNeedDigits(line, f.1, n - 1, false);
    }
  }

  /** A match anywhere from p needs four digits from p on. */
  lemma {:induction false} SearchNeedsDigits(line: string, p: nat)
    requires p <= |line| && SearchBBox(line, p).Some?
    ensures 4 <= DigitCount(line[p..])
    decreases |line| - p
  {
    if MatchBBoxAt(line, p).Some? {
      var k := |BBoxKeyword|;
      FieldsNeedDigits(line, p + k, 4, true);
      DigitCountShrinks(line, p, p + k);
    } else {
      SearchNeedsDigits(line, p + 1);
      DigitCountShrinks(line, p, p + 1);
    }
  }

  /**
   * A line with fewer than four digits, such as "%%BoundingBox: (atend)",
   * does not match, and the previous box remains.
   */
  lemma FewFieldsKeepBox(line: string, previous: BBox)
    requires DigitCount(line) < 4
    ensures BoundingBoxOf(line, previous) == previous
  {
    assert line[0..] == line;
    if SearchBBox(line, 0).Some? {
      SearchNeedsDigits(line, 0);
    }
  }

  // ---------------------------------------------------------------
  // The coordinate transform.
  // ---------------------------------------------------------------

  /** Scale and offsets that map PostScript space onto the PDF page. */
  datatype Transform = Transform(scale: real, offsetX: real, offsetY: real, pdfHeight: real)

  /** The transform of a freshly constructed parser. */
  const InitialTransform := Transform(1.0, 0.0, 0.0, 842.0)

  const TargetWidth: real := 595.0
  const TargetHeight: real := 842.0

  /** std::min(a, b): b when b < a, else a. */
  function MinReal(a: real, b: real): (m: real)
    ensures m <= a && m <= b && (m == a || m == b)
  {
    if b < a then b else a
  }

  /**
   * SetupCoordinateTransform: the smaller of the two fit ratios, and the
   * offsets that centre the scaled box. A zero side makes its ratio +inf in
   * the source, so the other ratio is taken; when both sides are zero the
   * source computes inf and NaN, for which the model keeps scale 1.
   */
  function FitTransform(b: BBox): Transform
  {
    var w := b.x2 - b.x1;
    var h := b.y2 - b.y1;
    var scale :=
      if w == 0.0 && h == 0.0 then 1.0
      else if w == 0.0 then TargetHeight / h
      else if h == 0.0 then TargetWidth / w
      else MinReal(TargetWidth / w, TargetHeight / h);
    Transform(scale, (TargetWidth - w * scale) / 2.0, (TargetHeight - h * scale) / 2.0, TargetHeight)
  }

  /** TransformCoordinates: scale, shift, and flip the y axis. */
  function Apply(t: Transform, x: real, y: real): (real, real)
  {
    (x * t.scale + t.offsetX, t.pdfHeight - (y * t.scale + t.offsetY))
  }

  /** The inverse of Apply for a non-degenerate scale. */
  function Unapply(t: Transform, px: real, py: real): (real, real)
    requires t.scale != 0.0
  {
    ((px - t.offsetX) / t.scale, (t.pdfHeight - py - t.offsetY) / t.scale)
  }

  lemma TransformInvertible(t: Transform, x: real, y: real)
    requires t.scale != 0.0
    ensures Unapply(t, Apply(t, x, y).0, Apply(t, x, y).1) == (x, y)
  {
    var p := Apply(t, x, y);
    var dx := p.0 - t.offsetX;
    var dy := t.pdfHeight - p.1 - t.offsetY;
    assert dx == x * t.scale && dy == y * t.scale;
    DivCancel(x, t.scale);
    DivCancel(y, t.scale);
    assert dx / t.scale == x && dy / t.scale == y;
  }

  lemma DivCancel(x: real, s: real)
    requires s != 0.0
    ensures (x * s) / s == x
  {
  }

  lemma MulBelow(s: real, c: real, w: real)
    requires w > 0.0 && s <= c / w
    ensures s * w <= c
  {
    assert (c / w) * w == c;
  }

  lemma MulPositive(a: real, b: real)
    requires a > 0.0 && b > 0.0
    ensures a * b > 0.0
  {
  }

  lemma MulRatio(c: real, w: real)
    requires w > 0.0
    ensures (c / w) * w == c
  {
  }

  /**
   * The transform SetupCoordinateTransform evidently intends: the same
   * scale, with offsets that also cancel the box's lower-left corner, so
   * that the box, wherever it lies, is centred on the page.
   */
  function CentredTransform(b: BBox): (t: Transform)
    ensures t.scale == FitTransform(b).scale && t.pdfHeight == TargetHeight
    ensures b.x1 == 0.0 && b.y1 == 0.0 ==> t == FitTransform(b)
  {
    var f := FitTransform(b);
    f.(offsetX := f.offsetX - b.x1 * f.scale, offsetY := f.offsetY - b.y1 * f.scale)
  }

  /**
   * For every box of positive size the corrected transform maps it inside
   * the 595 x 842 target, filling it in one direction, and centres it: the
   * images of the two corners are symmetric about the middle on both axes.
   */
  lemma CentredFitAndCentre(b: BBox)
    requires b.x2 > b.x1 && b.y2 > b.y1
    ensures var t := CentredTransform(b);
      var lo := Apply(t, b.x1, b.y1);
      var hi := Apply(t, b.x2, b.y2);
      0.0 < t.scale
      && 0.0 <= lo.0 <= hi.0 <= TargetWidth && lo.0 + hi.0 == TargetWidth
      && 0.0 <= hi.1 <= lo.1 <= TargetHeight && lo.1 + hi.1 == TargetHeight
      && (lo.0 == 0.0 || hi.1 == 0.0)
  {
    var w, h := b.x2 - b.x1, b.y2 - b.y1;
    var f := FitTransform(b);
    var s := f.scale;
    assert s == MinReal(TargetWidth / w, TargetHeight / h);
    MulBelow(s, TargetWidth, w);
    MulBelow(s, TargetHeight, h);
    MulRatio(TargetWidth, w);
    MulRatio(TargetHeight, h);
    assert w * s <= TargetWidth && h * s <= TargetHeight;
    assert w * s == TargetWidth || h * s == TargetHeight;
    CentredCorners(b);
  }

  /** Where the corrected transform puts the two corners of the box. */
  lemma CentredCorners(b: BBox)
    ensures Apply(CentredTransform(b), b.x1, b.y1) == (FitTransform(b).offsetX, TargetHeight - FitTransform(b).offsetY)
    ensures Apply(CentredTransform(b), b.x2, b.y2).0 == (b.x2 - b.x1) * FitTransform(b).scale + FitTransform(b).offsetX
    ensures Apply(CentredTransform(b), b.x2, b.y2).1 == TargetHeight - ((b.y2 - b.y1) * FitTransform(b).scale + FitTransform(b).offsetY)
  {
    var f := FitTransform(b);
    var t := CentredTransform(b);
    var s := f.scale;
    assert t == Transform(s, f.offsetX - b.x1 * s, f.offsetY - b.y1 * s, TargetHeight);
    assert Apply(t, b.x1, b.y1).0 == b.x1 * s + (f.offsetX - b.x1 * s);
    assert Apply(t, b.x1, b.y1).1 == TargetHeight - (b.y1 * s + (f.offsetY - b.y1 * s));
    assert (b.x2 - b.x1) * s == b.x2 * s - b.x1 * s;
    assert (b.y2 - b.y1) * s == b.y2 * s - b.y1 * s;
    assert Apply(t, b.x2, b.y2).0 == b.x2 * s + (f.offsetX - b.x1 * s);
    assert Apply(t, b.x2, b.y2).1 == TargetHeight - (b.y2 * s + (f.offsetY - b.y1 * s));
  }

  /**
   * For a box with its origin at (0, 0), the transform as written is the
   * corrected one, so it fits and centres the box.
   */
  lemma FitAndCentre(b: BBox)
    requires b.x1 == 0.0 && b.y1 == 0.0 && b.x2 > 0.0 && b.y2 > 0.0
    ensures var t := FitTransform(b);
      var lo := Apply(t, 0.0, 0.0);
      var hi := Apply(t, b.x2, b.y2);
      0.0 < t.scale
      && 0.0 <= lo.0 <= hi.0 <= TargetWidth && lo.0 + hi.0 == TargetWidth
      && 0.0 <= hi.1 <= lo.1 <= TargetHeight && lo.1 + hi.1 == TargetHeight
      && (lo.0 == 0.0 || hi.1 == 0.0)
  {
    CentredFitAndCentre(b);
  }

  /**
   * The transform as written ignores the box's lower-left corner: every
   * point lands x1 * scale to the right of, and y1 * scale above, where the
   * corrected transform puts it.
   */
  lemma AsWrittenShift(b: BBox, x: real, y: real)
    ensures var s := FitTransform(b).scale;
      Apply(FitTransform(b), x, y).0 == Apply(CentredTransform(b), x, y).0 + b.x1 * s
      && Apply(FitTransform(b), x, y).1 == Apply(CentredTransform(b), x, y).1 - b.y1 * s
  {
  }

  /**
   * The common header "%%BoundingBox: 72 72 540 720": as written, its
   * upper-right corner lands at x = 686.5, off the 595-point page.
   */
  lemma AsWrittenOffPage()
    ensures Apply(FitTransform(BBox(72.0, 72.0, 540.0, 720.0)), 540.0, 720.0).0 > TargetWidth
  {
    var t := FitTransform(BBox(72.0, 72.0, 540.0, 720.0));
    assert t.scale == TargetWidth / 468.0 by {
      assert TargetWidth / 468.0 < TargetHeight / 648.0;
    }
    assert t.offsetX == 0.0;
  }

  /** The y axis is flipped: higher PostScript points map lower in PDF space. */
  lemma TransformFlipsY(t: Transform, x: real, y1: real, y2: real)
    requires t.scale > 0.0 && y1 < y2
    ensures Apply(t, x, y1).1 > Apply(t, x, y2).1
  {
    MulPositive(y2 - y1, t.scale);
    assert (y2 - y1) * t.scale == y2 * t.scale - y1 * t.scale;
    assert Apply(t, x, y1).1 == t.pdfHeight - (y1 * t.scale + t.offsetY);
    assert Apply(t, x, y2).1 == t.pdfHeight - (y2 * t.scale + t.offsetY);
  }
}
