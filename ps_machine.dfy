/**
 * The per-token interpreter of the PostScript parser: a graphics-state
 * machine with a gsave/grestore stack, a pending path and the page list.
 */
module PsMachine {
  import opened Wrappers
  import opened Numbers
  import opened StringUtils
  import opened PageModel
  import opened PsTokens
  import opened PsHeader

  /** The part of the parser state the token loop changes. */
  datatype Machine = Machine(
    pages: seq<Page>,
    state: GraphicsState,
    stack: seq<GraphicsState>,
    path: seq<PathElement>)

  /** IsNumeric: a non-empty token that std::stod accepts. */
  predicate IsNumeric(token: string) { token != [] && ParseDouble(token).Some? }

  function Num(token: string): real
    requires IsNumeric(token)
  {
    ParseDouble(token).value
  }

  /** The n tokens before i exist and are numeric. */
  predicate NumericBefore(tokens: seq<string>, i: nat, n: nat)
    requires i < |tokens|
  {
    n <= i && forall k :: i - n <= k < i ==> IsNumeric(tokens[k])
  }

  /** A token of the form "(...)", as show requires of its operand. */
  predicate Parenthesised(t: string) { t != [] && t[0] == '(' && t[|t| - 1] == ')' }

  /** The text between the parentheses of a show operand. */
  function Inner(t: string): string
    requires Parenthesised(t)
  {
    if |t| >= 2 then t[1..|t| - 1] else []
  }

  /** The pending path appended to the last page. */
  function AppendPaths(pages: seq<Page>, path: seq<PathElement>): (r: seq<Page>)
    requires pages != []
    ensures |r| == |pages| && r[..|r| - 1] == pages[..|pages| - 1]
  {
    var last := pages[|pages| - 1];
    pages[|pages| - 1 := last.(paths := last.paths + path)]
  }

  function AppendText(pages: seq<Page>, e: TextElement): (r: seq<Page>)
    requires pages != []
    ensures |r| == |pages| && r[..|r| - 1] == pages[..|pages| - 1]
  {
    var last := pages[|pages| - 1];
    pages[|pages| - 1 := last.(texts := last.texts + [e])]
  }

  /**
   * The text element show records: the operand's inner text at the given
   * position, with the current font, size and colour (all three components).
   */
  function ShowElement(text: string, x: real, y: real, s: GraphicsState): (e: TextElement)
    ensures WellFormedText(e)
    ensures e.color == [s.color.0, s.color.1, s.color.2]
    ensures e.text == text && e.fontName == s.fontName && e.fontSize == s.fontSize
  {
    TextElement(text, x, y, s.fontName, s.fontSize, [s.color.0, s.color.1, s.color.2])
  }

  /**
   * The text element as the parser writes it: a default-constructed element
   * has an empty colour vector, and the three colour assignments index it
   * at 0, 1 and 2. None stands for the out-of-range store (undefined
   * behaviour in the original).
   */
  function AsWrittenShowElement(text: string, x: real, y: real, s: GraphicsState): (r: Option<TextElement>)
  {
    var stored := StoreAll([], 0, [s.color.0, s.color.1, s.color.2]);
    if stored.Some? then Some(TextElement(text, x, y, s.fontName, s.fontSize, stored.value)) else None
  }

  /** v[k] = value on a vector: defined only for an index in range. */
  function StoreAt(v: seq<real>, k: nat, value: real): (r: Option<seq<real>>)
    ensures r.Some? <==> k < |v|
    ensures r.Some? ==> r.value == v[k := value]
  {
    if k < |v| then Some(v[k := value]) else None
  }

  /** Stores values at k, k + 1, ... in turn; None once a store is out of range. */
  function StoreAll(v: seq<real>, k: nat, values: seq<real>): (r: Option<seq<real>>)
    ensures r.Some? ==> |r.value| == |v|
    decreases |values|
  {
    if values == [] then Some(v)
    else
      var w := StoreAt(v, k, values[0]);
      if w.None? then None else StoreAll(w.value, k + 1, values[1..])
  }

  /** For every input, the as-written show stores its colour out of range. */
  lemma AsWrittenColorOutOfRange(text: string, x: real, y: real, s: GraphicsState)
    ensures AsWrittenShowElement(text, x, y, s) == None
  {
  }

  predicate NonEmptyTokens(tokens: seq<string>) { forall k :: 0 <= k < |tokens| ==> tokens[k] != [] }

  /** The operators the interpreter knows, each with its short alias. */
  datatype Op = Gsave | Grestore | SetLineWidth | SetRgbColor | MoveTo | LineTo | CurveTo
              | ClosePath | Stroke | Fill | Show | Showpage | NotAnOperator

  /** The operator a token names, tested in the order of ParseLine's if-chain. */
  function OpOf(token: string): Op
  {
    if token == "gsave" || token == "q" then Gsave
    else if token == "grestore" || token == "Q" then Grestore
    else if token == "setlinewidth" || token == "w" then SetLineWidth
    else if token == "setrgbcolor" || token == "rg" then SetRgbColor
    else if token == "moveto" || token == "m" then MoveTo
    else if token == "lineto" || token == "l" then LineTo
    else if token == "curveto" || token == "c" then CurveTo
    else if token == "closepath" || token == "h" then ClosePath
    else if token == "stroke" || token == "s" then Stroke
    else if token == "fill" || token == "f" || token == "F" then Fill
    else if token == "show" || token == "Tj" then Show
    else if token == "showpage" then Showpage
    else NotAnOperator
  }

  /** The operand count each operator checks for before it acts. */
  function Arity(op: Op): nat
  {
    match op
    case SetLineWidth => 1
    case SetRgbColor => 3
    case MoveTo => 2
    case LineTo => 2
    case CurveTo => 6
    case Show => 1
    case _ => 0
  }

  /**
   * The effect of tokens[i] (the body of the token loop of ParseLine). An
   * operator whose operands are missing or not numeric falls through the
   * chain and does nothing.
   */
  function Step(m: Machine, tokens: seq<string>, i: nat, t: Transform): Machine
    requires i < |tokens| && NonEmptyTokens(tokens)
  {
    match OpOf(tokens[i])
    case Gsave => m.(stack := m.stack + [m.state])
    case Grestore =>
      if m.stack != [] then m.(state := m.stack[|m.stack| - 1], stack := m.stack[..|m.stack| - 1]) else m
    case SetLineWidth =>
      if NumericBefore(tokens, i, 1) then m.(state := m.state.(lineWidth := Num(tokens[i - 1]))) else m
    case SetRgbColor =>
      if NumericBefore(tokens, i, 3) then
        m.(state := m.state.(color := (Num(tokens[i - 3]), Num(tokens[i - 2]), Num(tokens[i - 1]))))
      else m
    case MoveTo => if NumericBefore(tokens, i, 2) then PointTo(m, tokens, i, t, MOVE_TO) else m
    case LineTo => if NumericBefore(tokens, i, 2) then PointTo(m, tokens, i, t, LINE_TO) else m
    case CurveTo => if NumericBefore(tokens, i, 6) then Curve(m, tokens, i, t) else m
    case ClosePath => m.(path := m.path + [PathElement(CLOSE_PATH, [])])
    case Stroke =>
      if m.path != [] && m.pages != [] then m.(pages := AppendPaths(m.pages, m.path), path := []) else m
    case Fill =>
      if m.pages != [] && m.path != [] then m.(pages := AppendPaths(m.pages, m.path), path := [])
      else m.(path := [])
    case Show => if i > 0 && Parenthesised(tokens[i - 1]) && m.pages != [] then ShowText(m, tokens[i - 1], t) else m
    case Showpage => m.(pages := m.pages + [EmptyPage])
    case NotAnOperator => m
  }

  /** moveto / lineto: one transformed point, which becomes the current point. */
  function PointTo(m: Machine, tokens: seq<string>, i: nat, t: Transform, kind: PathKind): Machine
    requires i < |tokens| && NumericBefore(tokens, i, 2)
  {
    var p := Apply(t, Num(tokens[i - 2]), Num(tokens[i - 1]));
    m.(state := m.state.(currentX := p.0, currentY := p.1),
       path := m.path + [PathElement(kind, [p.0, p.1])])
  }

  /** curveto: three transformed points; the last becomes the current point. */
  function Curve(m: Machine, tokens: seq<string>, i: nat, t: Transform): Machine
    requires i < |tokens| && NumericBefore(tokens, i, 6)
  {
    var p1 := Apply(t, Num(tokens[i - 6]), Num(tokens[i - 5]));
    var p2 := Apply(t, Num(tokens[i - 4]), Num(tokens[i - 3]));
    var p3 := Apply(t, Num(tokens[i - 2]), Num(tokens[i - 1]));
    m.(state := m.state.(currentX := p3.0, currentY := p3.1),
       path := m.path + [PathElement(CURVE_TO, [p1.0, p1.1, p2.0, p2.1, p3.0, p3.1])])
  }

  /**
   * show: the operand's inner text at the transform of the current point.
   * The current point was already transformed by moveto, so it is mapped a
   * second time, as the parser does.
   */
  function ShowText(m: Machine, operand: string, t: Transform): Machine
    requires Parenthesised(operand) && m.pages != []
  {
    var p := Apply(t, m.state.currentX, m.state.currentY);
    m.(pages := AppendText(m.pages, ShowElement(Inner(operand), p.0, p.1, m.state)))
  }

  /** The machine after the first n tokens of a line. */
  function Run(m: Machine, tokens: seq<string>, n: nat, t: Transform): Machine
    requires n <= |tokens| && NonEmptyTokens(tokens)
    decreases n
  {
    if n == 0 then m else Step(Run(m, tokens, n - 1, t), tokens, n - 1, t)
  }

  /** The tokens ParseLine interprets: none for a blank or comment line. */
  function LineTokens(line: string): (r: seq<string>)
    ensures NonEmptyTokens(r)
  {
    var trimmed := Trim(line);
    if trimmed == [] || trimmed[0] == '%' then [] else
      TokensNonEmpty(trimmed);
      Tokens(trimmed)
  }

  lemma TokensNonEmpty(line: string)
    ensures NonEmptyTokens(Tokens(line))
  {
    ReassembleNonEmpty(Words(line), 0);
  }

  lemma {:induction false} ReassembleNonEmpty(words: seq<string>, i: nat)
    requires i <= |words| && forall k :: 0 <= k < |words| ==> words[k] != []
    ensures NonEmptyTokens(ReassembleFrom(words, i))
    decreases |words| - i
  {
    if i < |words| {
      if Opens(words[i]) {
        var r := JoinFrom(words, words[i], i + 1);
        JoinNonEmpty(words, words[i], i + 1);
        ReassembleNonEmpty(words, r.1);
      } else {
        ReassembleNonEmpty(words, i + 1);
      }
    }
  }

  lemma {:induction false} JoinNonEmpty(words: seq<string>, acc: string, i: nat)
    requires i <= |words| && acc != []
    ensures JoinFrom(words, acc, i).0 != []
    decreases |words| - i
  {
    if i < |words| && !Closes(words[i]) {
      JoinNonEmpty(words, acc + " " + words[i], i + 1);
    }
  }

  function RunLine(m: Machine, line: string, t: Transform): Machine
  {
    var tokens := LineTokens(line);
    Run(m, tokens, |tokens|, t)
  }

  function RunLines(m: Machine, lines: seq<string>, t: Transform): Machine
    decreases |lines|
  {
    if lines == [] then m else RunLines(RunLine(m, lines[0], t), lines[1..], t)
  }

  // ---------------------------------------------------------------
  // Properties of the interpreter.
  // ---------------------------------------------------------------

  function CountShowpage(tokens: seq<string>): nat
  {
    if tokens == [] then 0
    else CountShowpage(tokens[..|tokens| - 1]) + (if tokens[|tokens| - 1] == "showpage" then 1 else 0)
  }

  /** Only showpage changes the number of pages, by exactly one. */
  lemma StepPageCount(m: Machine, tokens: seq<string>, i: nat, t: Transform)
    requires i < |tokens| && NonEmptyTokens(tokens)
    ensures |Step(m, tokens, i, t).pages| == |m.pages| + (if tokens[i] == "showpage" then 1 else 0)
  {
  }

  lemma {:induction false} RunPageCount(m: Machine, tokens: seq<string>, n: nat, t: Transform)
    requires n <= |tokens| && NonEmptyTokens(tokens)
    ensures |Run(m, tokens, n, t).pages| == |m.pages| + CountShowpage(tokens[..n])
  {
    if n > 0 {
      RunPageCount(m, tokens, n - 1, t);
      StepPageCount(Run(m, tokens, n - 1, t), tokens, n - 1, t);
      assert tokens[..n][..n - 1] == tokens[..n - 1];
    }
  }

  /** The number of showpage tokens in the interpreted lines. */
  function ShowpagesIn(lines: seq<string>): nat
    decreases |lines|
  {
    if lines == [] then 0 else CountShowpage(LineTokens(lines[0])) + ShowpagesIn(lines[1..])
  }

  /** Each showpage adds exactly one page, and nothing else adds or removes one. */
  lemma {:induction false} RunLinesPageCount(m: Machine, lines: seq<string>, t: Transform)
    ensures |RunLines(m, lines, t).pages| == |m.pages| + ShowpagesIn(lines)
    decreases |lines|
  {
    if lines != [] {
      var tokens := LineTokens(lines[0]);
      RunPageCount(m, tokens, |tokens|, t);
      assert tokens[..|tokens|] == tokens;
      RunLinesPageCount(RunLine(m, lines[0], t), lines[1..], t);
    }
  }

  /** Pages keep their A4 size: no operator changes a page's dimensions. */
  predicate AllA4(pages: seq<Page>)
  {
    forall i :: 0 <= i < |pages| ==> pages[i].width == A4Width && pages[i].height == A4Height
  }

  predicate Good(m: Machine) { AllA4(m.pages) && PagesWellFormed(m.pages) }

  lemma AppendTextKeepsGood(m: Machine, operand: string, t: Transform)
    requires Parenthesised(operand) && m.pages != [] && Good(m)
    ensures Good(ShowText(m, operand, t))
  {
    var r := ShowText(m, operand, t).pages;
    forall j | 0 <= j < |r| - 1 ensures r[j] == m.pages[j] {
      assert r[..|r| - 1][j] == m.pages[..|m.pages| - 1][j];
    }
  }

  lemma AppendPathsKeepsGood(m: Machine)
    requires m.pages != [] && Good(m)
    ensures Good(m.(pages := AppendPaths(m.pages, m.path), path := []))
  {
    var r := AppendPaths(m.pages, m.path);
    forall j | 0 <= j < |r| - 1 ensures r[j] == m.pages[j] {
      assert r[..|r| - 1][j] == m.pages[..|m.pages| - 1][j];
    }
  }

  lemma StepKeepsGood(m: Machine, tokens: seq<string>, i: nat, t: Transform)
    requires i < |tokens| && NonEmptyTokens(tokens) && Good(m)
    ensures Good(Step(m, tokens, i, t))
  {
    match OpOf(tokens[i]) {
      case Show =>
        if i > 0 && Parenthesised(tokens[i - 1]) && m.pages != [] {
          AppendTextKeepsGood(m, tokens[i - 1], t);
        }
      case Stroke =>
        if m.path != [] && m.pages != [] { AppendPathsKeepsGood(m); }
      case Fill =>
        if m.path != [] && m.pages != [] { AppendPathsKeepsGood(m); }
      case _ =>
    }
  }

  lemma {:induction false} RunKeepsGood(m: Machine, tokens: seq<string>, n: nat, t: Transform)
    requires n <= |tokens| && NonEmptyTokens(tokens) && Good(m)
    ensures Good(Run(m, tokens, n, t))
  {
    if n > 0 {
      RunKeepsGood(m, tokens, n - 1, t);
      StepKeepsGood(Run(m, tokens, n - 1, t), tokens, n - 1, t);
    }
  }

  /**
   * Every page the interpreter produces is A4-sized, and every text element
   * on it carries three colour components.
   */
  lemma {:induction false} RunLinesKeepsGood(m: Machine, lines: seq<string>, t: Transform)
    requires Good(m)
    ensures Good(RunLines(m, lines, t))
    decreases |lines|
  {
    if lines != [] {
      var tokens := LineTokens(lines[0]);
      RunKeepsGood(m, tokens, |tokens|, t);
      RunLinesKeepsGood(RunLine(m, lines[0], t), lines[1..], t);
    }
  }

  /**
   * "S", the PDF stroke operator, is not recognised here, while "F" is a
   * fill and showpage has no short form.
   */
  lemma OperatorNames()
    ensures OpOf("S") == NotAnOperator
    ensures OpOf("F") == Fill
    ensures OpOf("showpage") == Showpage
  {
  }

  /**
   * moveto and lineto fire only with two numeric operands before them; each
   * then appends one element holding the transformed point and moves the
   * current point there.
   */
  lemma MoveLineOperators(m: Machine, tokens: seq<string>, i: nat, t: Transform)
    requires i < |tokens| && NonEmptyTokens(tokens)
    requires OpOf(tokens[i]) == MoveTo || OpOf(tokens[i]) == LineTo
    ensures var r := Step(m, tokens, i, t);
      if NumericBefore(tokens, i, 2) then
        var p := Apply(t, Num(tokens[i - 2]), Num(tokens[i - 1]));
        var kind := if OpOf(tokens[i]) == MoveTo then MOVE_TO else LINE_TO;
        r == m.(state := m.state.(currentX := p.0, currentY := p.1),
                path := m.path + [PathElement(kind, [p.0, p.1])])
      else r == m
  {
  }

  /**
   * curveto fires only with six numeric operands; it appends one element of
   * three transformed points and moves the current point to the last one.
   */
  lemma CurveOperator(m: Machine, tokens: seq<string>, i: nat, t: Transform)
    requires i < |tokens| && NonEmptyTokens(tokens)
    requires OpOf(tokens[i]) == CurveTo
    ensures var r := Step(m, tokens, i, t);
      if NumericBefore(tokens, i, 6) then
        var p1 := Apply(t, Num(tokens[i - 6]), Num(tokens[i - 5]));
        var p2 := Apply(t, Num(tokens[i - 4]), Num(tokens[i - 3]));
        var p3 := Apply(t, Num(tokens[i - 2]), Num(tokens[i - 1]));
        r == m.(state := m.state.(currentX := p3.0, currentY := p3.1),
                path := m.path + [PathElement(CURVE_TO, [p1.0, p1.1, p2.0, p2.1, p3.0, p3.1])])
      else r == m
  {
  }

  /** setlinewidth and setrgbcolor change only the graphics state, and only with numeric operands. */
  lemma StateOperators(m: Machine, tokens: seq<string>, i: nat, t: Transform)
    requires i < |tokens| && NonEmptyTokens(tokens)
    ensures OpOf(tokens[i]) == SetLineWidth ==>
      Step(m, tokens, i, t) == if NumericBefore(tokens, i, 1)
        then m.(state := m.state.(lineWidth := Num(tokens[i - 1]))) else m
    ensures OpOf(tokens[i]) == SetRgbColor ==>
      Step(m, tokens, i, t) == if NumericBefore(tokens, i, 3)
        then m.(state := m.state.(color := (Num(tokens[i - 3]), Num(tokens[i - 2]), Num(tokens[i - 1]))))
        else m
  {
  }

  /**
   * stroke moves a non-empty pending path, in order, onto the last page and
   * clears it; with no path or no page it does nothing. fill does the same
   * but clears the path in every case. closepath always appends a
   * point-less element.
   */
  lemma PaintOperators(m: Machine, tokens: seq<string>, i: nat, t: Transform)
    requires i < |tokens| && NonEmptyTokens(tokens)
    requires OpOf(tokens[i]) in {Stroke, Fill, ClosePath}
    ensures var r := Step(m, tokens, i, t);
      if OpOf(tokens[i]) == ClosePath then r == m.(path := m.path + [PathElement(CLOSE_PATH, [])])
      else if m.path != [] && m.pages != [] then
        && r == m.(pages := r.pages, path := [])
        && |r.pages| == |m.pages|
        && r.pages[..|r.pages| - 1] == m.pages[..|m.pages| - 1]
        && r.pages[|r.pages| - 1].paths == m.pages[|m.pages| - 1].paths + m.path
        && r.pages[|r.pages| - 1].texts == m.pages[|m.pages| - 1].texts
      else if OpOf(tokens[i]) == Stroke then r == m
      else r == m.(path := [])
  {
  }

  /** Unknown words do nothing; showpage opens a page and does not flush the path. */
  lemma OtherTokens(m: Machine, tokens: seq<string>, i: nat, t: Transform)
    requires i < |tokens| && NonEmptyTokens(tokens)
    ensures OpOf(tokens[i]) == NotAnOperator ==> Step(m, tokens, i, t) == m
    ensures OpOf(tokens[i]) == Showpage ==> Step(m, tokens, i, t) == m.(pages := m.pages + [EmptyPage])
  {
  }

  /**
   * show adds a text element only after a parenthesised operand: the inner
   * text, at the transform applied to the current point (which is already
   * in PDF space), in the current font, size and colour.
   */
  lemma ShowOperator(m: Machine, tokens: seq<string>, i: nat, t: Transform)
    requires i < |tokens| && NonEmptyTokens(tokens) && m.pages != []
    requires OpOf(tokens[i]) == Show
    ensures var r := Step(m, tokens, i, t);
      if i > 0 && Parenthesised(tokens[i - 1]) then
        var last := r.pages[|r.pages| - 1];
        var e := last.texts[|last.texts| - 1];
        && r.pages[..|r.pages| - 1] == m.pages[..|m.pages| - 1]
        && last.texts == m.pages[|m.pages| - 1].texts + [e]
        && last.paths == m.pages[|m.pages| - 1].paths
        && e.text == Inner(tokens[i - 1])
        && (e.x, e.y) == Apply(t, m.state.currentX, m.state.currentY)
        && e.fontName == m.state.fontName && e.fontSize == m.state.fontSize
        && e.color == [m.state.color.0, m.state.color.1, m.state.color.2]
        && r.state == m.state && r.path == m.path && r.stack == m.stack
      else r == m
  {
  }

  /** grestore pops what gsave pushed; on an empty stack it does nothing. */
  lemma StackOperators(m: Machine, tokens: seq<string>, i: nat, t: Transform)
    requires i < |tokens| && NonEmptyTokens(tokens)
    ensures OpOf(tokens[i]) == Gsave ==> Step(m, tokens, i, t) == m.(stack := m.stack + [m.state])
    ensures OpOf(tokens[i]) == Grestore ==>
      Step(m, tokens, i, t) ==
        if m.stack == [] then m else m.(state := m.stack[|m.stack| - 1], stack := m.stack[..|m.stack| - 1])
  {
  }

  /** gsave immediately followed by grestore restores the machine. */
  lemma SaveRestore(m: Machine, tokens: seq<string>, i: nat, t: Transform)
    requires i + 1 < |tokens| && NonEmptyTokens(tokens)
    requires OpOf(tokens[i]) == Gsave && OpOf(tokens[i + 1]) == Grestore
    ensures Step(Step(m, tokens, i, t), tokens, i + 1, t) == m
  {
    var m1 := Step(m, tokens, i, t);
    assert m1.stack[..|m1.stack| - 1] == m.stack;
  }
}
