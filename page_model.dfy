/**
 * The value types the parser produces and the PDF generator consumes:
 * graphics state, path and text elements, and pages.
 */
module PageModel {

  /** The current graphics state; colour is a fixed three-component array. */
  datatype GraphicsState = GraphicsState(
    currentX: real,
    currentY: real,
    lineWidth: real,
    color: (real, real, real),
    gsaveActive: bool,
    fontName: string,
    fontSize: real,
    rotation: real,
    matrix: seq<real>)

  const InitialState := GraphicsState(
    currentX := 0.0, currentY := 0.0, lineWidth := 1.0, color := (0.0, 0.0, 0.0),
    gsaveActive := false, fontName := "Helvetica", fontSize := 12.0, rotation := 0.0,
    matrix := [1.0, 0.0, 0.0, 1.0, 0.0, 0.0])

  datatype PathKind = MOVE_TO | LINE_TO | CURVE_TO | CLOSE_PATH

  /** A path element: its operator and its coordinates, x before y. */
  datatype PathElement = PathElement(kind: PathKind, points: seq<real>)

  /** A text element; its colour is a growable vector of components. */
  datatype TextElement = TextElement(
    text: string,
    x: real,
    y: real,
    fontName: string,
    fontSize: real,
    color: seq<real>)

  /** A text element whose colour vector holds the RGB components the generator reads, color[0..2]. */
  predicate WellFormedText(e: TextElement) { |e.color| >= 3 }

  predicate AllWellFormed(texts: seq<TextElement>)
  {
    forall i :: 0 <= i < |texts| ==> WellFormedText(texts[i])
  }

  datatype Page = Page(width: real, height: real, paths: seq<PathElement>, texts: seq<TextElement>)

  const A4Width: real := 595.276
  const A4Height: real := 841.890

  /** A default-constructed page: A4, nothing drawn. */
  const EmptyPage := Page(A4Width, A4Height, [], [])

  predicate PagesWellFormed(pages: seq<Page>)
  {
    forall i :: 0 <= i < |pages| ==> AllWellFormed(pages[i].texts)
  }
}
