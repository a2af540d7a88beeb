/**
 * The public enums and the ProcessingOptions record every argument parser
 * fills in; the field defaults are those of the record's initialisers.
 */
module Options {

  datatype PDFQuality = SCREEN | DEFAULT | EBOOK | PRINTER | PREPRESS

  datatype PaperSize = CUSTOM | A4 | LETTER | LEGAL | A3 | A5 | EXECUTIVE

  datatype ProcessingOptions = ProcessingOptions(
    batchMode: bool,
    noPause: bool,
    quiet: bool,
    saferMode: bool,
    printed: bool,
    emptyStack: bool,
    quality: PDFQuality,
    compatibilityLevel: real,
    numCopies: int,
    paperSize: PaperSize,
    customWidthPoints: real,
    customHeightPoints: real,
    leftMargin: real,
    rightMargin: real,
    topMargin: real,
    bottomMargin: real,
    pageOffsetX: real,
    pageOffsetY: real,
    outputFile: string,
    deviceName: string,
    printerName: string,
    inputFiles: seq<string>,
    postscriptCommands: seq<string>)

  /** A default-constructed ProcessingOptions. */
  const Defaults := ProcessingOptions(
    batchMode := false, noPause := false, quiet := false, saferMode := true,
    printed := false, emptyStack := false,
    quality := DEFAULT, compatibilityLevel := 1.7, numCopies := 1,
    paperSize := A4, customWidthPoints := 0.0, customHeightPoints := 0.0,
    leftMargin := 0.0, rightMargin := 0.0, topMargin := 0.0, bottomMargin := 0.0,
    pageOffsetX := 0.0, pageOffsetY := 0.0,
    outputFile := "", deviceName := "", printerName := "",
    inputFiles := [], postscriptCommands := [])
}
