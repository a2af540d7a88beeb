/**
 * The C binding's conversions: the C options record to and from
 * ProcessingOptions, the error-code mapping and the argument guard of
 * initialisation from a C argument vector.
 */
module CApi {
  import opened Wrappers
  import opened Options

  /** A C string pointer: null, or a string. */
  datatype CString = Null | CStr(text: string)

  /** CStringToString: a null pointer reads as "". */
  function CStringToString(s: CString): string
  {
    match s
    case Null => ""
    case CStr(t) => t
  }

  // The values of pdf_lib_error_code_t.
  const Success: int := 0
  const ErrorInvalidArgument: int := -1
  const ErrorInternal: int := -8
  const ErrorPostscript: int := -12

  // The values of pdf_lib_quality_t.
  const QualityScreen: int := 0
  const QualityDefault: int := 1
  const QualityEbook: int := 2
  const QualityPrinter: int := 3
  const QualityPrepress: int := 4

  // The values of pdf_lib_paper_size_t.
  const PaperCustom: int := 0
  const PaperA4: int := 1
  const PaperLetter: int := 2
  const PaperLegal: int := 3
  const PaperA3: int := 4
  const PaperA5: int := 5
  const PaperExecutive: int := 6

  /** pdf_lib_options_t: ints for flags and enums, nullable strings, and arrays with their counts. */
  datatype COptions = COptions(
    batchMode: int, noPause: int, quiet: int, saferMode: int, printed: int, emptyStack: int,
    quality: int, compatibilityLevel: real, numCopies: int,
    paperSize: int, customWidthPoints: real, customHeightPoints: real,
    leftMargin: real, rightMargin: real, topMargin: real, bottomMargin: real,
    pageOffsetX: real, pageOffsetY: real,
    outputFile: CString, deviceName: CString, printerName: CString,
    inputFiles: Option<seq<CString>>, inputFilesCount: int,
    postscriptCommands: Option<seq<CString>>, postscriptCommandsCount: int)

  /** Each array with a positive count holds at least that many pointers. */
  predicate ArraysCover(o: COptions)
  {
    (o.inputFiles.Some? && o.inputFilesCount > 0 ==> o.inputFilesCount <= |o.inputFiles.value|) &&
    (o.postscriptCommands.Some? && o.postscriptCommandsCount > 0 ==> o.postscriptCommandsCount <= |o.postscriptCommands.value|)
  }

  function QualityFromC(q: int): (r: PDFQuality)
    ensures (q < QualityScreen || q > QualityPrepress) ==> r == DEFAULT
  {
    if q == QualityScreen then SCREEN
    else if q == QualityEbook then EBOOK
    else if q == QualityPrinter then PRINTER
    else if q == QualityPrepress then PREPRESS
    else DEFAULT
  }

  function QualityToC(q: PDFQuality): (r: int)
    ensures QualityScreen <= r <= QualityPrepress
  {
    match q
    case SCREEN => QualityScreen
    case EBOOK => QualityEbook
    case PRINTER => QualityPrinter
    case PREPRESS => QualityPrepress
    case DEFAULT => QualityDefault
  }

  /** Each valid C quality converts to C++ and back to itself, and each C++ quality back to itself. */
  lemma QualityRoundTrips(c: int, q: PDFQuality)
    ensures QualityScreen <= c <= QualityPrepress ==> QualityToC(QualityFromC(c)) == c
    ensures QualityFromC(QualityToC(q)) == q
  {
  }

  function PaperFromC(p: int): (r: PaperSize)
    ensures (p < PaperCustom || p > PaperExecutive) ==> r == A4
  {
    if p == PaperCustom then CUSTOM
    else if p == PaperLetter then LETTER
    else if p == PaperLegal then LEGAL
    else if p == PaperA3 then A3
    else if p == PaperA5 then A5
    else if p == PaperExecutive then EXECUTIVE
    else A4
  }

  function PaperToC(p: PaperSize): (r: int)
    ensures PaperCustom <= r <= PaperExecutive
  {
    match p
    case CUSTOM => PaperCustom
    case LETTER => PaperLetter
    case LEGAL => PaperLegal
    case A3 => PaperA3
    case A5 => PaperA5
    case EXECUTIVE => PaperExecutive
    case A4 => PaperA4
  }

  /** Each valid C paper size converts to C++ and back to itself, and each C++ size back to itself. */
  lemma PaperRoundTrips(c: int, p: PaperSize)
    ensures PaperCustom <= c <= PaperExecutive ==> PaperToC(PaperFromC(c)) == c
    ensures PaperFromC(PaperToC(p)) == p
  {
  }

  function FlagToC(b: bool): (r: int)
    ensures r == 0 || r == 1
  {
    if b then 1 else 0
  }

  /** An int flag read as != 0 and written back comes out as 0 or 1. */
  lemma FlagRoundTrip(i: int)
    ensures FlagToC(i != 0) == (if i == 0 then 0 else 1)
    ensures (FlagToC(i != 0) != 0) == (i != 0)
  {
  }

  /** The non-null strings among the first count pointers, in order. */
  function NonNullStrings(items: seq<CString>): (r: seq<string>)
    ensures |r| <= |items|
    ensures forall k :: 0 <= k < |items| && items[k].CStr? ==> items[k].text in r
    ensures forall k :: 0 <= k < |items| && items[k].CStr? && |r| == |items| ==> r[k] == items[k].text
    ensures forall t :: t in r ==> CStr(t) in items
  {
    if items == [] then []
    else
      var rest := NonNullStrings(items[1..]);
      assert forall k :: 1 <= k < |items| ==> items[k] == items[1..][k - 1];
      if items[0].CStr? then [items[0].text] + rest else rest
  }

  /** The strings an array field contributes. */
  function ArrayStrings(items: Option<seq<CString>>, count: int): seq<string>
    requires items.Some? && count > 0 ==> count <= |items.value|
  {
    if items.Some? && count > 0 then NonNullStrings(items.value[..count]) else []
  }

  /** ConvertToProcessingOptions as a value: defaults for a null pointer. */
  function ToProcessingOptions(options: Option<COptions>): ProcessingOptions
    requires options.Some? ==> ArraysCover(options.value)
  {
    match options
    case None => Defaults
    case Some(o) =>
      Defaults.(
        batchMode := o.batchMode != 0, noPause := o.noPause != 0, quiet := o.quiet != 0,
        saferMode := o.saferMode != 0, printed := o.printed != 0, emptyStack := o.emptyStack != 0,
        quality := QualityFromC(o.quality),
        compatibilityLevel := o.compatibilityLevel, numCopies := o.numCopies,
        paperSize := PaperFromC(o.paperSize),
        customWidthPoints := o.customWidthPoints, customHeightPoints := o.customHeightPoints,
        leftMargin := o.leftMargin, rightMargin := o.rightMargin,
        topMargin := o.topMargin, bottomMargin := o.bottomMargin,
        pageOffsetX := o.pageOffsetX, pageOffsetY := o.pageOffsetY,
        outputFile := CStringToString(o.outputFile), deviceName := CStringToString(o.deviceName),
        printerName := CStringToString(o.printerName),
        inputFiles := ArrayStrings(o.inputFiles, o.inputFilesCount),
        postscriptCommands := ArrayStrings(o.postscriptCommands, o.postscriptCommandsCount))
  }

  /** Filtering an array extended by one pointer extends the filtered strings by at most that one. */
  lemma {:induction false} NonNullStringsAppend(items: seq<CString>, last: CString)
    ensures NonNullStrings(items + [last]) ==
      NonNullStrings(items) + (if last.CStr? then [last.text] else [])
    decreases |items|
  {
    if items == [] {
      assert [last][1..] == [];
    } else {
      assert (items + [last])[1..] == items[1..] + [last];
      NonNullStringsAppend(items[1..], last);
    }
  }

  /** Filtering keeps the order: the strings of a + b are those of a, then those of b. */
  lemma {:induction false} NonNullStringsConcat(a: seq<CString>, b: seq<CString>)
    ensures NonNullStrings(a + b) == NonNullStrings(a) + NonNullStrings(b)
    decreases |a|
  {
    if a == [] {
      assert a + b == b;
    } else {
      assert (a + b)[0] == a[0] && (a + b)[1..] == a[1..] + b;
      NonNullStringsConcat(a[1..], b);
    }
  }

  /** The loop over a C array: each non-null pointer among the first count, in order. */
  method CollectStrings(items: Option<seq<CString>>, count: int) returns (result: seq<string>)
    requires items.Some? && count > 0 ==> count <= |items.value|
    ensures result == ArrayStrings(items, count)
  {
    result := [];
    if items.Some? && count > 0 {
      var i := 0;
      while i < count
        invariant 0 <= i <= count
        invariant result == NonNullStrings(items.value[..i])
      {
        assert items.value[..i + 1] == items.value[..i] + [items.value[i]];
        NonNullStringsAppend(items.value[..i], items.value[i]);
        if items.value[i].CStr? {
          result := result + [items.value[i].text];
        }
        i := i + 1;
      }
    }
  }

  /** ConvertToProcessingOptions: a null pointer gives the defaults. */
  method ConvertToProcessingOptions(options: Option<COptions>) returns (r: ProcessingOptions)
    requires options.Some? ==> ArraysCover(options.value)
    ensures r == ToProcessingOptions(options)
    ensures options.None? ==> r == Defaults
  {
    if options.None? {
      return Defaults;
    }
    var o := options.value;
    var files := CollectStrings(o.inputFiles, o.inputFilesCount);
    var commands := CollectStrings(o.postscriptCommands, o.postscriptCommandsCount);
    r := ToProcessingOptions(Some(o.(inputFiles := None, postscriptCommands := None)))
      .(inputFiles := files, postscriptCommands := commands);
  }

  /**
   * ConvertFromProcessingOptions: a null target stays untouched; otherwise
   * every number, flag and enum is written and the string and array
   * pointers are left as they were.
   */
  function FromProcessingOptions(cpp: ProcessingOptions, target: Option<COptions>): (r: Option<COptions>)
    ensures target.None? ==> r.None?
    ensures target.Some? ==> r.Some? && r.value.outputFile == target.value.outputFile
    ensures target.Some? ==> r.Some? && r.value.deviceName == target.value.deviceName
    ensures target.Some? ==> r.Some? && r.value.printerName == target.value.printerName
    ensures target.Some? ==> r.Some? && r.value.inputFiles == target.value.inputFiles
    ensures target.Some? ==> r.Some? && r.value.inputFilesCount == target.value.inputFilesCount
    ensures target.Some? ==> r.Some? && r.value.postscriptCommands == target.value.postscriptCommands
    ensures target.Some? ==> r.Some? && r.value.postscriptCommandsCount == target.value.postscriptCommandsCount
  {
    match target
    case None => None
    case Some(t) =>
      Some(t.(
        batchMode := FlagToC(cpp.batchMode), noPause := FlagToC(cpp.noPause), quiet := FlagToC(cpp.quiet),
        saferMode := FlagToC(cpp.saferMode), printed := FlagToC(cpp.printed), emptyStack := FlagToC(cpp.emptyStack),
        quality := QualityToC(cpp.quality),
        compatibilityLevel := cpp.compatibilityLevel, numCopies := cpp.numCopies,
        paperSize := PaperToC(cpp.paperSize),
        customWidthPoints := cpp.customWidthPoints, customHeightPoints := cpp.customHeightPoints,
        leftMargin := cpp.leftMargin, rightMargin := cpp.rightMargin,
        topMargin := cpp.topMargin, bottomMargin := cpp.bottomMargin,
        pageOffsetX := cpp.pageOffsetX, pageOffsetY := cpp.pageOffsetY))
  }

  /**
   * Writing options into a C record and reading them back recovers every
   * number, flag and enum; the strings and lists come from the record's
   * own pointers.
   */
  lemma OptionsRoundTrip(cpp: ProcessingOptions, t: COptions)
    requires ArraysCover(t)
    ensures var back := FromProcessingOptions(cpp, Some(t));
      ArraysCover(back.value) &&
      ToProcessingOptions(back) == cpp.(
        outputFile := CStringToString(t.outputFile), deviceName := CStringToString(t.deviceName),
        printerName := CStringToString(t.printerName),
        inputFiles := ArrayStrings(t.inputFiles, t.inputFilesCount),
        postscriptCommands := ArrayStrings(t.postscriptCommands, t.postscriptCommandsCount))
  {
    QualityRoundTrips(0, cpp.quality);
    PaperRoundTrips(0, cpp.paperSize);
  }

  /** ConvertErrorCode: 0 to -12 keep their value, anything else is an internal error. */
  function ConvertErrorCode(code: int): (r: int)
    ensures ErrorPostscript <= code <= Success ==> r == code
    ensures (code < ErrorPostscript || code > Success) ==> r == ErrorInternal
    ensures ErrorPostscript <= r <= Success
  {
    if code == 0 then 0
    else if code == -1 then -1
    else if code == -2 then -2
    else if code == -3 then -3
    else if code == -4 then -4
    else if code == -5 then -5
    else if code == -6 then -6
    else if code == -7 then -7
    else if code == -8 then -8
    else if code == -9 then -9
    else if code == -10 then -10
    else if code == -11 then -11
    else if code == -12 then -12
    else ErrorInternal
  }

  /** Converting a converted code changes nothing. */
  lemma ConvertErrorCodeIdempotent(code: int)
    ensures ConvertErrorCode(ConvertErrorCode(code)) == ConvertErrorCode(code)
  {
  }

  /** What the processor's Initialize does with the arguments: succeeds, fails with its last error code, or throws. */
  datatype InitializeOutcome = Initialized | Failed(code: int) | Threw

  /**
   * pdf_lib_initialize_with_arguments: a missing processor, a null vector
   * or a count below one is an invalid argument; otherwise the non-null
   * arguments go to the processor, whose outcome is a parameter.
   */
  method InitializeWithArguments(hasProcessor: bool, arguments: Option<seq<CString>>, argumentCount: int,
                                 outcome: InitializeOutcome)
    returns (code: int, passed: seq<string>)
    requires arguments.Some? && argumentCount > 0 ==> argumentCount <= |arguments.value|
    ensures !hasProcessor || arguments.None? || argumentCount <= 0 ==> code == ErrorInvalidArgument && passed == []
    ensures hasProcessor && arguments.Some? && argumentCount > 0 ==>
      passed == NonNullStrings(arguments.value[..argumentCount]) &&
      code == match outcome
        case Initialized => Success
        case Failed(c) => ConvertErrorCode(c)
        case Threw => ErrorInternal
  {
    if !hasProcessor || arguments.None? || argumentCount <= 0 {
      return ErrorInvalidArgument, [];
    }
    passed := CollectStrings(arguments, argumentCount);
    code := match outcome
      case Initialized => Success
      case Failed(c) => ConvertErrorCode(c)
      case Threw => ErrorInternal;
  }
}
