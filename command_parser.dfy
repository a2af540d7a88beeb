/**
 * The Ghostscript-style argument parser: a table of parameter definitions,
 * an argument loop that fills a name-keyed map of parameter values, and a
 * conversion of that map into ProcessingOptions.
 */
module CommandParsing {
  import opened Wrappers
  import opened Numbers
  import opened StringUtils
  import opened Options
  import opened UtilsImpl

  datatype ParameterType = BOOLEAN | STRING | INTEGER | DOUBLE | QUALITY | PAPER_SIZE | DEVICE_TYPE

  /** A parameter definition; the help description and the default text are not modelled. */
  datatype ParameterDefinition = ParameterDefinition(
    name: string, shortName: string, kind: ParameterType, allowedValues: seq<string>)

  datatype ParameterValue = ParameterValue(name: string, value: string, isSet: bool, position: int)

  type Params = map<string, ParameterValue>

  /** The table the constructor builds, in its order. */
  const Definitions: seq<ParameterDefinition> := [
    ParameterDefinition("BATCH", "dBATCH", BOOLEAN, []),
    ParameterDefinition("NOPAUSE", "dNOPAUSE", BOOLEAN, []),
    ParameterDefinition("QUIET", "dQUIET", BOOLEAN, []),
    ParameterDefinition("SAFER", "dSAFER", BOOLEAN, []),
    ParameterDefinition("NOSAFER", "dNOSAFER", BOOLEAN, []),
    ParameterDefinition("PRINTED", "dPrinted", BOOLEAN, []),
    ParameterDefinition("EMPTY", "empty", BOOLEAN, []),
    ParameterDefinition("AUTOROTATEPAGES", "dAutoRotatePages", STRING, ["None", "All", "PageByPage"]),
    ParameterDefinition("PDFSETTINGS", "dPDFSETTINGS", QUALITY, ["screen", "default", "ebook", "printer", "prepress"]),
    ParameterDefinition("COMPATIBILITYLEVEL", "dCompatibilityLevel", DOUBLE, []),
    ParameterDefinition("NUMCOPIES", "dNumCopies", INTEGER, []),
    ParameterDefinition("DEVICE", "sDEVICE", DEVICE_TYPE, ["pdfwrite", "mswinpr2"]),
    ParameterDefinition("OUTPUTFILE", "sOutputFile", STRING, []),
    ParameterDefinition("PAPERSIZE", "sPAPERSIZE", PAPER_SIZE, ["custom", "a4", "letter", "legal", "a3", "a5", "executive"]),
    ParameterDefinition("DEVICEWIDTHPOINTS", "dDEVICEWIDTHPOINTS", DOUBLE, []),
    ParameterDefinition("DEVICEHEIGHTPOINTS", "dDEVICEHEIGHTPOINTS", DOUBLE, []),
    ParameterDefinition("PDFX11LEFTMARGIN", "dPDFX11LeftMargin", DOUBLE, []),
    ParameterDefinition("PAGEOFFSETX", "PageOffsetX", DOUBLE, []),
    ParameterDefinition("PAGEOFFSETY", "PageOffsetY", DOUBLE, []),
    ParameterDefinition("MARGINLEFT", "MarginLeft", DOUBLE, []),
    ParameterDefinition("MARGINRIGHT", "MarginRight", DOUBLE, []),
    ParameterDefinition("MARGINTOP", "MarginTop", DOUBLE, []),
    ParameterDefinition("MARGINBOTTOM", "MarginBottom", DOUBLE, [])]

  // ---------------------------------------------------------------
  // Looking a name up.
  // ---------------------------------------------------------------

  /** The lookup test: name or short name, both lower-cased. */
  predicate Matches(def: ParameterDefinition, name: string)
  {
    ToLower(def.name) == ToLower(name) || ToLower(def.shortName) == ToLower(name)
  }

  /** The index of the first definition from i on that matches name. */
  function FindFrom(defs: seq<ParameterDefinition>, name: string, i: nat): (r: Option<nat>)
    requires i <= |defs|
    ensures r.Some? ==>
      (i <= r.value < |defs| && Matches(defs[r.value], name) &&
       forall j :: i <= j < r.value ==> !Matches(defs[j], name))
    ensures r.None? ==> forall j :: i <= j < |defs| ==> !Matches(defs[j], name)
    decreases |defs| - i
  {
    if i == |defs| then None
    else if Matches(defs[i], name) then Some(i)
    else FindFrom(defs, name, i + 1)
  }

  function FindDefinition(defs: seq<ParameterDefinition>, name: string): Option<nat>
  {
    FindFrom(defs, name, 0)
  }

  /** Names equal up to case find the same definition. */
  lemma {:induction false} FindFromLowerEqual(defs: seq<ParameterDefinition>, a: string, b: string, i: nat)
    requires i <= |defs| && ToLower(a) == ToLower(b)
    ensures FindFrom(defs, a, i) == FindFrom(defs, b, i)
    decreases |defs| - i
  {
    if i < |defs| { FindFromLowerEqual(defs, a, b, i + 1); }
  }

  /** The lookup ignores case: an upper-cased or lower-cased name finds the same definition. */
  lemma LookupCaseInsensitive(defs: seq<ParameterDefinition>, name: string)
    ensures FindDefinition(defs, ToUpper(name)) == FindDefinition(defs, name)
    ensures FindDefinition(defs, ToLower(name)) == FindDefinition(defs, name)
  {
    LowerOfUpper(name);
    LowerIdempotent(name);
    FindFromLowerEqual(defs, ToUpper(name), name, 0);
    FindFromLowerEqual(defs, ToLower(name), name, 0);
  }

  // ---------------------------------------------------------------
  // One argument.
  // ---------------------------------------------------------------

  /** The value text a parameter stores, or None where the source reports an invalid value. */
  function ParseValue(def: ParameterDefinition, value: string): (r: Option<string>)
    ensures r.None? <==>
      (value != [] &&
       match def.kind
       case INTEGER => ParseInt(value).None?
       case DOUBLE => ParseDouble(value).None?
       case QUALITY | PAPER_SIZE | DEVICE_TYPE => ToLower(value) !in def.allowedValues
       case _ => false)
    ensures r.Some? && value != [] && def.kind in {QUALITY, PAPER_SIZE, DEVICE_TYPE} ==>
      r.value in def.allowedValues && r.value == ToLower(value)
    ensures r.Some? && def.kind !in {BOOLEAN, QUALITY, PAPER_SIZE, DEVICE_TYPE} ==> r.value == value
  {
    match def.kind
    case BOOLEAN => Some(if value == [] then "true" else value)
    case STRING => Some(value)
    case INTEGER => if value != [] && ParseInt(value).None? then None else Some(value)
    case DOUBLE => if value != [] && ParseDouble(value).None? then None else Some(value)
    case _ =>
      if value == [] then Some(value)
      else if ToLower(value) in def.allowedValues then Some(ToLower(value))
      else None
  }

  /** A boolean parameter given with no value stores "true", and any other value as it is. */
  lemma BooleanFlagStoresTrue(def: ParameterDefinition, value: string)
    requires def.kind == BOOLEAN
    ensures ParseValue(def, value) == Some(if value == [] then "true" else value)
  {
  }

  /** The message logged for a rejected value of kind def.kind. */
  function ValueError(def: ParameterDefinition, value: string): string
  {
    match def.kind
    case INTEGER => "Invalid integer value: " + value
    case DOUBLE => "Invalid double value: " + value
    case _ => "Invalid value for " + def.name + ": " + value
  }

  /**
   * The name and value of an argument: the text after the leading '-', cut
   * at its first '='; without '=' the value is empty.
   */
  function SplitArgument(arg: string): (r: (string, string))
    requires arg != []
    ensures '=' !in r.0
    ensures r.0 == arg[1..] || arg[1..] == r.0 + "=" + r.1
    ensures r.0 == arg[1..] ==> r.1 == []
  {
    var body := arg[1..];
    var k := IndexOf(body, '=');
    if k == |body| then (body, [])
    else
      assert body == body[..k] + "=" + body[k + 1..];
      (body[..k], body[k + 1..])
  }

  /**
   * What ParseArgument does with the map: an unknown name or a rejected
   * value leaves it as it is and answers false; otherwise the definition's
   * canonical name is bound to the parsed value, replacing any earlier one.
   */
  function ArgumentOutcome(defs: seq<ParameterDefinition>, arg: string, position: int, params: Params): (r: (bool, Params))
    requires arg != []
    ensures !r.0 ==> r.1 == params
    ensures r.0 <==> match FindDefinition(defs, SplitArgument(arg).0)
      case None => false
      case Some(i) => ParseValue(defs[i], SplitArgument(arg).1).Some?
    ensures r.0 ==>
      (exists i :: 0 <= i < |defs| && FindDefinition(defs, SplitArgument(arg).0) == Some(i) &&
        r.1 == params[defs[i].name := ParameterValue(defs[i].name, ParseValue(defs[i], SplitArgument(arg).1).value, true, position)])
  {
    var (name, value) := SplitArgument(arg);
    match FindDefinition(defs, name)
    case None => (false, params)
    case Some(i) =>
      match ParseValue(defs[i], value)
      case None => (false, params)
      case Some(v) => (true, params[defs[i].name := ParameterValue(defs[i].name, v, true, position)])
  }

  /** The error an argument logs: only a known name with a rejected value logs one. */
  function ArgumentErrors(defs: seq<ParameterDefinition>, arg: string): seq<(int, string)>
    requires arg != []
  {
    var (name, value) := SplitArgument(arg);
    match FindDefinition(defs, name)
    case None => []
    case Some(i) => if ParseValue(defs[i], value).None? then [(-1, ValueError(defs[i], value))] else []
  }

  // ---------------------------------------------------------------
  // The argument loop.
  // ---------------------------------------------------------------

  /** What the loop gathers: the caller's options, the map, the rejected arguments, the log. */
  datatype Scan = Scan(options: ProcessingOptions, params: Params, unrecognized: seq<string>, errors: seq<(int, string)>)

  /**
   * The loop from index i on: empty arguments are skipped; "-c" with a
   * successor appends the successor to the commands and consumes it; "-f"
   * is skipped; an argument not starting with '-' is an input file; any
   * other goes to ParseArgument and, when that fails, to the unrecognised list.
   */
  function Gather(defs: seq<ParameterDefinition>, args: seq<string>, i: nat, acc: Scan): Scan
    requires i <= |args|
    decreases |args| - i
  {
    if i == |args| then acc
    else
      var arg := args[i];
      if arg == [] then Gather(defs, args, i + 1, acc)
      else if arg == "-c" && i + 1 < |args| then
        Gather(defs, args, i + 2, acc.(options := acc.options.(postscriptCommands := acc.options.postscriptCommands + [args[i + 1]])))
      else if arg == "-f" then Gather(defs, args, i + 1, acc)
      else if !StartsWith(arg, "-") then
        Gather(defs, args, i + 1, acc.(options := acc.options.(inputFiles := acc.options.inputFiles + [arg])))
      else
        var (ok, p) := ArgumentOutcome(defs, arg, i, acc.params);
        Gather(defs, args, i + 1, acc.(params := p,
          unrecognized := if ok then acc.unrecognized else acc.unrecognized + [arg],
          errors := acc.errors + ArgumentErrors(defs, arg)))
  }

  /** Every unrecognised argument starts with '-' and is not "-f". */
  lemma {:induction false} UnrecognizedAreDashed(defs: seq<ParameterDefinition>, args: seq<string>, i: nat, acc: Scan)
    requires i <= |args|
    requires forall u :: u in acc.unrecognized ==> u != [] && u[0] == '-' && u != "-f"
    ensures forall u :: u in Gather(defs, args, i, acc).unrecognized ==> u != [] && u[0] == '-' && u != "-f"
    decreases |args| - i
  {
    if i < |args| {
      var arg := args[i];
      if arg == [] || (arg == "-c" && i + 1 < |args|) || arg == "-f" || !StartsWith(arg, "-") {
        if arg == "-c" && i + 1 < |args| {
          UnrecognizedAreDashed(defs, args, i + 2, acc.(options := acc.options.(postscriptCommands := acc.options.postscriptCommands + [args[i + 1]])));
        } else if arg == [] || arg == "-f" {
          UnrecognizedAreDashed(defs, args, i + 1, acc);
        } else {
          UnrecognizedAreDashed(defs, args, i + 1, acc.(options := acc.options.(inputFiles := acc.options.inputFiles + [arg])));
        }
      } else {
        var (ok, p) := ArgumentOutcome(defs, arg, i, acc.params);
        var next := acc.(params := p,
          unrecognized := if ok then acc.unrecognized else acc.unrecognized + [arg],
          errors := acc.errors + ArgumentErrors(defs, arg));
        assert arg[0] == '-';
        UnrecognizedAreDashed(defs, args, i + 1, next);
      }
    }
  }

  /** The arguments that are input files: non-empty and not starting with '-'. */
  function PlainArguments(args: seq<string>): (r: seq<string>)
    ensures forall k :: 0 <= k < |r| ==> r[k] != [] && r[k][0] != '-'
  {
    if args == [] then []
    else (if args[0] != [] && args[0][0] != '-' then [args[0]] else []) + PlainArguments(args[1..])
  }

  /** Without "-c" the loop gathers exactly the plain arguments, in order, as input files. */
  lemma {:induction false} GatherInputFiles(defs: seq<ParameterDefinition>, args: seq<string>, i: nat, acc: Scan)
    requires i <= |args|
    requires forall k :: i <= k < |args| ==> args[k] != "-c"
    ensures Gather(defs, args, i, acc).options.inputFiles == acc.options.inputFiles + PlainArguments(args[i..])
    decreases |args| - i
  {
    if i == |args| {
      assert args[i..] == [];
    } else {
      var arg := args[i];
      assert args[i..][1..] == args[i + 1..];
      if arg == [] || arg == "-f" {
        GatherInputFiles(defs, args, i + 1, acc);
      } else if !StartsWith(arg, "-") {
        assert arg[0] != '-';
        var next := acc.(options := acc.options.(inputFiles := acc.options.inputFiles + [arg]));
        GatherInputFiles(defs, args, i + 1, next);
      } else {
        assert arg[0] == '-';
        var (ok, p) := ArgumentOutcome(defs, arg, i, acc.params);
        var next := acc.(params := p,
          unrecognized := if ok then acc.unrecognized else acc.unrecognized + [arg],
          errors := acc.errors + ArgumentErrors(defs, arg));
        GatherInputFiles(defs, args, i + 1, next);
      }
    }
  }

  // ---------------------------------------------------------------
  // From the map to the options.
  // ---------------------------------------------------------------

  /** The definitions' canonical names in the ascending order std::map visits them. */
  const SortedNames: seq<string> := [
    "AUTOROTATEPAGES", "BATCH", "COMPATIBILITYLEVEL", "DEVICE", "DEVICEHEIGHTPOINTS",
    "DEVICEWIDTHPOINTS", "EMPTY", "MARGINBOTTOM", "MARGINLEFT", "MARGINRIGHT", "MARGINTOP",
    "NOPAUSE", "NOSAFER", "NUMCOPIES", "OUTPUTFILE", "PAGEOFFSETX", "PAGEOFFSETY",
    "PAPERSIZE", "PDFSETTINGS", "PDFX11LEFTMARGIN", "PRINTED", "QUIET", "SAFER"]

  /** std::string's operator<: the first differing character decides, and a proper prefix is smaller. */
  predicate LexLess(a: string, b: string)
  {
    LexLessFrom(a, b, 0)
  }

  /** LexLess on the texts from index i on. */
  predicate LexLessFrom(a: string, b: string, i: nat)
    decreases |a| - i
  {
    if i >= |a| then i < |b|
    else if i >= |b| then false
    else if a[i] != b[i] then a[i] < b[i]
    else LexLessFrom(a, b, i + 1)
  }

  /** The real value a non-empty text gives; an empty text keeps the old one. */
  function RealField(value: string, current: real): real
  {
    if value == [] then current else RealOr(value, current)
  }

  /** The options field a map entry sets; AUTOROTATEPAGES and unknown names set none. */
  datatype Target =
    | SetBatchMode | SetNoPause | SetQuiet | SetSafer | SetNoSafer | SetPrinted | SetEmptyStack | SetQuality
    | SetCompatibilityLevel | SetNumCopies | SetDeviceName | SetOutputFile | SetPaper
    | SetCustomWidth | SetCustomHeight | SetPdfxLeftMargin | SetPageOffsetX | SetPageOffsetY
    | SetMarginLeft | SetMarginRight | SetMarginTop | SetMarginBottom | NoTarget

  /** The map key that selects each target. */
  function TargetName(t: Target): string
  {
    match t
    case SetBatchMode => "BATCH"
    case SetNoPause => "NOPAUSE"
    case SetQuiet => "QUIET"
    case SetSafer => "SAFER"
    case SetNoSafer => "NOSAFER"
    case SetPrinted => "PRINTED"
    case SetEmptyStack => "EMPTY"
    case SetQuality => "PDFSETTINGS"
    case SetCompatibilityLevel => "COMPATIBILITYLEVEL"
    case SetNumCopies => "NUMCOPIES"
    case SetDeviceName => "DEVICE"
    case SetOutputFile => "OUTPUTFILE"
    case SetPaper => "PAPERSIZE"
    case SetCustomWidth => "DEVICEWIDTHPOINTS"
    case SetCustomHeight => "DEVICEHEIGHTPOINTS"
    case SetPdfxLeftMargin => "PDFX11LEFTMARGIN"
    case SetPageOffsetX => "PAGEOFFSETX"
    case SetPageOffsetY => "PAGEOFFSETY"
    case SetMarginLeft => "MARGINLEFT"
    case SetMarginRight => "MARGINRIGHT"
    case SetMarginTop => "MARGINTOP"
    case SetMarginBottom => "MARGINBOTTOM"
    case NoTarget => ""
  }

  /** The if/else-if chain of the conversion loop: which branch a key takes. */
  function TargetOf(name: string): (t: Target)
    ensures t != NoTarget ==> name == TargetName(t)
  {
    if name == "BATCH" then SetBatchMode
    else if name == "NOPAUSE" then SetNoPause
    else if name == "QUIET" then SetQuiet
    else if name == "SAFER" then SetSafer
    else if name == "NOSAFER" then SetNoSafer
    else if name == "PRINTED" then SetPrinted
    else if name == "EMPTY" then SetEmptyStack
    else if name == "PDFSETTINGS" then SetQuality
    else if name == "COMPATIBILITYLEVEL" then SetCompatibilityLevel
    else if name == "NUMCOPIES" then SetNumCopies
    else if name == "DEVICE" then SetDeviceName
    else if name == "OUTPUTFILE" then SetOutputFile
    else if name == "PAPERSIZE" then SetPaper
    else if name == "DEVICEWIDTHPOINTS" then SetCustomWidth
    else if name == "DEVICEHEIGHTPOINTS" then SetCustomHeight
    else if name == "PDFX11LEFTMARGIN" then SetPdfxLeftMargin
    else if name == "PAGEOFFSETX" then SetPageOffsetX
    else if name == "PAGEOFFSETY" then SetPageOffsetY
    else if name == "MARGINLEFT" then SetMarginLeft
    else if name == "MARGINRIGHT" then SetMarginRight
    else if name == "MARGINTOP" then SetMarginTop
    else if name == "MARGINBOTTOM" then SetMarginBottom
    else NoTarget
  }

  /** The body of each branch: booleans compare with "true" (NOSAFER with "false"). */
  function ApplyTarget(o: ProcessingOptions, t: Target, value: string): (r: ProcessingOptions)
    ensures r.inputFiles == o.inputFiles && r.postscriptCommands == o.postscriptCommands
    ensures r.printerName == o.printerName
  {
    match t
    case SetBatchMode => o.(batchMode := value == "true")
    case SetNoPause => o.(noPause := value == "true")
    case SetQuiet => o.(quiet := value == "true")
    case SetSafer => o.(saferMode := value == "true")
    case SetNoSafer => o.(saferMode := value == "false")
    case SetPrinted => o.(printed := value == "true")
    case SetEmptyStack => o.(emptyStack := value == "true")
    case SetQuality => o.(quality := StringToQuality(value))
    case SetCompatibilityLevel => o.(compatibilityLevel := RealField(value, o.compatibilityLevel))
    case SetNumCopies => o.(numCopies := if value == [] then o.numCopies else IntOr(value, o.numCopies))
    case SetDeviceName => o.(deviceName := value)
    case SetOutputFile => o.(outputFile := value)
    case SetPaper => o.(paperSize := StringToPaperSize(value))
    case SetCustomWidth => o.(customWidthPoints := RealField(value, o.customWidthPoints))
    case SetCustomHeight => o.(customHeightPoints := RealField(value, o.customHeightPoints))
    case SetPdfxLeftMargin => o.(leftMargin := RealField(value, o.leftMargin))
    case SetPageOffsetX => o.(pageOffsetX := RealField(value, o.pageOffsetX))
    case SetPageOffsetY => o.(pageOffsetY := RealField(value, o.pageOffsetY))
    case SetMarginLeft => o.(leftMargin := RealField(value, o.leftMargin))
    case SetMarginRight => o.(rightMargin := RealField(value, o.rightMargin))
    case SetMarginTop => o.(topMargin := RealField(value, o.topMargin))
    case SetMarginBottom => o.(bottomMargin := RealField(value, o.bottomMargin))
    case NoTarget => o
  }

  /** One map entry applied to the options. */
  function ApplyParam(o: ProcessingOptions, name: string, value: string): (r: ProcessingOptions)
    ensures r.inputFiles == o.inputFiles && r.postscriptCommands == o.postscriptCommands
    ensures r.printerName == o.printerName
  {
    ApplyTarget(o, TargetOf(name), value)
  }

  /** The entries of params named in names, applied in that order. */
  function ApplyNames(params: Params, names: seq<string>, o: ProcessingOptions): (r: ProcessingOptions)
    ensures r.inputFiles == o.inputFiles && r.postscriptCommands == o.postscriptCommands
    ensures r.printerName == o.printerName
  {
    if names == [] then o
    else ApplyNames(params, names[1..], if names[0] in params then ApplyParam(o, names[0], params[names[0]].value) else o)
  }

  /** The options ConvertToOptions produces: defaults, then every entry in key order. */
  function Converted(params: Params): ProcessingOptions
  {
    ApplyNames(params, SortedNames, Defaults)
  }

  /**
   * The conversion starts from defaults, so whatever the argument loop put
   * into input files and commands never reaches the result.
   */
  lemma ConversionDiscardsGathered(params: Params)
    ensures Converted(params).inputFiles == [] && Converted(params).postscriptCommands == []
    ensures Converted(params).printerName == ""
  {
  }

  /** Applying names one list after another is applying their concatenation. */
  lemma {:induction false} ApplyNamesAppend(params: Params, a: seq<string>, b: seq<string>, o: ProcessingOptions)
    ensures ApplyNames(params, a + b, o) == ApplyNames(params, b, ApplyNames(params, a, o))
    decreases |a|
  {
    if a != [] {
      assert (a + b)[0] == a[0] && (a + b)[1..] == a[1..] + b;
      var next := if a[0] in params then ApplyParam(o, a[0], params[a[0]].value) else o;
      assert ApplyNames(params, a + b, o) == ApplyNames(params, a[1..] + b, next);
      assert ApplyNames(params, a, o) == ApplyNames(params, a[1..], next);
      ApplyNamesAppend(params, a[1..], b, next);
    } else {
      assert a + b == b;
    }
  }

  /**
   * SAFER sorts last, so when both SAFER and NOSAFER are given, SAFER
   * decides safer_mode whatever their order on the command line.
   */
  lemma SaferDecides(params: Params)
    requires "SAFER" in params
    ensures Converted(params).saferMode == (params["SAFER"].value == "true")
  {
    var before := SortedNames[..22];
    assert SortedNames == before + ["SAFER"];
    ApplyNamesAppend(params, before, ["SAFER"], Defaults);
  }

  /** Without SAFER, NOSAFER decides: safer_mode is set iff its value is "false". */
  lemma NoSaferAlone(params: Params)
    requires "SAFER" !in params && "NOSAFER" in params
    ensures Converted(params).saferMode == (params["NOSAFER"].value == "false")
  {
    var before, after := SortedNames[..13], SortedNames[13..];
    assert SortedNames == before + after;
    ApplyNamesAppend(params, before, after, Defaults);
    NoSaferSets(params);
    NoSaferTail(params, ApplyNames(params, before, Defaults));
  }

  /** Up to and including NOSAFER, the last entry touching safer_mode is NOSAFER. */
  lemma NoSaferSets(params: Params)
    requires "NOSAFER" in params
    ensures ApplyNames(params, SortedNames[..13], Defaults).saferMode == (params["NOSAFER"].value == "false")
  {
    assert SortedNames[..13] == SortedNames[..12] + ["NOSAFER"];
    ApplyNamesAppend(params, SortedNames[..12], ["NOSAFER"], Defaults);
    var o12 := ApplyNames(params, SortedNames[..12], Defaults);
    assert ApplyNames(params, SortedNames[..13], Defaults)
      == ApplyNames(params, [], ApplyParam(o12, "NOSAFER", params["NOSAFER"].value));
    assert TargetOf("NOSAFER") == SetNoSafer;
  }

  /** After NOSAFER only SAFER touches safer_mode. */
  lemma NoSaferTail(params: Params, o: ProcessingOptions)
    requires "SAFER" !in params
    ensures ApplyNames(params, SortedNames[13..], o).saferMode == o.saferMode
  {
    assert SortedNames[13..] == ["NUMCOPIES", "OUTPUTFILE", "PAGEOFFSETX", "PAGEOFFSETY",
      "PAPERSIZE", "PDFSETTINGS", "PDFX11LEFTMARGIN", "PRINTED", "QUIET", "SAFER"];
    SaferUntouched(params, SortedNames[13..], o);
  }

  /** Entries other than SAFER and NOSAFER leave safer_mode alone. */
  lemma {:induction false} SaferUntouched(params: Params, names: seq<string>, o: ProcessingOptions)
    requires forall k :: 0 <= k < |names| && names[k] in params ==> names[k] != "SAFER" && names[k] != "NOSAFER"
    ensures ApplyNames(params, names, o).saferMode == o.saferMode
    decreases |names|
  {
    if names != [] {
      var next := o;
      if names[0] in params {
        next := ApplyParam(o, names[0], params[names[0]].value);
        ApplyParamKeepsSafer(o, names[0], params[names[0]].value);
      }
      assert forall k :: 0 <= k < |names[1..]| ==> names[1..][k] == names[k + 1];
      SaferUntouched(params, names[1..], next);
    }
  }

  lemma ApplyParamKeepsSafer(o: ProcessingOptions, name: string, value: string)
    requires name != "SAFER" && name != "NOSAFER"
    ensures ApplyParam(o, name, value).saferMode == o.saferMode
  {
    var t := TargetOf(name);
    assert t != SetSafer && t != SetNoSafer;
  }

  /** Entries other than PDFX11LEFTMARGIN and MARGINLEFT leave left_margin alone. */
  lemma {:induction false} LeftMarginUntouched(params: Params, names: seq<string>, o: ProcessingOptions)
    requires forall k :: 0 <= k < |names| ==> names[k] != "PDFX11LEFTMARGIN" && names[k] != "MARGINLEFT"
    ensures ApplyNames(params, names, o).leftMargin == o.leftMargin
    decreases |names|
  {
    if names != [] {
      var next := o;
      if names[0] in params {
        next := ApplyParam(o, names[0], params[names[0]].value);
        ApplyParamKeepsLeftMargin(o, names[0], params[names[0]].value);
      }
      assert forall k :: 0 <= k < |names[1..]| ==> names[1..][k] == names[k + 1];
      LeftMarginUntouched(params, names[1..], next);
    }
  }

  lemma ApplyParamKeepsLeftMargin(o: ProcessingOptions, name: string, value: string)
    requires name != "PDFX11LEFTMARGIN" && name != "MARGINLEFT"
    ensures ApplyParam(o, name, value).leftMargin == o.leftMargin
  {
    var t := TargetOf(name);
    assert t != SetPdfxLeftMargin && t != SetMarginLeft;
  }

  /**
   * PDFX11LEFTMARGIN sorts after MARGINLEFT and both set left_margin, so a
   * non-empty PDFX11LEFTMARGIN value decides it.
   */
  lemma PdfxLeftMarginWins(params: Params)
    requires "PDFX11LEFTMARGIN" in params
    ensures Converted(params).leftMargin
      == RealField(params["PDFX11LEFTMARGIN"].value, ApplyNames(params, SortedNames[..19], Defaults).leftMargin)
  {
    var before, after := SortedNames[..20], SortedNames[20..];
    assert SortedNames == before + after;
    assert before == SortedNames[..19] + ["PDFX11LEFTMARGIN"];
    ApplyNamesAppend(params, before, after, Defaults);
    ApplyNamesAppend(params, SortedNames[..19], ["PDFX11LEFTMARGIN"], Defaults);
    assert after == ["PRINTED", "QUIET", "SAFER"];
    LeftMarginUntouched(params, after, ApplyNames(params, before, Defaults));
  }

  /** The names are strictly ascending, so this is the order the std::map iteration takes. */
  lemma SortedNamesAscending()
    ensures forall i, j :: 0 <= i < j < |SortedNames| ==> LexLess(SortedNames[i], SortedNames[j])
  {
    forall i | 0 <= i < |SortedNames| - 1
      ensures LexLess(SortedNames[i], SortedNames[i + 1])
    {
    }
    LexLessChain(SortedNames);
  }

  lemma {:induction false} LexLessTransitive(a: string, b: string, c: string, i: nat)
    requires LexLessFrom(a, b, i) && LexLessFrom(b, c, i)
    ensures LexLessFrom(a, c, i)
    decreases |a| - i
  {
    if i < |a| && i < |b| && i < |c| && a[i] == b[i] && b[i] == c[i] {
      LexLessTransitive(a, b, c, i + 1);
    }
  }

  lemma {:induction false} LexLessChain(s: seq<string>)
    requires forall i | 0 <= i < |s| - 1 :: LexLess(s[i], s[i + 1])
    ensures forall i, j :: 0 <= i < j < |s| ==> LexLess(s[i], s[j])
    decreases |s|
  {
    if |s| > 1 {
      LexLessChain(s[1..]);
      forall j | 1 < j < |s|
        ensures LexLess(s[0], s[j])
      {
        assert LexLess(s[1], s[j]) by { assert s[1] == s[1..][0] && s[j] == s[1..][j - 1]; }
        LexLessTransitive(s[0], s[1], s[j], 0);
      }
    }
  }

  /** The sorted names are exactly the definitions' canonical names. */
  lemma SortedNamesAreDefinitionNames()
    ensures |SortedNames| == |Definitions|
    ensures forall d :: d in Definitions ==> d.name in SortedNames
  {
  }

  // ---------------------------------------------------------------
  // Validation.
  // ---------------------------------------------------------------

  /** The printer device needs neither inputs nor an output path; every other device needs both. */
  predicate OptionsValid(options: ProcessingOptions)
  {
    options.deviceName == "mswinpr2" || (options.inputFiles != [] && options.outputFile != [])
  }

  /** The message ValidateOptions logs, if any. */
  function ValidationErrors(options: ProcessingOptions): (r: seq<(int, string)>)
    ensures r == [] <==> OptionsValid(options)
  {
    if options.inputFiles == [] && options.deviceName != "mswinpr2" then [(-1, "No input files specified")]
    else if options.outputFile == [] && options.deviceName != "mswinpr2" then [(-1, "No output file specified")]
    else []
  }

  // ---------------------------------------------------------------
  // The parser object.
  // ---------------------------------------------------------------

  class CommandParser {
    var parameters: seq<ParameterDefinition>
    var unrecognizedArgs: seq<string>
    /** The (code, message) errors reported. */
    ghost var errors: seq<(int, string)>

    constructor ()
      ensures parameters == Definitions && unrecognizedArgs == [] && errors == []
    {
      parameters := [];
      unrecognizedArgs := [];
      errors := [];
      new;
      InitializeParameterDefinitions();
    }

    /** Appends the table; the constructor calls it on an empty list. */
    method InitializeParameterDefinitions()
      modifies this`parameters
      ensures parameters == old(parameters) + Definitions
    {
      parameters := parameters + Definitions;
    }

    /** The first definition matching name, as an index into the table. */
    method FindParameterDefinition(name: string) returns (r: Option<nat>)
      ensures r == FindDefinition(parameters, name)
    {
      var i := 0;
      while i < |parameters|
        invariant i <= |parameters|
        invariant FindFrom(parameters, name, i) == FindDefinition(parameters, name)
      {
        if Matches(parameters[i], name) {
          return Some(i);
        }
        i := i + 1;
      }
      return None;
    }

    method ParseArgument(arg: string, position: int, params: Params) returns (ok: bool, result: Params)
      requires arg != []
      modifies this`errors
      ensures (ok, result) == ArgumentOutcome(parameters, arg, position, params)
      ensures errors == old(errors) + ArgumentErrors(parameters, arg)
    {
      var (name, value) := SplitArgument(arg);
      var found := FindParameterDefinition(name);
      if found.None? {
        return false, params;
      }
      var def := parameters[found.value];
      var parsed := ParseValue(def, value);
      if parsed.None? {
        errors := errors + [(-1, ValueError(def, value))];
        return false, params;
      }
      result := params[def.name := ParameterValue(def.name, parsed.value, true, position)];
      ok := true;
    }

    /**
     * The argument loop, then the conversion. options is the caller's
     * record, which the loop extends and the conversion then discards.
     */
    method ParseArguments(arguments: seq<string>, options: ProcessingOptions) returns (ok: bool, result: ProcessingOptions)
      modifies this`unrecognizedArgs, this`errors
      ensures ok
      ensures result == Converted(Gather(parameters, arguments, 0, Scan(options, map[], [], [])).params)
      ensures unrecognizedArgs == Gather(parameters, arguments, 0, Scan(options, map[], [], [])).unrecognized
      ensures errors == old(errors) + Gather(parameters, arguments, 0, Scan(options, map[], [], [])).errors
    {
      ghost var start := Scan(options, map[], [], []);
      ghost var log0 := errors;
      ghost var logged: seq<(int, string)> := [];
      var params: Params := map[];
      var gathered := options;
      unrecognizedArgs := [];
      var i := 0;
      while i < |arguments|
        invariant i <= |arguments|
        invariant errors == log0 + logged
        invariant Gather(parameters, arguments, i, Scan(gathered, params, unrecognizedArgs, logged))
          == Gather(parameters, arguments, 0, start)
      {
        var arg := arguments[i];
        if arg == [] {
          i := i + 1;
        } else if arg == "-c" && i + 1 < |arguments| {
          gathered := gathered.(postscriptCommands := gathered.postscriptCommands + [arguments[i + 1]]);
          i := i + 2;
        } else if arg == "-f" {
          i := i + 1;
        } else if !StartsWith(arg, "-") {
          gathered := gathered.(inputFiles := gathered.inputFiles + [arg]);
          i := i + 1;
        } else {
          var parsed: bool;
          parsed, params := ParseArgument(arg, i, params);
          if !parsed {
            unrecognizedArgs := unrecognizedArgs + [arg];
          }
          assert errors == log0 + (logged + ArgumentErrors(parameters, arg)) by {
            Regroup3(log0, logged, ArgumentErrors(parameters, arg));
          }
          logged := logged + ArgumentErrors(parameters, arg);
          i := i + 1;
        }
      }
      ok, result := ConvertToOptions(params);
    }

    /** Defaults first, then each entry in ascending key order. */
    method ConvertToOptions(params: Params) returns (ok: bool, options: ProcessingOptions)
      ensures ok && options == Converted(params)
    {
      options := Defaults;
      for i := 0 to |SortedNames|
        invariant ApplyNames(params, SortedNames[i..], options) == Converted(params)
      {
        var name := SortedNames[i];
        assert SortedNames[i..][1..] == SortedNames[i + 1..];
        if name in params {
          options := ApplyParam(options, name, params[name].value);
        }
      }
      ok := true;
    }

    method ValidateOptions(options: ProcessingOptions) returns (ok: bool)
      modifies this`errors
      ensures ok == OptionsValid(options)
      ensures errors == old(errors) + ValidationErrors(options)
    {
      if options.inputFiles == [] && options.deviceName != "mswinpr2" {
        errors := errors + [(-1, "No input files specified")];
        return false;
      }
      if options.outputFile == [] && options.deviceName != "mswinpr2" {
        errors := errors + [(-1, "No output file specified")];
        return false;
      }
      return true;
    }
  }

  /**
   * Because the conversion discards the gathered input files, options that
   * come out of ParseArguments pass validation only for the printer device.
   */
  lemma ParsedOptionsNeedPrinter(params: Params)
    ensures OptionsValid(Converted(params)) <==> Converted(params).deviceName == "mswinpr2"
  {
    ConversionDiscardsGathered(params);
  }
}
