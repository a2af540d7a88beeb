/**
 * The second command-line parser: options are reset, each argument is
 * handled in turn (flags, device names, input files), an argument that is
 * neither a flag nor a device and follows a handled one is skipped, and the
 * result is validated at the end.
 */
module CommandLine {
  import opened Wrappers
  import opened Numbers
  import opened StringUtils
  import opened Options
  import opened UtilsImpl

  /** The keys of the device table (its repeated entries collapse). */
  const KnownDevices: set<string> := {
    "pdfwrite", "mswinpr2", "ps2write", "pswrite", "eps2write", "epswrite", "txtwrite",
    "png16m", "png256", "png16", "pnggray", "pngmono", "jpeg", "jpeggray",
    "tiff12nc", "tiff24nc", "tiff48nc", "tiff32nc", "tiff64nc", "tiffgray", "tiffsep",
    "tiffsep1", "tiffcrle", "tifflzw", "tiffpack", "tiffg3", "tiffg32d", "tiffg4",
    "bmp16m", "bmp256", "bmp16", "bmpgray", "bmpmono",
    "pcx16m", "pcx256", "pcx16", "pcxgray", "pcxmono",
    "pbm", "pgm", "ppm", "pnm", "pkm", "pam",
    "pamcmyk32", "pamcmyk4", "pamcmyk", "pamrgb", "pamgray", "pammono"}

  /** Longer than one character and starting with '-' or '/'. */
  predicate IsFlag(arg: string)
  {
    |arg| > 1 && (arg[0] == '-' || arg[0] == '/')
  }

  predicate IsDevice(arg: string)
  {
    arg in KnownDevices
  }

  /** std::string::substr(0, n): at most the first n characters. */
  function Prefix(s: string, n: nat): (r: string)
    ensures |r| == if |s| <= n then |s| else n
    ensures forall k :: 0 <= k < |r| ==> r[k] == s[k]
  {
    if |s| <= n then s else s[..n]
  }

  /** A prefix that differs from lit at k is not lit. */
  lemma PrefixDiffers(s: string, n: nat, lit: string, k: nat)
    requires k < n && k < |s| && k < |lit| && s[k] != lit[k]
    ensures Prefix(s, n) != lit
  {
    assert Prefix(s, n)[k] == s[k];
  }

  // ---------------------------------------------------------------
  // One argument.
  // ---------------------------------------------------------------

  /** Whether the loop goes on, stops with false, or leaves by a std::out_of_range. */
  datatype Status = Accepted | Refused | Thrown

  /** The outcome of handling arguments: the status, the options as left, the errors reported. */
  datatype Step = Step(status: Status, options: ProcessingOptions, errors: seq<(int, string)>)

  function Accept(o: ProcessingOptions): Step { Step(Accepted, o, []) }

  function Refuse(o: ProcessingOptions, message: string): Step { Step(Refused, o, [(-1, message)]) }

  /** Which branch of the flag chain an argument takes. */
  datatype FlagKind =
    | HelpFlag | VersionFlag | QuietFlag | SaferFlag | NoPauseFlag | BatchFlag | PrintedFlag
    | EmptyStackFlag | DeviceFlag | OutputFileFlag | CompatibilityFlag | CopiesFlag
    | PaperSizeFlag | DimensionsFlag | ResolutionFlag | MarginsFlag | PageOffsetFlag
    | QualityFlag | PrinterNameFlag | UnknownFlag

  /** The length each branch's substr calls rely on. */
  function FlagLength(k: FlagKind): nat
  {
    match k
    case DeviceFlag => 8
    case OutputFileFlag => 12
    case CompatibilityFlag => 20
    case CopiesFlag => 12
    case PaperSizeFlag => 12
    case DimensionsFlag => 1
    case ResolutionFlag => 1
    case MarginsFlag => 10
    case PageOffsetFlag => 13
    case QualityFlag => 10
    case _ => 0
  }

  /**
   * The flag chain, in source order. It goes through FlagAt, a recursive
   * layer, so that proofs keep the chain of comparisons folded; FlagOfIs
   * unfolds it.
   */
  function FlagOf(arg: string): (k: FlagKind)
    ensures |arg| >= FlagLength(k)
    ensures k != DeviceFlag && k != OutputFileFlag && k != CompatibilityFlag
    ensures k == PrinterNameFlag ==> arg == "-sPrinterName="
  {
    FlagAt(arg, 2)
  }

  function FlagAt(arg: string, layer: nat): (k: FlagKind)
    ensures |arg| >= FlagLength(k)
    ensures k != DeviceFlag && k != OutputFileFlag && k != CompatibilityFlag
    ensures k == PrinterNameFlag ==> arg == "-sPrinterName="
  {
    if layer == 0 then FlagChain(arg) else FlagAt(arg, layer - 1)
  }

  lemma FlagOfIs(arg: string)
    ensures FlagOf(arg) == FlagChain(arg)
  {
    assert FlagAt(arg, 1) == FlagAt(arg, 0);
  }

  /** The flags that are compared whole, then the prefixed ones. */
  function FlagChain(arg: string): (k: FlagKind)
    ensures |arg| >= FlagLength(k)
    ensures k != DeviceFlag && k != OutputFileFlag && k != CompatibilityFlag
    ensures k == PrinterNameFlag ==> arg == "-sPrinterName="
  {
    if arg == "-h" || arg == "--help" then HelpFlag
    else if arg == "-v" || arg == "--version" then VersionFlag
    else if arg == "-q" || arg == "--quiet" then QuietFlag
    else if arg == "-s" || arg == "--safer" then SaferFlag
    else if arg == "-dNOPAUSE" then NoPauseFlag
    else if arg == "-dBATCH" then BatchFlag
    else if arg == "-dPrinted" then PrintedFlag
    else if arg == "-dEmptyStack" then EmptyStackFlag
    else PrefixFlag(arg)
  }

  /** The prefixed flags, through a recursive layer as FlagOf; PrefixFlagIs unfolds it. */
  function PrefixFlag(arg: string): (k: FlagKind)
    ensures |arg| >= FlagLength(k)
    ensures k != DeviceFlag && k != OutputFileFlag && k != CompatibilityFlag
    ensures k == PrinterNameFlag ==> arg == "-sPrinterName="
  {
    PrefixFlagAt(arg, 2)
  }

  function PrefixFlagAt(arg: string, layer: nat): (k: FlagKind)
    ensures |arg| >= FlagLength(k)
    ensures k != DeviceFlag && k != OutputFileFlag && k != CompatibilityFlag
    ensures k == PrinterNameFlag ==> arg == "-sPrinterName="
  {
    if layer == 0 then PrefixChain(arg) else PrefixFlagAt(arg, layer - 1)
  }

  lemma PrefixFlagIs(arg: string)
    ensures PrefixFlag(arg) == PrefixChain(arg)
  {
    assert PrefixFlagAt(arg, 1) == PrefixFlagAt(arg, 0);
  }

  /**
   * Three of the prefix tests compare substr(0, n) with a literal of n + 1
   * characters, so they never hold; substr(0, 15) equals the 14-character
   * printer literal only when the argument is exactly that literal.
   */
  function PrefixChain(arg: string): (k: FlagKind)
    ensures |arg| >= FlagLength(k)
    ensures k != DeviceFlag && k != OutputFileFlag && k != CompatibilityFlag
    ensures k == PrinterNameFlag ==> arg == "-sPrinterName="
  {
    if Prefix(arg, 8) == "-sDEVICE=" then DeviceFlag
    else if Prefix(arg, 12) == "-sOutputFile=" then OutputFileFlag
    else if Prefix(arg, 20) == "-dCompatibilityLevel=" then CompatibilityFlag
    else if Prefix(arg, 12) == "-dNumCopies=" then CopiesFlag
    else if Prefix(arg, 12) == "-sPaperSize=" then PaperSizeFlag
    else if |arg| > 1 && arg[0] == '-' && arg[1] == 'g' then DimensionsFlag
    else if |arg| > 1 && arg[0] == '-' && arg[1] == 'r' then ResolutionFlag
    else if Prefix(arg, 10) == "-dMargins=" then MarginsFlag
    else if Prefix(arg, 13) == "-dPageOffset=" then PageOffsetFlag
    else if Prefix(arg, 10) == "-dQuality=" then QualityFlag
    else if Prefix(arg, 15) == "-sPrinterName=" then PrinterNameFlag
    else UnknownFlag
  }

  /** An argument of three or more characters that none of the whole-flag names can be goes to the prefix tests. */
  lemma NotWholeFlag(arg: string)
    requires |arg| > 2 && arg[0] == '-' && arg[1] != '-'
    requires arg[1] == 'd' ==> arg[2] != 'B' && arg[2] != 'P' && arg[2] != 'E'
    requires arg[1] == 'd' && arg[2] == 'N' ==> |arg| > 3 && arg[3] != 'O'
    ensures FlagOf(arg) == PrefixFlag(arg)
  {
    DiffersAt(arg, "--help", 1);
    DiffersAt(arg, "--version", 1);
    DiffersAt(arg, "--quiet", 1);
    DiffersAt(arg, "--safer", 1);
    var k := if arg[1] == 'd' then 2 else 1;
    DiffersAt(arg, "-dNOPAUSE", if k == 2 && arg[2] == 'N' then 3 else k);
    DiffersAt(arg, "-dBATCH", k);
    DiffersAt(arg, "-dPrinted", k);
    DiffersAt(arg, "-dEmptyStack", k);
    FlagOfIs(arg);
  }

  /** ParseQuality's table: lower-cased names and the numeric aliases that are reachable. */
  function QualityValue(value: string): (r: Option<PDFQuality>)
    ensures r.Some? && ToLower(value) != "72" && ToLower(value) != "150" && ToLower(value) != "300" ==>
      QualityToString(r.value) == ToLower(value)
  {
    var lower := ToLower(value);
    if lower == "screen" || lower == "72" then Some(SCREEN)
    else if lower == "default" || lower == "150" then Some(DEFAULT)
    else if lower == "ebook" || lower == "150" then Some(EBOOK)
    else if lower == "printer" || lower == "300" then Some(PRINTER)
    else if lower == "prepress" || lower == "300" then Some(PREPRESS)
    else None
  }

  /** Every quality's name reads back as that quality, in any case. */
  lemma QualityNamesRead(q: PDFQuality, s: string)
    requires ToLower(s) == QualityToString(q)
    ensures QualityValue(s) == Some(q)
  {
  }

  /** The quality table ignores case. */
  lemma QualityCaseInsensitive(s: string)
    ensures QualityValue(ToUpper(s)) == QualityValue(s)
  {
    LowerOfUpper(s);
  }

  /** "150" always means DEFAULT and "300" PRINTER: the EBOOK and PREPRESS aliases are shadowed. */
  lemma ShadowedQualityAliases()
    ensures QualityValue("72") == Some(SCREEN)
    ensures QualityValue("150") == Some(DEFAULT)
    ensures QualityValue("300") == Some(PRINTER)
  {
    assert ToLower("72") == "72";
    assert ToLower("150") == "150";
    assert ToLower("300") == "300";
  }

  function QualityStep(o: ProcessingOptions, value: string): (r: Step)
    ensures r.options.deviceName == o.deviceName
  {
    match QualityValue(value)
    case Some(q) => Accept(o.(quality := q))
    case None => Refuse(o, "Invalid quality setting: " + value)
  }

  /** ParsePaperSize's table: exactly the seven lower-cased names. */
  function PaperSizeValue(value: string): (r: Option<PaperSize>)
    ensures r.Some? ==> PaperSizeToString(r.value) == ToLower(value)
  {
    var lower := ToLower(value);
    if lower == "a4" then Some(A4)
    else if lower == "letter" then Some(LETTER)
    else if lower == "legal" then Some(LEGAL)
    else if lower == "a3" then Some(A3)
    else if lower == "a5" then Some(A5)
    else if lower == "executive" then Some(EXECUTIVE)
    else if lower == "custom" then Some(CUSTOM)
    else None
  }

  /** Every paper size's name reads back as that size, in any case. */
  lemma PaperSizeNamesRead(p: PaperSize, s: string)
    requires ToLower(s) == PaperSizeToString(p)
    ensures PaperSizeValue(s) == Some(p)
  {
  }

  /** The paper-size table ignores case. */
  lemma PaperSizeValueCaseInsensitive(s: string)
    ensures PaperSizeValue(ToUpper(s)) == PaperSizeValue(s)
  {
    LowerOfUpper(s);
  }

  function PaperSizeStep(o: ProcessingOptions, value: string): (r: Step)
    ensures r.options.deviceName == o.deviceName
  {
    match PaperSizeValue(value)
    case Some(p) => Accept(o.(paperSize := p))
    case None => Refuse(o, "Invalid paper size: " + value)
  }

  function DeviceStep(o: ProcessingOptions, value: string): (r: Step)
    ensures r.status == Accepted <==> IsDevice(value)
    ensures r.status == Accepted ==> r.options == o.(deviceName := value)
  {
    if !IsDevice(value) then Refuse(o, "Unknown device: " + value)
    else Accept(o.(deviceName := value))
  }

  /**
   * ParseMargins: exactly four comma-separated pieces, each read by stod in
   * turn into left, top, right and bottom; a piece that does not read stops
   * with the earlier margins already stored.
   */
  function MarginsStep(o: ProcessingOptions, value: string): (r: Step)
    ensures |Pieces(value, ',')| != 4 ==> r.status == Refused && r.options == o
    ensures r.options.deviceName == o.deviceName
  {
    var parts := TrimAll(Pieces(value, ','));
    var invalid := "Invalid margin values: " + value;
    if |parts| != 4 then Refuse(o, "Invalid margins format: " + value + " (expected: left,top,right,bottom)")
    else match ParseDouble(parts[0])
      case None => Refuse(o, invalid)
      case Some(left) =>
        var o1 := o.(leftMargin := left);
        match ParseDouble(parts[1])
        case None => Refuse(o1, invalid)
        case Some(top) =>
          var o2 := o1.(topMargin := top);
          match ParseDouble(parts[2])
          case None => Refuse(o2, invalid)
          case Some(right) =>
            var o3 := o2.(rightMargin := right);
            match ParseDouble(parts[3])
            case None => Refuse(o3, invalid)
            case Some(bottom) => Accept(o3.(bottomMargin := bottom))
  }

  /** Four readable pieces set all four margins, in left, top, right, bottom order. */
  lemma MarginsAllRead(o: ProcessingOptions, value: string)
    requires |Pieces(value, ',')| == 4
    requires forall k :: 0 <= k < 4 ==> ParseDouble(Trim(Pieces(value, ',')[k])).Some?
    ensures MarginsStep(o, value).status == Accepted
    ensures var p := TrimAll(Pieces(value, ','));
      MarginsStep(o, value).options == o.(leftMargin := ParseDouble(p[0]).value,
        topMargin := ParseDouble(p[1]).value, rightMargin := ParseDouble(p[2]).value,
        bottomMargin := ParseDouble(p[3]).value)
  {
  }

  /** ParsePageOffset: exactly two comma-separated pieces, read into x then y. */
  function PageOffsetStep(o: ProcessingOptions, value: string): (r: Step)
    ensures |Pieces(value, ',')| != 2 ==> r.status == Refused && r.options == o
    ensures r.status == Accepted ==>
      var p := TrimAll(Pieces(value, ','));
      |p| == 2 && ParseDouble(p[0]).Some? && ParseDouble(p[1]).Some? &&
      r.options == o.(pageOffsetX := ParseDouble(p[0]).value, pageOffsetY := ParseDouble(p[1]).value)
    ensures r.options.deviceName == o.deviceName
  {
    var parts := TrimAll(Pieces(value, ','));
    var invalid := "Invalid page offset values: " + value;
    if |parts| != 2 then Refuse(o, "Invalid page offset format: " + value + " (expected: x,y)")
    else match ParseDouble(parts[0])
      case None => Refuse(o, invalid)
      case Some(x) =>
        match ParseDouble(parts[1])
        case None => Refuse(o.(pageOffsetX := x), invalid)
        case Some(y) => Accept(o.(pageOffsetX := x, pageOffsetY := y))
  }

  /** ParseCustomDimensions: width before the first 'x', height after it. */
  function DimensionsStep(o: ProcessingOptions, value: string): (r: Step)
    ensures r.options.deviceName == o.deviceName
  {
    var xPos := IndexOf(value, 'x');
    var invalid := "Invalid dimension values: " + value;
    if xPos == |value| then Refuse(o, "Invalid dimensions format: " + value + " (expected: widthxheight)")
    else match ParseDouble(value[..xPos])
      case None => Refuse(o, invalid)
      case Some(w) =>
        match ParseDouble(value[xPos + 1..])
        case None => Refuse(o.(customWidthPoints := w), invalid)
        case Some(h) => Accept(o.(customWidthPoints := w, customHeightPoints := h, paperSize := CUSTOM))
  }

  /** The quality a resolution maps to. */
  function ResolutionQuality(dpi: real): PDFQuality
  {
    if dpi <= 72.0 then SCREEN else if dpi <= 150.0 then EBOOK else if dpi <= 300.0 then PRINTER else PREPRESS
  }

  /** What each branch of the flag chain does. */
  function FlagStep(o: ProcessingOptions, arg: string, k: FlagKind): (r: Step)
    requires |arg| >= FlagLength(k)
    requires k == PrinterNameFlag ==> arg == "-sPrinterName="
  {
    match k
    case HelpFlag => Step(Refused, o, [])
    case VersionFlag => Step(Refused, o, [])
    case QuietFlag => Accept(o.(quiet := true))
    case SaferFlag => Accept(o.(saferMode := true))
    case NoPauseFlag => Accept(o.(noPause := true))
    case BatchFlag => Accept(o.(batchMode := true))
    case PrintedFlag => Accept(o.(printed := true))
    case EmptyStackFlag => Accept(o.(emptyStack := true))
    case DeviceFlag => DeviceStep(o, arg[8..])
    case OutputFileFlag => Accept(o.(outputFile := arg[12..]))
    case CompatibilityFlag =>
      (match ParseDouble(arg[20..])
       case Some(v) => Accept(o.(compatibilityLevel := v))
       case None => Refuse(o, "Invalid compatibility level: " + arg[20..]))
    case CopiesFlag =>
      (match ParseInt(arg[12..])
       case Some(n) => Accept(o.(numCopies := n))
       case None => Refuse(o, "Invalid number of copies: " + arg[12..]))
    case PaperSizeFlag => PaperSizeStep(o, arg[12..])
    case DimensionsFlag => DimensionsStep(o, arg[1..])
    case ResolutionFlag =>
      (match ParseDouble(arg[1..])
       case Some(dpi) => Accept(o.(quality := ResolutionQuality(dpi)))
       case None => Refuse(o, "Invalid resolution: " + arg[1..]))
    case MarginsFlag => MarginsStep(o, arg[10..])
    case PageOffsetFlag => PageOffsetStep(o, arg[13..])
    case QualityFlag => QualityStep(o, arg[10..])
    // substr(15) of the 14-character argument throws std::out_of_range.
    case PrinterNameFlag => Step(Thrown, o, [])
    case UnknownFlag => Refuse(o, "Unknown flag: " + arg)
  }

  /** ParseArgument: empty arguments pass, then flags, device names and input files. */
  function ArgumentStep(o: ProcessingOptions, arg: string): (r: Step)
    ensures !IsFlag(arg) && arg != [] && !IsDevice(arg) ==> r == Accept(o.(inputFiles := o.inputFiles + [arg]))
    ensures !IsFlag(arg) ==> r.options.inputFiles == o.inputFiles + (if arg != [] && !IsDevice(arg) then [arg] else [])
  {
    if arg == [] then Accept(o)
    else if IsFlag(arg) then FlagStep(o, arg, FlagOf(arg))
    else if IsDevice(arg) then DeviceStep(o, arg)
    else Accept(o.(inputFiles := o.inputFiles + [arg]))
  }

  // ---------------------------------------------------------------
  // The branches that cannot be reached.
  // ---------------------------------------------------------------

  /** -sDEVICE=... falls through the whole chain and is an unknown flag. */
  lemma DeviceFlagUnknown(o: ProcessingOptions, v: string)
    ensures ArgumentStep(o, "-sDEVICE=" + v) == Refuse(o, "Unknown flag: " + ("-sDEVICE=" + v))
  {
    DeviceFlagKind(v);
  }

  lemma DeviceFlagKind(v: string)
    ensures FlagOf("-sDEVICE=" + v) == UnknownFlag
  {
    var arg := "-sDEVICE=" + v;
    NotWholeFlag(arg);
    assert arg[..9] == "-sDEVICE=";
    PrefixDiffers(arg, 12, "-dNumCopies=", 1);
    PrefixDiffers(arg, 12, "-sPaperSize=", 2);
    PrefixDiffers(arg, 10, "-dMargins=", 1);
    PrefixDiffers(arg, 13, "-dPageOffset=", 1);
    PrefixDiffers(arg, 10, "-dQuality=", 1);
    PrefixDiffers(arg, 15, "-sPrinterName=", 2);
    PrefixFlagIs(arg);
  }

  /** -sOutputFile=... is an unknown flag as well: no output path is ever set here. */
  lemma OutputFileFlagUnknown(o: ProcessingOptions, v: string)
    ensures ArgumentStep(o, "-sOutputFile=" + v) == Refuse(o, "Unknown flag: " + ("-sOutputFile=" + v))
  {
    OutputFileFlagKind(v);
  }

  lemma OutputFileFlagKind(v: string)
    ensures FlagOf("-sOutputFile=" + v) == UnknownFlag
  {
    var arg := "-sOutputFile=" + v;
    NotWholeFlag(arg);
    assert arg[..13] == "-sOutputFile=";
    PrefixDiffers(arg, 12, "-dNumCopies=", 1);
    PrefixDiffers(arg, 12, "-sPaperSize=", 2);
    PrefixDiffers(arg, 10, "-dMargins=", 1);
    PrefixDiffers(arg, 13, "-dPageOffset=", 1);
    PrefixDiffers(arg, 10, "-dQuality=", 1);
    PrefixDiffers(arg, 15, "-sPrinterName=", 2);
    PrefixFlagIs(arg);
  }

  /** -dCompatibilityLevel=... is an unknown flag. */
  lemma CompatibilityFlagUnknown(o: ProcessingOptions, v: string)
    ensures ArgumentStep(o, "-dCompatibilityLevel=" + v)
      == Refuse(o, "Unknown flag: " + ("-dCompatibilityLevel=" + v))
  {
    CompatibilityFlagKind(v);
  }

  lemma CompatibilityFlagKind(v: string)
    ensures FlagOf("-dCompatibilityLevel=" + v) == UnknownFlag
  {
    var arg := "-dCompatibilityLevel=" + v;
    NotWholeFlag(arg);
    assert arg[..21] == "-dCompatibilityLevel=";
    PrefixDiffers(arg, 12, "-dNumCopies=", 2);
    PrefixDiffers(arg, 12, "-sPaperSize=", 1);
    PrefixDiffers(arg, 10, "-dMargins=", 2);
    PrefixDiffers(arg, 13, "-dPageOffset=", 2);
    PrefixDiffers(arg, 10, "-dQuality=", 2);
    PrefixDiffers(arg, 15, "-sPrinterName=", 1);
    PrefixFlagIs(arg);
  }

  /**
   * -sPrinterName= alone reaches the printer branch, whose substr(15)
   * throws; with a name after it the argument is an unknown flag.
   */
  lemma PrinterNameArgument(o: ProcessingOptions, v: string)
    ensures v == [] ==> ArgumentStep(o, "-sPrinterName=" + v).status == Thrown
    ensures v != [] ==> ArgumentStep(o, "-sPrinterName=" + v) == Refuse(o, "Unknown flag: " + ("-sPrinterName=" + v))
  {
    PrinterNameFlagKind(v);
  }

  lemma PrinterNameFlagKind(v: string)
    ensures FlagOf("-sPrinterName=" + v) == if v == [] then PrinterNameFlag else UnknownFlag
  {
    var arg := "-sPrinterName=" + v;
    NotWholeFlag(arg);
    assert arg[..14] == "-sPrinterName=";
    PrefixDiffers(arg, 12, "-dNumCopies=", 1);
    PrefixDiffers(arg, 12, "-sPaperSize=", 3);
    PrefixDiffers(arg, 10, "-dMargins=", 1);
    PrefixDiffers(arg, 13, "-dPageOffset=", 1);
    PrefixDiffers(arg, 10, "-dQuality=", 1);
    if v == [] {
      assert Prefix(arg, 15) == "-sPrinterName=";
    } else {
      assert Prefix(arg, 15) != "-sPrinterName=";
    }
    PrefixFlagIs(arg);
  }

  lemma QualityFlagKind(v: string)
    ensures FlagOf("-dQuality=" + v) == QualityFlag
  {
    var arg := "-dQuality=" + v;
    NotWholeFlag(arg);
    assert Prefix(arg, 10) == "-dQuality=";
    PrefixDiffers(arg, 12, "-dNumCopies=", 2);
    PrefixDiffers(arg, 12, "-sPaperSize=", 1);
    PrefixDiffers(arg, 10, "-dMargins=", 2);
    PrefixDiffers(arg, 13, "-dPageOffset=", 2);
    PrefixFlagIs(arg);
  }

  lemma PaperSizeFlagKind(v: string)
    ensures FlagOf("-sPaperSize=" + v) == PaperSizeFlag
  {
    var arg := "-sPaperSize=" + v;
    NotWholeFlag(arg);
    assert Prefix(arg, 12) == "-sPaperSize=";
    PrefixDiffers(arg, 12, "-dNumCopies=", 1);
    PrefixDiffers(arg, 8, "-sDEVICE=", 2);
    PrefixFlagIs(arg);
  }

  lemma CopiesFlagKind(v: string)
    ensures FlagOf("-dNumCopies=" + v) == CopiesFlag
  {
    var arg := "-dNumCopies=" + v;
    NotWholeFlag(arg);
    assert Prefix(arg, 12) == "-dNumCopies=";
    PrefixFlagIs(arg);
  }

  lemma MarginsFlagKind(v: string)
    ensures FlagOf("-dMargins=" + v) == MarginsFlag
  {
    var arg := "-dMargins=" + v;
    NotWholeFlag(arg);
    assert Prefix(arg, 10) == "-dMargins=";
    PrefixDiffers(arg, 12, "-dNumCopies=", 2);
    PrefixDiffers(arg, 12, "-sPaperSize=", 1);
    PrefixFlagIs(arg);
  }

  /** -dQuality= with a quality's name, in any case, selects that quality. */
  lemma QualityArgument(o: ProcessingOptions, q: PDFQuality, name: string)
    requires ToLower(name) == QualityToString(q)
    ensures ArgumentStep(o, "-dQuality=" + name) == Accept(o.(quality := q))
  {
    QualityFlagKind(name);
    assert ("-dQuality=" + name)[10..] == name;
    QualityNamesRead(q, name);
  }

  /** -sPaperSize= with a size's name, in any case, selects that size. */
  lemma PaperSizeArgument(o: ProcessingOptions, p: PaperSize, name: string)
    requires ToLower(name) == PaperSizeToString(p)
    ensures ArgumentStep(o, "-sPaperSize=" + name) == Accept(o.(paperSize := p))
  {
    PaperSizeFlagKind(name);
    assert ("-sPaperSize=" + name)[12..] == name;
    PaperSizeNamesRead(p, name);
  }

  /** -dNumCopies= with a printed count stores that count. */
  lemma CopiesArgument(o: ProcessingOptions, n: nat)
    requires n <= IntMax
    ensures ArgumentStep(o, "-dNumCopies=" + NatToString(n)) == Accept(o.(numCopies := n))
  {
    CopiesFlagKind(NatToString(n));
    assert ("-dNumCopies=" + NatToString(n))[12..] == NatToString(n);
    ParseIntOfNatToString(n);
  }

  /** -dMargins= needs exactly four pieces; otherwise nothing changes and the format is reported. */
  lemma MarginsArgumentShape(o: ProcessingOptions, v: string)
    requires |Pieces(v, ',')| != 4
    ensures ArgumentStep(o, "-dMargins=" + v)
      == Refuse(o, "Invalid margins format: " + v + " (expected: left,top,right,bottom)")
  {
    MarginsFlagKind(v);
    assert ("-dMargins=" + v)[10..] == v;
  }

  /** A text that starts with a letter other than a space, sign, digit or point is no number. */
  lemma LetterIsNoNumber(s: string)
    requires s != [] && 'a' <= s[0] <= 'z'
    ensures ParseDouble(s) == None
  {
    ParseDoubleIs(s);
    assert SpanEnd(s, 0, IsCSpace) == 0;
    assert SpanEnd(s, 0, IsDigit) == 0;
  }

  /** -r keeps its letter in the text handed to stod, so every resolution is refused. */
  lemma ResolutionAlwaysRefused(o: ProcessingOptions, t: string)
    requires FlagOf("-r" + t) == ResolutionFlag
    ensures ArgumentStep(o, "-r" + t) == Refuse(o, "Invalid resolution: " + ("r" + t))
  {
    var arg := "-r" + t;
    assert arg[1..] == "r" + t;
    LetterIsNoNumber(arg[1..]);
  }

  /** -g keeps its letter in the width text, so every page size in pixels is refused. */
  lemma DimensionsAlwaysRefused(o: ProcessingOptions, t: string)
    requires FlagOf("-g" + t) == DimensionsFlag
    ensures ArgumentStep(o, "-g" + t).status == Refused
    ensures ArgumentStep(o, "-g" + t).options == o
  {
    var arg := "-g" + t;
    var dims := arg[1..];
    assert dims == "g" + t;
    var xPos := IndexOf(dims, 'x');
    if xPos < |dims| {
      assert xPos > 0;
      LetterIsNoNumber(dims[..xPos]);
    }
  }

  /** -r followed by a digit takes the resolution branch. */
  lemma ResolutionBranch(t: string)
    requires t != [] && '0' <= t[0] <= '9'
    ensures FlagOf("-r" + t) == ResolutionFlag
  {
    var arg := "-r" + t;
    NotWholeFlag(arg);
    PrefixDiffers(arg, 12, "-dNumCopies=", 1);
    PrefixDiffers(arg, 12, "-sPaperSize=", 1);
    PrefixFlagIs(arg);
  }

  // ---------------------------------------------------------------
  // The argument loop.
  // ---------------------------------------------------------------

  /** Whether the argument after a handled one is skipped. */
  predicate SkipsNext(args: seq<string>, i: nat)
  {
    i + 1 < |args| && !IsFlag(args[i + 1]) && !IsDevice(args[i + 1])
  }

  /**
   * The loop from index i on: the first argument that is not accepted ends
   * it; after an accepted one the next is skipped when it is neither a
   * flag nor a known device.
   */
  function Run(args: seq<string>, i: nat, s: Step): Step
    requires i <= |args| && s.status == Accepted
    decreases |args| - i
  {
    if i == |args| then s
    else
      var st := ArgumentStep(s.options, args[i]);
      var next := Step(st.status, st.options, s.errors + st.errors);
      if st.status != Accepted then next
      else Run(args, if SkipsNext(args, i) then i + 2 else i + 1, next)
  }

  /** Every other argument of a run of plain file names, from the first. */
  function EveryOther(files: seq<string>): (r: seq<string>)
    ensures |r| == (|files| + 1) / 2
  {
    if |files| <= 1 then files else [files[0]] + EveryOther(files[2..])
  }

  predicate PlainFile(arg: string)
  {
    arg != [] && !IsFlag(arg) && !IsDevice(arg)
  }

  /**
   * Of a run of plain file names only every other one is recorded: each
   * recorded name makes the loop skip the one after it.
   */
  lemma {:induction false} PlainFilesEveryOther(args: seq<string>, i: nat, s: Step)
    requires i <= |args| && s.status == Accepted
    requires forall k :: i <= k < |args| ==> PlainFile(args[k])
    ensures Run(args, i, s).status == Accepted
    ensures Run(args, i, s).options == s.options.(inputFiles := s.options.inputFiles + EveryOther(args[i..]))
    decreases |args| - i
  {
    if i == |args| {
      assert args[i..] == [];
    } else {
      var st := ArgumentStep(s.options, args[i]);
      assert st == Accept(s.options.(inputFiles := s.options.inputFiles + [args[i]]));
      var next := Step(st.status, st.options, s.errors + st.errors);
      if i + 1 < |args| {
        assert SkipsNext(args, i);
        assert args[i..][2..] == args[i + 2..];
        PlainFilesEveryOther(args, i + 2, next);
        assert EveryOther(args[i..]) == [args[i]] + EveryOther(args[i + 2..]);
      } else {
        assert args[i..] == [args[i]];
        PlainFilesEveryOther(args, i + 1, next);
      }
    }
  }

  /** A flag swallows a plain file name that follows it: the name is never recorded. */
  lemma {:induction false} FlagSwallowsFile(args: seq<string>, i: nat, s: Step)
    requires i + 1 < |args| && s.status == Accepted
    requires IsFlag(args[i]) && PlainFile(args[i + 1])
    requires ArgumentStep(s.options, args[i]).status == Accepted
    requires ArgumentStep(s.options, args[i]).options.inputFiles == s.options.inputFiles
    ensures Run(args, i, s) == Run(args, i + 2, Step(Accepted, ArgumentStep(s.options, args[i]).options,
      s.errors + ArgumentStep(s.options, args[i]).errors))
  {
  }

  // ---------------------------------------------------------------
  // Validation.
  // ---------------------------------------------------------------

  /** The checks at the end of Parse, in order; None when all pass. */
  function ValidationError(o: ProcessingOptions): (r: Option<string>)
    ensures r.None? <==>
      (o.deviceName != [] && o.inputFiles != [] && 1.0 <= o.compatibilityLevel <= 2.0 && o.numCopies >= 1)
    ensures o.deviceName == [] ==> r == Some("No output device specified")
    ensures o.deviceName != [] && o.inputFiles == [] ==> r == Some("No input files specified")
  {
    if o.deviceName == [] then Some("No output device specified")
    else if o.inputFiles == [] then Some("No input files specified")
    else if o.compatibilityLevel < 1.0 || o.compatibilityLevel > 2.0 then
      Some("Invalid compatibility level: " + FormatFixed(o.compatibilityLevel, 6))
    else if o.numCopies < 1 then Some("Invalid number of copies: " + IntToString(o.numCopies))
    else None
  }

  datatype ParseOutcome = Returned(ok: bool) | OutOfRangeThrown

  /** What Parse does with the arguments: its outcome, final options and errors. */
  function ParseResult(args: seq<string>): (ParseOutcome, ProcessingOptions, seq<(int, string)>)
  {
    var s := Run(args, 0, Accept(Defaults));
    match s.status
    case Accepted =>
      var e := ValidationError(s.options);
      (Returned(e.None?), s.options, s.errors + if e.None? then [] else [(-1, e.value)])
    case Refused => (Returned(false), s.options, s.errors)
    case Thrown => (OutOfRangeThrown, s.options, s.errors)
  }

  /**
   * Since every -sDEVICE= argument is refused, a successful parse needs a
   * bare device name among the handled arguments; without one the device
   * stays empty and validation fails.
   */
  lemma WithoutDeviceNameParseFails(args: seq<string>)
    requires forall k :: 0 <= k < |args| ==> !IsDevice(args[k]) && !IsFlag(args[k])
    ensures ParseResult(args).0 == Returned(false)
  {
    NoDeviceKeepsName(args, 0, Accept(Defaults));
  }

  lemma {:induction false} NoDeviceKeepsName(args: seq<string>, i: nat, s: Step)
    requires i <= |args| && s.status == Accepted
    requires forall k :: 0 <= k < |args| ==> !IsDevice(args[k]) && !IsFlag(args[k])
    ensures Run(args, i, s).status == Accepted
    ensures Run(args, i, s).options.deviceName == s.options.deviceName
    decreases |args| - i
  {
    if i < |args| {
      var st := ArgumentStep(s.options, args[i]);
      var next := Step(st.status, st.options, s.errors + st.errors);
      assert st.status == Accepted && st.options.deviceName == s.options.deviceName;
      NoDeviceKeepsName(args, if SkipsNext(args, i) then i + 2 else i + 1, next);
    }
  }

  /** Only a bare device name sets the device: no flag step touches it. */
  lemma ArgumentStepKeepsDevice(o: ProcessingOptions, arg: string)
    requires !IsDevice(arg)
    ensures ArgumentStep(o, arg).options.deviceName == o.deviceName
  {
    if arg != [] && IsFlag(arg) {
      FlagStepKeepsDevice(o, arg, FlagOf(arg));
    }
  }

  lemma FlagStepKeepsDevice(o: ProcessingOptions, arg: string, k: FlagKind)
    requires |arg| >= FlagLength(k) && k != DeviceFlag
    requires k == PrinterNameFlag ==> arg == "-sPrinterName="
    ensures FlagStep(o, arg, k).options.deviceName == o.deviceName
  {
    if ParsedByStep(k) {
      StepFlagKeepsDevice(o, arg, k);
    }
  }

  /** The flags whose value a ...Step function reads. */
  predicate ParsedByStep(k: FlagKind)
  {
    k.MarginsFlag? || k.PageOffsetFlag? || k.PaperSizeFlag? || k.DimensionsFlag? || k.QualityFlag?
  }

  lemma StepFlagKeepsDevice(o: ProcessingOptions, arg: string, k: FlagKind)
    requires |arg| >= FlagLength(k) && ParsedByStep(k)
    ensures FlagStep(o, arg, k).options.deviceName == o.deviceName
  {
    match k
    case MarginsFlag => assert FlagStep(o, arg, k) == MarginsStep(o, arg[10..]);
    case PageOffsetFlag => assert FlagStep(o, arg, k) == PageOffsetStep(o, arg[13..]);
    case PaperSizeFlag => assert FlagStep(o, arg, k) == PaperSizeStep(o, arg[12..]);
    case DimensionsFlag => assert FlagStep(o, arg, k) == DimensionsStep(o, arg[1..]);
    case QualityFlag => assert FlagStep(o, arg, k) == QualityStep(o, arg[10..]);
  }

  lemma {:induction false} RunKeepsDevice(args: seq<string>, i: nat, s: Step)
    requires i <= |args| && s.status == Accepted
    requires forall k :: 0 <= k < |args| ==> !IsDevice(args[k])
    ensures Run(args, i, s).options.deviceName == s.options.deviceName
    decreases |args| - i
  {
    if i < |args| {
      ArgumentStepKeepsDevice(s.options, args[i]);
      var st := ArgumentStep(s.options, args[i]);
      if st.status == Accepted {
        RunKeepsDevice(args, if SkipsNext(args, i) then i + 2 else i + 1,
          Step(st.status, st.options, s.errors + st.errors));
      }
    }
  }

  /** Whatever flags are given, without a bare device name Parse never returns true. */
  lemma WithoutDeviceNameNeverSucceeds(args: seq<string>)
    requires forall k :: 0 <= k < |args| ==> !IsDevice(args[k])
    ensures ParseResult(args).0 != Returned(true)
    ensures Run(args, 0, Accept(Defaults)).options.deviceName == []
  {
    RunKeepsDevice(args, 0, Accept(Defaults));
    SuccessNeedsDevice(args, Run(args, 0, Accept(Defaults)));
  }

  /** Parse returns true only when the loop ended accepted with a device set. */
  lemma SuccessNeedsDevice(args: seq<string>, s: Step)
    requires s == Run(args, 0, Accept(Defaults))
    ensures ParseResult(args).0 == Returned(true) ==> s.status == Accepted && s.options.deviceName != []
  {
  }

  class CommandLineParser {
    /** The (code, message) errors reported. */
    ghost var errors: seq<(int, string)>

    constructor ()
      ensures errors == []
    {
      errors := [];
    }

    /**
     * Parse: the caller's options are replaced by defaults before the loop,
     * so the result does not depend on them.
     */
    method Parse(arguments: seq<string>, options: ProcessingOptions) returns (outcome: ParseOutcome, result: ProcessingOptions)
      modifies this
      ensures (outcome, result) == (ParseResult(arguments).0, ParseResult(arguments).1)
      ensures errors == old(errors) + ParseResult(arguments).2
    {
      result := Defaults;
      ghost var log0 := errors;
      ghost var logged: seq<(int, string)> := [];
      var i := 0;
      while i < |arguments|
        invariant i <= |arguments|
        invariant errors == log0 + logged
        invariant Run(arguments, i, Step(Accepted, result, logged)) == Run(arguments, 0, Accept(Defaults))
        decreases |arguments| - i
      {
        var st := ArgumentStep(result, arguments[i]);
        assert errors + st.errors == log0 + (logged + st.errors) by {
          Regroup3(log0, logged, st.errors);
        }
        errors := errors + st.errors;
        logged := logged + st.errors;
        if st.status == Thrown {
          return OutOfRangeThrown, st.options;
        }
        if st.status == Refused {
          return Returned(false), st.options;
        }
        result := st.options;
        if SkipsNext(arguments, i) {
          i := i + 1;
        }
        i := i + 1;
      }
      var ok := ValidateOptions(result);
      outcome := Returned(ok);
    }

    method ValidateOptions(options: ProcessingOptions) returns (ok: bool)
      modifies this
      ensures ok == ValidationError(options).None?
      ensures errors == old(errors) + if ok then [] else [(-1, ValidationError(options).value)]
    {
      var e := ValidationError(options);
      if e.Some? {
        errors := errors + [(-1, e.value)];
        return false;
      }
      return true;
    }
  }
}
