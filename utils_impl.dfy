/**
 * Enum <-> string conversions, the paper-size table and the simplified
 * argument scanner of the Utils namespace.
 */
module UtilsImpl {
  import opened Wrappers
  import opened Numbers
  import opened StringUtils
  import opened Options

  function QualityToString(q: PDFQuality): string
  {
    match q
    case SCREEN => "screen"
    case EBOOK => "ebook"
    case PRINTER => "printer"
    case PREPRESS => "prepress"
    case DEFAULT => "default"
  }

  /** Case-insensitive; every unknown name is DEFAULT. */
  function StringToQuality(s: string): (q: PDFQuality)
    ensures q != DEFAULT ==> QualityToString(q) == ToLower(s)
  {
    var lower := ToLower(s);
    if lower == "screen" then SCREEN
    else if lower == "ebook" then EBOOK
    else if lower == "printer" then PRINTER
    else if lower == "prepress" then PREPRESS
    else DEFAULT
  }

  function PaperSizeToString(p: PaperSize): string
  {
    match p
    case CUSTOM => "custom"
    case LETTER => "letter"
    case LEGAL => "legal"
    case A3 => "a3"
    case A5 => "a5"
    case EXECUTIVE => "executive"
    case A4 => "a4"
  }

  /** Case-insensitive; every unknown name is A4. */
  function StringToPaperSize(s: string): (p: PaperSize)
    ensures p != A4 ==> PaperSizeToString(p) == ToLower(s)
  {
    var lower := ToLower(s);
    if lower == "custom" then CUSTOM
    else if lower == "letter" then LETTER
    else if lower == "legal" then LEGAL
    else if lower == "a3" then A3
    else if lower == "a5" then A5
    else if lower == "executive" then EXECUTIVE
    else A4
  }

  lemma QualityRoundTrip(q: PDFQuality)
    ensures StringToQuality(QualityToString(q)) == q
  {
    var name := QualityToString(q);
    LowerOfLowercase(name);
    assert ToLower(name) == name;
  }

  lemma PaperSizeRoundTrip(p: PaperSize)
    ensures StringToPaperSize(PaperSizeToString(p)) == p
  {
    var name := PaperSizeToString(p);
    LowerOfLowercase(name);
    assert ToLower(name) == name;
  }

  lemma {:induction false} LowerOfLowercase(s: string)
    requires forall i :: 0 <= i < |s| ==> !IsUpper(s[i])
    ensures ToLower(s) == s
  {
    if s != [] { LowerOfLowercase(s[1..]); }
  }

  lemma {:induction false} LowerOfUpper(s: string)
    ensures ToLower(ToUpper(s)) == ToLower(s)
  {
    if s != [] { LowerOfUpper(s[1..]); }
  }

  lemma {:induction false} LowerIdempotent(s: string)
    ensures ToLower(ToLower(s)) == ToLower(s)
  {
    if s != [] { LowerIdempotent(s[1..]); }
  }

  /** Upper-casing or lower-casing a name never changes the quality it names. */
  lemma QualityCaseInsensitive(s: string)
    ensures StringToQuality(ToUpper(s)) == StringToQuality(s)
    ensures StringToQuality(ToLower(s)) == StringToQuality(s)
  {
    LowerOfUpper(s);
    LowerIdempotent(s);
  }

  lemma PaperSizeCaseInsensitive(s: string)
    ensures StringToPaperSize(ToUpper(s)) == StringToPaperSize(s)
    ensures StringToPaperSize(ToLower(s)) == StringToPaperSize(s)
  {
    LowerOfUpper(s);
    LowerIdempotent(s);
  }

  /** A name that starts with '=' is unknown to both conversions. */
  lemma LeadingEqualsUnknown(v: string)
    ensures StringToQuality("=" + v) == DEFAULT
    ensures StringToPaperSize("=" + v) == A4
  {
    assert ToLower("=" + v)[0] == '=';
  }

  /** GetPaperDimensions: width and height in points (1/72 inch). */
  function PaperDimensions(size: PaperSize): (d: (real, real))
    ensures size == CUSTOM <==> d == (0.0, 0.0)
    ensures size != CUSTOM ==> 0.0 < d.0 < d.1
  {
    match size
    case A4 => (595.276, 841.890)
    case LETTER => (612.000, 792.000)
    case LEGAL => (612.000, 1008.000)
    case A3 => (841.890, 1190.551)
    case A5 => (419.528, 595.276)
    case EXECUTIVE => (522.000, 756.000)
    case CUSTOM => (0.0, 0.0)
  }

  /** Neighbouring A sizes share a side: A5 is half an A4, A4 half an A3. */
  lemma ASeriesHalving()
    ensures PaperDimensions(A5).1 == PaperDimensions(A4).0
    ensures PaperDimensions(A3).0 == PaperDimensions(A4).1
    ensures PaperDimensions(A4) == (595.276, 841.890)
  {
  }

  /** Which branch of the scan loop an argument takes. */
  datatype ArgKind =
    | Batch | NoPause | Quiet | Safer | NoSafer | Printed | EmptyStack
    | PdfSettings | CompatibilityLevel | NumCopies | Device | OutputFile
    | PaperSizeArg | DeviceWidth | DeviceHeight | LeftMargin
    | InputFile | Ignored

  /**
   * The kind of an argument. It goes through ClassifyAt, a recursive
   * function, so that proofs about an argument's effect keep the chain of
   * comparisons folded; ClassifyIs unfolds it.
   */
  function Classify(arg: string): (k: ArgKind)
    ensures k == InputFile <==> arg != [] && arg[0] != '-'
    ensures |arg| >= PrefixLength(k)
  {
    ClassifyAt(arg, 2)
  }

  function ClassifyAt(arg: string, layer: nat): (k: ArgKind)
    ensures k == InputFile <==> arg != [] && arg[0] != '-'
    ensures |arg| >= PrefixLength(k)
  {
    if layer == 0 then KindOf(arg) else ClassifyAt(arg, layer - 1)
  }

  lemma ClassifyIs(arg: string)
    ensures Classify(arg) == KindOf(arg)
  {
    assert ClassifyAt(arg, 1) == ClassifyAt(arg, 0);
  }

  /** The length of the prefix an argument of kind k starts with. */
  function PrefixLength(k: ArgKind): nat
  {
    match k
    case PdfSettings => |"-dPDFSETTINGS="|
    case CompatibilityLevel => |"-dCompatibilityLevel="|
    case NumCopies => |"-dNumCopies="|
    case Device => |"-sDEVICE="|
    case OutputFile => |"-sOutputFile="|
    case PaperSizeArg => |"-sPAPERSIZE="|
    case DeviceWidth => |"-dDEVICEWIDTHPOINTS="|
    case DeviceHeight => |"-dDEVICEHEIGHTPOINTS="|
    case LeftMargin => |"-dPDFX11LeftMargin="|
    case _ => 0
  }

  /** The if/else-if chain of the scan loop, in source order. */
  function KindOf(arg: string): (k: ArgKind)
    ensures k == InputFile <==> arg != [] && arg[0] != '-'
    ensures |arg| >= PrefixLength(k)
  {
    if arg == "-dBATCH" then Batch
    else if arg == "-dNOPAUSE" then NoPause
    else if arg == "-dQUIET" then Quiet
    else if arg == "-dSAFER" then Safer
    else if arg == "-dNOSAFER" then NoSafer
    else if arg == "-dPrinted" then Printed
    else if arg == "-empty" then EmptyStack
    else if StartsWith(arg, "-dPDFSETTINGS=") then PdfSettings
    else if StartsWith(arg, "-dCompatibilityLevel=") then CompatibilityLevel
    else if StartsWith(arg, "-dNumCopies=") then NumCopies
    else if StartsWith(arg, "-sDEVICE=") then Device
    else if StartsWith(arg, "-sOutputFile=") then OutputFile
    else if StartsWith(arg, "-sPAPERSIZE=") then PaperSizeArg
    else if StartsWith(arg, "-dDEVICEWIDTHPOINTS=") then DeviceWidth
    else if StartsWith(arg, "-dDEVICEHEIGHTPOINTS=") then DeviceHeight
    else if StartsWith(arg, "-dPDFX11LeftMargin=") then LeftMargin
    else if arg != [] && arg[0] != '-' then InputFile
    else Ignored
  }

  /** A real option value: the stod result, or the old value when stod throws. */
  function RealOr(value: string, fallback: real): real
  {
    match ParseDouble(value)
    case Some(v) => v
    case None => fallback
  }

  function IntOr(value: string, fallback: int): int
  {
    match ParseInt(value)
    case Some(v) => v
    case None => fallback
  }

  /**
   * The effect of one argument on the options (the body of the scan loop).
   * Each value is the text from the index the source passes to substr.
   */
  function ApplyArgument(o: ProcessingOptions, arg: string): ProcessingOptions
  {
    ApplyArgumentAt(o, arg, 2)
  }

  /**
   * A recursive layer in front of ArgumentEffect, so that proofs about whole
   * argument lists keep each argument's effect folded; ApplyArgumentIs
   * unfolds it.
   */
  function ApplyArgumentAt(o: ProcessingOptions, arg: string, layer: nat): ProcessingOptions
  {
    if layer == 0 then ArgumentEffect(o, arg) else ApplyArgumentAt(o, arg, layer - 1)
  }

  lemma ApplyArgumentIs(o: ProcessingOptions, arg: string)
    ensures ApplyArgument(o, arg) == ArgumentEffect(o, arg)
  {
    assert ApplyArgumentAt(o, arg, 1) == ApplyArgumentAt(o, arg, 0);
  }

  /** What one argument does, by its kind. */
  function ArgumentEffect(o: ProcessingOptions, arg: string): ProcessingOptions
  {
    match Classify(arg)
    case Batch => o.(batchMode := true)
    case NoPause => o.(noPause := true)
    case Quiet => o.(quiet := true)
    case Safer => o.(saferMode := true)
    case NoSafer => o.(saferMode := false)
    case Printed => o.(printed := true)
    case EmptyStack => o.(emptyStack := true)
    case PdfSettings => o.(quality := StringToQuality(arg[13..]))
    case CompatibilityLevel => o.(compatibilityLevel := RealOr(arg[20..], o.compatibilityLevel))
    case NumCopies => o.(numCopies := IntOr(arg[11..], o.numCopies))
    case Device => o.(deviceName := arg[9..])
    case OutputFile => o.(outputFile := arg[12..])
    case PaperSizeArg => o.(paperSize := StringToPaperSize(arg[11..]))
    case DeviceWidth => o.(customWidthPoints := RealOr(arg[19..], o.customWidthPoints))
    case DeviceHeight => o.(customHeightPoints := RealOr(arg[20..], o.customHeightPoints))
    case LeftMargin => o.(leftMargin := RealOr(arg[18..], o.leftMargin))
    case InputFile => o.(inputFiles := o.inputFiles + [arg])
    case Ignored => o
  }

  /** The options after scanning args in order. */
  function ApplyArguments(o: ProcessingOptions, args: seq<string>): ProcessingOptions
    decreases |args|
  {
    if args == [] then o else ApplyArguments(ApplyArgument(o, args[0]), args[1..])
  }

  /** Utils::ParseArguments: a default record updated by each argument in turn. */
  method ParseArguments(arguments: seq<string>) returns (options: ProcessingOptions)
    ensures options == ApplyArguments(Defaults, arguments)
  {
    options := Defaults;
    for i := 0 to |arguments|
      invariant ApplyArguments(options, arguments[i..]) == ApplyArguments(Defaults, arguments)
    {
      assert arguments[i..][1..] == arguments[i + 1..];
      options := ApplyArgument(options, arguments[i]);
    }
  }

  /** The arguments the scan takes as input files: non-empty, not starting with '-'. */
  function FileArguments(args: seq<string>): (r: seq<string>)
    ensures |r| <= |args|
    ensures forall i :: 0 <= i < |r| ==> r[i] != [] && r[i][0] != '-'
  {
    if args == [] then []
    else (if args[0] != [] && args[0][0] != '-' then [args[0]] else []) + FileArguments(args[1..])
  }

  /** Input files are exactly the plain arguments, in order, after any given before. */
  lemma {:induction false} InputFilesInOrder(o: ProcessingOptions, args: seq<string>)
    ensures ApplyArguments(o, args).inputFiles == o.inputFiles + FileArguments(args)
    decreases |args|
  {
    if args != [] {
      InputFilesStep(o, args[0]);
      assert FileArguments(args) == (if Classify(args[0]) == InputFile then [args[0]] else []) + FileArguments(args[1..]);
      InputFilesInOrder(ApplyArgument(o, args[0]), args[1..]);
    }
  }

  lemma InputFilesStep(o: ProcessingOptions, arg: string)
    ensures ApplyArgument(o, arg).inputFiles
      == if Classify(arg) == InputFile then o.inputFiles + [arg] else o.inputFiles
  {
    ApplyArgumentIs(o, arg);
  }

  lemma SaferStep(o: ProcessingOptions, arg: string)
    ensures ApplyArgument(o, arg).saferMode
      == if arg == "-dSAFER" then true else if arg == "-dNOSAFER" then false else o.saferMode
  {
    ApplyArgumentIs(o, arg);
    ClassifyIs(arg);
    var k := Classify(arg);
    assert k == Safer <==> arg == "-dSAFER";
    assert k == NoSafer <==> arg == "-dNOSAFER";
  }

  predicate IsSaferSwitch(arg: string) { arg == "-dSAFER" || arg == "-dNOSAFER" }

  /** Only -dSAFER and -dNOSAFER touch safer_mode. */
  lemma {:induction false} SaferUntouched(o: ProcessingOptions, args: seq<string>)
    requires forall i :: 0 <= i < |args| ==> !IsSaferSwitch(args[i])
    ensures ApplyArguments(o, args).saferMode == o.saferMode
    decreases |args|
  {
    if args != [] {
      SaferStep(o, args[0]);
      SaferUntouched(ApplyArgument(o, args[0]), args[1..]);
    }
  }

  lemma {:induction false} ApplyArgumentsAppend(o: ProcessingOptions, a: seq<string>, b: seq<string>)
    ensures ApplyArguments(o, a + b) == ApplyArguments(ApplyArguments(o, a), b)
    decreases |a|
  {
    if a != [] {
      assert (a + b)[1..] == a[1..] + b;
      ApplyArgumentsAppend(ApplyArgument(o, a[0]), a[1..], b);
    } else {
      assert a + b == b;
    }
  }

  /** The last of -dSAFER / -dNOSAFER decides safer_mode. */
  lemma LastSaferSwitchWins(o: ProcessingOptions, before: seq<string>, switch: string, after: seq<string>)
    requires IsSaferSwitch(switch)
    requires forall i :: 0 <= i < |after| ==> !IsSaferSwitch(after[i])
    ensures ApplyArguments(o, before + [switch] + after).saferMode == (switch == "-dSAFER")
  {
    ApplyArgumentsAppend(o, before + [switch], after);
    ApplyArgumentsAppend(o, before, [switch]);
    SaferStep(ApplyArguments(o, before), switch);
    SaferUntouched(ApplyArguments(o, before + [switch]), after);
  }

  /** A text that differs from q at k neither equals q nor starts with it. */
  lemma DiffersAt(s: string, q: string, k: nat)
    requires k < |s| && k < |q| && s[k] != q[k]
    ensures s != q && !StartsWith(s, q)
  {
  }

  /** -sDEVICE= keeps exactly the text after its nine-character prefix. */
  lemma DeviceValue(o: ProcessingOptions, v: string)
    ensures ApplyArgument(o, "-sDEVICE=" + v).deviceName == v
  {
    ApplyArgumentIs(o, "-sDEVICE=" + v);
    var arg := "-sDEVICE=" + v;
    DeviceKind(v);
    assert arg[9..] == v;
  }

  /**
   * -sOutputFile= takes the text from index 12 of a 13-character prefix,
   * so the stored path keeps the '='.
   */
  lemma OutputFileKeepsEquals(o: ProcessingOptions, v: string)
    ensures ApplyArgument(o, "-sOutputFile=" + v).outputFile == "=" + v
  {
    ApplyArgumentIs(o, "-sOutputFile=" + v);
    var arg := "-sOutputFile=" + v;
    OutputFileKind(v);
    assert arg[12..] == "=" + v;
  }

  /**
   * The numeric value of -dCompatibilityLevel= is read with the '=' in front,
   * so the conversion always fails and the level keeps its old value.
   */
  lemma CompatibilityLevelIgnored(o: ProcessingOptions, v: string)
    ensures ApplyArgument(o, "-dCompatibilityLevel=" + v) == o
  {
    ApplyArgumentIs(o, "-dCompatibilityLevel=" + v);
    var arg := "-dCompatibilityLevel=" + v;
    CompatibilityLevelKind(v);
    assert arg[20..] == "=" + v;
    assert ParseDouble("=" + v) == None by {
      ParseDoubleIs("=" + v);
    }
  }

  /** Likewise -dNumCopies= never changes the number of copies. */
  lemma NumCopiesIgnored(o: ProcessingOptions, v: string)
    ensures ApplyArgument(o, "-dNumCopies=" + v) == o
  {
    ApplyArgumentIs(o, "-dNumCopies=" + v);
    var arg := "-dNumCopies=" + v;
    NumCopiesKind(v);
    assert arg[11..] == "=" + v;
    assert ParseInt("=" + v) == None;
  }

  /** -dPDFSETTINGS= always yields DEFAULT, whatever quality is named. */
  lemma PdfSettingsAlwaysDefault(o: ProcessingOptions, v: string)
    ensures ApplyArgument(o, "-dPDFSETTINGS=" + v) == o.(quality := DEFAULT)
  {
    ApplyArgumentIs(o, "-dPDFSETTINGS=" + v);
    var arg := "-dPDFSETTINGS=" + v;
    PdfSettingsKind(v);
    assert arg[13..] == "=" + v;
    LeadingEqualsUnknown(v);
  }

  // The kind of each prefixed argument, refuting the earlier tests one character at a time.

  lemma DeviceKind(v: string)
    ensures Classify("-sDEVICE=" + v) == Device
  {
    var arg := "-sDEVICE=" + v;
    DiffersAt(arg, "-dBATCH", 1);
    DiffersAt(arg, "-dNOPAUSE", 1);
    DiffersAt(arg, "-dQUIET", 1);
    DiffersAt(arg, "-dSAFER", 1);
    DiffersAt(arg, "-dNOSAFER", 1);
    DiffersAt(arg, "-dPrinted", 1);
    DiffersAt(arg, "-empty", 1);
    DiffersAt(arg, "-dPDFSETTINGS=", 1);
    DiffersAt(arg, "-dCompatibilityLevel=", 1);
    DiffersAt(arg, "-dNumCopies=", 1);
    StartsWithConcat("-sDEVICE=", v);
    ClassifyIs(arg);
  }

  lemma OutputFileKind(v: string)
    ensures Classify("-sOutputFile=" + v) == OutputFile
  {
    var arg := "-sOutputFile=" + v;
    DiffersAt(arg, "-dBATCH", 1);
    DiffersAt(arg, "-dNOPAUSE", 1);
    DiffersAt(arg, "-dQUIET", 1);
    DiffersAt(arg, "-dSAFER", 1);
    DiffersAt(arg, "-dNOSAFER", 1);
    DiffersAt(arg, "-dPrinted", 1);
    DiffersAt(arg, "-empty", 1);
    DiffersAt(arg, "-dPDFSETTINGS=", 1);
    DiffersAt(arg, "-dCompatibilityLevel=", 1);
    DiffersAt(arg, "-dNumCopies=", 1);
    DiffersAt(arg, "-sDEVICE=", 2);
    StartsWithConcat("-sOutputFile=", v);
    ClassifyIs(arg);
  }

  lemma CompatibilityLevelKind(v: string)
    ensures Classify("-dCompatibilityLevel=" + v) == CompatibilityLevel
  {
    var arg := "-dCompatibilityLevel=" + v;
    DiffersAt(arg, "-dBATCH", 2);
    DiffersAt(arg, "-dNOPAUSE", 2);
    DiffersAt(arg, "-dQUIET", 2);
    DiffersAt(arg, "-dSAFER", 2);
    DiffersAt(arg, "-dNOSAFER", 2);
    DiffersAt(arg, "-dPrinted", 2);
    DiffersAt(arg, "-empty", 1);
    DiffersAt(arg, "-dPDFSETTINGS=", 2);
    StartsWithConcat("-dCompatibilityLevel=", v);
    ClassifyIs(arg);
  }

  lemma NumCopiesKind(v: string)
    ensures Classify("-dNumCopies=" + v) == NumCopies
  {
    var arg := "-dNumCopies=" + v;
    DiffersAt(arg, "-dBATCH", 2);
    DiffersAt(arg, "-dNOPAUSE", 3);
    DiffersAt(arg, "-dQUIET", 2);
    DiffersAt(arg, "-dSAFER", 2);
    DiffersAt(arg, "-dNOSAFER", 3);
    DiffersAt(arg, "-dPrinted", 2);
    DiffersAt(arg, "-empty", 1);
    DiffersAt(arg, "-dPDFSETTINGS=", 2);
    DiffersAt(arg, "-dCompatibilityLevel=", 2);
    StartsWithConcat("-dNumCopies=", v);
    ClassifyIs(arg);
  }

  lemma PdfSettingsKind(v: string)
    ensures Classify("-dPDFSETTINGS=" + v) == PdfSettings
  {
    var arg := "-dPDFSETTINGS=" + v;
    DiffersAt(arg, "-dBATCH", 2);
    DiffersAt(arg, "-dNOPAUSE", 2);
    DiffersAt(arg, "-dQUIET", 2);
    DiffersAt(arg, "-dSAFER", 2);
    DiffersAt(arg, "-dNOSAFER", 2);
    DiffersAt(arg, "-dPrinted", 3);
    DiffersAt(arg, "-empty", 1);
    StartsWithConcat("-dPDFSETTINGS=", v);
    ClassifyIs(arg);
  }
}
