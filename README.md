# PostScript-subset to PDF converter, modelled in Dafny

This project models the core of a converter from a small PostScript subset to PDF. The converter is written in C++.

**The two-stage pipeline**
- The PostScript parser splits the input into lines and reads the `%%Title:`, `%%Creator:` and `%%BoundingBox:` comments.
- It fits the bounding box onto a 595×842 target with the y axis flipped.
- It tokenizes each line, putting parenthesised strings back together.
- It runs a small graphics-state machine: current point, line width, RGB colour, font, gsave/grestore stack and pending path.
- The machine produces pages of path and text elements.
- The PDF generator turns those pages into numbered objects: catalog, page tree, page and content pairs, and font.
- It renders each page's content stream.
- It writes every object with its byte offset, then the cross-reference table and the trailer, following sections 7.5.2 to 7.5.5 of ISO 32000-1. Section 7.3.4.2 of the same standard governs string escaping.

**The code around the pipeline**
- String utilities.
- Enum and string conversions.
- POSIX path functions.
- Three argument parsers that fill `ProcessingOptions`.
- Two device state machines: the Windows printer and the PDF write device.
- The C binding's conversions.

**How the model is built**
- One Dafny module per source file. `Options` and `PageModel` hold the shared value types of `include/pdf_lib.h` and `src/core/postscript_parser.h`.
- Objects whose fields the source updates become classes with those fields: the parser, the generator, the three parsers' error logs and the two devices. Their loops become `while` loops, proved against specification functions.
- Pure code becomes functions, with lemmas about them.
- Text output is `seq<char>`, one character per byte, so a byte offset is the length written so far.
- The error handler singleton becomes a ghost log of `(code, message)` pairs kept in the objects that report errors.
- File-system and printer outcomes are method parameters: whether a file opens, whether a directory exists or can be created, the default printer, whether the printer connection is made, the current directory and the processor's initialisation result.

## Model

| member | source | states |
|---|---|---|
| StringUtils.ToLower | src/utils/string_utils.cpp:15-19 | same length; each character is its own lower-case form (an ASCII upper-case letter moves down by 32, anything else is kept), so no upper-case letter is left |
| StringUtils.ToUpper | src/utils/string_utils.cpp:21-25 | same length; each character is its own upper-case form (an ASCII lower-case letter moves up by 32, anything else is kept), so no lower-case letter is left |
| StringUtils.ToLowerIdempotent | src/utils/string_utils.cpp:15-19 | lower-casing twice equals lower-casing once |
| StringUtils.ToUpperIdempotent | src/utils/string_utils.cpp:21-25 | upper-casing twice equals upper-casing once |
| StringUtils.Trim | src/utils/string_utils.cpp:27-34 | the result is the contiguous slice between leading and trailing space/tab/CR/LF runs; its first and last characters are not white space; an all-white-space input gives "" (iff) |
| StringUtils.TrimIdempotent | src/utils/string_utils.cpp:27-34 | trimming a trimmed string changes nothing |
| StringUtils.TrimOfTrimmed | src/utils/string_utils.cpp:27-34 | a string with no white space at either end is its own trim |
| StringUtils.Split | src/utils/string_utils.cpp:36-46 | the getline loop returns, in order, the trimmed delimiter-separated pieces (a trailing delimiter adds no empty piece) |
| StringUtils.JoinPieces | src/utils/string_utils.cpp:36-46 | joining the pieces with the delimiter gives back the input, up to one trailing delimiter |
| StringUtils.SplitPiecesTrimmed | src/utils/string_utils.cpp:36-46 | every piece Split returns is already trimmed |
| StringUtils.Replace | src/utils/string_utils.cpp:48-62 | an empty `from` returns the input; otherwise the in-place find/replace loop, which resumes after each inserted text, equals the left-to-right replacement of every non-overlapping occurrence |
| StringUtils.ReplaceAbsent | src/utils/string_utils.cpp:48-62 | when `from` does not occur, the replacement returns the input unchanged |
| StringUtils.StartsWith | src/utils/string_utils.cpp:63-68 | true iff the prefix is no longer than the string and agrees with its first characters |
| StringUtils.StartsWithConcat | src/utils/string_utils.cpp:63-68 | every string starts with each of its prefixes |
| StringUtils.IsNumber | src/utils/string_utils.cpp:88-125 | the flag loop accepts exactly an optional sign, then digits with at most one '.', and at least one digit, after trimming |
| UtilsImpl.StringToQuality | src/core/utils_impl.cpp:100-107 | any result other than DEFAULT is the quality whose name is the lower-cased input |
| UtilsImpl.QualityRoundTrip | src/core/utils_impl.cpp:90-107 | converting a quality to its name and back gives the same quality |
| UtilsImpl.QualityCaseInsensitive | src/core/utils_impl.cpp:100-107 | upper- or lower-casing the input does not change the quality read |
| UtilsImpl.StringToPaperSize | src/core/utils_impl.cpp:121-130 | any result other than A4 is the size whose name is the lower-cased input |
| UtilsImpl.PaperSizeRoundTrip | src/core/utils_impl.cpp:109-130 | converting a paper size to its name and back gives the same size |
| UtilsImpl.PaperSizeCaseInsensitive | src/core/utils_impl.cpp:121-130 | upper- or lower-casing the input does not change the size read |
| UtilsImpl.LeadingEqualsUnknown | src/core/utils_impl.cpp:100-130 | a value that keeps a leading '=' reads as DEFAULT quality and A4 paper |
| UtilsImpl.PaperDimensions | src/core/utils_impl.cpp:132-165 | CUSTOM gives 0×0 (iff); every other size has positive width smaller than its height |
| UtilsImpl.ASeriesHalving | src/core/utils_impl.cpp:132-165 | A4 is 595.276×841.890; A5's height is A4's width; A3's width is A4's height |
| UtilsImpl.Classify | src/core/utils_impl.cpp:21-84 | an argument counts as an input file iff it is non-empty and does not start with '-'; the matched prefix fits inside the argument |
| UtilsImpl.ParseArguments | src/core/utils_impl.cpp:16-88 | the loop over the arguments equals folding the per-argument effect over them from the default options |
| UtilsImpl.ApplyArgumentsAppend | src/core/utils_impl.cpp:21-85 | the arguments act one after another: parsing a+b equals parsing b from the result of parsing a |
| UtilsImpl.InputFilesInOrder | src/core/utils_impl.cpp:81-83 | the input files are the non-empty, non-dash arguments in their order, appended to the existing ones |
| UtilsImpl.SaferUntouched | src/core/utils_impl.cpp:28-31 | without -dSAFER or -dNOSAFER, safer mode keeps its value |
| UtilsImpl.LastSaferSwitchWins | src/core/utils_impl.cpp:28-31 | the last of -dSAFER/-dNOSAFER decides safer mode |
| UtilsImpl.DeviceValue | src/core/utils_impl.cpp:53-54 | -sDEVICE= stores exactly the text after the prefix |
| UtilsImpl.OutputFileKeepsEquals | src/core/utils_impl.cpp:55-56 | -sOutputFile=v stores "=v": the substring starts one character early |
| UtilsImpl.CompatibilityLevelIgnored | src/core/utils_impl.cpp:39-45 | -dCompatibilityLevel=v changes nothing, because the value kept starts with '=' and its conversion throws |
| UtilsImpl.NumCopiesIgnored | src/core/utils_impl.cpp:46-52 | -dNumCopies=v changes nothing, for the same reason |
| UtilsImpl.PdfSettingsAlwaysDefault | src/core/utils_impl.cpp:36-38 | -dPDFSETTINGS=v always sets DEFAULT quality, because the value kept starts with '=' |
| Numbers.Stod | src/core/postscript_parser.cpp:356-365 | a conversion succeeds only on text holding a digit (std::stod on the longest decimal prefix) |
| Numbers.ParseInt | src/devices/mswin_printer_device.cpp:371-383 | std::stoi: a result is always within the 32-bit range |
| Numbers.ParseIntOfIntToString | src/devices/mswin_printer_device.cpp:385-394 | every 32-bit integer printed in decimal reads back as itself |
| Numbers.ZeroPadValue | src/core/pdf_generator.cpp:333-341 | the zero-padded decimal of n is all digits and denotes n |
| PsTokens.SplitLines | src/core/postscript_parser.cpp:110-124 | the getline loop returns the newline-separated lines, each with one trailing CR removed |
| PsTokens.LinesDropOneCR | src/core/postscript_parser.cpp:110-124 | line i is piece i of the input, less one trailing CR when it has one |
| PsTokens.Tokenize | src/core/postscript_parser.cpp:325-345 | the stream loop returns the white-space words with each parenthesised string put back together |
| PsTokens.TokensKeepText | src/core/postscript_parser.cpp:325-345 | joining the tokens with single spaces gives the words joined the same way: reassembly loses and adds nothing |
| PsTokens.PlainWordKept | src/core/postscript_parser.cpp:325-345 | a word that does not open a string is kept as one token, in place |
| PsTokens.ReassembleShorter | src/core/postscript_parser.cpp:325-345 | reassembly never yields more tokens than words |
| PsHeader.DscIffCommentLine | src/core/postscript_parser.cpp:126-140 | the document becomes DSC-compliant iff some line starts with "%%" |
| PsHeader.LastTitleWins | src/core/postscript_parser.cpp:126-140 | the title is the trimmed value of the last `%%Title:` line |
| PsHeader.TitleUntouched | src/core/postscript_parser.cpp:126-140 | without a `%%Title:` line the title keeps its value |
| PsHeader.ApplyCommentsAppend | src/core/postscript_parser.cpp:126-140 | the comment pass handles lines one after another |
| PsHeader.BoundingBoxExact | src/core/postscript_parser.cpp:142-161 | a `%%BoundingBox:` line whose text after the keyword is any white-space runs and four digit runs, with any tail that does not continue the last digits, sets exactly those four numbers |
| PsHeader.FewFieldsKeepBox | src/core/postscript_parser.cpp:142-161 | a line with fewer than four digits cannot yield four fields, so the previous box is kept (for example `%%BoundingBox: (atend)`) |
| PsHeader.FitAndCentre | src/core/postscript_parser.cpp:367-397 | for a box whose lower-left corner is the origin, the fitted box lies within 595×842, is centred on both axes and touches two opposite sides |
| PsHeader.CentredTransform | src/core/postscript_parser.cpp:367-405 | the corrected transform keeps the source's scale and page height, and is the source's transform for a box at the origin |
| PsHeader.CentredFitAndCentre | src/core/postscript_parser.cpp:367-405 | with the lower-left corner subtracted, every box of positive size lies within 595×842, is centred on both axes and touches two opposite sides |
| PsHeader.AsWrittenShift | src/core/postscript_parser.cpp:367-405 | the source's transform places every point x1·scale to the right of and y1·scale below where the corrected one does |
| PsHeader.AsWrittenOffPage | src/core/postscript_parser.cpp:367-405 | for the box 72 72 540 720 the source maps the upper-right corner past the right edge of the page |
| PsHeader.TransformInvertible | src/core/postscript_parser.cpp:399-405 | with a non-zero scale the coordinate transform can be undone |
| PsHeader.TransformFlipsY | src/core/postscript_parser.cpp:399-405 | a higher PostScript y maps to a lower PDF y |
| PsMachine.ShowElement | src/core/postscript_parser.cpp:295-303 | the recorded text element has the inner text, the current font and size, and all three colour components |
| PsMachine.AsWrittenColorOutOfRange | src/core/postscript_parser.cpp:295-303 | the source's three stores into an empty colour vector are out of range for every input |
| PsMachine.RunPageCount | src/core/postscript_parser.cpp:311-314 | running a line's tokens adds one page per `showpage` token |
| PsMachine.RunLinesPageCount | src/core/postscript_parser.cpp:85-93 | running all lines adds one page per `showpage` in the document |
| PsMachine.RunKeepsGood | src/core/postscript_parser.cpp:178-320 | every page stays A4-sized and every text element has at least the three colour components the generator reads |
| PsMachine.OperatorNames | src/core/postscript_parser.cpp:263-279 | `S` is no operator, `F` fills and `showpage` adds a page |
| PsMachine.MoveLineOperators | src/core/postscript_parser.cpp:199-219 | moveto/lineto fire only after two numbers, add one transformed element and move the current point to it; otherwise nothing changes |
| PsMachine.CurveOperator | src/core/postscript_parser.cpp:220-250 | curveto fires only after six numbers, adds one element with three transformed points and moves the current point to the last |
| PsMachine.StateOperators | src/core/postscript_parser.cpp:190-197 | setlinewidth and setrgbcolor read one and three preceding numbers, or change nothing |
| PsMachine.PaintOperators | src/core/postscript_parser.cpp:251-279 | closepath appends CLOSE_PATH; stroke and fill append the pending path to the last page in order and empty it |
| PsMachine.ShowOperator | src/core/postscript_parser.cpp:283-309 | show adds a text element only after a parenthesised operand, at the transform of the already transformed current point |
| PsMachine.StackOperators | src/core/postscript_parser.cpp:183-189 | gsave pushes the state; grestore pops it, and on an empty stack does nothing |
| PsMachine.SaveRestore | src/core/postscript_parser.cpp:183-189 | gsave followed by grestore leaves the machine as it was |
| PostScript.PostScriptParser.ParseContent | src/core/postscript_parser.cpp:67-107 | parsing always succeeds; it leaves one page more than there are showpage tokens, all A4 because the comment pass runs while the page list is still empty (CommentPassWithoutPages) and the first page is added after it |
| PostScript.PostScriptParser.ParseFile | src/core/postscript_parser.cpp:42-65 | an unreadable file fails, reports (-1, "Cannot open PostScript file: " + path) and changes nothing else; a readable one is parsed as content with nothing reported |
| PostScript.PostScriptParser.ParseDSCComments | src/core/postscript_parser.cpp:126-140 | the header fields become the comment pass over the lines, and the pages become the comment pass's page effect; the drawing state and transform are untouched |
| PostScript.PostScriptParser.ParseDSCLine | src/core/postscript_parser.cpp:127-138 | one line's effect: a "%%" line marks the document compliant and sets the title, creator or box it names, and a matching box line resizes the first page |
| PostScript.PostScriptParser.ParseBoundingBox | src/core/postscript_parser.cpp:142-161 | a matching line sets the box to its four numbers and, when a page exists, gives the first page width x2−x1 and height y2−y1; a line that does not match changes nothing |
| PostScript.ResizeFirstPage | src/core/postscript_parser.cpp:154-159 | with a page, only the first page's width and height change, to the box's; with none, nothing |
| PostScript.CommentPassWithoutPages | src/core/postscript_parser.cpp:70-79 | the comment pass over an empty page list leaves it empty, whatever the lines |
| PostScript.CommentPagesFollowHeader | src/core/postscript_parser.cpp:126-161 | with a page, the first page ends with the size of the box the header ends with when some box line matched, every page is as it was when none did, and only the first page's size can change |
| PsHeader.BoxUntouched | src/core/postscript_parser.cpp:142-161 | without a matching box line the comment pass keeps the box it started with |
| PostScript.PostScriptParser.SetupCoordinateTransform | src/core/postscript_parser.cpp:367-397 | the transform becomes the fit of the current bounding box |
| PostScript.PostScriptParser.ParseLine | src/core/postscript_parser.cpp:163-323 | the token loop's state equals the machine run on the line's tokens |
| PostScript.PostScriptParser.CommitPath | src/core/postscript_parser.cpp:263-279 | the pending path goes onto the last page and is emptied |
| PostScript.PostScriptParser.GetPageDimensions | src/core/postscript_parser.cpp:428-436 | defined iff the index is in range, and then the page's size |
| PostScript.PostScriptParser.GetPagePaths | src/core/postscript_parser.cpp:438-444 | the page's paths for an index in range, otherwise none |
| PostScript.PostScriptParser.GetPageText | src/core/postscript_parser.cpp:446-452 | the page's text elements for an index in range, otherwise none |
| PostScript.PostScriptParser.GetPageCount | src/core/postscript_parser.cpp:424-426 | the number of pages held |
| PostScript.PostScriptParser.GetBoundingBox | src/core/postscript_parser.cpp:454-460 | the bounding box held; the source's boolean result is always true |
| PostScript.PostScriptParser.IsDSCCompliant | src/core/postscript_parser.cpp:462-464 | the DSC-compliance flag held |
| PostScript.PostScriptParser.GetTitle | src/core/postscript_parser.cpp:466-468 | the title held |
| PostScript.PostScriptParser.GetCreator | src/core/postscript_parser.cpp:470-472 | the creator held |
| PdfContent.UnescapeEscape | src/core/pdf_generator.cpp:322-331 | removing the inserted backslashes recovers the input |
| PdfContent.EscapeLength | src/core/pdf_generator.cpp:322-331 | the output has one more character per `(`, `)` or `\` |
| PdfContent.EscapePlain | src/core/pdf_generator.cpp:322-331 | a string without those characters is unchanged |
| PdfContent.EscapeString | src/core/pdf_generator.cpp:322-331 | the append loop computes the escape function |
| PdfContent.PathStrokes | src/core/pdf_generator.cpp:264-300 | the path section emits one `S` per MOVE_TO element with at least two coordinates |
| PdfContent.PathBodyShapes | src/core/pdf_generator.cpp:264-300 | every path line is `S`, `h` or an operand list ending in m, l or c |
| PdfContent.TextBlock | src/core/pdf_generator.cpp:303-317 | a `BT` line appears iff the page has text elements |
| PdfContent.FontSelectedOnce | src/core/pdf_generator.cpp:303-317 | `/F1 12 Tf` appears once when there is text and never otherwise, whatever the element sizes |
| PdfContent.TextOrder | src/core/pdf_generator.cpp:303-317 | the text lines are each element's rg/Tm/Tj lines in element order |
| PdfContent.GeneratePageContent | src/core/pdf_generator.cpp:240-320 | the loops with the open-path flag produce exactly the page's stream text |
| PdfDocument.StreamLength | src/core/pdf_generator.cpp:195-205 | a content object's `/Length` is the decimal length of its stream, which follows `stream` unchanged |
| PdfDocument.FreshLayout | src/core/pdf_generator.cpp:144-238 | after Initialize, the catalog is object 1 and refers to 2; page i is 3+2i with contents 4+2i; the font is 3+2n |
| PdfDocument.Layout | src/core/pdf_generator.cpp:144-238 | from any id counter: the catalog names the page tree; each page names its contents and the font; the parent is the second object of the list |
| PdfDocument.KidsMatchPages | src/core/pdf_generator.cpp:166-172 | every `/Kids` entry names its page object iff there is at most one page |
| PdfDocument.IdsIncrease | src/core/pdf_generator.cpp:386-390 | object ids stay strictly increasing and below the counter |
| PdfDocument.RecordAt | src/core/pdf_generator.cpp:110-117 | each object's recorded offset is where its `id 0 obj` record starts in the file |
| PdfDocument.OffsetsIncrease | src/core/pdf_generator.cpp:110-117 | the recorded offsets increase strictly in object order |
| PdfDocument.CrossReference | src/core/pdf_generator.cpp:333-341 | cross-reference entry k is the 20-byte line of offset k, after the subsection and free-entry head |
| PdfDocument.XrefEntryShape | src/core/pdf_generator.cpp:333-341 | an entry is 20 bytes whose first ten digits denote the offset |
| PdfDocument.StartXref | src/core/pdf_generator.cpp:343-352 | `startxref` gives the offset where `xref` begins, and the file ends with the trailer's tail |
| PdfDocument.SecondWrite | src/core/pdf_generator.cpp:44-49 | a second write without Initialize appends new objects; `/Parent` and `/Root` still name objects 2 and 1 |
| PdfGenerator.PDFGenerator.Initialize | src/core/pdf_generator.cpp:31-42 | the options are kept, the compatibility level is copied, and pages, objects and the id counter are reset |
| PdfGenerator.PDFGenerator.CreateCatalogObject | src/core/pdf_generator.cpp:144-156 | appends the catalog under the next id and bumps the counter |
| PdfGenerator.PDFGenerator.CreatePagesObject | src/core/pdf_generator.cpp:158-177 | appends the page tree with `/Count n` and the kids list |
| PdfGenerator.PDFGenerator.CreatePageObjects | src/core/pdf_generator.cpp:179-223 | the loop appends one page and content pair per page, ids increasing by two |
| PdfGenerator.PDFGenerator.CreateFontObject | src/core/pdf_generator.cpp:225-238 | appends the font under the next id |
| PdfGenerator.PDFGenerator.WriteObjects | src/core/pdf_generator.cpp:110-117 | the write loop records each object's offset and emits the records |
| PdfGenerator.PDFGenerator.WriteCrossReferenceTable | src/core/pdf_generator.cpp:333-341 | the loop emits the table of the given offsets |
| PdfGenerator.PDFGenerator.WriteTrailer | src/core/pdf_generator.cpp:343-352 | the trailer holds `/Size` k+1, the first object as root and the xref offset |
| PdfGenerator.PDFGenerator.WritePDF | src/core/pdf_generator.cpp:89-136 | a file that cannot be opened fails with -4; otherwise the output is the whole document and the counter has advanced by 3+2n |
| PdfGenerator.PDFGenerator.CreatePDF | src/core/pdf_generator.cpp:44-87 | copies the parser's pages, takes non-empty title and creator, and writes |
| PdfGenerator.PDFGenerator.AddPage | src/core/pdf_generator.cpp:369-372 | appends the page |
| PdfGenerator.PDFGenerator.Clear | src/core/pdf_generator.cpp:386-390 | pages and objects are emptied and the counter is reset to 1 |
| PdfGenerator.PDFGenerator.SetMetadata | src/core/pdf_generator.cpp:374-376 | the metadata becomes the argument; nothing else changes |
| CommandParsing.LookupCaseInsensitive | src/core/command_parser.cpp:290-298 | the definition lookup ignores the case of the name |
| CommandParsing.CommandParser.FindParameterDefinition | src/core/command_parser.cpp:290-298 | the loop finds the first definition whose name or short name matches, lower-cased |
| CommandParsing.ParseValue | src/core/command_parser.cpp:152-206 | fails only for an unlisted enum value or a malformed number; enum values are stored lower-cased; others as given |
| CommandParsing.CommandParser.ValidateOptions | src/core/command_parser.cpp:404-417 | true iff the device is mswinpr2 or there are input files and an output file; otherwise logs (-1, "No input files specified") or, with inputs, (-1, "No output file specified") |
| CommandParsing.BooleanFlagStoresTrue | src/core/command_parser.cpp:156-158 | a boolean parameter with no value stores "true" |
| CommandParsing.SplitArgument | src/core/command_parser.cpp:119-150 | drops the dash and splits at the first '='; the name holds no '=' |
| CommandParsing.ArgumentOutcome | src/core/command_parser.cpp:119-150 | succeeds iff the name is defined and the value parses, and then stores the value under the definition's name (overwriting) |
| CommandParsing.CommandParser.ParseArgument | src/core/command_parser.cpp:119-150 | the method's result and error log agree with that outcome |
| CommandParsing.UnrecognizedAreDashed | src/core/command_parser.cpp:76-117 | every unrecognised argument starts with '-' and is not `-f` |
| CommandParsing.GatherInputFiles | src/core/command_parser.cpp:76-117 | without `-c`, the gathered input files are the non-dash arguments in order |
| CommandParsing.CommandParser.ParseArguments | src/core/command_parser.cpp:76-117 | the loop gathers the parameters, then converts them; it always returns true |
| CommandParsing.ConversionDiscardsGathered | src/core/command_parser.cpp:208-212 | the converted options never keep the input files or commands gathered by the loop |
| CommandParsing.SaferDecides | src/core/command_parser.cpp:214-228 | with SAFER present, it decides safer mode, since it comes after NOSAFER in key order |
| CommandParsing.NoSaferAlone | src/core/command_parser.cpp:214-228 | with only NOSAFER, safer mode is true iff its value is "false" |
| CommandParsing.PdfxLeftMarginWins | src/core/command_parser.cpp:208-288 | PDFX11LEFTMARGIN, applied last in key order, decides the left margin |
| CommandParsing.SortedNamesAscending | src/core/command_parser.cpp:208-288 | the keys are visited in strictly ascending order, as a std::map iterates |
| CommandParsing.CommandParser.ConvertToOptions | src/core/command_parser.cpp:208-288 | the loop over the map equals the conversion function |
| CommandParsing.ValidationErrors | src/core/command_parser.cpp:404-417 | no error iff the device is mswinpr2, or both input list and output file are non-empty |
| CommandParsing.ParsedOptionsNeedPrinter | src/core/command_parser.cpp:404-417 | options that came out of the conversion pass validation iff the device is mswinpr2 |
| CommandLine.CommandLineParser.Parse | src/parsers/command_line_parser.cpp:153-173 | resets the options, stops at the first failing argument, skips the argument after each accepted one unless it is a flag or device, then validates |
| CommandLine.PlainFilesEveryOther | src/parsers/command_line_parser.cpp:157-170 | of consecutive plain file names only every other one is recorded |
| CommandLine.FlagSwallowsFile | src/parsers/command_line_parser.cpp:157-170 | a file name right after an accepted flag is skipped |
| CommandLine.WithoutDeviceNameParseFails | src/parsers/command_line_parser.cpp:153-173 | plain file arguments alone never pass validation: no device is set |
| CommandLine.WithoutDeviceNameNeverSucceeds | src/parsers/command_line_parser.cpp:153-173 | with any flags at all but no bare device name, the device stays empty and Parse never returns true |
| CommandLine.ArgumentStep | src/parsers/command_line_parser.cpp:372-379 | a non-empty non-flag argument is either a known device or appended to the input files |
| CommandLine.NotWholeFlag | src/parsers/command_line_parser.cpp:239-280 | an argument that is none of the exact flags falls to the prefix branches |
| CommandLine.DeviceFlagUnknown | src/parsers/command_line_parser.cpp:281-292 | `-sDEVICE=…` always fails as an unknown flag: the compared prefix is one character short |
| CommandLine.OutputFileFlagUnknown | src/parsers/command_line_parser.cpp:293-300 | `-sOutputFile=…` always fails as an unknown flag |
| CommandLine.CompatibilityFlagUnknown | src/parsers/command_line_parser.cpp:301-312 | `-dCompatibilityLevel=…` always fails as an unknown flag |
| CommandLine.PrinterNameArgument | src/parsers/command_line_parser.cpp:362-369 | `-sPrinterName=` alone throws out_of_range; with a value it fails as an unknown flag |
| CommandLine.QualityArgument | src/parsers/command_line_parser.cpp:313-318 | `-dQuality=name` sets the quality with that name, in any case |
| CommandLine.PaperSizeArgument | src/parsers/command_line_parser.cpp:319-324 | `-sPaperSize=name` sets the size with that name, in any case |
| CommandLine.CopiesArgument | src/parsers/command_line_parser.cpp:325-336 | `-dNumCopies=n` sets n copies |
| CommandLine.MarginsArgumentShape | src/parsers/command_line_parser.cpp:337-342 | `-dMargins=` with other than four parts is refused |
| CommandLine.ResolutionAlwaysRefused | src/parsers/command_line_parser.cpp:343-355 | `-r…` always fails: the value keeps the letter r |
| CommandLine.DimensionsAlwaysRefused | src/parsers/command_line_parser.cpp:356-361 | `-g…` always fails and changes nothing |
| CommandLine.QualityValue | src/parsers/command_line_parser.cpp:382-401 | a recognised name other than the numeric aliases is the quality's own name, lower-cased |
| CommandLine.ShadowedQualityAliases | src/parsers/command_line_parser.cpp:382-401 | "72", "150" and "300" read as SCREEN, DEFAULT and PRINTER |
| CommandLine.QualityCaseInsensitive | src/parsers/command_line_parser.cpp:382-401 | the quality read ignores case |
| CommandLine.PaperSizeValue | src/parsers/command_line_parser.cpp:403-426 | a recognised size is the one whose name is the lower-cased value; anything else fails |
| CommandLine.PaperSizeValueCaseInsensitive | src/parsers/command_line_parser.cpp:403-426 | the size read ignores case |
| CommandLine.DeviceStep | src/parsers/command_line_parser.cpp:428-436 | succeeds iff the name is a known device, and then sets it |
| CommandLine.MarginsStep | src/parsers/command_line_parser.cpp:438-456 | other than four comma parts is refused and changes nothing |
| CommandLine.MarginsAllRead | src/parsers/command_line_parser.cpp:438-456 | four numeric parts set left, top, right and bottom in that order |
| CommandLine.PageOffsetStep | src/parsers/command_line_parser.cpp:458-474 | other than two parts is refused; accepted offsets are the two numbers |
| CommandLine.ValidationError | src/parsers/command_line_parser.cpp:498-520 | checks in order: device set, inputs present, 1.0 ≤ compatibility ≤ 2.0, copies ≥ 1, with the source's messages |
| CommandLine.CommandLineParser.ValidateOptions | src/parsers/command_line_parser.cpp:498-520 | returns true iff no check fails, and logs the first failure |
| FileUtils.GetFileExtension | src/utils/file_utils.cpp:42-55 | a dot-less path gives ""; the result holds no '.' |
| FileUtils.ExtensionOf | src/utils/file_utils.cpp:42-55 | the extension of base + "." + ext is ext lower-cased |
| FileUtils.DottedDirectoryExtension | src/utils/file_utils.cpp:42-55 | the last dot may lie in a directory name: "a.d/file" gives "d/file" |
| FileUtils.GetFileName | src/utils/file_utils.cpp:244-268 | without '/' the whole path; otherwise a slash-free suffix |
| FileUtils.GetDirectoryName | src/utils/file_utils.cpp:270-294 | without '/' ""; otherwise a proper prefix |
| FileUtils.DirectoryAndName | src/utils/file_utils.cpp:244-294 | for a path with '/', directory + "/" + name gives the path back |
| FileUtils.NameAndDirectoryOfJoined | src/utils/file_utils.cpp:244-294 | splitting dir + "/" + name gives dir and name back |
| FileUtils.CombinePath | src/utils/file_utils.cpp:296-321 | an empty side gives the other; otherwise path1 is kept as the prefix |
| FileUtils.CombineThenSplit | src/utils/file_utils.cpp:296-321 | combining then splitting gives the name and path1 without its trailing slash |
| FileUtils.CombineDropsOneSlash | src/utils/file_utils.cpp:296-321 | exactly one leading '/' of path2 is dropped |
| FileUtils.GetAbsolutePath | src/utils/file_utils.cpp:336-351 | "" stays ""; an absolute path is unchanged; with no working directory the path is unchanged |
| FileUtils.AbsolutePathIsAbsolute | src/utils/file_utils.cpp:324-351 | with an absolute working directory the result is absolute and the conversion is idempotent |
| FileUtils.SplitComponents | src/utils/file_utils.cpp:173-181 | the find/erase loop yields the '/'-separated pieces in order |
| FileUtils.DirectoryPathsExtend | src/utils/file_utils.cpp:184-194 | each path the loop builds extends the previous one by '/' and the next non-empty component |
| FileUtils.AbsolutePathLosesRoot | src/utils/file_utils.cpp:173-194 | for "/tmp/x" the loop creates "tmp" then "tmp/x", relative paths |
| FileUtils.AbsoluteInputRelativeDirectories | src/utils/file_utils.cpp:173-194 | no path the loop builds is ever absolute |
| FileUtils.RootedPathsStayAbsolute | src/utils/file_utils.cpp:173-194 | the corrected walk keeps the root: every directory of an absolute path is absolute |
| FileUtils.RootedPathsArePrefixes | src/utils/file_utils.cpp:173-194 | for /n1/.../nm without empty components the corrected walk builds /n1, /n1/n2, ... in turn: each a prefix of the path, the last the path itself |
| FileUtils.CreateDirectoryRecursive | src/utils/file_utils.cpp:155-203 | succeeds iff the path is non-empty and no needed directory is refused; the directories created are, in walk order, exactly the built paths missing from the file system up to the first refused one; on success every built path exists |
| PrinterDevice.MSWinPrinterDevice.Initialize | src/devices/mswin_printer_device.cpp:43-55 | succeeds only once; a second call logs and leaves the state unchanged |
| PrinterDevice.MSWinPrinterDevice.Open | src/devices/mswin_printer_device.cpp:57-87 | needs initialisation; closes first; a non-empty name replaces the stored one; no printer name at all fails closed; succeeds iff the connection is made, logging the failing step's message otherwise |
| PrinterDevice.MSWinPrinterDevice.OpenDefault | src/devices/mswin_printer_device.cpp:340-342 | Open with an empty name: the stored or default printer is used, with Open's outcome and log |
| PrinterDevice.ConnectionErrors | src/devices/mswin_printer_device.cpp:296-316 | no message iff the connection is made; otherwise the message of the step that failed |
| PrinterDevice.MSWinPrinterDevice.Close | src/devices/mswin_printer_device.cpp:89-110 | ends page and job and clears all three flags; a no-op on a closed device |
| PrinterDevice.MSWinPrinterDevice.StartJob | src/devices/mswin_printer_device.cpp:112-143 | succeeds iff open with no job running, and then starts one |
| PrinterDevice.MSWinPrinterDevice.EndJob | src/devices/mswin_printer_device.cpp:145-161 | returns true and clears the job flag |
| PrinterDevice.MSWinPrinterDevice.StartPage | src/devices/mswin_printer_device.cpp:163-185 | succeeds iff a job runs and no page is started |
| PrinterDevice.MSWinPrinterDevice.EndPage | src/devices/mswin_printer_device.cpp:187-203 | returns true and clears the page flag |
| PrinterDevice.MSWinPrinterDevice.PrintPage | src/devices/mswin_printer_device.cpp:205-236 | starts a page if needed; empty data fails leaving the page started; otherwise the page ends |
| PrinterDevice.MSWinPrinterDevice.WritePage | src/devices/mswin_printer_device.cpp:344-346 | PrintPage: needs a job or page, fails on empty data leaving the page started, otherwise prints and ends the page; each failure logs its message |
| PrinterDevice.MSWinPrinterDevice.SetPrinterSettings | src/devices/mswin_printer_device.cpp:238-242 | copies, collate and orientation become the arguments, unchecked; nothing else changes and nothing is logged |
| PrinterDevice.MSWinPrinterDevice.IsOpen | src/devices/mswin_printer_device.cpp:292-294 | the open flag; an open device has been initialised |
| PrinterDevice.MSWinPrinterDevice.Finalize | src/devices/mswin_printer_device.cpp:348-353 | ends a running job; returns true and reports nothing |
| PrinterDevice.MSWinPrinterDevice.SetParameter | src/devices/mswin_printer_device.cpp:371-383 | only printer_name, copies and orientation are accepted; a malformed number throws |
| PrinterDevice.MSWinPrinterDevice.GetParameter | src/devices/mswin_printer_device.cpp:385-394 | returns the name set, numbers that read back as their values, and "" for other names |
| PdfWriteDevice.PDFWriteDevice.Initialize | src/devices/pdf_write_device.cpp:33-42 | succeeds only once |
| PdfWriteDevice.PDFWriteDevice.Open | src/devices/pdf_write_device.cpp:44-71 | needs initialisation; flushes an open session; fails if the directory is missing and cannot be created; otherwise opens with an empty buffer; each failure logs its message; metadata and security settings are untouched |
| PdfWriteDevice.PDFWriteDevice.OpenWithoutFile | src/devices/pdf_write_device.cpp:73-75 | Open with no file name: succeeds iff initialised, then open with an empty buffer and no output file; otherwise logs "Device not initialized" |
| PdfWriteDevice.PDFWriteDevice.Close | src/devices/pdf_write_device.cpp:77-91 | hands buffered pages with a named file to the writer, empties the buffer and closes; a no-op when closed |
| PdfWriteDevice.PDFWriteDevice.WritePage | src/devices/pdf_write_device.cpp:93-109 | fails when closed or the data is empty; otherwise appends, keeping the counter equal to the buffer length |
| PdfWriteDevice.PDFWriteDevice.SetMetadata | src/devices/pdf_write_device.cpp:111-117 | title, author, subject and keywords become the arguments; nothing else changes |
| PdfWriteDevice.PDFWriteDevice.SetSecurity | src/devices/pdf_write_device.cpp:119-124 | the passwords and permissions become the arguments; nothing else changes |
| PdfWriteDevice.PDFWriteDevice.IsOpen | src/devices/pdf_write_device.cpp:126-128 | the open flag; an open device has been initialised and a closed one buffers no page |
| PdfWriteDevice.PDFWriteDevice.Finalize | src/devices/pdf_write_device.cpp:231-236 | closes an open device, otherwise returns true |
| PdfWriteDevice.PDFWriteDevice.SetParameter | src/devices/pdf_write_device.cpp:254-273 | succeeds iff the name is known; the value is then read back; other parameters are unchanged |
| PdfWriteDevice.PDFWriteDevice.GetParameter | src/devices/pdf_write_device.cpp:275-288 | an unknown name gives "" |
| CApi.QualityRoundTrips | src/api/c_api.cpp:60-66 | every valid C quality converts to C++ and back to itself, and every C++ quality back to itself |
| CApi.QualityFromC | src/api/c_api.cpp:60-66 | an out-of-range C quality becomes DEFAULT |
| CApi.PaperRoundTrips | src/api/c_api.cpp:71-79 | every valid C paper size converts to C++ and back to itself, and every C++ size back to itself |
| CApi.PaperFromC | src/api/c_api.cpp:71-79 | an out-of-range C paper size becomes A4 |
| CApi.FlagRoundTrip | src/api/c_api.cpp:53-58 | an int flag read as != 0 and written back becomes 0 or 1, keeping its truth |
| CApi.NonNullStrings | src/api/c_api.cpp:95-110 | at most as many strings as pointers; every non-null pointer's string is kept, and every string kept came from a non-null pointer |
| CApi.NonNullStringsConcat | src/api/c_api.cpp:95-110 | the strings of two pointer runs are the strings of the first run followed by those of the second |
| CApi.CollectStrings | src/api/c_api.cpp:95-110 | the push_back loop keeps the non-null strings among the first count, in order; a null array or count ≤ 0 gives none |
| CApi.ConvertToProcessingOptions | src/api/c_api.cpp:46-111 | a null pointer gives the defaults; otherwise every field converts as the value function says |
| CApi.FromProcessingOptions | src/api/c_api.cpp:114-160 | a null target stays null; the string and array pointers of the target are never written |
| CApi.OptionsRoundTrip | src/api/c_api.cpp:46-160 | writing options into a C record and reading them back recovers every number, flag and enum |
| CApi.ConvertErrorCode | src/api/c_api.cpp:163-180 | 0 to -12 keep their value; every other code becomes -8 (internal) |
| CApi.ConvertErrorCodeIdempotent | src/api/c_api.cpp:163-180 | converting a converted code changes nothing |
| CApi.InitializeWithArguments | src/api/c_api.cpp:201-227 | a null processor, null vector or count ≤ 0 is -1; otherwise the non-null arguments go on, and the result is success, the converted code or internal on an exception |

## Left out

- File and console I/O: the file read in ParseFile, the ofstream in WritePDF, debug output. Whether a file opens is a parameter, and the output is the returned text.
- PdfWriteDevice.PDFWriteDevice.Close: records each hand-over to WritePDFFile as (path, pages). The byte layout WritePDFFile writes is not modelled, because it is file output; nor is its failure to open the output file and the message (-1, "Failed to open output file: " + path) it then logs.
- The error handler's mutex, log file, timestamps and callbacks. Errors are a ghost log of (code, message) pairs.
- Floating point:
  - coordinates and options are `real`;
  - std::stod and std::stoi are decimal-prefix parsers without hex, infinity, NaN or range errors;
  - fixed-point printing rounds half away from zero instead of binary rounding;
  - `%g` printing of the MediaBox is approximated by six significant digits.
- PsHeader.FitAndCentre: is stated only for boxes whose lower-left corner is the origin, because the source's transform does not centre any other box (see Findings). PsHeader.CentredFitAndCentre states it for every box of positive size.
- PsHeader.FitTransform: a bounding box with both sides zero gives inf and NaN in the source. The model keeps scale 1 there.
- PdfContent.TextElementLines: the specification function reads a missing colour component as 0. The rendering methods require at least three components, as `color_rgb[0..2]` is read; the parser's corrected model always records three.
- The exceptions that ParseContent (-2), CreatePDF (-3) and WritePDF (-5) catch: the modelled operations throw nothing, so those branches are not reached.
- PdfGenerator.PDFGenerator.CreatePDF: the A4 fallback when GetPageDimensions fails is modelled, but it is never taken, because every index the loop asks for is in range.
- GetPDFSize: returns the constant 0 and is not modelled.
- Integer widths:
  - ids, counts and offsets are unbounded;
  - the 32-bit range is modelled only where std::stoi checks it;
  - size_t offsets never wrap.
- CommandParsing: the help text and the description and default fields of parameter definitions are not modelled, because they are display only.
- The command-line parser's help and version output.
- CommandLine.CommandLineParser.Parse(int, char**): the wrapper that builds the vector is not modelled.
- PrinterDevice.MSWinPrinterDevice: after the connection, the GDI calls are assumed to succeed (StartDoc, EndDoc, StartPage, EndPage, the page output).
- PrinterDevice.MSWinPrinterDevice.Open: the outcome of the OpenPrinter and CreateDC pair is a parameter. A build without `_WIN32` makes no connection call, which is the Connected case; the stub's "support not available" message is never reached from Open.
- GetAvailablePrinters, GetDefaultPrinter, GetName, GetCapabilities and GetSupportedExtensions are not modelled, because they need the printing system or are constant text. The default printer's name is a parameter.
- FileUtils: the Windows branches (`_splitpath_s`, PathCombineA, GetTempPathA, backslash separators) are not modelled.
- FileUtils: FileExists, DeleteFile, GetFileSize, GetTempDirectory, CreateTempFile and GenerateUniqueId are not modelled: they need the file system, the clock or a static counter.
- CApi: the processor handle's other entry points are not modelled.
- Orchestration and entry points: the PDF processor, main programs, examples and the empty stub components.

## Findings

| source | as written | input that shows it | evidently intended | confidence | as-written member | corrected member |
|---|---|---|---|---|---|---|
| src/core/postscript_parser.cpp:295-303 | `show` writes `color_rgb[0..2]` of a default-constructed TextElement, whose colour vector (src/core/postscript_parser.h:48-54) is empty | `(a) show` | store the three current colour components | not executed | PsMachine.AsWrittenColorOutOfRange | PsMachine.ShowElement |
| src/core/postscript_parser.cpp:367-405 | the offsets centre only the width and height, and TransformCoordinates never subtracts the box's lower-left corner | `%%BoundingBox: 72 72 540 720`: the corner (540, 720) lands at x ≈ 686.5, past the 595-point page | subtract the lower-left corner, so that the box is centred | not executed | PsHeader.AsWrittenOffPage | PsHeader.CentredFitAndCentre |
| src/utils/file_utils.cpp:173-194 | the split drops the empty first component of an absolute path and builds each directory from "" | `/tmp/x`: creates `tmp` and `tmp/x` relative to the working directory | keep the leading separator: `/tmp`, `/tmp/x` | not executed | FileUtils.AbsolutePathLosesRoot | FileUtils.RootedPaths |
