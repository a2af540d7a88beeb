/**
 * The Windows printer device: an initialise-once device whose open
 * session runs print jobs made of pages, tracked by three flags.
 */
module PrinterDevice {
  import opened Wrappers
  import opened Numbers
  import opened Options

  /** Everything the device holds, as one value. */
  datatype PrinterState = PrinterState(
    isOpen: bool,
    isInitialized: bool,
    jobStarted: bool,
    pageStarted: bool,
    copies: int,
    collate: bool,
    orientation: int,
    printerName: string)

  /** How InitializeWindowsPrinter ends: connected, or which of its two calls failed. */
  datatype Connection = Connected | OpenPrinterFailed | CreateDCFailed

  /** The errors InitializeWindowsPrinter reports for a printer name. */
  function ConnectionErrors(c: Connection, printer: string): (r: seq<(int, string)>)
    ensures r == [] <==> c == Connected
  {
    match c
    case Connected => []
    case OpenPrinterFailed => [(-1, "Failed to open printer: " + printer)]
    case CreateDCFailed => [(-1, "Failed to create printer DC")]
  }

  /** SetParameter's outcome: its result, or the exception std::stoi throws. */
  datatype SetOutcome = Set(ok: bool) | Threw

  class MSWinPrinterDevice {
    var isOpen: bool
    var isInitialized: bool
    var jobStarted: bool
    var pageStarted: bool
    var copies: int
    var collate: bool
    var orientation: int
    var printerName: string
    /** The (code, message) errors reported. */
    ghost var errors: seq<(int, string)>

    function State(): PrinterState
      reads this
    {
      PrinterState(isOpen, isInitialized, jobStarted, pageStarted, copies, collate, orientation, printerName)
    }

    /** A job or a page is only ever running on an open device, and only an initialised device opens. */
    ghost predicate Valid()
      reads this
    {
      ((jobStarted || pageStarted) ==> isOpen) && (isOpen ==> isInitialized)
    }

    constructor ()
      ensures Valid()
      ensures State() == PrinterState(false, false, false, false, 1, false, 0, "")
      ensures errors == []
    {
      isOpen, isInitialized, jobStarted, pageStarted := false, false, false, false;
      copies, collate, orientation := 1, false, 0;
      printerName := "";
      errors := [];
    }

    /** Succeeds only once, storing the copies and the printer name of the options. */
    method Initialize(options: ProcessingOptions) returns (ok: bool)
      requires Valid()
      modifies this
      ensures Valid()
      ensures ok == !old(isInitialized)
      ensures ok ==> State() == old(State()).(isInitialized := true, copies := options.numCopies,
        printerName := options.printerName) && errors == old(errors)
      ensures !ok ==> State() == old(State()) && errors == old(errors) + [(-1, "Device already initialized")]
    {
      if isInitialized {
        errors := errors + [(-1, "Device already initialized")];
        return false;
      }
      copies := options.numCopies;
      printerName := options.printerName;
      isInitialized := true;
      return true;
    }

    /** The printer Open settles on: the given name, else the stored one, else the default. */
    static function ChosenPrinter(name: string, stored: string, defaultPrinter: string): (r: string)
      ensures name != [] ==> r == name
      ensures r == [] <==> name == [] && stored == [] && defaultPrinter == []
    {
      if name != [] then name else if stored != [] then stored else defaultPrinter
    }

    /**
     * Open, with the default printer's name and the outcome of the printer
     * connection as parameters. A Windows build connects with OpenPrinter
     * and CreateDC; a build without _WIN32 makes no connection call, which
     * is the Connected case. An open device is closed first.
     */
    method Open(name: string, defaultPrinter: string, connection: Connection) returns (ok: bool)
      requires Valid()
      modifies this
      ensures Valid()
      ensures ok <==> old(isInitialized) && ChosenPrinter(name, old(printerName), defaultPrinter) != [] && connection == Connected
      ensures !old(isInitialized) ==> State() == old(State()) && errors == old(errors) + [(-1, "Device not initialized")]
      ensures old(isInitialized) ==> State() == old(State()).(isOpen := ok, jobStarted := false,
        pageStarted := false, printerName := ChosenPrinter(name, old(printerName), defaultPrinter))
      ensures old(isInitialized) && ChosenPrinter(name, old(printerName), defaultPrinter) == [] ==>
        errors == old(errors) + [(-1, "No default printer found")]
      ensures old(isInitialized) && ChosenPrinter(name, old(printerName), defaultPrinter) != [] ==>
        errors == old(errors) + ConnectionErrors(connection, ChosenPrinter(name, old(printerName), defaultPrinter))
    {
      if !isInitialized {
        errors := errors + [(-1, "Device not initialized")];
        return false;
      }
      if isOpen {
        var _ := Close();
      }
      if name != [] {
        printerName := name;
      }
      if printerName == [] {
        printerName := defaultPrinter;
        if printerName == [] {
          errors := errors + [(-1, "No default printer found")];
          return false;
        }
      }
      errors := errors + ConnectionErrors(connection, printerName);
      if connection != Connected {
        return false;
      }
      isOpen := true;
      return true;
    }

    /** Open(): the stored or default printer. */
    method OpenDefault(defaultPrinter: string, connection: Connection) returns (ok: bool)
      requires Valid()
      modifies this
      ensures Valid()
      ensures ok <==> old(isInitialized) && ChosenPrinter("", old(printerName), defaultPrinter) != [] && connection == Connected
      ensures !old(isInitialized) ==> State() == old(State())
      ensures old(isInitialized) ==> State() == old(State()).(isOpen := ok, jobStarted := false,
        pageStarted := false, printerName := ChosenPrinter("", old(printerName), defaultPrinter))
      ensures !old(isInitialized) ==> errors == old(errors) + [(-1, "Device not initialized")]
      ensures old(isInitialized) && ChosenPrinter("", old(printerName), defaultPrinter) == [] ==>
        errors == old(errors) + [(-1, "No default printer found")]
      ensures old(isInitialized) && ChosenPrinter("", old(printerName), defaultPrinter) != [] ==>
        errors == old(errors) + ConnectionErrors(connection, ChosenPrinter("", old(printerName), defaultPrinter))
    {
      ok := Open("", defaultPrinter, connection);
    }

    /** Ends the page, then the job, and clears all three flags; a closed device is left as it is. */
    method Close() returns (ok: bool)
      requires Valid()
      modifies this
      ensures Valid()
      ensures ok
      ensures State() == old(State()).(isOpen := false, jobStarted := false, pageStarted := false)
      ensures errors == old(errors)
    {
      if !isOpen {
        return true;
      }
      if pageStarted {
        var _ := EndPage();
      }
      if jobStarted {
        var _ := EndJob();
      }
      isOpen := false;
      jobStarted := false;
      pageStarted := false;
      return true;
    }

    /** Starts a job on an open device that has none running. */
    method StartJob(jobName: string) returns (ok: bool)
      requires Valid()
      modifies this
      ensures Valid()
      ensures ok <==> old(isOpen) && !old(jobStarted)
      ensures State() == old(State()).(jobStarted := old(jobStarted) || ok)
      ensures !old(isOpen) ==> errors == old(errors) + [(-1, "Device not open")]
      ensures old(isOpen) && old(jobStarted) ==> errors == old(errors) + [(-1, "Job already started")]
      ensures ok ==> errors == old(errors)
    {
      if !isOpen {
        errors := errors + [(-1, "Device not open")];
        return false;
      }
      if jobStarted {
        errors := errors + [(-1, "Job already started")];
        return false;
      }
      jobStarted := true;
      return true;
    }

    /** Ends the job, if one runs; a started page stays started. */
    method EndJob() returns (ok: bool)
      requires Valid()
      modifies this
      ensures Valid()
      ensures ok
      ensures State() == old(State()).(jobStarted := false)
      ensures errors == old(errors)
    {
      if !jobStarted {
        return true;
      }
      jobStarted := false;
      return true;
    }

    /** Starts a page inside a running job that has no page started. */
    method StartPage() returns (ok: bool)
      requires Valid()
      modifies this
      ensures Valid()
      ensures ok <==> old(jobStarted) && !old(pageStarted)
      ensures State() == old(State()).(pageStarted := old(pageStarted) || ok)
      ensures !old(jobStarted) ==> errors == old(errors) + [(-1, "No job started")]
      ensures old(jobStarted) && old(pageStarted) ==> errors == old(errors) + [(-1, "Page already started")]
      ensures ok ==> errors == old(errors)
    {
      if !jobStarted {
        errors := errors + [(-1, "No job started")];
        return false;
      }
      if pageStarted {
        errors := errors + [(-1, "Page already started")];
        return false;
      }
      pageStarted := true;
      return true;
    }

    method EndPage() returns (ok: bool)
      requires Valid()
      modifies this
      ensures Valid()
      ensures ok
      ensures State() == old(State()).(pageStarted := false)
      ensures errors == old(errors)
    {
      if !pageStarted {
        return true;
      }
      pageStarted := false;
      return true;
    }

    /**
     * Prints one page: starts a page when none is started, refuses empty
     * data (leaving that page started) and otherwise ends the page.
     */
    method PrintPage(pageData: seq<bv8>, pageNumber: int) returns (ok: bool)
      requires Valid()
      modifies this
      ensures Valid()
      ensures ok <==> (old(pageStarted) || old(jobStarted)) && pageData != []
      ensures State() == old(State()).(pageStarted := (old(pageStarted) || old(jobStarted)) && pageData == [])
      ensures !old(pageStarted) && !old(jobStarted) ==> errors == old(errors) + [(-1, "No job started")]
      ensures (old(pageStarted) || old(jobStarted)) && pageData == [] ==> errors == old(errors) + [(-1, "Empty page data")]
      ensures ok ==> errors == old(errors)
    {
      if !pageStarted {
        var started := StartPage();
        if !started {
          return false;
        }
      }
      if pageData == [] {
        errors := errors + [(-1, "Empty page data")];
        return false;
      }
      ok := EndPage();
    }

    /** The device interface's WritePage prints the page. */
    method WritePage(pageData: seq<bv8>, pageNumber: int) returns (ok: bool)
      requires Valid()
      modifies this
      ensures Valid()
      ensures ok <==> (old(pageStarted) || old(jobStarted)) && pageData != []
      ensures State() == old(State()).(pageStarted := (old(pageStarted) || old(jobStarted)) && pageData == [])
      ensures !old(pageStarted) && !old(jobStarted) ==> errors == old(errors) + [(-1, "No job started")]
      ensures (old(pageStarted) || old(jobStarted)) && pageData == [] ==> errors == old(errors) + [(-1, "Empty page data")]
      ensures ok ==> errors == old(errors)
    {
      ok := PrintPage(pageData, pageNumber);
    }

    /** Ends a running job. */
    method Finalize() returns (ok: bool)
      requires Valid()
      modifies this
      ensures Valid()
      ensures ok
      ensures State() == old(State()).(jobStarted := false)
      ensures errors == old(errors)
    {
      ok := true;
      if jobStarted {
        ok := EndJob();
      }
    }

    method SetPrinterSettings(newCopies: int, newCollate: bool, newOrientation: int)
      requires Valid()
      modifies this
      ensures Valid()
      ensures State() == old(State()).(copies := newCopies, collate := newCollate, orientation := newOrientation)
      ensures errors == old(errors)
    {
      copies, collate, orientation := newCopies, newCollate, newOrientation;
    }

    /** Whether the device is open; an open device has been initialised. */
    function IsOpen(): (r: bool)
      reads this
      ensures r == isOpen
      ensures Valid() && r ==> isInitialized
    {
      isOpen
    }

    /** The three parameters a caller can set; the numeric ones go through std::stoi. */
    method SetParameter(name: string, value: string) returns (outcome: SetOutcome)
      requires Valid()
      modifies this
      ensures Valid()
      ensures outcome == Set(true) <==> name == "printer_name" || ((name == "copies" || name == "orientation") && ParseInt(value).Some?)
      ensures outcome == Threw <==> (name == "copies" || name == "orientation") && ParseInt(value).None?
      ensures name == "printer_name" ==> State() == old(State()).(printerName := value) && GetParameter(name) == value
      ensures name == "copies" && ParseInt(value).Some? ==> State() == old(State()).(copies := ParseInt(value).value)
      ensures name == "orientation" && ParseInt(value).Some? ==> State() == old(State()).(orientation := ParseInt(value).value)
      ensures outcome != Set(true) ==> State() == old(State())
      ensures errors == old(errors)
    {
      if name == "printer_name" {
        printerName := value;
        return Set(true);
      } else if name == "copies" {
        var n := ParseInt(value);
        if n.None? {
          return Threw;
        }
        copies := n.value;
        return Set(true);
      } else if name == "orientation" {
        var n := ParseInt(value);
        if n.None? {
          return Threw;
        }
        orientation := n.value;
        return Set(true);
      }
      return Set(false);
    }

    /** The value of a parameter as text, which reads back as the value; "" for any other name. */
    function GetParameter(name: string): (r: string)
      reads this
      ensures name == "printer_name" ==> r == printerName
      ensures name == "copies" && IntMin <= copies <= IntMax ==> ParseInt(r) == Some(copies)
      ensures name == "orientation" && IntMin <= orientation <= IntMax ==> ParseInt(r) == Some(orientation)
      ensures name != "printer_name" && name != "copies" && name != "orientation" ==> r == ""
    {
      assert IntMin <= copies <= IntMax ==> ParseInt(IntToString(copies)) == Some(copies) by {
        if IntMin <= copies <= IntMax { ParseIntOfIntToString(copies); }
      }
      assert IntMin <= orientation <= IntMax ==> ParseInt(IntToString(orientation)) == Some(orientation) by {
        if IntMin <= orientation <= IntMax { ParseIntOfIntToString(orientation); }
      }
      if name == "printer_name" then printerName
      else if name == "copies" then IntToString(copies)
      else if name == "orientation" then IntToString(orientation)
      else ""
    }
  }
}
