/**
 * The PDF write device: an initialise-once device that, while open,
 * buffers the pages written to it and hands them to the file writer when
 * it closes.
 */
module PdfWriteDevice {
  import opened Options
  import opened FileUtils

  class PDFWriteDevice {
    var isOpen: bool
    var isInitialized: bool
    var outputFile: string
    var title: string
    var author: string
    var subject: string
    var keywords: string
    var userPassword: string
    var ownerPassword: string
    var permissions: int
    /** The pages written since the device opened, in order. */
    var pages: seq<seq<bv8>>
    var currentPage: int
    /** The (code, message) errors reported. */
    ghost var errors: seq<(int, string)>
    /** Each WritePDFFile call: the output path and the pages handed over. */
    ghost var written: seq<(string, seq<seq<bv8>>)>

    /** The page counter counts the buffered pages, and a closed device buffers none. */
    ghost predicate Valid()
      reads this
    {
      currentPage == |pages| && (!isOpen ==> pages == []) && (isOpen ==> isInitialized)
    }

    constructor ()
      ensures Valid()
      ensures !isOpen && !isInitialized && pages == [] && permissions == 0
      ensures outputFile == "" && title == "" && author == "" && subject == "" && keywords == ""
      ensures errors == [] && written == []
    {
      isOpen, isInitialized := false, false;
      outputFile, title, author, subject, keywords := "", "", "", "", "";
      userPassword, ownerPassword := "", "";
      permissions := 0;
      pages, currentPage := [], 0;
      errors, written := [], [];
    }

    /** Succeeds only once. */
    method Initialize(options: ProcessingOptions) returns (ok: bool)
      requires Valid()
      modifies this`isInitialized, this`errors
      ensures Valid()
      ensures ok == !old(isInitialized) && isInitialized
      ensures ok ==> errors == old(errors)
      ensures !ok ==> errors == old(errors) + [(-1, "Device already initialized")]
    {
      if isInitialized {
        errors := errors + [(-1, "Device already initialized")];
        return false;
      }
      isInitialized := true;
      return true;
    }

    /**
     * Open: an open device is closed first; the output directory, when the
     * path names one that does not exist, must be created. Whether it exists
     * and whether creating it succeeds are parameters.
     */
    method Open(file: string, directoryExists: bool, directoryCreated: bool) returns (ok: bool)
      requires Valid()
      modifies this`isOpen, this`pages, this`currentPage, this`written, this`outputFile, this`errors
      ensures Valid()
      ensures ok <==> old(isInitialized) && (GetDirectoryName(file) == [] || directoryExists || directoryCreated)
      ensures !old(isInitialized) ==> isOpen == old(isOpen) && pages == old(pages) && outputFile == old(outputFile)
      ensures old(isInitialized) ==> outputFile == file && isOpen == ok && pages == []
      ensures old(isInitialized) && old(isOpen) && old(pages) != [] && old(outputFile) != [] ==>
        written == old(written) + [(old(outputFile), old(pages))]
      ensures !(old(isInitialized) && old(isOpen) && old(pages) != [] && old(outputFile) != []) ==> written == old(written)
      ensures title == old(title) && author == old(author) && subject == old(subject) && keywords == old(keywords)
      ensures isInitialized == old(isInitialized)
      ensures userPassword == old(userPassword) && ownerPassword == old(ownerPassword) && permissions == old(permissions)
      ensures !old(isInitialized) ==> errors == old(errors) + [(-1, "Device not initialized")]
      ensures old(isInitialized) && !ok ==>
        errors == old(errors) + [(-1, "Failed to create output directory: " + GetDirectoryName(file))]
      ensures ok ==> errors == old(errors)
    {
      if !isInitialized {
        errors := errors + [(-1, "Device not initialized")];
        return false;
      }
      if isOpen {
        var _ := Close();
      }
      outputFile := file;
      var directory := GetDirectoryName(file);
      if directory != [] && !directoryExists {
        if !directoryCreated {
          errors := errors + [(-1, "Failed to create output directory: " + directory)];
          return false;
        }
      }
      pages := [];
      currentPage := 0;
      isOpen := true;
      return true;
    }

    /** Open(): a session with no output file, so closing it writes nothing. */
    method OpenWithoutFile() returns (ok: bool)
      requires Valid()
      modifies this`isOpen, this`pages, this`currentPage, this`written, this`outputFile, this`errors
      ensures Valid()
      ensures ok == old(isInitialized)
      ensures ok ==> isOpen && outputFile == "" && pages == [] && errors == old(errors)
      ensures !ok ==> errors == old(errors) + [(-1, "Device not initialized")]
    {
      ok := Open("", true, true);
    }

    /**
     * Close: pages buffered for a named output file go to WritePDFFile;
     * then the buffer is emptied and the device closed. A closed device is
     * left as it is.
     */
    method Close() returns (ok: bool)
      requires Valid()
      modifies this`isOpen, this`pages, this`currentPage, this`written
      ensures Valid()
      ensures ok && !isOpen && pages == []
      ensures old(isOpen) && old(pages) != [] && outputFile != [] ==> written == old(written) + [(outputFile, old(pages))]
      ensures !(old(isOpen) && old(pages) != [] && outputFile != []) ==> written == old(written)
    {
      if !isOpen {
        return true;
      }
      if pages != [] && outputFile != [] {
        written := written + [(outputFile, pages)];
      }
      pages := [];
      currentPage := 0;
      isOpen := false;
      return true;
    }

    /** Appends a non-empty page to the buffer of an open device. */
    method WritePage(pageData: seq<bv8>, pageNumber: int) returns (ok: bool)
      requires Valid()
      modifies this`pages, this`currentPage, this`errors
      ensures Valid()
      ensures ok <==> isOpen && pageData != []
      ensures pages == if ok then old(pages) + [pageData] else old(pages)
      ensures !isOpen ==> errors == old(errors) + [(-1, "Device not open")]
      ensures isOpen && pageData == [] ==> errors == old(errors) + [(-1, "Empty page data")]
      ensures ok ==> errors == old(errors)
    {
      if !isOpen {
        errors := errors + [(-1, "Device not open")];
        return false;
      }
      if pageData == [] {
        errors := errors + [(-1, "Empty page data")];
        return false;
      }
      pages := pages + [pageData];
      currentPage := currentPage + 1;
      return true;
    }

    method SetMetadata(newTitle: string, newAuthor: string, newSubject: string, newKeywords: string)
      modifies this`title, this`author, this`subject, this`keywords
      ensures title == newTitle && author == newAuthor && subject == newSubject && keywords == newKeywords
    {
      title, author, subject, keywords := newTitle, newAuthor, newSubject, newKeywords;
    }

    method SetSecurity(user: string, owner: string, newPermissions: int)
      modifies this`userPassword, this`ownerPassword, this`permissions
      ensures userPassword == user && ownerPassword == owner && permissions == newPermissions
    {
      userPassword, ownerPassword, permissions := user, owner, newPermissions;
    }

    /** Closes an open device; otherwise nothing happens. */
    method Finalize() returns (ok: bool)
      requires Valid()
      modifies this`isOpen, this`pages, this`currentPage, this`written
      ensures Valid()
      ensures ok && !isOpen && pages == []
      ensures old(isOpen) && old(pages) != [] && outputFile != [] ==> written == old(written) + [(outputFile, old(pages))]
      ensures !(old(isOpen) && old(pages) != [] && outputFile != []) ==> written == old(written)
    {
      ok := true;
      if isOpen {
        ok := Close();
      }
    }

    /** The names SetParameter and GetParameter know. */
    static predicate KnownParameter(name: string)
    {
      name == "output_file" || name == "title" || name == "author" || name == "subject" || name == "keywords"
    }

    /** Stores the value of a known parameter, so that GetParameter returns it. */
    method SetParameter(name: string, value: string) returns (ok: bool)
      modifies this`outputFile, this`title, this`author, this`subject, this`keywords
      ensures ok == KnownParameter(name)
      ensures ok ==> GetParameter(name) == value
      ensures forall other :: other != name ==> GetParameter(other) == old(GetParameter(other))
    {
      if name == "output_file" {
        outputFile := value;
        return true;
      } else if name == "title" {
        title := value;
        return true;
      } else if name == "author" {
        author := value;
        return true;
      } else if name == "subject" {
        subject := value;
        return true;
      } else if name == "keywords" {
        keywords := value;
        return true;
      }
      return false;
    }

    function GetParameter(name: string): (r: string)
      reads this
      ensures !KnownParameter(name) ==> r == ""
    {
      if name == "output_file" then outputFile
      else if name == "title" then title
      else if name == "author" then author
      else if name == "subject" then subject
      else if name == "keywords" then keywords
      else ""
    }

    /** Whether the device is open; a closed device buffers no page, an open one has been initialised. */
    function IsOpen(): (r: bool)
      reads this
      ensures r == isOpen
      ensures Valid() && r ==> isInitialized
      ensures Valid() && !r ==> pages == []
    {
      isOpen
    }
  }
}
