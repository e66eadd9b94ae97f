/**
 * Text extraction from PDF documents (backend/app/services/pdf_extractor.py):
 * each page's direct text, or its OCR text when the direct text is blank,
 * cleaned and joined with a blank line; library failures are wrapped into
 * `PDFExtractionError` messages. The file system, the PDF library and the
 * OCR engine are oracles.
 */
module PdfExtractor {
  import opened Wrappers
  import opened PyStr
  import opened TextUtils

  /** An exception raised by the PDF library: `fitz.FileDataError` or any other. */
  datatype LibError = FileDataError(message: string) | OtherError(message: string)

  /**
   * One page of an opened document: what `page.get_text("text")` returns
   * or raises, and what rendering and OCR of the page return or raise.
   */
  datatype PdfPage = PdfPage(directText: Result<string, LibError>, ocrText: Result<string, LibError>)

  newtype byte = x: int | 0 <= x < 256

  /** `_ocr_page`: the OCR text, or "" when rendering or recognition fails. */
  function OcrPage(page: PdfPage): (r: string)
    ensures page.ocrText.Failure? ==> r == ""
    ensures page.ocrText.Success? ==> r == page.ocrText.value
  {
    match page.ocrText
    case Success(t) => t
    case Failure(_) => ""
  }

  /** One page's contribution: the direct text, or the OCR text if that is blank after `strip()`, then cleaned. */
  function PageText(page: PdfPage): Result<string, LibError> {
    match page.directText
    case Failure(e) => Failure(e)
    case Success(text) =>
      var t := if Strip(text) == [] then OcrPage(page) else text;
      Success(CleanText(t))
  }

  /** The page texts of `pages`, in page order, or the first page error. */
  function PagesText(pages: seq<PdfPage>): Result<seq<string>, LibError> {
    if pages == [] then Success([])
    else
      match PagesText(pages[..|pages| - 1])
      case Failure(e) => Failure(e)
      case Success(ts) =>
        match PageText(pages[|pages| - 1])
        case Failure(e) => Failure(e)
        case Success(t) => Success(ts + [t])
  }

  /** The document text: the page texts joined with "\n\n". */
  function DocumentText(pages: seq<PdfPage>): Result<string, LibError> {
    match PagesText(pages)
    case Failure(e) => Failure(e)
    case Success(ts) => Success(Join(ts, "\n\n"))
  }

  lemma {:induction false} PagesTextStopsAtError(pages: seq<PdfPage>, i: nat)
    requires i <= |pages|
    requires PagesText(pages[..i]).Failure?
    ensures PagesText(pages) == PagesText(pages[..i])
    decreases |pages| - i
  {
    if i < |pages| {
      assert pages[..i + 1][..i] == pages[..i];
      PagesTextStopsAtError(pages, i + 1);
    } else {
      assert pages[..i] == pages;
    }
  }

  /** The per-page loop shared by both entry points. */
  method ReadPages(pages: seq<PdfPage>) returns (r: Result<string, LibError>)
    ensures r == DocumentText(pages)
  {
    var reportText: seq<string> := [];
    for pageNum := 0 to |pages|
      invariant PagesText(pages[..pageNum]) == Success(reportText)
    {
      var page := pages[pageNum];
      assert pages[..pageNum + 1][..pageNum] == pages[..pageNum];
      if page.directText.Failure? {
        PagesTextStopsAtError(pages, pageNum + 1);
        return Failure(page.directText.error);
      }
      var text := page.directText.value;
      if Strip(text) == [] {
        text := OcrPage(page);
      }
      text := CleanText(text);
      reportText := reportText + [text];
    }
    assert pages[..|pages|] == pages;
    r := Success(Join(reportText, "\n\n"));
  }

  // ---------------------------------------------------------------------
  // Paths
  // ---------------------------------------------------------------------

  /** The last path component that is neither empty nor ".", or "" for none. */
  function LastComponent(parts: seq<string>): string {
    if parts == [] then ""
    else
      var p := parts[|parts| - 1];
      if p != "" && p != "." then p else LastComponent(parts[..|parts| - 1])
  }

  /** `Path(p).name` on a POSIX path. */
  function PathName(path: string): string {
    LastComponent(Split(path, '/'))
  }

  /** The index of the last '.' in `s`, if any. */
  function LastDot(s: string): (r: Option<nat>)
    ensures r.Some? ==> r.value < |s| && s[r.value] == '.' && '.' !in s[r.value + 1..]
    ensures r.None? ==> '.' !in s
  {
    if s == [] then None
    else if s[|s| - 1] == '.' then Some(|s| - 1)
    else
      var r := LastDot(s[..|s| - 1]);
      assert s == s[..|s| - 1] + [s[|s| - 1]];
      assert r.Some? ==> s[r.value + 1..] == s[..|s| - 1][r.value + 1..] + [s[|s| - 1]];
      r
  }

  /** `Path(p).suffix`: from the last '.' of the name, unless that dot opens or ends the name. */
  function PathSuffix(path: string): string {
    var name := PathName(path);
    match LastDot(name)
    case Some(i) => if 0 < i < |name| - 1 then name[i..] else ""
    case None => ""
  }

  /** `suffix.lower() == '.pdf'`. */
  predicate IsPdfSuffix(suffix: string) {
    && |suffix| == 4 && suffix[0] == '.'
    && (suffix[1] == 'p' || suffix[1] == 'P')
    && (suffix[2] == 'd' || suffix[2] == 'D')
    && (suffix[3] == 'f' || suffix[3] == 'F')
  }

  // ---------------------------------------------------------------------
  // The two entry points
  // ---------------------------------------------------------------------

  /** The message a library error becomes when extracting from a path. */
  function WrapPathError(e: LibError): string {
    match e
    case FileDataError(m) => "Invalid PDF file: " + m
    case OtherError(m) => "PDF extraction failed: " + m
  }

  /** `extract_text_from_pdf`: the text, or the `PDFExtractionError` message. */
  function ExtractFromPath(path: string, fileExists: string -> bool,
                           open: string -> Result<seq<PdfPage>, LibError>): Result<string, string>
  {
    if !fileExists(path) then Failure("PDF file not found: " + path)
    else if !IsPdfSuffix(PathSuffix(path)) then Failure("File is not a PDF: " + path)
    else match open(path)
      case Failure(e) => Failure(WrapPathError(e))
      case Success(pages) =>
        match DocumentText(pages)
        case Failure(e) => Failure(WrapPathError(e))
        case Success(t) => Success(t)
  }

  method ExtractTextFromPdf(path: string, fileExists: string -> bool,
                            open: string -> Result<seq<PdfPage>, LibError>)
    returns (r: Result<string, string>)
    ensures r == ExtractFromPath(path, fileExists, open)
  {
    if !fileExists(path) {
      return Failure("PDF file not found: " + path);
    }
    if !IsPdfSuffix(PathSuffix(path)) {
      return Failure("File is not a PDF: " + path);
    }
    var doc := open(path);
    if doc.Failure? {
      return Failure(WrapPathError(doc.error));
    }
    var text := ReadPages(doc.value);
    if text.Failure? {
      return Failure(WrapPathError(text.error));
    }
    r := Success(text.value);
  }

  const BytesErrorPrefix: string := "PDF extraction from bytes failed: "

  /** `extract_text_from_bytes`: every failure is wrapped with the same prefix. */
  function ExtractFromBytes(pdfBytes: seq<byte>,
                            openStream: seq<byte> -> Result<seq<PdfPage>, LibError>): Result<string, string>
  {
    match openStream(pdfBytes)
    case Failure(e) => Failure(BytesErrorPrefix + e.message)
    case Success(pages) =>
      match DocumentText(pages)
      case Failure(e) => Failure(BytesErrorPrefix + e.message)
      case Success(t) => Success(t)
  }

  method ExtractTextFromBytes(pdfBytes: seq<byte>, openStream: seq<byte> -> Result<seq<PdfPage>, LibError>)
    returns (r: Result<string, string>)
    ensures r == ExtractFromBytes(pdfBytes, openStream)
  {
    var doc := openStream(pdfBytes);
    if doc.Failure? {
      return Failure(BytesErrorPrefix + doc.error.message);
    }
    var text := ReadPages(doc.value);
    if text.Failure? {
      return Failure(BytesErrorPrefix + text.error.message);
    }
    r := Success(text.value);
  }

  // ---------------------------------------------------------------------
  // Properties
  // ---------------------------------------------------------------------

  /** The page texts exist exactly when every page's direct text could be read. */
  lemma {:induction false} PagesTextSucceedsIff(pages: seq<PdfPage>)
    ensures PagesText(pages).Success? <==> forall k :: 0 <= k < |pages| ==> pages[k].directText.Success?
  {
    if pages != [] {
      var n := |pages| - 1;
      PagesTextSucceedsIff(pages[..n]);
      assert forall k :: 0 <= k < n ==> pages[..n][k] == pages[k];
      assert PageText(pages[n]).Success? <==> pages[n].directText.Success?;
      assert PagesText(pages).Success? <==> PagesText(pages[..n]).Success? && PageText(pages[n]).Success?;
    }
  }

  /** What page k contributes: its cleaned direct text, or its cleaned OCR text when the direct text is all whitespace. */
  function ExpectedPageText(page: PdfPage): string
    requires page.directText.Success?
  {
    CleanText(if AllSpace(page.directText.value) then OcrPage(page) else page.directText.value)
  }

  /** Then there is one text per page, in page order. */
  lemma {:induction false} PagesTextValues(pages: seq<PdfPage>)
    requires PagesText(pages).Success?
    ensures forall k :: 0 <= k < |pages| ==> pages[k].directText.Success?
    ensures |PagesText(pages).value| == |pages|
    ensures forall k :: 0 <= k < |pages| ==> PagesText(pages).value[k] == ExpectedPageText(pages[k])
  {
    PagesTextSucceedsIff(pages);
    if pages != [] {
      var n := |pages| - 1;
      var init := pages[..n];
      PagesTextValues(init);
      assert forall k :: 0 <= k < n ==> init[k] == pages[k];
      var text := pages[n].directText.value;
      assert Strip(text) == [] <==> AllSpace(text);
      var ts := PagesText(init).value;
      assert PagesText(pages).value == ts + [ExpectedPageText(pages[n])];
    }
  }

  lemma {:induction false} JoinKept(parts: seq<string>, sep: string)
    requires forall k :: 0 <= k < |parts| ==> AllKept(parts[k])
    requires AllKept(sep)
    ensures AllKept(Join(parts, sep))
  {
    if |parts| > 1 {
      JoinKept(parts[1..], sep);
      var a, b := parts[0] + sep, Join(parts[1..], sep);
      assert AllKept(a) by {
        forall k | 0 <= k < |a| ensures Kept(a[k]) {
          if k >= |parts[0]| {
            assert a[k] == sep[k - |parts[0]|];
          }
        }
      }
      forall k | 0 <= k < |a + b| ensures Kept((a + b)[k]) {
        if k >= |a| {
          assert (a + b)[k] == b[k - |a|];
        }
      }
    }
  }

  /** Extracted text only holds characters `clean_text` keeps, whichever entry point produced it. */
  lemma DocumentTextKept(pages: seq<PdfPage>)
    requires DocumentText(pages).Success?
    ensures AllKept(DocumentText(pages).value)
  {
    PagesTextValues(pages);
    var ts := PagesText(pages).value;
    forall k | 0 <= k < |ts| ensures AllKept(ts[k]) {
    }
    assert AllKept("\n\n") by {
      assert Kept('\n');
    }
    JoinKept(ts, "\n\n");
  }

  /**
   * From a path: a missing file is reported first, whatever its suffix; an
   * existing file whose suffix is not ".pdf" in any letter case is
   * reported next, before the library is asked to open anything.
   */
  lemma ExtractFromPathChecks(path: string, fileExists: string -> bool,
                              open: string -> Result<seq<PdfPage>, LibError>,
                              open': string -> Result<seq<PdfPage>, LibError>)
    ensures !fileExists(path) ==> ExtractFromPath(path, fileExists, open) == Failure("PDF file not found: " + path)
    ensures fileExists(path) && !IsPdfSuffix(PathSuffix(path)) ==>
      ExtractFromPath(path, fileExists, open) == Failure("File is not a PDF: " + path)
    ensures !(fileExists(path) && IsPdfSuffix(PathSuffix(path))) ==>
      ExtractFromPath(path, fileExists, open) == ExtractFromPath(path, fileExists, open')
  {
  }

  lemma {:induction false} LastDotAfter(base: string, ext: string)
    requires '.' !in ext
    ensures LastDot(base + "." + ext) == Some(|base|)
    decreases |ext|
  {
    if ext == [] {
      assert base + "." + ext == base + ".";
    } else {
      var s := base + "." + ext;
      var n := |ext| - 1;
      assert s[..|s| - 1] == base + "." + ext[..n];
      assert s[|s| - 1] == ext[n];
      LastDotAfter(base, ext[..n]);
    }
  }

  /** A name without '/' is its own last component. */
  lemma PathNameOfName(name: string)
    requires '/' !in name && name != "" && name != "."
    ensures PathName(name) == name
  {
    SplitWithoutSeparator(name, '/');
  }

  /**
   * The suffix of a plain name is what follows its last dot, when the
   * name does not start with that dot: "report.PDF" passes the check,
   * "report.pdf.txt" does not, and a hidden file named ".pdf" has no
   * suffix at all.
   */
  lemma PathSuffixOfName(base: string, ext: string)
    requires '/' !in base && '/' !in ext && '.' !in ext && ext != ""
    ensures PathSuffix(base + "." + ext) == (if base == "" then "" else "." + ext)
  {
    var name := base + "." + ext;
    CharNotInConcat('/', base, ".");
    CharNotInConcat('/', base + ".", ext);
    assert |name| == |base| + 1 + |ext|;
    PathNameOfName(name);
    LastDotAfter(base, ext);
    DropPrefix(base, ".", ext);
  }

  lemma DropPrefix(x: string, y: string, z: string)
    ensures (x + y + z)[|x|..] == y + z
  {
    assert x + y + z == x + (y + z);
  }

  lemma CharNotInConcat(c: char, x: string, y: string)
    requires c !in x && c !in y
    ensures c !in x + y
  {
  }

  /**
   * Both entry points yield the same text for the same document; from a
   * path, a successful extraction is exactly the document text of an
   * existing ".pdf" file that opened and whose pages could be read.
   */
  lemma EntryPointsAgree(path: string, fileExists: string -> bool,
                         open: string -> Result<seq<PdfPage>, LibError>,
                         pdfBytes: seq<byte>, openStream: seq<byte> -> Result<seq<PdfPage>, LibError>)
    requires open(path) == openStream(pdfBytes)
    requires fileExists(path) && IsPdfSuffix(PathSuffix(path))
    ensures ExtractFromPath(path, fileExists, open).Success? <==> ExtractFromBytes(pdfBytes, openStream).Success?
    ensures ExtractFromPath(path, fileExists, open).Success? ==>
      && open(path).Success? && DocumentText(open(path).value).Success?
      && ExtractFromPath(path, fileExists, open).value == DocumentText(open(path).value).value
      && ExtractFromBytes(pdfBytes, openStream).value == ExtractFromPath(path, fileExists, open).value
  {
  }

  /** The first library error of opening a document and reading its pages, if any. */
  function ReadError(doc: Result<seq<PdfPage>, LibError>): Option<LibError> {
    match doc
    case Failure(e) => Some(e)
    case Success(pages) => if DocumentText(pages).Failure? then Some(DocumentText(pages).error) else None
  }

  /**
   * Once the checks pass, extraction from a path fails exactly when the
   * library fails, with "Invalid PDF file: …" for a file data error and
   * "PDF extraction failed: …" for any other; from bytes, extraction fails
   * exactly when the library fails, always with the
   * "PDF extraction from bytes failed: " prefix.
   */
  lemma ErrorWrapping(path: string, fileExists: string -> bool, open: string -> Result<seq<PdfPage>, LibError>,
                      pdfBytes: seq<byte>, openStream: seq<byte> -> Result<seq<PdfPage>, LibError>)
    ensures fileExists(path) && IsPdfSuffix(PathSuffix(path)) ==>
      var r, e := ExtractFromPath(path, fileExists, open), ReadError(open(path));
      && (r.Failure? <==> e.Some?)
      && (e.Some? && e.value.FileDataError? ==> r.error == "Invalid PDF file: " + e.value.message)
      && (e.Some? && e.value.OtherError? ==> r.error == "PDF extraction failed: " + e.value.message)
    ensures var r, e := ExtractFromBytes(pdfBytes, openStream), ReadError(openStream(pdfBytes));
      && (r.Failure? <==> e.Some?)
      && (e.Some? ==> r.error == BytesErrorPrefix + e.value.message)
  {
  }
}
