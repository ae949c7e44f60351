/** Text extraction from a stored upload, by extension: the backend's
    `extract_text_from_file`, which turns image failures into explanatory
    text, and the older variant of `src/snap_ai/utils.py`, which returns raw
    OCR output and lets reading errors escape. The file system, pypdf,
    PIL and tesseract are not opened: what they produce is an input. */
module Textract {
  import opened Wrappers
  import opened Strs

  /** An `HTTPException`. */
  datatype HttpError = HttpError(status: int, detail: string)

  /** What extraction raised: an HTTP error, or any other exception, which
      propagates to the caller unchanged. */
  datatype Raised = Http(error: HttpError) | Uncaught(message: string)

  /** What the libraries give for one stored file: the UTF-8 text, or the
      decoding error; the text of each PDF page, or what opening or parsing
      raised; the image mode `Image.open` finds, or what it raised; and OCR
      of the image in a given mode, or what tesseract raised. */
  datatype StoredFile = StoredFile(
    readText: Result<string, string>,
    pdfPages: Result<seq<string>, string>,
    imageMode: Result<string, string>,
    ocr: string -> Result<string, string>)

  /** Which imports fail: the message of pypdf's `ImportError`, if any, and
      whether pytesseract or PIL is missing. */
  datatype Libraries = Libraries(pypdfImportError: Option<string>, ocrMissing: bool)

  const ImageExtensions: set<string> := {".png", ".jpg", ".jpeg"}

  const NoTextFound := "No text found in image"
  const CorruptImage := "This image appears to be corrupted. " + "Please try uploading a different image or retaking the photo."
  const OcrMissing := "pytesseract/PIL not installed for image processing"

  // --------------------------------------------------------------- PDF

  /** Each page's text followed by a newline, in page order. */
  function PagesText(pages: seq<string>): (t: string)
    ensures |pages| > 0 ==> |t| > 0 && t[|t| - 1] == '\n'
  {
    if |pages| == 0 then "" else PagesText(pages[..|pages| - 1]) + pages[|pages| - 1] + "\n"
  }

  /** The text of a document split in two is the text of the first part
      followed by that of the second. */
  lemma {:induction false} PagesTextAppend(p1: seq<string>, p2: seq<string>)
    ensures PagesText(p1 + p2) == PagesText(p1) + PagesText(p2)
    decreases |p2|
  {
    if |p2| == 0 {
      assert p1 + p2 == p1;
    } else {
      var n := |p2| - 1;
      var last := p2[n] + "\n";
      assert PagesText(p1 + p2) == PagesText(p1 + p2[..n]) + last by {
        var whole := p1 + p2;
        assert whole[..|whole| - 1] == p1 + p2[..n] && whole[|whole| - 1] == p2[n];
      }
      PagesTextAppend(p1, p2[..n]);
      assert PagesText(p2) == PagesText(p2[..n]) + last;
      Associate(PagesText(p1), PagesText(p2[..n]), last);
    }
  }

  /** One newline per page is added to the pages' own characters. */
  lemma {:induction false} PagesTextLength(pages: seq<string>)
    ensures |PagesText(pages)| == TotalLength(pages) + |pages|
  {
    if |pages| > 0 {
      PagesTextLength(pages[..|pages| - 1]);
    }
  }

  function TotalLength(pages: seq<string>): nat {
    if |pages| == 0 then 0 else TotalLength(pages[..|pages| - 1]) + |pages[|pages| - 1]|
  }

  /** The page loop: `text += page.extract_text() + "\n"` for each page. */
  method ReadPages(pages: seq<string>) returns (text: string)
    ensures text == PagesText(pages)
  {
    text := "";
    var i := 0;
    while i < |pages|
      invariant 0 <= i <= |pages|
      invariant text == PagesText(pages[..i])
    {
      assert pages[..i + 1][..i] == pages[..i];
      text := text + pages[i] + "\n";
      i := i + 1;
    }
    assert pages[..i] == pages;
  }

  // ------------------------------------------------------------- images

  /** CMYK and palette images are converted to RGB before OCR. */
  function OcrMode(mode: string): (m: string)
    ensures m != "CMYK" && m != "P"
    ensures mode != "CMYK" && mode != "P" ==> m == mode
  {
    if mode == "CMYK" || mode == "P" then "RGB" else mode
  }

  /** The text returned for an image that could not be read or recognised. */
  function ImageErrorText(message: string): (t: string)
    ensures Contains(message, "Corrupt JPEG") || Contains(message, "premature end") ==> t == CorruptImage
    ensures !Contains(message, "Corrupt JPEG") && !Contains(message, "premature end") ==>
      t == "Unable to process this image: " + message
  {
    if Contains(message, "Corrupt JPEG") || Contains(message, "premature end") then CorruptImage
    else "Unable to process this image: " + message
  }

  /** The backend's image branch, once the imports succeeded. */
  function ImageText(f: StoredFile): (t: string)
    ensures f.imageMode.Failure? ==> t == ImageErrorText(f.imageMode.error)
    ensures f.imageMode.Success? && f.ocr(OcrMode(f.imageMode.value)).Failure? ==>
      t == ImageErrorText(f.ocr(OcrMode(f.imageMode.value)).error)
  {
    match f.imageMode
    case Failure(e) => ImageErrorText(e)
    case Success(mode) =>
      match f.ocr(OcrMode(mode))
      case Failure(e) => ImageErrorText(e)
      case Success(text) => if Strip(text) == "" then NoTextFound else text
  }

  lemma NonBlank(s: string)
    requires |s| > 0 && s[0] !in Whitespace
    ensures Strip(s) != ""
  {
    StripEmptyIffAllSpace(s);
  }

  /** OCR text is returned as recognised when it is not blank; a blank
      recognition is replaced by a fixed notice, so the backend never hands
      back blank text for an image. */
  lemma ImageTextNeverBlank(f: StoredFile)
    ensures Strip(ImageText(f)) != ""
    ensures f.imageMode.Success? && f.ocr(OcrMode(f.imageMode.value)).Success? ==>
      var text := f.ocr(OcrMode(f.imageMode.value)).value;
      ImageText(f) == if Strip(text) == "" then NoTextFound else text
  {
    assert NoTextFound[0] == 'N';
    assert CorruptImage[0] == 'T';
    NonBlank(NoTextFound);
    NonBlank(CorruptImage);
    var u := "Unable to process this image: ";
    forall m: string ensures Strip(u + m) != "" {
      assert (u + m)[0] == 'U';
      NonBlank(u + m);
    }
  }

  // ---------------------------------------------------------- backend

  /** The backend's `extract_text_from_file`. */
  function ExtractText(f: StoredFile, ext: string, libs: Libraries): (r: Result<string, Raised>)
    ensures ext == ".txt" ==> (r.Success? <==> f.readText.Success?)
    ensures ext == ".txt" && f.readText.Success? ==> r.value == f.readText.value
    ensures ext == ".pdf" && libs.pypdfImportError.Some? ==>
      r == Failure(Http(HttpError(500, "PDF processing error: " + libs.pypdfImportError.value)))
    ensures ext == ".pdf" && libs.pypdfImportError.None? && f.pdfPages.Failure? ==>
      r == Failure(Http(HttpError(500, "PDF processing error: " + f.pdfPages.error)))
    ensures ext == ".pdf" && libs.pypdfImportError.None? && f.pdfPages.Success? ==> r == Success(PagesText(f.pdfPages.value))
    ensures ext in ImageExtensions ==> (r.Failure? <==> libs.ocrMissing)
    ensures ext in ImageExtensions && libs.ocrMissing ==> r == Failure(Http(HttpError(500, OcrMissing)))
    ensures ext in ImageExtensions && !libs.ocrMissing ==> r == Success(ImageText(f))
    ensures ext != ".txt" && ext != ".pdf" && ext !in ImageExtensions ==>
      r == Failure(Http(HttpError(400, "Unsupported file type: " + ext)))
  {
    if ext == ".txt" then
      (match f.readText
       case Success(s) => Success(s)
       case Failure(e) => Failure(Uncaught(e)))
    else if ext == ".pdf" then
      if libs.pypdfImportError.Some? then Failure(Http(HttpError(500, "PDF processing error: " + libs.pypdfImportError.value)))
      else
        (match f.pdfPages
         case Success(pages) => Success(PagesText(pages))
         case Failure(e) => Failure(Http(HttpError(500, "PDF processing error: " + e))))
    else if ext in ImageExtensions then
      if libs.ocrMissing then Failure(Http(HttpError(500, OcrMissing))) else Success(ImageText(f))
    else Failure(Http(HttpError(400, "Unsupported file type: " + ext)))
  }

  /** The backend's extraction fails only with an HTTP error, except for a
      text file that is not valid UTF-8. */
  lemma OnlyTextDecodingEscapes(f: StoredFile, ext: string, libs: Libraries)
    requires ExtractText(f, ext, libs).Failure?
    ensures ExtractText(f, ext, libs).error.Uncaught? <==> ext == ".txt"
  {
  }

  // ------------------------------------------------------ older variant

  /** `extract_text_from_file` of `src/snap_ai/utils.py`. pypdf is imported
      with the module, so its `ImportError` handler is never reached and a
      PDF that cannot be read raises unchanged; images are not converted and
      OCR output, blank or not, is returned as it is. */
  function ExtractTextLegacy(f: StoredFile, ext: string, ocrMissing: bool): (r: Result<string, Raised>)
    ensures ext == ".txt" ==> (r.Success? <==> f.readText.Success?)
    ensures ext == ".txt" && f.readText.Success? ==> r.value == f.readText.value
    ensures ext == ".pdf" ==> (r.Success? <==> f.pdfPages.Success?)
    ensures ext == ".pdf" && f.pdfPages.Failure? ==> r == Failure(Uncaught(f.pdfPages.error))
    ensures ext == ".pdf" && f.pdfPages.Success? ==> r == Success(PagesText(f.pdfPages.value))
    ensures ext in ImageExtensions && ocrMissing ==> r == Failure(Http(HttpError(500, OcrMissing)))
    ensures ext in ImageExtensions && !ocrMissing ==>
      (r.Success? <==> f.imageMode.Success? && f.ocr(f.imageMode.value).Success?)
    ensures ext in ImageExtensions && r.Success? ==> r.value == f.ocr(f.imageMode.value).value
    ensures ext != ".txt" && ext != ".pdf" && ext !in ImageExtensions ==>
      r == Failure(Http(HttpError(400, "Unsupported file type: " + ext)))
  {
    if ext == ".txt" then
      (match f.readText
       case Success(s) => Success(s)
       case Failure(e) => Failure(Uncaught(e)))
    else if ext == ".pdf" then
      (match f.pdfPages
       case Success(pages) => Success(PagesText(pages))
       case Failure(e) => Failure(Uncaught(e)))
    else if ext in ImageExtensions then
      if ocrMissing then Failure(Http(HttpError(500, OcrMissing)))
      else
        (match f.imageMode
         case Failure(e) => Failure(Uncaught(e))
         case Success(mode) =>
           match f.ocr(mode)
           case Failure(e) => Failure(Uncaught(e))
           case Success(text) => Success(text))
    else Failure(Http(HttpError(400, "Unsupported file type: " + ext)))
  }

  /** Both variants read text files, unsupported extensions and readable
      PDFs alike; they part on images and on PDFs that cannot be read. */
  lemma VariantsAgree(f: StoredFile, ext: string, ocrMissing: bool)
    requires ext == ".txt" || (ext == ".pdf" && f.pdfPages.Success?) || (ext != ".pdf" && ext !in ImageExtensions)
    ensures ExtractText(f, ext, Libraries(None, ocrMissing)) == ExtractTextLegacy(f, ext, ocrMissing)
  {
  }

  /** On an image whose OCR comes back blank, the older variant returns the
      blank text while the backend returns its notice. */
  lemma BlankOcrDiffers(f: StoredFile, ext: string)
    requires ext in ImageExtensions && f.imageMode.Success?
    requires f.imageMode.value != "CMYK" && f.imageMode.value != "P"
    requires f.ocr(f.imageMode.value).Success? && Strip(f.ocr(f.imageMode.value).value) == ""
    ensures ExtractTextLegacy(f, ext, false) == Success(f.ocr(f.imageMode.value).value)
    ensures ExtractText(f, ext, Libraries(None, false)) == Success(NoTextFound)
  {
  }
}
