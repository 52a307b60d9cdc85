/**
 * Attachments by file name: the filter `fetch_emails` applies to the file
 * name of each mail part (receipt_automation.py:34-36) and the dispatch of
 * `process_attachment` (receipt_automation.py:45-51) to the PDF or the
 * image text path, followed by `extract_details`.
 */
module Attachments {

  import opened Wrappers
  import opened Text
  import opened Extraction

  newtype byte = x: int | 0 <= x < 256

  /** The two text paths: `extract_from_pdf` and `extract_from_image`. */
  datatype Kind = Pdf | Image

  /** `file_name.endswith('.pdf')`: case-sensitive. */
  predicate IsPdfName(name: string)
  {
    EndsWith(name, ".pdf")
  }

  /** `file_name.lower().endswith(('.png', '.jpg', '.jpeg'))`: case-insensitive. */
  predicate IsImageName(name: string)
  {
    var l := Lower(name);
    EndsWith(l, ".png") || EndsWith(l, ".jpg") || EndsWith(l, ".jpeg")
  }

  /**
   * The test `fetch_emails` applies to a part's file name: there is one, it
   * is not empty, and it names a PDF or an image.
   */
  predicate FetchAccepts(name: Option<string>)
  {
    name.Some? && name.value != [] && (IsPdfName(name.value) || IsImageName(name.value))
  }

  /** What can go wrong with one attachment, each with the text `str(e)` gives. */
  datatype Failure =
    | UnsupportedFileType(name: string)   // the ValueError of process_attachment
    | TextFailed(message: string)         // the PDF reader or the OCR engine raised
    | SubmitFailed(message: string)       // the form submission raised
    | NotifyFailed(message: string)       // the notification mail raised

  function Message(f: Failure): string
  {
    match f
    case UnsupportedFileType(name) => "Unsupported file type: " + name
    case TextFailed(m) => m
    case SubmitFailed(m) => m
    case NotifyFailed(m) => m
  }

  /** The branch `process_attachment` takes for a file name. */
  function KindOf(name: string): (r: Result<Kind, Failure>)
    ensures r == Success(Pdf) <==> IsPdfName(name)
    ensures r == Success(Image) <==> !IsPdfName(name) && IsImageName(name)
    ensures r.Failure? <==> !IsPdfName(name) && !IsImageName(name)
    ensures r.Failure? ==> r.error == UnsupportedFileType(name)
  {
    if IsPdfName(name) then Success(Pdf)
    else if IsImageName(name) then Success(Image)
    else Failure(UnsupportedFileType(name))
  }

  /**
   * `process_attachment`: choose the text path by name, let the text
   * producer of that path read the bytes (it may fail), and extract the
   * record from the text.
   */
  function ProcessAttachment(
    name: string, data: seq<byte>,
    pdfText: seq<byte> -> Result<string, string>,
    imageText: seq<byte> -> Result<string, string>): (r: Result<Receipt, Failure>)
    ensures KindOf(name).Failure? ==> r == Failure(UnsupportedFileType(name))
    ensures KindOf(name) == Success(Pdf) ==>
              r == match pdfText(data)
                   case Success(text) => Success(ExtractDetails(text))
                   case Failure(m) => Failure(TextFailed(m))
    ensures KindOf(name) == Success(Image) ==>
              r == match imageText(data)
                   case Success(text) => Success(ExtractDetails(text))
                   case Failure(m) => Failure(TextFailed(m))
  {
    match KindOf(name)
    case Failure(e) => Failure(e)
    case Success(kind) =>
      var text := if kind == Pdf then pdfText(data) else imageText(data);
      match text
      case Failure(m) => Failure(TextFailed(m))
      case Success(t) => Success(ExtractDetails(t))
  }

  /**
   * The fetch filter and the dispatch accept the same names: every
   * attachment `fetch_emails` keeps has a text path, and every name with a
   * text path passes the filter.
   */
  lemma FetchedAreDispatchable(name: string)
    ensures FetchAccepts(Some(name)) <==> KindOf(name).Success?
  {
  }

  /** The image test does not depend on letter case. */
  lemma ImageNameIgnoresCase(name: string)
    ensures IsImageName(name) == IsImageName(Lower(name))
  {
    LowerIdempotent(name);
  }

  /**
   * `.pdf` is case-sensitive and the image suffixes are not: `scan.PDF` is
   * refused while `scan.JPG` is an
   * image and `scan.pdf` a PDF.
   */
  lemma DispatchByCase()
    ensures KindOf("scan.pdf") == Success(Pdf)
    ensures KindOf("scan.JPG") == Success(Image)
    ensures KindOf("scan.PDF") == Failure(UnsupportedFileType("scan.PDF"))
    ensures !FetchAccepts(Some("scan.PDF"))
  {
    assert "scan.pdf"[4..] == ".pdf";
    UpperJpgIsImage();
    UpperPdfIsNotImage();
  }

  lemma UpperJpgIsImage()
    ensures !IsPdfName("scan.JPG") && IsImageName("scan.JPG")
  {
    var jpg := Lower("scan.JPG");
    assert "scan.JPG"[4..][1] == 'J';
    assert jpg[4] == '.' && jpg[5] == LowerChar('J') == 'j';
    assert jpg[6] == LowerChar('P') == 'p' && jpg[7] == LowerChar('G') == 'g';
    assert jpg[4..] == ".jpg";
  }

  lemma UpperPdfIsNotImage()
    ensures !IsPdfName("scan.PDF") && !IsImageName("scan.PDF")
  {
    assert "scan.PDF"[4..][1] == 'P';
    var pdf := Lower("scan.PDF");
    assert pdf[3] == 'n' && pdf[5] == LowerChar('P') == 'p' && pdf[6] == LowerChar('D') == 'd';
    assert pdf[4..][2] == 'd' && pdf[4..][1] == 'p' && pdf[3..][0] == 'n';
  }
}
