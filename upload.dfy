/** The checks that `/upload`, `/extract-dates` and `/extract-calendar` run on
    the multipart request before touching the PDF, and the way all three turn
    the PDF's pages into one text. */
module Upload {
  import opened Wrappers
  import opened Text

  /** The multipart part named "file"; `filename` is "" when the browser sent
      no file name. */
  datatype FilePart = FilePart(filename: string)

  const NoFilePart := "No file part"
  const NoSelectedFile := "No selected file"
  const OnlyPdf := "Only PDF files are allowed."

  /** The case-insensitive `.pdf` suffix test. */
  predicate HasPdfSuffix(filename: string)
  {
    EndsWith(ToLower(filename), ".pdf")
  }

  /** The three checks, in their order: a file part is present, its file name
      is non-empty, and the lower-cased file name ends with ".pdf". On success
      the accepted file name is returned. */
  function Validate(part: Option<FilePart>): (r: Result<string, HttpError>)
    ensures r.Success? <==> part.Some? && part.value.filename != "" && HasPdfSuffix(part.value.filename)
    ensures r.Success? ==> r.value == part.value.filename
    ensures part.None? ==> r == Failure(ClientError(NoFilePart))
    ensures part.Some? && part.value.filename == "" ==> r == Failure(ClientError(NoSelectedFile))
    ensures part.Some? && part.value.filename != "" && !HasPdfSuffix(part.value.filename) ==>
              r == Failure(ClientError(OnlyPdf))
    ensures r.Failure? ==> r.error.status == 400
  {
    match part
    case None => Failure(ClientError(NoFilePart))
    case Some(file) =>
      if file.filename == "" then Failure(ClientError(NoSelectedFile))
      else if !HasPdfSuffix(file.filename) then Failure(ClientError(OnlyPdf))
      else Success(file.filename)
  }

  /** An upper-case extension is accepted. */
  lemma UpperCasePdfAccepted()
    ensures Validate(Some(FilePart("FILE.PDF"))) == Success("FILE.PDF")
  {
    assert ToLower("FILE.PDF") == "file.pdf";
  }

  /** A text file is refused with the PDF-only error, whatever its content. */
  lemma TextFileRefused()
    ensures Validate(Some(FilePart("notes.txt"))) == Failure(ClientError(OnlyPdf))
  {
    assert ToLower("notes.txt")[5..] == ".txt";
  }

  /** A page's extracted text; a page with no text (`None`) counts as "". */
  function PageText(page: Option<string>): string
  {
    match page
    case None => ""
    case Some(t) => t
  }

  function PageTexts(pages: seq<Option<string>>): (r: seq<string>)
    ensures |r| == |pages|
    ensures forall k :: 0 <= k < |pages| ==> r[k] == PageText(pages[k])
  {
    seq(|pages|, k requires 0 <= k < |pages| => PageText(pages[k]))
  }

  /** The document text: the pages' texts joined by single spaces. */
  function ExtractText(pages: seq<Option<string>>): string
  {
    Join(PageTexts(pages), " ")
  }

  /** The text of k pages is as long as the pages' texts together plus k - 1
      separating spaces. */
  lemma ExtractTextLength(pages: seq<Option<string>>)
    requires |pages| > 0
    ensures |ExtractText(pages)| == TotalLength(PageTexts(pages)) + |pages| - 1
  {
    JoinLength(PageTexts(pages), " ");
  }

  /** Page `i`'s text sits unchanged at its offset, and is followed by a single
      space unless it is the last page; a page without text contributes
      nothing but its separator. */
  lemma ExtractTextPage(pages: seq<Option<string>>, i: nat)
    requires i < |pages|
    ensures var o := Offset(PageTexts(pages), " ", i);
      && o + |PageText(pages[i])| <= |ExtractText(pages)|
      && ExtractText(pages)[o..o + |PageText(pages[i])|] == PageText(pages[i])
      && (i + 1 < |pages| ==>
            o + |PageText(pages[i])| < |ExtractText(pages)| &&
            ExtractText(pages)[o + |PageText(pages[i])|] == ' ')
  {
    var parts := PageTexts(pages);
    JoinPart(parts, " ", i);
    if i + 1 < |pages| {
      JoinSeparator(parts, " ", i);
      var o := Offset(parts, " ", i) + |parts[i]|;
      assert ExtractText(pages)[o..o + 1] == " ";
    }
  }

  /** The 500-character preview is a prefix of the text, at most 500 long, and
      the whole text when the text is that short. */
  function Preview(text: string): (r: string)
    ensures r <= text && |r| <= 500
    ensures |text| <= 500 ==> r == text
    ensures |text| > 500 ==> |r| == 500
  {
    Prefix(text, 500)
  }
}
