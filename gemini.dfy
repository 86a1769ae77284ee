/** The summarisation service (`gemini.py`): the guards around the language model, the file-type
    branches of file summaries, PDF text assembly and the daily-digest text. The model, the PDF
    reader, OCR and file decoding are inputs: each is the value (or the exception text) that the
    library call produced. */
module Gemini {
  import opened Wrappers
  import opened Strings
  import opened Http
  import opened FileSummarizerFactory

  const NoSummary := "No meaningful summary could be generated."
  const NoPdfText := "The PDF contains no extractable text."
  const NoImageText := "The image contains no recognizable text."
  const NoInteractions := "No interactions recorded today."

  /** The language model: the text of its response to a prompt, or the text of the exception
      the call raised. */
  type Model = string -> Result<string, string>

  // ---------------------------------------------------------------- summarize_text

  const SummaryPromptHead := "\n        Please provide a concise summary of the following text. Focus on key points, \n"
    + "        main ideas, and important details while maintaining the original meaning:\n        \n        "

  function SummaryPrompt(text: string): (p: string)
    ensures OccursAt(p, text, |SummaryPromptHead|)
  {
    var p := SummaryPromptHead + text + "\n        ";
    assert p[|SummaryPromptHead|..|SummaryPromptHead| + |text|] == text;
    p
  }

  /** `summarize_text`: blank input gives "" without asking the model; a blank answer is
      replaced by a fixed message and any other answer returned as it is; a failing model call
      becomes a 500 error. So a successful summary is empty exactly when the input is blank. */
  function SummarizeText(text: string, generate: Model): (r: Result<string, HttpError>)
    ensures IsBlank(text) ==> r == Success("")
    ensures !IsBlank(text) && generate(SummaryPrompt(text)).Failure? ==>
              r == Failure(HttpError(500, "Failed to summarize text: " + generate(SummaryPrompt(text)).error))
    ensures !IsBlank(text) && generate(SummaryPrompt(text)).Success? ==>
              r.Success? && var out := generate(SummaryPrompt(text)).value;
              (IsBlank(out) ==> r.value == NoSummary) && (!IsBlank(out) ==> r.value == out)
    ensures r.Success? ==> (r.value == [] <==> IsBlank(text))
  {
    if text == [] || Strip(text) == [] then Success("")
    else
      match generate(SummaryPrompt(text))
      case Failure(e) => Failure(HttpError(500, "Failed to summarize text: " + e))
      case Success(summary) =>
        if summary == [] || Strip(summary) == [] then
          assert !IsSpace(NoSummary[0]);
          Success(NoSummary)
        else Success(summary)
  }

  // ---------------------------------------------------------------- summarize_file

  /** The text one PDF page contributes: `page.extract_text() or ""`. */
  function PageText(page: Option<string>): string {
    page.GetOr("")
  }

  /** The text of a sequence of pages, in page order. */
  function PagesText(pages: seq<Option<string>>): string {
    if pages == [] then [] else PagesText(pages[..|pages| - 1]) + PageText(pages[|pages| - 1])
  }

  /** The PDF text of consecutive page ranges is the concatenation of their texts. */
  lemma {:induction false} PagesTextAppend(a: seq<Option<string>>, b: seq<Option<string>>)
    ensures PagesText(a + b) == PagesText(a) + PagesText(b)
  {
    if b == [] {
      assert a + b == a;
    } else {
      var c := a + b;
      assert c[..|c| - 1] == a + b[..|b| - 1];
      PagesTextAppend(a, b[..|b| - 1]);
    }
  }

  /** A page without text adds nothing to the PDF text. */
  lemma TextlessPageIgnored(a: seq<Option<string>>, b: seq<Option<string>>)
    ensures PagesText(a + [None] + b) == PagesText(a + b)
  {
    PagesTextAppend(a + [None], b);
    PagesTextAppend(a, [None]);
    PagesTextAppend(a, b);
    assert PagesText([None]) == PagesText([]) + PageText(None);
  }

  /** The page loop of the PDF branch. */
  method ExtractPdfText(pages: seq<Option<string>>) returns (text: string)
    ensures text == PagesText(pages)
  {
    text := "";
    for i := 0 to |pages|
      invariant text == PagesText(pages[..i])
    {
      assert pages[..i + 1][..i] == pages[..i];
      text := text + PageText(pages[i]);
    }
    assert pages[..|pages|] == pages;
  }

  /** A summary of text extracted from a PDF or an image: a fixed message when nothing was
      extracted; otherwise the text summary, whose errors are wrapped once more. */
  function ExtractedSummary(text: string, nothingExtracted: string, failure: string, generate: Model): (r: Result<string, HttpError>)
    ensures IsBlank(text) ==> r == Success(nothingExtracted)
    ensures !IsBlank(text) && SummarizeText(text, generate).Success? ==> r == SummarizeText(text, generate)
    ensures !IsBlank(text) && SummarizeText(text, generate).Failure? ==>
              r == Failure(HttpError(500, failure + Describe(SummarizeText(text, generate).error)))
  {
    if Strip(text) == [] then Success(nothingExtracted)
    else
      match SummarizeText(text, generate)
      case Success(s) => Success(s)
      case Failure(e) => Failure(HttpError(500, failure + Describe(e)))
  }

  /** The message for a file that is not UTF-8 text, naming the file or "uploaded document". */
  function Undecodable(fileName: Option<string>): (r: string)
    ensures fileName.Some? && fileName.value != [] ==> OccursAt(r, fileName.value, 16)
    ensures fileName.None? || fileName.value == [] ==> OccursAt(r, "uploaded document", 16)
  {
    var name := if fileName.Some? && fileName.value != [] then fileName.value else "uploaded document";
    var r := "Summary of file " + name + ": This appears to be a non-text file which cannot be directly summarized.";
    assert r[16..16 + |name|] == name;
    r
  }

  /** The PDF branch, given the reader's pages or its exception text. */
  function PdfSummary(pages: Result<seq<Option<string>>, string>, generate: Model): Result<string, HttpError> {
    match pages
    case Failure(e) => Failure(HttpError(500, "Failed to summarize PDF: " + e))
    case Success(ps) => ExtractedSummary(PagesText(ps), NoPdfText, "Failed to summarize PDF: ", generate)
  }

  /** The image branch, given the OCR text or its exception text. */
  function ImageSummary(ocr: Result<string, string>, generate: Model): Result<string, HttpError> {
    match ocr
    case Failure(e) => Failure(HttpError(500, "Failed to summarize image: " + e))
    case Success(text) => ExtractedSummary(text, NoImageText, "Failed to summarize image: ", generate)
  }

  /** The text branch, given the decoded text or None when UTF-8 decoding failed. */
  function TextSummary(fileName: Option<string>, decoded: Option<string>, generate: Model): Result<string, HttpError> {
    match decoded
    case None => Success(Undecodable(fileName))
    case Some(text) => SummarizeText(text, generate)
  }

  /** `summarize_file`: empty content gives "" without reading anything; otherwise the branch
      taken is the one `FileSummarizerFactory.get_summarizer` selects for the same name. */
  method SummarizeFile(content: seq<bv8>, fileName: Option<string>, pages: Result<seq<Option<string>>, string>,
                       ocr: Result<string, string>, decoded: Option<string>, generate: Model)
    returns (r: Result<string, HttpError>)
    ensures content == [] ==> r == Success("")
    ensures content != [] && GetSummarizer(fileName) == PdfSummarizer ==> r == PdfSummary(pages, generate)
    ensures content != [] && GetSummarizer(fileName) == ImageSummarizer ==> r == ImageSummary(ocr, generate)
    ensures content != [] && GetSummarizer(fileName) == TextSummarizer ==> r == TextSummary(fileName, decoded, generate)
  {
    if content == [] {
      return Success("");
    }
    if fileName.Some? && fileName.value != [] && EndsWith(ToLower(fileName.value), ".pdf") {
      match pages {
        case Failure(e) =>
          r := Failure(HttpError(500, "Failed to summarize PDF: " + e));
        case Success(ps) =>
          var text := ExtractPdfText(ps);
          r := ExtractedSummary(text, NoPdfText, "Failed to summarize PDF: ", generate);
      }
    } else if fileName.Some? && fileName.value != []
              && EndsWithAny(ToLower(fileName.value), [".png", ".jpg", ".jpeg", ".bmp", ".tiff"]) {
      r := ImageSummary(ocr, generate);
    } else {
      r := TextSummary(fileName, decoded, generate);
    }
  }

  // ---------------------------------------------------------------- summarize_daily_interactions

  /** One interaction of the day; `relationCategory` is None when the record has no such field. */
  datatype DailyInteraction = DailyInteraction(relationName: string, relationCategory: Option<string>, content: string, date: string)

  /** How one interaction is written into the digest. */
  function Entry(x: DailyInteraction): (r: string)
    ensures OccursAt(r, x.relationName, 17)
    ensures OccursAt(r, x.content, |r| - 2 - |x.content|)
  {
    var r := "Interaction with " + x.relationName + " (" + x.relationCategory.GetOr("") + ") on " + x.date + ":\n" + x.content + "\n\n";
    assert r[17..17 + |x.relationName|] == x.relationName;
    assert r[|r| - 2 - |x.content|..|r| - 2] == x.content;
    r
  }

  /** The entries of the interactions, one each, in input order. */
  function Entries(xs: seq<DailyInteraction>): (r: seq<string>)
    ensures |r| == |xs|
    ensures forall k :: 0 <= k < |xs| ==> r[k] == Entry(xs[k])
  {
    if xs == [] then [] else Entries(xs[..|xs| - 1]) + [Entry(xs[|xs| - 1])]
  }

  /** The text handed to the model: the entries joined by newlines. */
  function DigestText(xs: seq<DailyInteraction>): string {
    Join("\n", Entries(xs))
  }

  function DailyPrompt(text: string): string {
    "\n        Please provide a concise daily summary of the following interactions. \n"
    + "        Group insights by relationship and highlight key points, action items, and follow-ups needed:\n        \n        "
    + text + "\n        "
  }

  /** Every interaction's entry appears in the digest, in input order. */
  lemma DigestInOrder(xs: seq<DailyInteraction>, k: nat)
    requires k < |xs|
    ensures OccursAt(DigestText(xs), Entry(xs[k]), JoinOffset("\n", Entries(xs), k))
    ensures k + 1 < |xs| ==> JoinOffset("\n", Entries(xs), k) < JoinOffset("\n", Entries(xs), k + 1)
  {
    JoinOccurs("\n", Entries(xs), k);
    if k + 1 < |xs| {
      JoinOffsetIncreases("\n", Entries(xs), k);
    }
  }

  /** `summarize_daily_interactions`: a fixed text for an empty day; otherwise the model's answer
      to the digest of all entries, or its exception, passed on unchanged. */
  method SummarizeDailyInteractions(interactions: seq<DailyInteraction>, generate: Model)
    returns (r: Result<string, string>)
    ensures interactions == [] ==> r == Success(NoInteractions)
    ensures interactions != [] ==> r == generate(DailyPrompt(DigestText(interactions)))
  {
    if interactions == [] {
      return Success(NoInteractions);
    }
    var formatted: seq<string> := [];
    for i := 0 to |interactions|
      invariant formatted == Entries(interactions[..i])
    {
      assert interactions[..i + 1][..i] == interactions[..i];
      formatted := formatted + [Entry(interactions[i])];
    }
    assert interactions[..|interactions|] == interactions;
    var text := Join("\n", formatted);
    r := generate(DailyPrompt(text));
  }
}
