/** `extract_pdf_text` and its copy `read_financial_document` (tools.py): the text of a PDF,
    page by page, with runs of three or more newlines squeezed, or a message when the file is
    missing, cannot be opened or has no text. Opening the PDF and reading a page's text is
    PyMuPDF's work: the model is handed what it would produce. */
module PdfText {
  import opened Strings

  /** What PyMuPDF makes of the file at a path: the text of each page in order, or the
      message of the exception `fitz.open` raises. */
  datatype PdfFile = Pdf(pages: seq<string>) | Unopenable(reason: string)

  const TripleNewline := "\n\n\n"
  const DoubleNewline := "\n\n"
  const NoTextMessage := "The PDF contained no extractable text."

  function NotFoundMessage(path: string): string {
    "Error: File not found at '" + path + "'."
  }

  function OpenErrorMessage(reason: string): string {
    "Error opening PDF: " + reason
  }

  /** `while "\n\n\n" in text: text = text.replace("\n\n\n", "\n\n")`. Each round shortens
      the text, so the loop stops, and it stops only once no three newlines are left. */
  function Collapse(t: string): (r: string)
    ensures !Contains(r, TripleNewline)
    ensures |r| <= |t|
    decreases |t|
  {
    if Contains(t, TripleNewline) then Collapse(ReplaceAll(t, TripleNewline, DoubleNewline)) else t
  }

  /** `s` with its newlines taken out. */
  function Visible(s: string): string
    decreases |s|
  {
    if s == [] then [] else (if s[0] == '\n' then [] else [s[0]]) + Visible(s[1..])
  }

  lemma {:induction false} VisibleAppend(a: string, b: string)
    ensures Visible(a + b) == Visible(a) + Visible(b)
    decreases |a|
  {
    if a == [] {
      assert a + b == b;
    } else {
      assert (a + b)[0] == a[0];
      assert (a + b)[1..] == a[1..] + b;
      VisibleAppend(a[1..], b);
    }
  }

  lemma {:induction false} ReplaceKeepsVisible(s: string)
    ensures Visible(ReplaceAll(s, TripleNewline, DoubleNewline)) == Visible(s)
    decreases |s|
  {
    if |s| < 3 {
    } else if s[..3] == TripleNewline {
      ReplaceKeepsVisible(s[3..]);
      VisibleAppend(DoubleNewline, ReplaceAll(s[3..], TripleNewline, DoubleNewline));
      VisibleAppend(TripleNewline, s[3..]);
      assert s == TripleNewline + s[3..];
    } else {
      ReplaceKeepsVisible(s[1..]);
      VisibleAppend([s[0]], ReplaceAll(s[1..], TripleNewline, DoubleNewline));
      VisibleAppend([s[0]], s[1..]);
      assert s == [s[0]] + s[1..];
    }
  }

  /** Squeezing newlines removes newlines and nothing else. */
  lemma {:induction false} CollapseKeepsVisible(t: string)
    ensures Visible(Collapse(t)) == Visible(t)
    decreases |t|
  {
    if Contains(t, TripleNewline) {
      ReplaceKeepsVisible(t);
      CollapseKeepsVisible(ReplaceAll(t, TripleNewline, DoubleNewline));
    }
  }

  /** Squeezing twice is squeezing once. */
  lemma CollapseIdempotent(t: string)
    ensures Collapse(Collapse(t)) == Collapse(t)
  {
  }

  /** `full_report` after the pages in `pages`: each squeezed page followed by a newline. */
  function Report(pages: seq<string>): string
    decreases |pages|
  {
    if pages == [] then [] else Report(pages[..|pages| - 1]) + Collapse(pages[|pages| - 1]) + "\n"
  }

  /** The string both functions return for the file at `path`. */
  function ExtractedText(path: string, files: map<string, PdfFile>): string {
    if path !in files then NotFoundMessage(path)
    else match files[path]
      case Unopenable(reason) => OpenErrorMessage(reason)
      case Pdf(pages) => var t := Strip(Report(pages)); if t != [] then t else NoTextMessage
  }

  /** What the extraction returns, case by case: no exception for a missing or unopenable
      file, and never the empty string; for a readable file the stripped page texts, or the
      no-text message. */
  lemma ExtractedTextCases(path: string, files: map<string, PdfFile>)
    ensures ExtractedText(path, files) != []
    ensures path !in files ==> ExtractedText(path, files) == NotFoundMessage(path)
    ensures path in files && files[path].Unopenable? ==>
              ExtractedText(path, files) == OpenErrorMessage(files[path].reason)
    ensures path in files && files[path].Pdf? ==>
              var full := Report(files[path].pages);
              ExtractedText(path, files) == if AllSpace(full) then NoTextMessage else Strip(full)
  {
  }

  /** The squeeze is per page: a page ending in two newlines followed by the separating
      newline puts three newlines back into the result. */
  lemma JoinedPagesCanHoldTripleNewline()
    ensures Contains(ExtractedText("doc.pdf", map["doc.pdf" := Pdf(["a\n\n", "b"])]), TripleNewline)
  {
    var pages := ["a\n\n", "b"];
    assert pages[..1] == ["a\n\n"];
    assert pages[..0] == [];
    assert !Contains("a\n\n", TripleNewline) by {
      ContainsNeedsRoom("\n\n", TripleNewline);
      assert "a\n\n"[1..] == "\n\n";
      assert "a\n\n"[..3][0] != TripleNewline[0];
    }
    ContainsNeedsRoom("b", TripleNewline);
    assert Report(pages) == "a\n\n\nb\n";
    assert Strip("a\n\n\nb\n") == "a\n\n\nb";
    assert StartsWith("\n\n\nb", TripleNewline);
    assert "a\n\n\nb"[1..] == "\n\n\nb";
  }

  /** extract_pdf_text, with the squeezing loop and the page loop of tools.py:37-47. */
  method ExtractPdfText(path: string, files: map<string, PdfFile>) returns (text: string)
    ensures text == ExtractedText(path, files)
  {
    if path !in files {
      return NotFoundMessage(path);
    }
    match files[path]
    case Unopenable(reason) =>
      return OpenErrorMessage(reason);
    case Pdf(pages) =>
      var fullReport := "";
      for i := 0 to |pages|
        invariant fullReport == Report(pages[..i])
      {
        var pageText := pages[i];
        while Contains(pageText, TripleNewline)
          invariant Collapse(pageText) == Collapse(pages[i])
          decreases |pageText|
        {
          pageText := ReplaceAll(pageText, TripleNewline, DoubleNewline);
        }
        assert pages[..i + 1][..i] == pages[..i];
        fullReport := fullReport + pageText + "\n";
      }
      assert pages[..|pages|] == pages;
      var stripped := Strip(fullReport);
      text := if stripped != [] then stripped else NoTextMessage;
  }

  /** read_financial_document: the same steps as extract_pdf_text, without the logging
      (tools.py:62-78). */
  method ReadFinancialDocument(path: string, files: map<string, PdfFile>) returns (text: string)
    ensures text == ExtractedText(path, files)
  {
    if path !in files {
      return NotFoundMessage(path);
    }
    match files[path]
    case Unopenable(reason) =>
      return OpenErrorMessage(reason);
    case Pdf(pages) =>
      var fullReport := "";
      for i := 0 to |pages|
        invariant fullReport == Report(pages[..i])
      {
        var pageText := pages[i];
        while Contains(pageText, TripleNewline)
          invariant Collapse(pageText) == Collapse(pages[i])
          decreases |pageText|
        {
          pageText := ReplaceAll(pageText, TripleNewline, DoubleNewline);
        }
        assert pages[..i + 1][..i] == pages[..i];
        fullReport := fullReport + pageText + "\n";
      }
      assert pages[..|pages|] == pages;
      var stripped := Strip(fullReport);
      text := if stripped != [] then stripped else NoTextMessage;
  }

  /** The tool and the orchestrator's extractor return the same string for every file. */
  method BothReadersAgree(path: string, files: map<string, PdfFile>) returns (viaTool: string, viaExtractor: string)
    ensures viaTool == viaExtractor
    ensures viaTool != []
  {
    viaTool := ReadFinancialDocument(path, files);
    viaExtractor := ExtractPdfText(path, files);
    ExtractedTextCases(path, files);
  }
}
