/**
 * Text extraction by file extension (utils/document_parser.py). The format
 * readers are abstract: each gives the pieces its library would return
 * (PDF page texts, DOCX paragraphs, PPTX shapes per slide) or an error, and
 * the model keeps the joining the repository does over those pieces.
 */
module DocumentParser {
  import opened Wrappers
  import opened Text
  import opened OsPath

  datatype Format = Pdf | Docx | Pptx | Csv | Txt

  const SupportedExtensions: set<string> := {".pdf", ".docx", ".pptx", ".csv", ".txt", ".md"}

  /** The lower-cased extension that selects the parser. */
  function Extension(path: string): string
  {
    Lower(Splitext(path).1)
  }

  /**
   * The parser `parse_document` calls for `path`, or the text of the ValueError
   * it raises: `.pdf`, `.docx`, `.pptx` and `.csv` each select their own reader,
   * and `.txt` and `.md` both select the plain-text reader.
   */
  function ChooseParser(path: string): (r: Result<Format, string>)
    ensures r.Success? <==> Extension(path) in SupportedExtensions
    ensures r == Success(Pdf) <==> Extension(path) == ".pdf"
    ensures r == Success(Docx) <==> Extension(path) == ".docx"
    ensures r == Success(Pptx) <==> Extension(path) == ".pptx"
    ensures r == Success(Csv) <==> Extension(path) == ".csv"
    ensures r == Success(Txt) <==> Extension(path) == ".txt" || Extension(path) == ".md"
    ensures r.Failure? ==> r.error == "Unsupported file format: " + Extension(path)
  {
    ParserFor(Extension(path))
  }

  /** The if/elif chain of `parse_document` over a lower-cased extension. */
  function ParserFor(ext: string): Result<Format, string>
  {
    if ext == ".pdf" then Success(Pdf)
    else if ext == ".docx" then Success(Docx)
    else if ext == ".pptx" then Success(Pptx)
    else if ext == ".csv" then Success(Csv)
    else if ext == ".txt" || ext == ".md" then Success(Txt)
    else Failure("Unsupported file format: " + ext)
  }

  lemma LowerCharKeepsPunctuation(c: char)
    ensures LowerChar(c) == '.' <==> c == '.'
    ensures LowerChar(c) == '/' <==> c == '/'
  {
  }

  /**
   * The choice ignores letter case: two paths that agree once lower-cased
   * (such as `a.PDF` and `a.pdf`) select the same parser or the same error.
   */
  lemma CaseInsensitiveDispatch(p: string, q: string)
    requires Lower(p) == Lower(q)
    ensures ChooseParser(p) == ChooseParser(q)
  {
    ExtensionIgnoresCase(p, q);
  }

  /** Paths that agree once lower-cased have the same lower-cased extension. */
  lemma ExtensionIgnoresCase(p: string, q: string)
    requires Lower(p) == Lower(q)
    ensures Extension(p) == Extension(q)
  {
    assert |p| == |q|;
    forall i | 0 <= i < |p|
      ensures (p[i] == '.' <==> q[i] == '.') && (p[i] == '/' <==> q[i] == '/')
    {
      assert Lower(p)[i] == Lower(q)[i];
      LowerCharKeepsPunctuation(p[i]);
      LowerCharKeepsPunctuation(q[i]);
    }
    ExtStartSameShape(p, q);
    var k := ExtStart(p);
    assert Lower(p[k..]) == Lower(q[k..]) by {
      forall i | 0 <= i < |p| - k ensures Lower(p[k..])[i] == Lower(q[k..])[i] {
        assert Lower(p)[k + i] == Lower(q)[k + i];
      }
    }
  }

  /** A path without an extension (`README`, `.bashrc`) is rejected with an empty extension in the message. */
  lemma NoExtensionRejected(p: string)
    requires !HasExtension(p)
    ensures ChooseParser(p) == Failure("Unsupported file format: ")
  {
    SplitextSpec(p);
    assert Splitext(p).1 == "";
    assert Extension(p) == "";
    assert "Unsupported file format: " + "" == "Unsupported file format: ";
  }

  /** `page.extract_text() or ""`. */
  function PageText(page: Option<string>): string
  {
    if page.Some? then page.value else ""
  }

  /** The text of a PDF: the page texts in page order, with nothing between them. */
  function PdfText(pages: seq<Option<string>>): string
  {
    if pages == [] then "" else PdfText(pages[..|pages| - 1]) + PageText(pages[|pages| - 1])
  }

  /** `parse_pdf` over the reader's pages: `text += page.extract_text() or ""` for each page. */
  method ParsePdf(pages: seq<Option<string>>) returns (text: string)
    ensures text == PdfText(pages)
  {
    text := "";
    for i := 0 to |pages|
      invariant text == PdfText(pages[..i])
    {
      assert pages[..i + 1][..i] == pages[..i];
      text := text + PageText(pages[i]);
    }
    assert pages[..|pages|] == pages;
  }

  function PageTexts(pages: seq<Option<string>>): (r: seq<string>)
    ensures |r| == |pages|
    ensures forall i :: 0 <= i < |pages| ==> r[i] == PageText(pages[i])
  {
    seq(|pages|, i requires 0 <= i < |pages| => PageText(pages[i]))
  }

  /** The PDF text is the page texts joined with the empty separator. */
  lemma {:induction false} PdfTextIsJoin(pages: seq<Option<string>>)
    ensures PdfText(pages) == Join("", PageTexts(pages))
  {
    if |pages| > 1 {
      var init := pages[..|pages| - 1];
      PdfTextIsJoin(init);
      assert PageTexts(pages) == PageTexts(init) + [PageText(pages[|pages| - 1])];
      JoinSnoc("", PageTexts(init), PageText(pages[|pages| - 1]));
    } else if |pages| == 1 {
      assert pages[..0] == [];
    }
  }

  /** Pages add up: the text of two runs of pages is the text of the first followed by the text of the second. */
  lemma {:induction false} PdfTextAppend(a: seq<Option<string>>, b: seq<Option<string>>)
    ensures PdfText(a + b) == PdfText(a) + PdfText(b)
  {
    if b == [] {
      assert a + b == a;
    } else {
      assert (a + b)[..|a + b| - 1] == a + b[..|b| - 1];
      PdfTextAppend(a, b[..|b| - 1]);
    }
  }

  /** `parse_docx`: the paragraph texts joined by newlines. */
  function DocxText(paragraphs: seq<string>): string
  {
    Join("\n", paragraphs)
  }

  /**
   * The DOCX text holds every paragraph unchanged, in document order, with
   * exactly one newline between neighbours and no other characters.
   */
  lemma DocxParagraphs(paragraphs: seq<string>, i: nat)
    requires i < |paragraphs|
    ensures |DocxText(paragraphs)| == TotalLength(paragraphs) + |paragraphs| - 1
    ensures JoinOffset("\n", paragraphs, i) + |paragraphs[i]| <= |DocxText(paragraphs)|
    ensures DocxText(paragraphs)[JoinOffset("\n", paragraphs, i)..JoinOffset("\n", paragraphs, i) + |paragraphs[i]|]
            == paragraphs[i]
    ensures i + 1 < |paragraphs| ==>
              && JoinOffset("\n", paragraphs, i + 1) == JoinOffset("\n", paragraphs, i) + |paragraphs[i]| + 1
              && JoinOffset("\n", paragraphs, i + 1) <= |DocxText(paragraphs)|
              && DocxText(paragraphs)[JoinOffset("\n", paragraphs, i) + |paragraphs[i]|] == '\n'
  {
    JoinLength("\n", paragraphs);
    JoinItemAt("\n", paragraphs, i);
    if i + 1 < |paragraphs| {
      JoinSeparatorAt("\n", paragraphs, i);
      var k := JoinOffset("\n", paragraphs, i) + |paragraphs[i]|;
      assert DocxText(paragraphs)[k..k + 1] == "\n";
    }
  }

  /** A shape of a slide; `text` is None when the shape has no `text` attribute. */
  datatype Shape = Shape(text: Option<string>)

  /** The texts of the text-bearing shapes of one slide, in shape order. */
  function SlideTexts(shapes: seq<Shape>): seq<string>
  {
    if shapes == [] then []
    else
      var last := shapes[|shapes| - 1];
      SlideTexts(shapes[..|shapes| - 1]) + (if last.text.Some? then [last.text.value] else [])
  }

  /** The texts of the text-bearing shapes of all slides, slide by slide. */
  function ShapeTexts(slides: seq<seq<Shape>>): seq<string>
  {
    if slides == [] then [] else ShapeTexts(slides[..|slides| - 1]) + SlideTexts(slides[|slides| - 1])
  }

  /** The nested loops of `parse_pptx` that collect shape texts. */
  method CollectShapeTexts(slides: seq<seq<Shape>>) returns (texts: seq<string>)
    ensures texts == ShapeTexts(slides)
  {
    texts := [];
    for s := 0 to |slides|
      invariant texts == ShapeTexts(slides[..s])
    {
      var shapes := slides[s];
      ghost var before := texts;
      for j := 0 to |shapes|
        invariant texts == before + SlideTexts(shapes[..j])
      {
        assert shapes[..j + 1][..j] == shapes[..j];
        if shapes[j].text.Some? {
          texts := texts + [shapes[j].text.value];
        }
      }
      assert shapes[..|shapes|] == shapes;
      assert slides[..s + 1][..s] == slides[..s];
    }
    assert slides[..|slides|] == slides;
  }

  /** `parse_pptx`: the collected shape texts joined by newlines. */
  method ParsePptx(slides: seq<seq<Shape>>) returns (text: string)
    ensures text == Join("\n", ShapeTexts(slides))
  {
    var texts := CollectShapeTexts(slides);
    text := Join("\n", texts);
  }

  /** A text is collected from a slide exactly when some shape of it carries that text. */
  lemma {:induction false} SlideTextsMembers(shapes: seq<Shape>, t: string)
    ensures t in SlideTexts(shapes) <==> exists j :: 0 <= j < |shapes| && shapes[j].text == Some(t)
  {
    if shapes != [] {
      var init := shapes[..|shapes| - 1];
      SlideTextsMembers(init, t);
      if exists j :: 0 <= j < |init| && init[j].text == Some(t) {
        var j :| 0 <= j < |init| && init[j].text == Some(t);
        assert shapes[j] == init[j];
      }
      if exists j :: 0 <= j < |shapes| && shapes[j].text == Some(t) {
        var j :| 0 <= j < |shapes| && shapes[j].text == Some(t);
        if j < |init| {
          assert init[j] == shapes[j];
        }
      }
    }
  }

  /** Slides add up: the texts of two runs of slides are those of the first followed by those of the second. */
  lemma {:induction false} ShapeTextsAppend(a: seq<seq<Shape>>, b: seq<seq<Shape>>)
    ensures ShapeTexts(a + b) == ShapeTexts(a) + ShapeTexts(b)
  {
    if b == [] {
      assert a + b == a;
    } else {
      assert (a + b)[..|a + b| - 1] == a + b[..|b| - 1];
      ShapeTextsAppend(a, b[..|b| - 1]);
    }
  }

  /** What the format readers return for a path; a reader that raises gives Failure with the error text. */
  datatype Readers = Readers(
    pdfPages: string -> Result<seq<Option<string>>, string>,
    docxParagraphs: string -> Result<seq<string>, string>,
    pptxSlides: string -> Result<seq<seq<Shape>>, string>,
    csvTable: string -> Result<string, string>,
    textFile: string -> Result<string, string>)

  /** The text `parse_document` returns for a path, or the error it raises. */
  function DocumentText(path: string, rd: Readers): Result<string, string>
  {
    match ChooseParser(path)
    case Failure(e) => Failure(e)
    case Success(Pdf) =>
      (match rd.pdfPages(path) case Success(pages) => Success(PdfText(pages)) case Failure(e) => Failure(e))
    case Success(Docx) =>
      (match rd.docxParagraphs(path) case Success(ps) => Success(DocxText(ps)) case Failure(e) => Failure(e))
    case Success(Pptx) =>
      (match rd.pptxSlides(path) case Success(ss) => Success(Join("\n", ShapeTexts(ss))) case Failure(e) => Failure(e))
    case Success(Csv) => rd.csvTable(path)
    case Success(Txt) => rd.textFile(path)
  }

  /**
   * Which reader `parse_document` runs for each extension, and what it makes
   * of that reader's output: a reader's error is raised unchanged, PDF pages
   * are concatenated, DOCX paragraphs and PPTX shape texts are joined with
   * newlines, and CSV and plain-text results are returned as read.
   */
  lemma DocumentTextByExtension(path: string, rd: Readers)
    ensures var ext, r := Extension(path), DocumentText(path, rd);
      && (ext == ".pdf" ==>
            r == (if rd.pdfPages(path).Success? then Success(PdfText(rd.pdfPages(path).value))
                  else Failure(rd.pdfPages(path).error)))
      && (ext == ".docx" ==>
            r == (if rd.docxParagraphs(path).Success? then Success(DocxText(rd.docxParagraphs(path).value))
                  else Failure(rd.docxParagraphs(path).error)))
      && (ext == ".pptx" ==>
            r == (if rd.pptxSlides(path).Success? then Success(Join("\n", ShapeTexts(rd.pptxSlides(path).value)))
                  else Failure(rd.pptxSlides(path).error)))
      && (ext == ".csv" ==> r == rd.csvTable(path))
      && (ext == ".txt" || ext == ".md" ==> r == rd.textFile(path))
      && (ext !in SupportedExtensions ==> r == Failure("Unsupported file format: " + ext))
  {
  }

  /** `parse_document`: dispatch on the extension and run the chosen parser. */
  method ParseDocument(path: string, rd: Readers) returns (r: Result<string, string>)
    ensures r == DocumentText(path, rd)
    ensures Extension(path) !in SupportedExtensions ==> r == Failure("Unsupported file format: " + Extension(path))
  {
    var format := ChooseParser(path);
    match format {
      case Failure(e) => r := Failure(e);
      case Success(Pdf) =>
        var pages := rd.pdfPages(path);
        if pages.Success? {
          var text := ParsePdf(pages.value);
          r := Success(text);
        } else {
          r := Failure(pages.error);
        }
      case Success(Docx) =>
        var ps := rd.docxParagraphs(path);
        r := if ps.Success? then Success(DocxText(ps.value)) else Failure(ps.error);
      case Success(Pptx) =>
        var slides := rd.pptxSlides(path);
        if slides.Success? {
          var text := ParsePptx(slides.value);
          r := Success(text);
        } else {
          r := Failure(slides.error);
        }
      case Success(Csv) => r := rd.csvTable(path);
      case Success(Txt) => r := rd.textFile(path);
    }
  }
}
