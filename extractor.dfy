/** The text extractor (`read_all_text_from_file`): dispatch on the file extension and
    the rules that join what the document libraries return. The libraries themselves
    are not modelled: a file is given by what each of them yields on it. */
module Extractor {
  import opened Wrappers
  import Strings

  /** What reading one file yields: as UTF-8 text, as the paragraph texts of a
      word-processor document, and as the per-page texts of a PDF (`None` for a page
      without extractable text). Each is `Err` when that library raises on the file. */
  datatype FileData = FileData(
    asText: Result<string>,
    asDocx: Result<seq<string>>,
    asPdf: Result<seq<Option<string>>>)

  /** The files on disk, by path. */
  type FileSystem = map<string, FileData>

  const FileNotFound := "[Errno 2] No such file or directory"

  /** Opening `path`: its contents, or the error `open` raises for a missing file. */
  function Open(fs: FileSystem, path: string): (r: Result<FileData>)
    ensures r.Ok? <==> path in fs
  {
    if path in fs then Ok(fs[path]) else Err(FileNotFound)
  }

  /** The paragraphs of a document, joined with newlines (`'\n'.join(...)`). */
  function DocxText(paragraphs: seq<string>): string
  {
    Strings.Join("\n", paragraphs)
  }

  /** The text of a PDF: the page texts in page order, a `None` page counting as "". */
  function PdfText(pages: seq<Option<string>>): string
  {
    if |pages| == 0 then "" else PdfText(pages[..|pages| - 1]) + pages[|pages| - 1].GetOr("")
  }

  /** The extension actually dispatched on: the given one, or, when it is absent or
      empty, the lower-cased extension of the path. */
  function EffectiveExtension(path: string, extension: Option<string>): string
  {
    if extension.None? || extension.value == "" then Strings.Lower(Strings.Extension(path))
    else extension.value
  }

  /** What extraction yields for `path` read as a file of type `extension`. */
  function Extracted(fs: FileSystem, path: string, extension: string): Result<string>
  {
    if extension == ".txt" || extension == ".text" then
      match Open(fs, path)
      case Err(e) => Err(e)
      case Ok(file) => file.asText
    else if extension == ".docx" then
      match Open(fs, path)
      case Err(e) => Err(e)
      case Ok(file) =>
        match file.asDocx
        case Err(e) => Err(e)
        case Ok(paragraphs) => Ok(DocxText(paragraphs))
    else if extension == ".pdf" then
      match Open(fs, path)
      case Err(e) => Err(e)
      case Ok(file) =>
        match file.asPdf
        case Err(e) => Err(e)
        case Ok(pages) => Ok(PdfText(pages))
    else Ok("")
  }

  predicate IsExtractable(extension: string)
  {
    extension in [".txt", ".text", ".docx", ".pdf"]
  }

  /** `read_all_text_from_file(path, extension)`; a raised exception is `Err`. */
  method ReadAllTextFromFile(fs: FileSystem, path: string, extension: Option<string>)
    returns (r: Result<string>)
    ensures r == Extracted(fs, path, EffectiveExtension(path, extension))
  {
    var ext := EffectiveExtension(path, extension);
    r := Ok("");
    if ext == ".txt" || ext == ".text" {
      var file := Open(fs, path);
      if file.Err? {
        return Err(file.error);
      }
      r := file.value.asText;
    } else if ext == ".docx" {
      var file := Open(fs, path);
      if file.Err? {
        return Err(file.error);
      }
      var document := file.value.asDocx;
      if document.Err? {
        return Err(document.error);
      }
      r := Ok(DocxText(document.value));
    } else if ext == ".pdf" {
      var file := Open(fs, path);
      if file.Err? {
        return Err(file.error);
      }
      var reader := file.value.asPdf;
      if reader.Err? {
        return Err(reader.error);
      }
      var text := ConcatenatePages(reader.value);
      r := Ok(text);
    }
  }

  /** The page loop of the PDF branch: `result += page.extract_text() or ''`. */
  method ConcatenatePages(pages: seq<Option<string>>) returns (result: string)
    ensures result == PdfText(pages)
  {
    result := "";
    var i := 0;
    while i < |pages|
      invariant 0 <= i <= |pages|
      invariant result == PdfText(pages[..i])
    {
      assert pages[..i + 1][..i] == pages[..i];
      result := result + pages[i].GetOr("");
      i := i + 1;
    }
    assert pages[..|pages|] == pages;
  }

  /** The PDF text of a document split into two runs of pages is the text of the
      first run followed by the text of the second. */
  lemma {:induction false} PdfTextAppend(a: seq<Option<string>>, b: seq<Option<string>>)
    ensures PdfText(a + b) == PdfText(a) + PdfText(b)
  {
    if |b| == 0 {
      assert a + b == a;
    } else {
      var b' := b[..|b| - 1];
      assert (a + b)[..|a + b| - 1] == a + b';
      PdfTextAppend(a, b');
    }
  }

  /** A PDF none of whose pages has extractable text extracts to "" rather than failing. */
  lemma {:induction false} PdfTextOfBlankPages(pages: seq<Option<string>>)
    requires forall i :: 0 <= i < |pages| ==> pages[i].GetOr("") == ""
    ensures PdfText(pages) == ""
  {
    if |pages| > 0 {
      PdfTextOfBlankPages(pages[..|pages| - 1]);
    }
  }

  /** The paragraphs of a document whose paragraphs hold no line break can be read
      back from its extracted text. */
  lemma DocxParagraphsRecoverable(paragraphs: seq<string>)
    requires |paragraphs| >= 1
    requires forall i :: 0 <= i < |paragraphs| ==> '\n' !in paragraphs[i]
    ensures Strings.Split(DocxText(paragraphs), '\n') == paragraphs
  {
    Strings.SplitJoin(paragraphs, '\n');
  }

  /** A file of an extension that is not handled is never opened: the result is ""
      whatever is on disk, even when the file is missing. */
  lemma UnknownExtensionIgnoresFile(fs: FileSystem, fs': FileSystem, path: string, extension: string)
    requires !IsExtractable(extension)
    ensures Extracted(fs, path, extension) == Extracted(fs', path, extension) == Ok("")
  {
  }
}
