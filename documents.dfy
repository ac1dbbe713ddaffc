/** Reading an uploaded legal document: its type from the file name, the
    text extraction for each type, the list of types offered for upload and
    the preview shown after reading. PyPDF2 and python-docx are foreign
    code, so an upload carries what they would produce. */
module Documents {
  import opened Wrappers
  import Text
  import Utf8

  /** Which optional parsers imported successfully. */
  datatype Support = Support(pdf: bool, docx: bool)

  /** An uploaded file: its name and bytes, the page texts PyPDF2 extracts
      from it (`None` when parsing raises) and the paragraph texts
      python-docx reads from it (`None` when parsing raises). */
  datatype Upload = Upload(name: string, bytes: seq<Utf8.Byte>,
                           pages: Option<seq<string>>, paragraphs: Option<seq<string>>)

  /** The number of characters the preview shows. */
  const PreviewLength: nat := 1000

  /** `name.split(".")[-1].lower()`: the lower-cased text after the last
      dot, or the whole lower-cased name when it has no dot. */
  function FileType(name: string): (r: string)
    ensures Text.LastIndexOf(name, '.').Some? ==>
              r == Text.Lower(name[Text.LastIndexOf(name, '.').value + 1..])
    ensures Text.LastIndexOf(name, '.').None? ==> r == Text.Lower(name)
  {
    var pieces := Text.Split(name, '.');
    Text.SplitLastPiece(name, '.');
    Text.Lower(pieces[|pieces| - 1])
  }

  /** The types `display_document_content` reads with the parsers present. */
  predicate Handles(fileType: string, support: Support)
  {
    (fileType == "pdf" && support.pdf) || (fileType == "docx" && support.docx) || fileType == "txt"
  }

  /** What `display_document_content` returns: the pages' texts run
      together for a PDF, the paragraphs one per line for a Word file, the
      bytes read as UTF-8 for a text file, and `None` for any other type,
      for a type whose parser is missing and whenever parsing or decoding
      fails. */
  function ExtractText(file: Upload, fileType: string, support: Support): Option<string>
  {
    if fileType == "pdf" then
      if !support.pdf || file.pages.None? then None else Some(Text.Concat(file.pages.value))
    else if fileType == "docx" then
      if !support.docx || file.paragraphs.None? then None else Some(Text.Join(file.paragraphs.value, "\n"))
    else if fileType == "txt" then
      Utf8.Decode(file.bytes)
    else None
  }

  /** `display_document_content(doc_file, file_type)`; the PDF pages are
      appended one by one. */
  method DisplayDocumentContent(file: Upload, fileType: string, support: Support) returns (r: Option<string>)
    ensures r == ExtractText(file, fileType, support)
  {
    if fileType == "pdf" {
      if !support.pdf {
        return None;
      }
      match file.pages {
        case None =>
          return None;
        case Some(pages) =>
          var text := "";
          var page := 0;
          while page < |pages|
            invariant 0 <= page <= |pages|
            invariant text == Text.Concat(pages[..page])
          {
            assert pages[..page + 1][..page] == pages[..page];
            text := text + pages[page];
            page := page + 1;
          }
          assert pages[..page] == pages;
          return Some(text);
      }
    } else if fileType == "docx" {
      if !support.docx || file.paragraphs.None? {
        return None;
      }
      return Some(Text.Join(file.paragraphs.value, "\n"));
    } else if fileType == "txt" {
      return Utf8.Decode(file.bytes);
    }
    return None;
  }

  /** Text comes back only for a type the dispatcher reads with the parsers
      present; for a PDF or a Word file it comes back exactly when the parser
      is present and does not raise, and a text file reads as its UTF-8
      decoding, which fails on malformed bytes. */
  lemma {:induction false} ExtractDispatch(file: Upload, fileType: string, support: Support)
    ensures ExtractText(file, fileType, support).Some? ==> Handles(fileType, support)
    ensures fileType == "pdf" ==>
              (ExtractText(file, fileType, support).Some? <==> support.pdf && file.pages.Some?)
    ensures fileType == "docx" ==>
              (ExtractText(file, fileType, support).Some? <==> support.docx && file.paragraphs.Some?)
    ensures fileType == "txt" ==> ExtractText(file, fileType, support) == Utf8.Decode(file.bytes)
  {
  }

  /** A PDF's text is its page texts in order with nothing between them. */
  lemma {:induction false} PdfPagesInOrder(file: Upload, support: Support)
    requires support.pdf && file.pages.Some?
    ensures ExtractText(file, "pdf", support) == Some(Text.Join(file.pages.value, ""))
  {
    Text.ConcatIsJoin(file.pages.value);
  }

  /** Splitting a Word file's text at line breaks gives back its paragraphs,
      when there is at least one and none holds a line break. */
  lemma {:induction false} DocxParagraphLines(file: Upload, support: Support)
    requires support.docx && file.paragraphs.Some? && file.paragraphs.value != []
    requires forall i :: 0 <= i < |file.paragraphs.value| ==> '\n' !in file.paragraphs.value[i]
    ensures Text.Split(ExtractText(file, "docx", support).value, '\n') == file.paragraphs.value
  {
    Text.SplitJoin(file.paragraphs.value, '\n');
  }

  /** A text file holding the UTF-8 encoding of `s` reads back as `s`. */
  lemma {:induction false} TxtRoundTrip(name: string, s: string, support: Support)
    ensures ExtractText(Upload(name, Utf8.Encode(s), None, None), "txt", support) == Some(s)
  {
    Utf8.DecodeEncode(s);
  }

  /** The `type=` list of the uploader: `docx` and `pdf` when their parser
      is present, in that order, and always `txt` last. */
  function Accepted(support: Support): (r: seq<string>)
    ensures 1 <= |r| <= 3 && r[|r| - 1] == "txt"
    ensures forall t :: t in r <==> Handles(t, support)
    ensures forall i, j :: 0 <= i < j < |r| ==> r[i] != r[j]
    ensures "docx" in r && "pdf" in r ==> r == ["docx", "pdf", "txt"]
  {
    (if support.docx then ["docx"] else []) + (if support.pdf then ["pdf"] else []) + ["txt"]
  }

  /** The uploader's list, built by appending. */
  method SupportedTypes(support: Support) returns (types: seq<string>)
    ensures types == Accepted(support)
  {
    types := [];
    if support.docx {
      types := types + ["docx"];
    }
    if support.pdf {
      types := types + ["pdf"];
    }
    types := types + ["txt"];
  }

  /** `doc_content[:1000] + ("..." if len(doc_content) > 1000 else "")`. */
  function Preview(content: string): (r: string)
    ensures |content| <= PreviewLength ==> r == content
    ensures |content| > PreviewLength ==>
              |r| == PreviewLength + 3 && r[..PreviewLength] == content[..PreviewLength]
              && r[PreviewLength..] == "..."
  {
    if |content| > PreviewLength then content[..PreviewLength] + "..." else content
  }
}
