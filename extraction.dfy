/**
 * The modality extractors of the chatbot: what becomes of a speech-recognition
 * result (`transcribe_audio`) and of an uploaded document (`read_file_content`).
 * The recogniser, the UTF-8 decoder and the PDF reader are foreign libraries;
 * their outputs are inputs here.
 */
module Extraction {
  import opened Wrappers

  // ---------------------------------------------------------------- audio

  /** What the speech recogniser reports for one recording. */
  datatype RecognitionResult =
    | Recognized(text: string)   // the recogniser returned a transcription
    | Unknown                    // it raised UnknownValueError
    | RequestErr                 // it raised RequestError

  const CouldNotUnderstand: string := "Could not understand audio."
  const ApiUnavailable: string := "API unavailable or request error."

  /**
   * The string `transcribe_audio` returns: a transcription verbatim, and a
   * fixed, non-empty diagnostic for each of the two failures, so that a failed
   * recognition still produces text that the chat treats as a prompt.
   */
  function TranscriptionText(r: RecognitionResult): (s: string)
    ensures r.Recognized? ==> s == r.text
    ensures r.Unknown? ==> s == CouldNotUnderstand
    ensures r.RequestErr? ==> s == ApiUnavailable
    ensures !r.Recognized? ==> s != ""
  {
    match r
    case Recognized(t) => t
    case Unknown => CouldNotUnderstand
    case RequestErr => ApiUnavailable
  }

  /** The two failure diagnostics differ, so the text tells which failure occurred. */
  lemma DiagnosticsDistinct()
    ensures TranscriptionText(Unknown) != TranscriptionText(RequestErr)
  {
    assert TranscriptionText(Unknown)[0] == 'C' && TranscriptionText(RequestErr)[0] == 'A';
  }

  // ------------------------------------------------------------ documents

  const PlainText: string := "text/plain"
  const Pdf: string := "application/pdf"
  const UnsupportedFileFormat: string := "Unsupported file format."

  /**
   * An uploaded document: its declared MIME type, what decoding its bytes as
   * UTF-8 gives, and the text the PDF reader extracts from each page (`None`
   * where the reader finds no text on a page).
   */
  datatype Document = Document(mime: string, utf8Text: string, pdfPages: seq<Option<string>>)

  /** `"\n".join(parts)`: the parts separated by single newlines. */
  function JoinLines(parts: seq<string>): string
  {
    if |parts| == 0 then ""
    else if |parts| == 1 then parts[0]
    else parts[0] + "\n" + JoinLines(parts[1..])
  }

  /** `s.split(sep)`: the pieces of `s` between occurrences of `sep`; never empty. */
  function SplitOn(s: string, sep: char): (pieces: seq<string>)
    ensures |pieces| >= 1
  {
    if s == [] then [""]
    else if s[0] == sep then [""] + SplitOn(s[1..], sep)
    else
      var rest := SplitOn(s[1..], sep);
      [[s[0]] + rest[0]] + rest[1..]
  }

  /**
   * `page.extract_text() or "" for page in pages`, page by page: the text of
   * each page, a page without text counting as the empty string.
   */
  function PageTexts(pages: seq<Option<string>>): (texts: seq<string>)
    ensures |texts| == |pages|
    ensures forall i :: 0 <= i < |pages| ==> texts[i] == pages[i].GetOr("")
  {
    if |pages| == 0 then [] else [pages[0].GetOr("")] + PageTexts(pages[1..])
  }

  /**
   * `read_file_content`: plain text is returned as decoded, a PDF as its page
   * texts joined by newlines, and any other type as a fixed sentinel string.
   */
  function ReadFileContent(doc: Document): (content: string)
    ensures doc.mime == PlainText ==> content == doc.utf8Text
    ensures doc.mime == Pdf ==> content == JoinLines(PageTexts(doc.pdfPages))
    ensures doc.mime == Pdf && |doc.pdfPages| == 0 ==> content == ""
    ensures doc.mime != PlainText && doc.mime != Pdf ==> content == UnsupportedFileFormat
  {
    if doc.mime == PlainText then doc.utf8Text
    else if doc.mime == Pdf then JoinLines(PageTexts(doc.pdfPages))
    else UnsupportedFileFormat
  }

  /** Splitting at the first separator of a string whose head holds none. */
  lemma {:induction false} SplitAfterHead(head: string, sep: char, tail: string)
    requires sep !in head
    ensures SplitOn(head + [sep] + tail, sep) == [head] + SplitOn(tail, sep)
  {
    if head == [] {
      assert head + [sep] + tail == [sep] + tail;
    } else {
      var s := head + [sep] + tail;
      assert s[0] == head[0] != sep;
      assert s[1..] == head[1..] + [sep] + tail;
      SplitAfterHead(head[1..], sep, tail);
      assert [head[0]] + head[1..] == head;
    }
  }

  /** A string without the separator splits into itself alone. */
  lemma {:induction false} SplitWithoutSeparator(s: string, sep: char)
    requires sep !in s
    ensures SplitOn(s, sep) == [s]
  {
    if s != [] {
      SplitWithoutSeparator(s[1..], sep);
      assert [s[0]] + s[1..] == s;
    }
  }

  /**
   * The newline join is undone by splitting on newlines when no part holds a
   * newline of its own: the join loses no page boundary and no page text.
   */
  lemma {:induction false} SplitJoinLines(parts: seq<string>)
    requires |parts| >= 1
    requires forall i :: 0 <= i < |parts| ==> '\n' !in parts[i]
    ensures SplitOn(JoinLines(parts), '\n') == parts
  {
    if |parts| == 1 {
      SplitWithoutSeparator(parts[0], '\n');
    } else {
      SplitJoinLines(parts[1..]);
      SplitAfterHead(parts[0], '\n', JoinLines(parts[1..]));
      assert parts == [parts[0]] + parts[1..];
    }
  }

  /** The length of a join: every part plus one newline between neighbours. */
  function TotalLength(parts: seq<string>): nat
  {
    if |parts| == 0 then 0 else |parts[0]| + TotalLength(parts[1..])
  }

  lemma {:induction false} JoinLinesLength(parts: seq<string>)
    requires |parts| >= 1
    ensures |JoinLines(parts)| == TotalLength(parts) + |parts| - 1
  {
    if |parts| > 1 {
      JoinLinesLength(parts[1..]);
    }
  }

  /**
   * The PDF branch of `read_file_content` keeps every page: for a PDF with at
   * least one page (zero pages give "", which splits into one piece) and no
   * newline in any page text, splitting the content on newlines gives back one piece
   * per page, in page order, a page without text giving "".
   */
  lemma PdfContentRecoversPages(doc: Document)
    requires doc.mime == Pdf && |doc.pdfPages| >= 1
    requires forall i :: 0 <= i < |doc.pdfPages| ==> '\n' !in doc.pdfPages[i].GetOr("")
    ensures |SplitOn(ReadFileContent(doc), '\n')| == |doc.pdfPages|
    ensures forall i :: 0 <= i < |doc.pdfPages| ==>
              SplitOn(ReadFileContent(doc), '\n')[i] == doc.pdfPages[i].GetOr("")
  {
    SplitJoinLines(PageTexts(doc.pdfPages));
  }
}
