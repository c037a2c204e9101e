/**
 * The pure parts of the resume endpoint's POST handler: choosing the page
 * list of the parsed PDF, decoding each text run with a fallback to the raw
 * text, and joining runs with a space and pages with a blank line. The PDF
 * parser and the percent-decoding (`decodeURIComponent`, section 2.1 of
 * RFC 3986) are parameters.
 */
module ParseResume {
  import opened Wrappers

  /** A styled run of a text item; `T` holds the percent-encoded text. */
  datatype TextRun = TextRun(T: string)
  /** A positioned text item of a page; only its first run is read. */
  datatype TextItem = TextItem(R: seq<TextRun>)
  datatype Page = Page(Texts: Option<seq<TextItem>>)
  /** The older nesting of the parser's output, where the pages sit under `formImage`. */
  datatype FormImage = FormImage(Pages: Option<seq<Page>>)
  datatype PdfData = PdfData(Pages: Option<seq<Page>>, formImage: Option<FormImage>)

  /**
   * The `file` field of the multipart form: the body is not a form, the field
   * is missing, it is a plain text field, or it is an uploaded file.
   */
  datatype Upload = UnreadableForm | NoFile | TextField(value: string) | File(bytes: seq<bv8>)

  datatype ParseResponse = Text(text: string) | Failure(error: string, status: int)

  const NoFileError := "No file provided"
  const ParseFailure := "Failed to parse PDF"
  /** Rejection reasons of the extraction step; they are logged, not returned to the client. */
  const NoPagesReason := "No text found in PDF"
  const ExtractionReason := "Extraction failed"
  const RunSeparator := " "
  const PageSeparator := "\n\n"

  /**
   * `pdfData.Pages || pdfData.formImage?.Pages`. A present list, even an
   * empty one, is truthy and wins; only a missing `Pages` falls back.
   */
  function SelectPages(d: PdfData): (pages: Option<seq<Page>>)
    ensures d.Pages.Some? ==> pages == d.Pages
    ensures d.Pages.None? && d.formImage.Some? ==> pages == d.formImage.value.Pages
    ensures pages.None? <==> d.Pages.None? && (d.formImage.None? || d.formImage.value.Pages.None?)
  {
    if d.Pages.Some? then d.Pages
    else if d.formImage.Some? then d.formImage.value.Pages
    else None
  }

  /**
   * The text of one item: the percent-decoding of `R[0].T`, or `R[0].T`
   * itself when decoding fails. An item without runs makes reading `R[0].T`
   * throw again inside the fallback, which fails the whole extraction (`None`).
   */
  function RunText(item: TextItem, decode: string -> Option<string>): (t: Option<string>)
    ensures t.Some? <==> |item.R| > 0
    ensures |item.R| > 0 && decode(item.R[0].T).Some? ==> t == decode(item.R[0].T)
    ensures |item.R| > 0 && decode(item.R[0].T).None? ==> t == Some(item.R[0].T)
  {
    if |item.R| == 0 then None
    else
      match decode(item.R[0].T)
      case Some(decoded) => Some(decoded)
      case None => Some(item.R[0].T)
  }

  /**
   * `xs.map(f)` where `f` may throw (`None`): the results in order, or `None`
   * as soon as one element fails.
   */
  function MapAll<A, B>(xs: seq<A>, f: A -> Option<B>): (r: Option<seq<B>>)
    ensures r.Some? <==> forall i :: 0 <= i < |xs| ==> f(xs[i]).Some?
    ensures r.Some? ==> |r.value| == |xs| && forall i :: 0 <= i < |xs| ==> f(xs[i]) == Some(r.value[i])
  {
    if xs == [] then Some([])
    else
      match (f(xs[0]), MapAll(xs[1..], f))
      case (Some(y), Some(ys)) =>
        assert forall i :: 1 <= i < |xs| ==> xs[i] == xs[1..][i - 1];
        Some([y] + ys)
      case (None, _) => None
      case (_, None) =>
        assert forall i :: 0 <= i < |xs| - 1 ==> xs[1..][i] == xs[i + 1];
        None
  }

  /**
   * `parts.join(sep)`: no parts give the empty text and the text starts with
   * the first part; `JoinLength`, `JoinPartAt` and `JoinSeparatorAt` place
   * every part and every separator.
   */
  function Join(parts: seq<string>, sep: string): (r: string)
    ensures |parts| == 0 ==> r == ""
    ensures |parts| > 0 ==> parts[0] <= r
  {
    if |parts| == 0 then ""
    else if |parts| == 1 then parts[0]
    else parts[0] + sep + Join(parts[1..], sep)
  }

  /** Where the `i`-th part starts in `Join(parts, sep)`: the earlier parts and one separator after each. */
  function Offset(parts: seq<string>, sep: string, i: nat): nat
    requires i <= |parts|
  {
    if i == 0 then 0 else |parts[0]| + |sep| + Offset(parts[1..], sep, i - 1)
  }

  /** Slicing the right operand out of a concatenation. */
  lemma SliceOfRight(x: string, y: string, a: nat, b: nat)
    requires a <= b <= |y|
    ensures (x + y)[|x| + a..|x| + b] == y[a..b]
  {
  }

  /** The joined text is as long as the parts plus one separator between each pair. */
  lemma {:induction false} JoinLength(parts: seq<string>, sep: string)
    requires |parts| > 0
    ensures |Join(parts, sep)| == Offset(parts, sep, |parts| - 1) + |parts[|parts| - 1]|
  {
    if |parts| > 1 {
      var rest := parts[1..];
      JoinLength(rest, sep);
      assert Join(parts, sep) == parts[0] + sep + Join(rest, sep);
      assert Offset(parts, sep, |parts| - 1) == |parts[0]| + |sep| + Offset(rest, sep, |rest| - 1);
      assert parts[|parts| - 1] == rest[|rest| - 1];
    }
  }

  /** Every part appears, unchanged, at its offset in the joined text. */
  lemma {:induction false} JoinPartAt(parts: seq<string>, sep: string, i: nat)
    requires i < |parts|
    ensures Offset(parts, sep, i) + |parts[i]| <= |Join(parts, sep)|
    ensures Join(parts, sep)[Offset(parts, sep, i)..Offset(parts, sep, i) + |parts[i]|] == parts[i]
  {
    if i == 0 {
      if |parts| > 1 {
        assert Join(parts, sep) == parts[0] + (sep + Join(parts[1..], sep));
      }
    } else {
      var rest := parts[1..];
      JoinPartAt(rest, sep, i - 1);
      var head := parts[0] + sep;
      var o := Offset(rest, sep, i - 1);
      assert Join(parts, sep) == head + Join(rest, sep);
      assert Offset(parts, sep, i) == |head| + o;
      assert parts[i] == rest[i - 1];
      SliceOfRight(head, Join(rest, sep), o, o + |rest[i - 1]|);
    }
  }

  /** Each part moves the next offset on by its own length and one separator. */
  lemma {:induction false} OffsetStep(parts: seq<string>, sep: string, i: nat)
    requires i < |parts|
    ensures Offset(parts, sep, i + 1) == Offset(parts, sep, i) + |parts[i]| + |sep|
  {
    if i > 0 {
      OffsetStep(parts[1..], sep, i - 1);
    }
  }

  /** Between two consecutive parts lies exactly one separator. */
  lemma {:induction false} JoinSeparatorAt(parts: seq<string>, sep: string, i: nat)
    requires i + 1 < |parts|
    ensures Offset(parts, sep, i + 1) == Offset(parts, sep, i) + |parts[i]| + |sep|
    ensures Offset(parts, sep, i + 1) <= |Join(parts, sep)|
    ensures Join(parts, sep)[Offset(parts, sep, i) + |parts[i]|..Offset(parts, sep, i + 1)] == sep
  {
    OffsetStep(parts, sep, i);
    var rest := parts[1..];
    var head := parts[0] + sep;
    assert Join(parts, sep) == head + Join(rest, sep);
    if i == 0 {
      assert Join(parts, sep)[|parts[0]|..|head|] == sep;
    } else {
      JoinSeparatorAt(rest, sep, i - 1);
      var a := Offset(rest, sep, i - 1) + |rest[i - 1]|;
      SliceOfRight(head, Join(rest, sep), a, Offset(rest, sep, i));
    }
  }

  /** The text of a page: its runs' texts joined by a single space, or `None` if reading it throws. */
  function PageText(page: Page, decode: string -> Option<string>): (t: Option<string>)
    ensures t.Some? <==> page.Texts.Some? && MapAll(page.Texts.value, item => RunText(item, decode)).Some?
  {
    match page.Texts
    case None => None
    case Some(items) =>
      match MapAll(items, item => RunText(item, decode))
      case None => None
      case Some(runs) => Some(Join(runs, RunSeparator))
  }

  /**
   * The handler of the parser's data-ready event: the flattened text, or the
   * reason it rejects with.
   */
  function Extract(d: PdfData, decode: string -> Option<string>): (r: Result<string, string>)
    ensures SelectPages(d).None? ==> r == Err(NoPagesReason)
    ensures SelectPages(d).Some? && r.Err? ==> r.error == ExtractionReason
    ensures r.Ok? <==>
      SelectPages(d).Some? && MapAll(SelectPages(d).value, page => PageText(page, decode)).Some?
    ensures r.Ok? ==>
      r.value == Join(MapAll(SelectPages(d).value, page => PageText(page, decode)).value, PageSeparator)
  {
    match SelectPages(d)
    case None => Err(NoPagesReason)
    case Some(pages) =>
      match MapAll(pages, page => PageText(page, decode))
      case None => Err(ExtractionReason)
      case Some(texts) => Ok(Join(texts, PageSeparator))
  }

  /**
   * The POST handler. `parse` is the PDF parser (`None` for its data-error
   * event). A missing file or an empty text field is a 400; every other
   * failure, including both extraction rejections, is caught and becomes the
   * same 500.
   */
  function Post(upload: Upload, parse: seq<bv8> -> Option<PdfData>,
                decode: string -> Option<string>): (r: ParseResponse)
    ensures upload.NoFile? || upload == TextField("") <==> r == Failure(NoFileError, 400)
    ensures r.Failure? ==> r == Failure(NoFileError, 400) || r == Failure(ParseFailure, 500)
    ensures r.Text? <==>
      upload.File? && parse(upload.bytes).Some? && Extract(parse(upload.bytes).value, decode).Ok?
    ensures r.Text? ==> r.text == Extract(parse(upload.bytes).value, decode).value
  {
    match upload
    case UnreadableForm => Failure(ParseFailure, 500)
    case NoFile => Failure(NoFileError, 400)
    case TextField(value) =>
      // An empty string is falsy; a non-empty one has no `arrayBuffer` to call.
      if value == "" then Failure(NoFileError, 400) else Failure(ParseFailure, 500)
    case File(bytes) =>
      match parse(bytes)
      case None => Failure(ParseFailure, 500)
      case Some(d) =>
        match Extract(d, decode)
        case Err(_) => Failure(ParseFailure, 500)
        case Ok(text) => Text(text)
  }

  /**
   * The flattened text of pages that all read: each page's runs, each the
   * decoded text or its raw fallback, joined by a space, and the pages
   * joined by a blank line, in order.
   */
  lemma ExtractText(d: PdfData, decode: string -> Option<string>, pages: seq<Page>, texts: seq<string>, i: nat)
    requires SelectPages(d) == Some(pages)
    requires MapAll(pages, page => PageText(page, decode)) == Some(texts)
    requires i < |pages|
    ensures Extract(d, decode) == Ok(Join(texts, PageSeparator))
    ensures |texts| == |pages|
    ensures pages[i].Texts.Some?
    ensures MapAll(pages[i].Texts.value, item => RunText(item, decode)).Some?
    ensures texts[i] == Join(MapAll(pages[i].Texts.value, item => RunText(item, decode)).value, RunSeparator)
  {
    assert PageText(pages[i], decode) == Some(texts[i]);
  }

  /** A present but empty page list yields the empty text, without falling back to `formImage`. */
  lemma EmptyPagesGiveEmptyText(d: PdfData, decode: string -> Option<string>)
    requires d.Pages == Some([])
    ensures Extract(d, decode) == Ok("")
  {
  }
}
