/**
 * The export route (`server/routes/export.js`): `POST /api/export` checks the
 * request, picks the generator by the lower-cased format, and answers with
 * the file and its download headers, or with an error.
 *
 * The DOCX packer and the PDF renderer are parameters. Setting a header goes
 * through Node's header-value check, which throws on a character outside
 * tab, 0x20-0x7E and 0x80-0xFF; the model keeps that check because a
 * user-supplied filename reaches the `Content-Disposition` header.
 */
module ExportRoute {
  import opened Common
  import opened JsString
  import opened Utf8
  import opened FileGenerators

  datatype ExportRequest = ExportRequest(content: JsonField, format: JsonField, filename: JsonField)

  /** The download headers `Content-Type`, `Content-Disposition` and `Content-Length`. */
  datatype Headers = Headers(contentType: string, contentDisposition: string, contentLength: nat)

  datatype ExportReply =
    | Download(headers: Headers, body: seq<byte>)   // 200 with the file
    | ExportRejected(error: string)                 // 400
    | ExportFailed(error: string, message: string)  // 500

  function ExportStatus(reply: ExportReply): int
  {
    match reply
    case Download(_, _) => 200
    case ExportRejected(_) => 400
    case ExportFailed(_, _) => 500
  }

  const ExportMissingFieldsMessage := "Missing required fields: content and format are required"
  const InvalidFormatMessage := "Invalid format. Supported formats: pdf, docx, markdown"
  const ExportFailedMessage := "Failed to export document"
  const InvalidDispositionMessage := "Invalid character in header content [\"Content-Disposition\"]"

  datatype ExportFormat = Pdf | Docx | Markdown

  /** The generator `format.toLowerCase()` selects, if it is one of the three. */
  function ParseFormat(format: string): (r: Option<ExportFormat>)
    ensures r.Some? <==> ToLower(format) in ["pdf", "docx", "markdown"]
    ensures r == Some(Pdf) <==> ToLower(format) == "pdf"
    ensures r == Some(Docx) <==> ToLower(format) == "docx"
    ensures r == Some(Markdown) <==> ToLower(format) == "markdown"
  {
    var lower := ToLower(format);
    if lower == "pdf" then Some(Pdf)
    else if lower == "docx" then Some(Docx)
    else if lower == "markdown" then Some(Markdown)
    else None
  }

  /** The download name `{ filename = 'document' }` and the template literal produce. */
  function FilenameOf(f: JsonField): string
  {
    match f
    case Undefined => "document"
    case Null => "null"
    case Str(s) => s
  }

  /** A character Node accepts in a header value. */
  predicate HeaderChar(c: char)
  {
    c == '\t' || ' ' <= c <= '~' || '\U{0080}' <= c <= '\U{00FF}'
  }

  predicate HeaderSafe(value: string)
  {
    forall k :: 0 <= k < |value| ==> HeaderChar(value[k])
  }

  const DispositionPrefix := "attachment; filename=\""

  function Disposition(filename: string): string
  {
    DispositionPrefix + filename + "\""
  }

  /** The fixed parts of the disposition are acceptable, so the filename alone decides. */
  lemma DispositionSafe(filename: string)
    ensures HeaderSafe(Disposition(filename)) <==> HeaderSafe(filename)
  {
    var d := Disposition(filename);
    assert HeaderSafe(DispositionPrefix);
    assert forall k :: 0 <= k < |filename| ==> d[|DispositionPrefix| + k] == filename[k];
    if HeaderSafe(filename) {
      forall k | 0 <= k < |d| ensures HeaderChar(d[k]) {
        if k < |DispositionPrefix| {
          assert d[k] == DispositionPrefix[k];
        } else if k < |DispositionPrefix| + |filename| {
          assert d[k] == filename[k - |DispositionPrefix|];
        }
      }
    }
  }

  /** Sets the three headers and sends the bytes; an unacceptable disposition throws. */
  function Respond(file: GeneratedFile): (reply: ExportReply)
    ensures reply.Download? <==> HeaderSafe(file.filename)
    ensures reply.Download? ==> reply.body == file.buffer && reply.headers.contentLength == |reply.body|
    ensures reply.Download? ==> reply.headers.contentType == file.contentType
    ensures reply.Download? ==> reply.headers.contentDisposition == Disposition(file.filename)
    ensures !reply.Download? ==> reply == ExportFailed(ExportFailedMessage, InvalidDispositionMessage)
  {
    var disposition := Disposition(file.filename);
    DispositionSafe(file.filename);
    if HeaderSafe(disposition) then
      Download(Headers(file.contentType, disposition, |file.buffer|), file.buffer)
    else
      ExportFailed(ExportFailedMessage, InvalidDispositionMessage)
  }

  /** The suffix each generator appends to the download name. */
  function Extension(format: ExportFormat): string
  {
    match format
    case Pdf => ".pdf"
    case Docx => ".docx"
    case Markdown => ".md"
  }

  /**
   * The selected generator's result: markdown never fails and carries the
   * content's UTF-8 bytes; PDF carries the rendered bytes and fails exactly
   * when rendering does, with its message; DOCX carries the packed bytes and
   * fails exactly when packing does, with the DOCX prefix; each file has its
   * format's MIME type and suffix.
   */
  function Produce(format: ExportFormat, content: string, filename: string,
                   packer: seq<Paragraph> -> Result<seq<byte>>, render: PdfLayout -> Result<seq<byte>>): (r: Result<GeneratedFile>)
    ensures format == Markdown ==> r.Ok? && r.value.buffer == Encode(content) && r.value.contentType == MarkdownContentType
    ensures format == Pdf ==> (r.Err? <==> render(PdfPage(content)).Err?)
    ensures format == Pdf && r.Ok? ==> r.value.buffer == render(PdfPage(content)).value && r.value.contentType == PdfContentType
    ensures format == Pdf && r.Err? ==> r.message == render(PdfPage(content)).message
    ensures format == Docx ==> (r.Err? <==> packer(DocxParagraphs(content)).Err?)
    ensures format == Docx && r.Ok? ==> r.value.buffer == packer(DocxParagraphs(content)).value && r.value.contentType == DocxContentType
    ensures format == Docx && r.Err? ==> r.message == DocxFailurePrefix + packer(DocxParagraphs(content)).message
    ensures r.Ok? ==> r.value.filename == filename + Extension(format)
  {
    match format
    case Pdf => GeneratePdf(content, filename, render)
    case Docx => DocxFile(content, filename, packer)
    case Markdown => Ok(GenerateMarkdown(content, filename))
  }

  /** The reply to a valid request: the generator's failure as a 500, or the download. */
  function Deliver(format: ExportFormat, content: string, filename: string,
                   packer: seq<Paragraph> -> Result<seq<byte>>, render: PdfLayout -> Result<seq<byte>>): (reply: ExportReply)
    ensures !reply.ExportRejected?
    ensures Produce(format, content, filename, packer, render).Err? ==>
      reply == ExportFailed(ExportFailedMessage, Produce(format, content, filename, packer, render).message)
    ensures Produce(format, content, filename, packer, render).Ok? ==>
      reply == Respond(Produce(format, content, filename, packer, render).value)
  {
    match Produce(format, content, filename, packer, render)
    case Err(message) => ExportFailed(ExportFailedMessage, message)
    case Ok(file) => Respond(file)
  }

  /** `POST /api/export`. */
  function HandleExport(req: ExportRequest, packer: seq<Paragraph> -> Result<seq<byte>>,
                        render: PdfLayout -> Result<seq<byte>>): (reply: ExportReply)
    ensures reply.ExportRejected? <==> !Truthy(req.content) || !Truthy(req.format) || ParseFormat(req.format.s).None?
  {
    if !Truthy(req.content) || !Truthy(req.format) then ExportRejected(ExportMissingFieldsMessage)
    else match ParseFormat(req.format.s)
      case None => ExportRejected(InvalidFormatMessage)
      case Some(format) => Deliver(format, req.content.s, FilenameOf(req.filename), packer, render)
  }

  /** A missing, null or empty content or format is rejected first. */
  lemma ExportMissingField(req: ExportRequest, packer: seq<Paragraph> -> Result<seq<byte>>, render: PdfLayout -> Result<seq<byte>>)
    requires !Truthy(req.content) || !Truthy(req.format)
    ensures HandleExport(req, packer, render) == ExportRejected(ExportMissingFieldsMessage)
    ensures ExportStatus(HandleExport(req, packer, render)) == 400
  {
  }

  /** Lower-casing twice is lower-casing once. */
  lemma ToLowerIdempotent(s: string)
    ensures ToLower(ToLower(s)) == ToLower(s)
  {
    assert forall i :: 0 <= i < |s| ==> LowerChar(LowerChar(s[i])) == LowerChar(s[i]);
  }

  /** The format is read case-insensitively: a format and its lower-cased form are handled alike. */
  lemma ExportFormatCaseInsensitive(req: ExportRequest, packer: seq<Paragraph> -> Result<seq<byte>>, render: PdfLayout -> Result<seq<byte>>)
    requires req.format.Str?
    ensures HandleExport(req, packer, render) == HandleExport(req.(format := Str(ToLower(req.format.s))), packer, render)
  {
    ToLowerIdempotent(req.format.s);
    assert ParseFormat(req.format.s) == ParseFormat(ToLower(req.format.s));
  }

  /** The Kelvin sign lower-cases to `k`, so `MARKDOWN` is an accepted spelling of markdown. */
  lemma ExportKelvinMarkdown()
    ensures ParseFormat("MAR\U{212A}DOWN") == Some(Markdown)
  {
    assert ToLower("MAR\U{212A}DOWN") == "markdown";
  }

  /** Only an absent filename defaults to `document`; `null` is spelled out. */
  lemma ExportFilenameDefault()
    ensures FilenameOf(Undefined) == "document" && FilenameOf(Null) == "null"
    ensures forall s :: FilenameOf(Str(s)) == s
  {
  }

  /** Any spelling of markdown hands the content and the filename to the markdown generator. */
  lemma ExportMarkdownReply(content: string, format: string, filename: JsonField,
                            packer: seq<Paragraph> -> Result<seq<byte>>, render: PdfLayout -> Result<seq<byte>>)
    requires content != "" && ToLower(format) == "markdown"
    ensures HandleExport(ExportRequest(Str(content), Str(format), filename), packer, render)
      == Respond(GenerateMarkdown(content, FilenameOf(filename)))
  {
    assert format != "" by {
      assert |ToLower(format)| == |format|;
    }
    assert ParseFormat(format) == Some(Markdown);
  }

  lemma UpperCaseMarkdown()
    ensures ToLower("MARKDOWN") == "markdown"
  {
  }

  lemma DefaultMarkdownName()
    ensures "document" + ".md" == "document.md" && HeaderSafe("document.md")
    ensures Disposition("document.md") == "attachment; filename=\"document.md\""
  {
  }

  /** Any spelling of markdown with no filename downloads the UTF-8 bytes of the content as `document.md`. */
  lemma ExportMarkdownDefault(content: string, format: string, packer: seq<Paragraph> -> Result<seq<byte>>, render: PdfLayout -> Result<seq<byte>>)
    requires content != "" && ToLower(format) == "markdown"
    ensures HandleExport(ExportRequest(Str(content), Str(format), Undefined), packer, render)
      == Download(Headers(MarkdownContentType, Disposition("document.md"), |Encode(content)|), Encode(content))
  {
    ExportMarkdownReply(content, format, Undefined, packer, render);
    DefaultMarkdownName();
  }

  /** `MARKDOWN` selects the markdown generator. */
  lemma ExportMarkdownUpperCase(content: string, packer: seq<Paragraph> -> Result<seq<byte>>, render: PdfLayout -> Result<seq<byte>>)
    requires content != ""
    ensures HandleExport(ExportRequest(Str(content), Str("MARKDOWN"), Undefined), packer, render)
      == Download(Headers(MarkdownContentType, "attachment; filename=\"document.md\"", |Encode(content)|), Encode(content))
  {
    UpperCaseMarkdown();
    DefaultMarkdownName();
    ExportMarkdownDefault(content, "MARKDOWN", packer, render);
  }

  /** A generator's failure is a 500 carrying its message; a DOCX failure keeps the DOCX prefix. */
  lemma ExportDocxFailure(req: ExportRequest, packer: seq<Paragraph> -> Result<seq<byte>>, render: PdfLayout -> Result<seq<byte>>)
    requires Truthy(req.content) && Truthy(req.format) && ToLower(req.format.s) == "docx"
    requires packer(DocxParagraphs(req.content.s)).Err?
    ensures HandleExport(req, packer, render)
      == ExportFailed(ExportFailedMessage, DocxFailurePrefix + packer(DocxParagraphs(req.content.s)).message)
  {
  }

  /** A PDF rendering failure is a 500 carrying the renderer's message unchanged. */
  lemma ExportPdfFailure(req: ExportRequest, packer: seq<Paragraph> -> Result<seq<byte>>, render: PdfLayout -> Result<seq<byte>>)
    requires Truthy(req.content) && Truthy(req.format) && ToLower(req.format.s) == "pdf"
    requires render(PdfPage(req.content.s)).Err?
    ensures HandleExport(req, packer, render) == ExportFailed(ExportFailedMessage, render(PdfPage(req.content.s)).message)
    ensures ExportStatus(HandleExport(req, packer, render)) == 500
  {
  }

  /** A carriage return or a line feed in a name is refused, so a filename cannot split the headers. */
  lemma HeaderRefusesLineBreaks(name: string)
    requires '\r' in name || '\n' in name
    ensures !HeaderSafe(name)
  {
    var k :| 0 <= k < |name| && (name[k] == '\r' || name[k] == '\n');
    assert !HeaderChar(name[k]);
  }

  /** An unacceptable character in the name stays unacceptable whatever suffix follows. */
  lemma UnsafeWithSuffix(name: string, suffix: string)
    requires !HeaderSafe(name)
    ensures !HeaderSafe(name + suffix)
  {
    var k :| 0 <= k < |name| && !HeaderChar(name[k]);
    assert (name + suffix)[k] == name[k];
  }

  /**
   * A filename Node refuses in a header never downloads, in any format: a
   * request that passes validation then fails with 500.
   */
  lemma ExportUnsafeFilename(req: ExportRequest, packer: seq<Paragraph> -> Result<seq<byte>>, render: PdfLayout -> Result<seq<byte>>)
    requires req.filename.Str? && !HeaderSafe(req.filename.s)
    ensures !HandleExport(req, packer, render).Download?
    ensures Truthy(req.content) && Truthy(req.format) && ParseFormat(req.format.s).Some? ==>
      HandleExport(req, packer, render).ExportFailed?
  {
    UnsafeWithSuffix(req.filename.s, ".pdf");
    UnsafeWithSuffix(req.filename.s, ".docx");
    UnsafeWithSuffix(req.filename.s, ".md");
  }

  /** A CJK character is outside Latin-1 and refused; an accented Latin-1 letter is accepted. */
  lemma NonLatinFilename()
    ensures !HeaderSafe("\U{6587}")
    ensures HeaderSafe("caf\U{00E9}")
  {
    assert !HeaderChar("\U{6587}"[0]);
  }

  /** Every download describes its file: the generator's type, the derived name, the byte count. */
  lemma ExportDownload(req: ExportRequest, packer: seq<Paragraph> -> Result<seq<byte>>, render: PdfLayout -> Result<seq<byte>>)
    requires HandleExport(req, packer, render).Download?
    ensures var format := ParseFormat(req.format.s).value;
      var file := Produce(format, req.content.s, FilenameOf(req.filename), packer, render).value;
      var reply := HandleExport(req, packer, render);
      reply.body == file.buffer
      && reply.headers == Headers(file.contentType, Disposition(file.filename), |file.buffer|)
      && file.filename == FilenameOf(req.filename) + Extension(format)
      && ExportStatus(reply) == 200
  {
  }
}
