/** The PDF text-extraction endpoint: method check, multipart parsing, the
    file guards (field, path, size, MIME type), text extraction and the
    catch block. The temporary file read and the PDF parser are inputs. */
module PdfUpload {
  import opened Js
  import opened Multipart

  /** 5 MiB. */
  const MaxPdfBytes: int := 5 * 1024 * 1024

  const OnlyPost: string := "Nur POST"
  const NoFileMsg: string := "Keine Datei empfangen. Feldname: \"file\" erwartet."
  const UploadFailedMsg: string := "Upload fehlgeschlagen."
  const TooLargeMsg: string := "Datei zu groß. Max 5MB."
  const NotPdfMsg: string := "Nur PDF-Dateien sind erlaubt."
  const NoTextMsg: string := "Konnte keinen Text aus dem PDF extrahieren."
  const DefaultErrorMsg: string := "Upload fehlgeschlagen"
  /** The marker of the parser's size-limit error. */
  const SizeLimitMarker: string := "maxFileSize exceeded"

  /** The form fields searched for the file, in order. */
  const PdfFields: seq<string> := ["file", "upload", "pdf"]

  /** What pdf-parse yields for the buffer: its `text` property (None when
      missing or empty), or the error it throws. */
  datatype Extraction = Extracted(text: Option<string>) | ExtractFailed(message: string)

  datatype PdfIo = PdfIo(read: ReadResult, extract: Extraction)

  datatype Effect =
    | ParseForm
    | ReadTempFile(path: string)
    | ExtractText(length: nat)
    | RemoveTempFile(path: string)

  datatype PdfBody = PdfError(error: string) | PdfText(text: string)

  datatype PdfResponse = PdfResponse(status: int, body: PdfBody)

  datatype Handled = Handled(response: PdfResponse, effects: seq<Effect>)

  /** The path of a file that passed the guards, or the refusal. */
  datatype Screened = Accept(path: string) | Refuse(response: PdfResponse)

  function BadRequest(message: string): PdfResponse {
    PdfResponse(400, PdfError(message))
  }

  /** The catch block: a size-limit error of the parser is reported as a
      400, every other error as a 500 with its message (or the default). */
  function Caught(message: string): (r: PdfResponse)
    ensures Includes(message, SizeLimitMarker) ==> r == BadRequest(TooLargeMsg)
    ensures !Includes(message, SizeLimitMarker) ==>
      r.status == 500 && r.body.PdfError? && r.body.error != "" &&
      (message != "" ==> r.body.error == message)
    ensures !Includes(message, SizeLimitMarker) && message == "" ==> r == PdfResponse(500, PdfError(DefaultErrorMsg))
  {
    if Includes(message, SizeLimitMarker) then BadRequest(TooLargeMsg)
    else PdfResponse(500, PdfError(OrString(Some(message), DefaultErrorMsg)))
  }

  /** The guards on the parsed form, in order; the file's path when they all pass. */
  function Screen(files: map<string, FileField>): (s: Screened)
    ensures PickField(files, PdfFields).None? ==> s == Refuse(BadRequest(NoFileMsg))
    ensures s.Accept? ==>
      PickField(files, PdfFields).Some? && FirstFile(PickField(files, PdfFields).value).Some? &&
      var f := FirstFile(PickField(files, PdfFields).value).value;
      && FirstNonEmpty(f.filepath, f.path) == Some(s.path)
      && SizeOf(f) <= MaxPdfBytes
      && Includes(OrString(FirstNonEmpty(f.mimetype, f.legacyType), ""), "pdf")
    // an empty file array leaves `f` undefined, and reading its path throws
    ensures PickField(files, PdfFields).Some? && FirstFile(PickField(files, PdfFields).value).None? ==>
      s == Refuse(Caught(UndefinedFileError))
    ensures PickField(files, PdfFields).Some? && FirstFile(PickField(files, PdfFields).value).Some? ==>
      var f := FirstFile(PickField(files, PdfFields).value).value;
      var path := FirstNonEmpty(f.filepath, f.path);
      && (path.None? ==> s == Refuse(BadRequest(UploadFailedMsg)))
      && (path.Some? && SizeOf(f) > MaxPdfBytes ==> s == Refuse(BadRequest(TooLargeMsg)))
      && (path.Some? && SizeOf(f) <= MaxPdfBytes &&
          !Includes(OrString(FirstNonEmpty(f.mimetype, f.legacyType), ""), "pdf") ==>
            s == Refuse(BadRequest(NotPdfMsg)))
      // a file passing all three guards is accepted under its path
      && (path.Some? && SizeOf(f) <= MaxPdfBytes &&
          Includes(OrString(FirstNonEmpty(f.mimetype, f.legacyType), ""), "pdf") ==>
            s == Accept(path.value))
    ensures s.Refuse? ==> s.response.status in {400, 500}
  {
    match PickField(files, PdfFields)
    case None => Refuse(BadRequest(NoFileMsg))
    case Some(field) =>
      match FirstFile(field)
      case None => Refuse(Caught(UndefinedFileError))
      case Some(f) =>
        var path := FirstNonEmpty(f.filepath, f.path);
        var mimetype := OrString(FirstNonEmpty(f.mimetype, f.legacyType), "");
        if path.None? then Refuse(BadRequest(UploadFailedMsg))
        else if SizeOf(f) > MaxPdfBytes then Refuse(BadRequest(TooLargeMsg))
        else if !Includes(mimetype, "pdf") then Refuse(BadRequest(NotPdfMsg))
        else Accept(path.value)
  }

  /** Reading, extracting and cleaning up after the guards have passed. */
  function Extract(path: string, io: PdfIo): (h: Handled)
    ensures h.effects != [] && h.effects[0] == ReadTempFile(path)
    // the temporary file is removed exactly on success
    ensures h.response.status == 200 <==> RemoveTempFile(path) in h.effects
    ensures h.response.status == 200 ==>
      h.response.body.PdfText? && h.response.body.text != [] &&
      io.extract.Extracted? && h.response.body.text == Trim(OrString(io.extract.text, ""))
    ensures io.read.ReadOk? && io.extract.Extracted? && AllWhitespace(OrString(io.extract.text, "")) ==>
      h.response == BadRequest(NoTextMsg)
    // text that is not blank is answered, trimmed, with 200
    ensures io.read.ReadOk? && io.extract.Extracted? && !AllWhitespace(OrString(io.extract.text, "")) ==>
      h == Handled(PdfResponse(200, PdfText(Trim(OrString(io.extract.text, "")))),
                   [ReadTempFile(path), ExtractText(io.read.length), RemoveTempFile(path)])
    // read and parser errors go through the catch block
    ensures io.read.ReadFailed? ==> h == Handled(Caught(io.read.message), [ReadTempFile(path)])
    ensures io.read.ReadOk? && io.extract.ExtractFailed? ==>
      h == Handled(Caught(io.extract.message), [ReadTempFile(path), ExtractText(io.read.length)])
  {
    match io.read
    case ReadFailed(m) => Handled(Caught(m), [ReadTempFile(path)])
    case ReadOk(len) =>
      var parsed := [ReadTempFile(path), ExtractText(len)];
      match io.extract
      case ExtractFailed(m) => Handled(Caught(m), parsed)
      case Extracted(t) =>
        var text := Trim(OrString(t, ""));
        assert text == "" <==> AllWhitespace(OrString(t, "")) by {
          var _ := TrimSpec(OrString(t, ""));
        }
        if text == "" then Handled(BadRequest(NoTextMsg), parsed)
        else Handled(PdfResponse(200, PdfText(text)), parsed + [RemoveTempFile(path)])
  }

  /** `handler`. */
  function Handle(httpMethod: string, form: FormResult, io: PdfIo): (h: Handled)
    ensures httpMethod != "POST" ==> h == Handled(PdfResponse(405, PdfError(OnlyPost)), [])
    ensures httpMethod == "POST" ==> h.effects != [] && h.effects[0] == ParseForm
    ensures httpMethod == "POST" && form.FormError? ==> h == Handled(Caught(form.message), [ParseForm])
    ensures httpMethod == "POST" && form.FormFiles? && Screen(form.files).Refuse? ==>
      h == Handled(Screen(form.files).response, [ParseForm])
    ensures httpMethod == "POST" && form.FormFiles? && Screen(form.files).Accept? ==>
      h.response == Extract(Screen(form.files).path, io).response &&
      h.effects == [ParseForm] + Extract(Screen(form.files).path, io).effects
    ensures h.response.status in {200, 400, 405, 500}
    ensures h.response.status == 200 ==> h.response.body.PdfText? && h.response.body.text != []
  {
    if httpMethod != "POST" then Handled(PdfResponse(405, PdfError(OnlyPost)), [])
    else
      match form
      case FormError(m) => Handled(Caught(m), [ParseForm])
      case FormFiles(files) =>
        match Screen(files)
        case Refuse(resp) => Handled(resp, [ParseForm])
        case Accept(path) =>
          var x := Extract(path, io);
          Handled(x.response, [ParseForm] + x.effects)
  }

  /** The size limit is inclusive: for any file under any of the fields,
      with a path and a PDF MIME type, exactly 5 MiB passes the guard and one
      byte more is refused. */
  lemma SizeLimitIsInclusive(files: map<string, FileField>, f: FileInfo)
    requires PickField(files, PdfFields).Some? && FirstFile(PickField(files, PdfFields).value) == Some(f)
    requires FirstNonEmpty(f.filepath, f.path).Some?
    requires Includes(OrString(FirstNonEmpty(f.mimetype, f.legacyType), ""), "pdf")
    ensures f.size == Some(MaxPdfBytes) ==> Screen(files) == Accept(FirstNonEmpty(f.filepath, f.path).value)
    ensures f.size == Some(MaxPdfBytes + 1) ==> Screen(files) == Refuse(BadRequest(TooLargeMsg))
  {
  }

  /** Any picked file with a path and the usual `application/pdf` type
      satisfies the MIME guard, so the size guard is what decides. */
  lemma PdfMimeTypePasses(files: map<string, FileField>, f: FileInfo)
    requires PickField(files, PdfFields).Some? && FirstFile(PickField(files, PdfFields).value) == Some(f)
    requires FirstNonEmpty(f.filepath, f.path).Some?
    requires f.mimetype == Some("application/pdf")
    ensures SizeOf(f) <= MaxPdfBytes ==> Screen(files) == Accept(FirstNonEmpty(f.filepath, f.path).value)
    ensures SizeOf(f) > MaxPdfBytes ==> Screen(files) == Refuse(BadRequest(TooLargeMsg))
  {
    IncludesAt("application/pdf", "pdf", 12);
  }
}
