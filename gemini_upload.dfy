/** The file-ingestion gateway: a POST that hands an uploaded file to the
    provider's two-phase resumable upload and polls for processing, a
    DELETE that removes a provider file, and the method dispatch. Every
    reply of the file system and of the provider is an input; the effects
    trace records, in order, what the handler asks of them. */
module GeminiUpload {
  import opened Js
  import opened Multipart

  /** 10 MiB. */
  const MaxUploadBytes: int := 10 * 1024 * 1024
  /** `waitForActive`'s default attempt ceiling, the one the POST uses. */
  const DefaultMaxAttempts: int := 10
  /** Characters of provider error text passed on to the client. */
  const ErrorDetailLength: nat := 200

  const MissingKeyMsg: string := "Server-Konfiguration fehlt (GEMINI_API_KEY)."
  const NoFileMsg: string := "Keine Datei empfangen. Feldname: \"file\" erwartet."
  const UploadFailedMsg: string := "Upload fehlgeschlagen."
  const TooLargeMsg: string := "Datei zu groß (max 10MB)."
  const NoFileIdMsg: string := "Kein File-ID in der Antwort."
  const PostFailedMsg: string := "Gemini Upload fehlgeschlagen"
  const InitFailedMsg: string := "Upload initialization failed"
  const NoUploadUrlMsg: string := "No upload URL returned by Gemini"
  const TransferFailedMsg: string := "File upload failed"
  const FileIdRequiredMsg: string := "fileId erforderlich"
  const OnlyPostOrDelete: string := "Nur POST oder DELETE"
  /** The TypeError of calling `replace` on a file name that is not a string. */
  const ReplaceNotAFunction: string := "fileId.replace is not a function"

  /** The form fields searched for the file, in order. */
  const PostFields: seq<string> := ["file", "upload", "data", "attachment"]

  /** `id.replace(/^files\//, '')`: one leading "files/" is removed. */
  function StripFilesPrefix(id: string): (r: string)
    ensures "files/" <= id ==> "files/" + r == id
    ensures !("files/" <= id) ==> r == id
  {
    if "files/" <= id then id[6..] else id
  }

  // ---------------------------------------------------------------------
  // Polling for the processing state

  /** A status request either gets a response (its `ok` flag and body text) or throws. */
  datatype PollReply = PollResponse(ok: bool, body: string) | PollNetworkError(message: string)

  /** `{success, state, error}` as `waitForActive` returns it. */
  datatype Processing = Processing(success: bool, state: string, error: Option<string>)

  /** The loop returns a Processing, or the error of a status request escapes it. */
  datatype PollOutcome = Settled(result: Processing) | PollThrew(message: string)

  /** The outcome, the number of status requests made and of sleeps taken. */
  datatype PollRun = PollRun(outcome: PollOutcome, requests: nat, sleeps: nat)

  const StillProcessing: Processing := Processing(false, "PROCESSING", None)

  /** The states a poll can report. */
  predicate KnownState(s: string) {
    s == "ACTIVE" || s == "FAILED" || s == "UNKNOWN" || s == "PROCESSING"
  }

  /** What one status reply decides: None means "go on polling" (an
      unparseable body, a body without a terminal `state`). */
  function Classify(reply: PollReply, parse: JsonParser): (r: Option<PollOutcome>)
    ensures reply.PollNetworkError? ==> r == Some(PollThrew(reply.message))
    ensures reply.PollResponse? && !reply.ok ==>
      r == Some(Settled(Processing(false, "UNKNOWN", Some(Slice(reply.body, ErrorDetailLength)))))
    ensures reply.PollResponse? && reply.ok ==>
      (r.Some? <==> parse(reply.body).Parsed? &&
                    Prop(parse(reply.body).value, "state") in {JStr("ACTIVE"), JStr("FAILED")})
    // the first ACTIVE or FAILED state ends the loop with that state
    ensures reply.PollResponse? && reply.ok && parse(reply.body).Parsed? &&
            Prop(parse(reply.body).value, "state") == JStr("ACTIVE") ==>
      r == Some(Settled(Processing(true, "ACTIVE", None)))
    ensures reply.PollResponse? && reply.ok && parse(reply.body).Parsed? &&
            Prop(parse(reply.body).value, "state") == JStr("FAILED") ==>
      r == Some(Settled(Processing(false, "FAILED", Some("processing failed"))))
    ensures r.Some? && r.value.Settled? ==>
      var p := r.value.result;
      && (p.state == "ACTIVE" || p.state == "FAILED" || p.state == "UNKNOWN")
      && (p.success <==> p.state == "ACTIVE")
      && (p.error.Some? ==> |p.error.value| <= ErrorDetailLength)
  {
    match reply
    case PollNetworkError(m) => Some(PollThrew(m))
    case PollResponse(ok, body) =>
      if !ok then Some(Settled(Processing(false, "UNKNOWN", Some(Slice(body, ErrorDetailLength)))))
      else
        match parse(body)
        case SyntaxError(_) => None
        case Parsed(data) =>
          if Prop(data, "state") == JStr("ACTIVE") then Some(Settled(Processing(true, "ACTIVE", None)))
          else if Prop(data, "state") == JStr("FAILED") then
            Some(Settled(Processing(false, "FAILED", Some("processing failed"))))
          else None
  }

  /** The loop from attempt i on (0-based) with ceiling maxAttempts;
      requests and sleeps are counted from attempt i. */
  function PollFrom(replies: nat -> PollReply, parse: JsonParser, i: nat, maxAttempts: int): (r: PollRun)
    ensures r.requests <= (if maxAttempts > i then maxAttempts - i else 0)
    ensures r.requests == 0 <==> maxAttempts <= i
    // a sleep separates consecutive attempts, none follows the last
    ensures r.sleeps == (if r.requests == 0 then 0 else r.requests - 1)
    ensures r.outcome.Settled? ==>
      KnownState(r.outcome.result.state) && (r.outcome.result.success <==> r.outcome.result.state == "ACTIVE")
    decreases maxAttempts - i
  {
    if maxAttempts <= i then PollRun(Settled(StillProcessing), 0, 0)
    else
      match Classify(replies(i), parse)
      case Some(o) => PollRun(o, 1, 0)
      case None =>
        var rest := PollFrom(replies, parse, i + 1, maxAttempts);
        PollRun(rest.outcome, rest.requests + 1, rest.sleeps + (if i < maxAttempts - 1 then 1 else 0))
  }

  /** The first reply that settles the loop decides its result, and no
      request follows it. */
  lemma {:induction false} PollStopsAtFirstTerminal(replies: nat -> PollReply, parse: JsonParser,
                                                   i: nat, maxAttempts: int, k: nat)
    requires i <= k < maxAttempts
    requires forall j :: i <= j < k ==> Classify(replies(j), parse).None?
    requires Classify(replies(k), parse).Some?
    ensures PollFrom(replies, parse, i, maxAttempts) ==
      PollRun(Classify(replies(k), parse).value, k - i + 1, k - i)
    decreases k - i
  {
    if i < k {
      PollStopsAtFirstTerminal(replies, parse, i + 1, maxAttempts, k);
    }
  }

  /** Running out of attempts is not an error: it reports PROCESSING after
      exactly maxAttempts requests. */
  lemma {:induction false} PollExhausts(replies: nat -> PollReply, parse: JsonParser, i: nat, maxAttempts: int)
    requires forall j :: i <= j < maxAttempts ==> Classify(replies(j), parse).None?
    ensures PollFrom(replies, parse, i, maxAttempts).outcome == Settled(StillProcessing)
    ensures PollFrom(replies, parse, i, maxAttempts).requests == (if maxAttempts > i then maxAttempts - i else 0)
    decreases maxAttempts - i
  {
    if i < maxAttempts {
      PollExhausts(replies, parse, i + 1, maxAttempts);
    }
  }

  /** `waitForActive(fileId, apiKey, maxAttempts)`: the i-th status request
      gets `replies(i)`; sleeps are counted, not taken. The request URL is
      recorded by the caller. */
  method WaitForActive(replies: nat -> PollReply, parse: JsonParser, maxAttempts: int) returns (run: PollRun)
    ensures run == PollFrom(replies, parse, 0, maxAttempts)
  {
    var i := 0;
    var sleeps := 0;
    while i < maxAttempts
      invariant 0 <= i && (maxAttempts >= 0 ==> i <= maxAttempts)
      invariant var rest := PollFrom(replies, parse, i, maxAttempts);
        PollFrom(replies, parse, 0, maxAttempts) == PollRun(rest.outcome, i + rest.requests, sleeps + rest.sleeps)
      decreases maxAttempts - i
    {
      var verdict := Classify(replies(i), parse);
      if verdict.Some? {
        return PollRun(verdict.value, i + 1, sleeps);
      }
      if i < maxAttempts - 1 {
        sleeps := sleeps + 1;
      }
      i := i + 1;
    }
    // every attempt made, none terminal: i requests, one sleep fewer
    return PollRun(Settled(StillProcessing), i, sleeps);
  }

  // ---------------------------------------------------------------------
  // The POST handler

  /** The reply to the upload-start request: its `ok` flag, the `error.message`
      of its JSON body (when there is one), and its x-goog-upload-url header. */
  datatype InitReply =
    | InitResponse(ok: bool, errorMessage: Option<string>, uploadUrl: Option<string>)
    | InitNetworkError(message: string)

  /** The reply to the upload-and-finalize request. */
  datatype TransferReply = TransferResponse(ok: bool, body: string) | TransferNetworkError(message: string)

  /** Everything the environment answers during one POST. */
  datatype UploadIo = UploadIo(
    read: ReadResult,
    init: InitReply,
    transfer: TransferReply,
    polls: nat -> PollReply,
    parse: JsonParser)

  datatype Effect =
    | ParseForm
    | ReadTempFile(path: string)
    | StartUpload(displayName: string, mimeType: string, contentLength: nat)
    | SendBytes(contentLength: nat)
    | RemoveTempFile(path: string)
    | PollStatus(fileId: string, requests: nat)
    | DeleteFile(fileId: string)

  datatype UploadBody =
    | UploadError(error: string)
    | Uploaded(geminiFileId: Json, state: string, sizeBytes: Json)
    | Deleted
    | Unhandled(message: string)

  datatype UploadResponse = UploadResponse(status: int, body: UploadBody)

  datatype Handled = Handled(response: UploadResponse, effects: seq<Effect>)

  /** A step that yields a value or throws an error with a message. */
  datatype Step<T> = Ok(value: T) | Err(message: string)

  /** The file that passed the guards: its path, MIME type and display name. */
  datatype Accepted = Accepted(path: string, mimeType: string, fileName: string)

  datatype Screened = Accept(file: Accepted) | Refuse(response: UploadResponse)

  /** The catch block: 500 with the error's message, or the default one. */
  function Fail500(message: string): (r: UploadResponse)
    ensures r.status == 500 && r.body.UploadError? && r.body.error != ""
    ensures message != "" ==> r.body.error == message
    ensures message == "" ==> r.body.error == PostFailedMsg
  {
    UploadResponse(500, UploadError(OrString(Some(message), PostFailedMsg)))
  }

  /** The guards on the parsed form, in order: field, path, size. */
  function Screen(files: map<string, FileField>): (s: Screened)
    ensures PickField(files, PostFields).None? ==> s == Refuse(UploadResponse(400, UploadError(NoFileMsg)))
    ensures s.Refuse? ==> s.response.status in {400, 500}
    ensures s.Accept? ==>
      PickField(files, PostFields).Some? && FirstFile(PickField(files, PostFields).value).Some?
    ensures s.Accept? ==>
      var f := FirstFile(PickField(files, PostFields).value).value;
      && FirstNonEmpty(f.filepath, f.path) == Some(s.file.path)
      && SizeOf(f) <= MaxUploadBytes
      && s.file.mimeType == OrString(FirstNonEmpty(f.mimetype, f.legacyType), "application/octet-stream")
      && s.file.fileName == OrString(FirstNonEmpty(f.originalFilename, f.newFilename), "upload")
    // an empty file array leaves `f` undefined, and reading its path throws
    ensures PickField(files, PostFields).Some? && FirstFile(PickField(files, PostFields).value).None? ==>
      s == Refuse(Fail500(UndefinedFileError))
    ensures PickField(files, PostFields).Some? && FirstFile(PickField(files, PostFields).value).Some? ==>
      var f := FirstFile(PickField(files, PostFields).value).value;
      && (FirstNonEmpty(f.filepath, f.path).None? ==> s == Refuse(UploadResponse(400, UploadError(UploadFailedMsg))))
      && (FirstNonEmpty(f.filepath, f.path).Some? && SizeOf(f) > MaxUploadBytes ==>
            s == Refuse(UploadResponse(400, UploadError(TooLargeMsg))))
      // a file with a path and within the size limit is accepted
      && (FirstNonEmpty(f.filepath, f.path).Some? && SizeOf(f) <= MaxUploadBytes ==>
            s == Accept(Accepted(FirstNonEmpty(f.filepath, f.path).value,
                                 OrString(FirstNonEmpty(f.mimetype, f.legacyType), "application/octet-stream"),
                                 OrString(FirstNonEmpty(f.originalFilename, f.newFilename), "upload"))))
  {
    match PickField(files, PostFields)
    case None => Refuse(UploadResponse(400, UploadError(NoFileMsg)))
    case Some(field) =>
      match FirstFile(field)
      case None => Refuse(Fail500(UndefinedFileError))
      case Some(f) =>
        var path := FirstNonEmpty(f.filepath, f.path);
        var mimeType := OrString(FirstNonEmpty(f.mimetype, f.legacyType), "application/octet-stream");
        var fileName := OrString(FirstNonEmpty(f.originalFilename, f.newFilename), "upload");
        if path.None? then Refuse(UploadResponse(400, UploadError(UploadFailedMsg)))
        else if SizeOf(f) > MaxUploadBytes then Refuse(UploadResponse(400, UploadError(TooLargeMsg)))
        else Accept(Accepted(path.value, mimeType, fileName))
  }

  /** `initResumableUpload`: the upload URL, or the error it throws. */
  function StartUploadStep(reply: InitReply): (r: Step<string>)
    ensures r.Ok? <==> reply.InitResponse? && reply.ok && Configured(reply.uploadUrl)
    ensures r.Ok? ==> r.value == reply.uploadUrl.value
    // the error thrown in each failing case
    ensures reply.InitNetworkError? ==> r == Err(reply.message)
    ensures reply.InitResponse? && !reply.ok ==> r == Err(OrString(reply.errorMessage, InitFailedMsg))
    ensures reply.InitResponse? && reply.ok && !Configured(reply.uploadUrl) ==> r == Err(NoUploadUrlMsg)
  {
    match reply
    case InitNetworkError(m) => Err(m)
    case InitResponse(ok, errorMessage, uploadUrl) =>
      if !ok then Err(OrString(errorMessage, InitFailedMsg))
      else if !Configured(uploadUrl) then Err(NoUploadUrlMsg)
      else Ok(uploadUrl.value)
  }

  /** The `error.message` of a provider error body, when it parses and has one. */
  function ProviderMessage(parse: JsonParser, body: string, fallback: string): (m: string)
    ensures parse(body).Parsed? && Prop(Prop(parse(body).value, "error"), "message").JStr? &&
            Prop(Prop(parse(body).value, "error"), "message").s != "" ==>
      m == Prop(Prop(parse(body).value, "error"), "message").s
    ensures !(parse(body).Parsed? && Prop(Prop(parse(body).value, "error"), "message").JStr? &&
              Prop(Prop(parse(body).value, "error"), "message").s != "") ==>
      m == fallback
  {
    match parse(body)
    case SyntaxError(_) => fallback
    case Parsed(j) =>
      var m := Prop(Prop(j, "error"), "message");
      if m.JStr? && m.s != "" then m.s else fallback
  }

  /** `uploadBytesToGemini`: the parsed response body, or the error it throws. */
  function TransferStep(reply: TransferReply, parse: JsonParser): (r: Step<Json>)
    ensures r.Ok? <==> reply.TransferResponse? && reply.ok && parse(reply.body).Parsed?
    ensures r.Ok? ==> r.value == parse(reply.body).value
    // the error thrown in each failing case
    ensures reply.TransferNetworkError? ==> r == Err(reply.message)
    ensures reply.TransferResponse? && !reply.ok ==> r == Err(ProviderMessage(parse, reply.body, TransferFailedMsg))
    ensures reply.TransferResponse? && reply.ok && parse(reply.body).SyntaxError? ==>
      r == Err(parse(reply.body).message)
  {
    match reply
    case TransferNetworkError(m) => Err(m)
    case TransferResponse(ok, body) =>
      if !ok then Err(ProviderMessage(parse, body, TransferFailedMsg))
      else
        match parse(body)
        case SyntaxError(m) => Err(m)
        case Parsed(j) => Ok(j)
  }

  /** Everything after the guards: read, upload, check the id, clean up, poll. */
  function Transfer(a: Accepted, io: UploadIo): (h: Handled)
    ensures h.effects != [] && h.effects[0] == ReadTempFile(a.path)
    ensures h.response.status in {200, 500, 502}
    ensures h.response.status == 200 ==>
      h.response.body.Uploaded? && Truthy(h.response.body.geminiFileId) && KnownState(h.response.body.state)
    ensures forall e :: e in h.effects && e.PollStatus? ==> e.requests <= DefaultMaxAttempts
    // each failing step answers 500 with its error, and nothing after it happens
    ensures io.read.ReadFailed? ==> h == Handled(Fail500(io.read.message), [ReadTempFile(a.path)])
    ensures io.read.ReadOk? && StartUploadStep(io.init).Err? ==>
      h == Handled(Fail500(StartUploadStep(io.init).message),
                   [ReadTempFile(a.path), StartUpload(a.fileName, a.mimeType, io.read.length)])
    ensures io.read.ReadOk? && StartUploadStep(io.init).Ok? && TransferStep(io.transfer, io.parse).Err? ==>
      h == Handled(Fail500(TransferStep(io.transfer, io.parse).message),
                   [ReadTempFile(a.path), StartUpload(a.fileName, a.mimeType, io.read.length),
                    SendBytes(io.read.length)])
    // a 200 needs every step to succeed, and reports the provider's file name
    ensures h.response.status == 200 ==>
      io.read.ReadOk? && StartUploadStep(io.init).Ok? && TransferStep(io.transfer, io.parse).Ok? &&
      h.response.body.geminiFileId == Prop(Prop(TransferStep(io.transfer, io.parse).value, "file"), "name")
    // the temporary file is removed once the provider has named the file
    ensures RemoveTempFile(a.path) in h.effects <==>
      io.read.ReadOk? && StartUploadStep(io.init).Ok? && TransferStep(io.transfer, io.parse).Ok? &&
      Truthy(Prop(Prop(TransferStep(io.transfer, io.parse).value, "file"), "name"))
    // the removal comes before any status request
    ensures forall i :: 0 <= i < |h.effects| && h.effects[i].PollStatus? ==> RemoveTempFile(a.path) in h.effects[..i]
  {
    match io.read
    case ReadFailed(m) => Handled(Fail500(m), [ReadTempFile(a.path)])
    case ReadOk(len) =>
      var started := [ReadTempFile(a.path), StartUpload(a.fileName, a.mimeType, len)];
      match StartUploadStep(io.init)
      case Err(m) => Handled(Fail500(m), started)
      case Ok(_) =>
        var sent := started + [SendBytes(len)];
        match TransferStep(io.transfer, io.parse)
        case Err(m) => Handled(Fail500(m), sent)
        case Ok(result) =>
          var file := Prop(result, "file");
          var id := Prop(file, "name");
          var state := OrJson(Prop(file, "state"), JStr("UNKNOWN"));
          var sizeBytes := OrJson(Prop(file, "sizeBytes"), JNum(len as real));
          if !Truthy(id) then Handled(UploadResponse(502, UploadError(NoFileIdMsg)), sent)
          else
            var cleaned := sent + [RemoveTempFile(a.path)];
            if state == JStr("ACTIVE") then
              Handled(UploadResponse(200, Uploaded(id, "ACTIVE", sizeBytes)), cleaned)
            else if !id.JStr? then Handled(Fail500(ReplaceNotAFunction), cleaned)
            else
              var run := PollFrom(io.polls, io.parse, 0, DefaultMaxAttempts);
              var polled := cleaned + [PollStatus(StripFilesPrefix(id.s), run.requests)];
              match run.outcome
              case PollThrew(m) => Handled(Fail500(m), polled)
              case Settled(p) => Handled(UploadResponse(200, Uploaded(id, p.state, sizeBytes)), polled)
  }

  /** `handlePost`. */
  function HandlePost(apiKey: Option<string>, form: FormResult, io: UploadIo): (h: Handled)
    ensures !Configured(apiKey) ==> h == Handled(UploadResponse(500, UploadError(MissingKeyMsg)), [])
    ensures Configured(apiKey) ==> h.effects != [] && h.effects[0] == ParseForm
    ensures Configured(apiKey) && form.FormError? ==> h == Handled(Fail500(form.message), [ParseForm])
    // a refused file costs no file-system and no provider access
    ensures h.response.status == 400 ==> h.effects == [ParseForm]
    ensures Configured(apiKey) && form.FormFiles? && Screen(form.files).Refuse? ==>
      h == Handled(Screen(form.files).response, [ParseForm])
    ensures Configured(apiKey) && form.FormFiles? && Screen(form.files).Accept? ==>
      h.effects == [ParseForm] + Transfer(Screen(form.files).file, io).effects &&
      h.response == Transfer(Screen(form.files).file, io).response
    ensures h.response.status in {200, 400, 500, 502}
  {
    if !Configured(apiKey) then Handled(UploadResponse(500, UploadError(MissingKeyMsg)), [])
    else
      match form
      case FormError(m) => Handled(Fail500(m), [ParseForm])
      case FormFiles(files) =>
        match Screen(files)
        case Refuse(resp) => Handled(resp, [ParseForm])
        case Accept(a) =>
          var t := Transfer(a, io);
          Handled(t.response, [ParseForm] + t.effects)
  }

  /** After a successful transfer: no file name means 502 (the temporary
      file is kept); a file already ACTIVE is reported without polling;
      otherwise the reported state is the one polling ends in, and the
      size falls back to the buffer length. */
  lemma TransferAfterUpload(a: Accepted, io: UploadIo, len: nat)
    requires io.read == ReadOk(len)
    requires StartUploadStep(io.init).Ok?
    requires TransferStep(io.transfer, io.parse).Ok?
    ensures var result := TransferStep(io.transfer, io.parse).value;
      var file := Prop(result, "file");
      var h := Transfer(a, io);
      && (!Truthy(Prop(file, "name")) ==>
            h.response == UploadResponse(502, UploadError(NoFileIdMsg)) && RemoveTempFile(a.path) !in h.effects)
      && (Truthy(Prop(file, "name")) && Prop(file, "state") == JStr("ACTIVE") ==>
            h.response == UploadResponse(200, Uploaded(Prop(file, "name"), "ACTIVE",
                                                       OrJson(Prop(file, "sizeBytes"), JNum(len as real)))) &&
            forall e :: e in h.effects ==> !e.PollStatus?)
      && (Truthy(Prop(file, "name")) && Prop(file, "state") != JStr("ACTIVE") && !Prop(file, "name").JStr? ==>
            h.response == Fail500(ReplaceNotAFunction))
      && (Truthy(Prop(file, "name")) && Prop(file, "state") != JStr("ACTIVE") && Prop(file, "name").JStr? ==>
            var run := PollFrom(io.polls, io.parse, 0, DefaultMaxAttempts);
            && PollStatus(StripFilesPrefix(Prop(file, "name").s), run.requests) in h.effects
            && (run.outcome.PollThrew? ==> h.response == Fail500(run.outcome.message))
            && (run.outcome.Settled? ==>
                  h.response == UploadResponse(200, Uploaded(Prop(file, "name"), run.outcome.result.state,
                                                             OrJson(Prop(file, "sizeBytes"), JNum(len as real))))))
  {
    var result := TransferStep(io.transfer, io.parse).value;
    var file := Prop(result, "file");
    var started := [ReadTempFile(a.path), StartUpload(a.fileName, a.mimeType, len)];
    var sent := started + [SendBytes(len)];
    if !Truthy(Prop(file, "name")) {
      assert Transfer(a, io).effects == sent;
    }
  }

  // ---------------------------------------------------------------------
  // The DELETE handler and the dispatch

  /** The reply to the DELETE request. */
  datatype DeleteReply = DeleteResponse(ok: bool, body: string) | DeleteNetworkError(message: string)

  /** `handleDelete`; `fileIdParam` is `req.query.fileId` (a string, or an
      array when the parameter repeats). An error thrown by the request
      is not caught here and reaches the framework as an unhandled error. */
  function HandleDelete(apiKey: Option<string>, fileIdParam: Json, reply: DeleteReply): (h: Handled)
    ensures !Configured(apiKey) ==> h == Handled(UploadResponse(500, UploadError(MissingKeyMsg)), [])
    ensures Configured(apiKey) && !(fileIdParam.JStr? && fileIdParam.s != "") ==>
      h == Handled(UploadResponse(400, UploadError(FileIdRequiredMsg)), [])
    ensures Configured(apiKey) && fileIdParam.JStr? && fileIdParam.s != "" ==>
      h.effects == [DeleteFile(StripFilesPrefix(fileIdParam.s))]
    ensures h.response.status == 502 ==>
      h.response.body.UploadError? && |h.response.body.error| <= ErrorDetailLength &&
      reply.DeleteResponse? && !reply.ok && h.response.body.error <= reply.body
    ensures h.response.status == 200 <==>
      Configured(apiKey) && fileIdParam.JStr? && fileIdParam.s != "" && reply.DeleteResponse? && reply.ok
    // a refusal passes on the first 200 characters of the provider's body
    ensures Configured(apiKey) && fileIdParam.JStr? && fileIdParam.s != "" && reply.DeleteResponse? && !reply.ok ==>
      h.response == UploadResponse(502, UploadError(Slice(reply.body, ErrorDetailLength)))
    ensures Configured(apiKey) && fileIdParam.JStr? && fileIdParam.s != "" && reply.DeleteNetworkError? ==>
      h.response == UploadResponse(500, Unhandled(reply.message))
  {
    if !Configured(apiKey) then Handled(UploadResponse(500, UploadError(MissingKeyMsg)), [])
    else if !(fileIdParam.JStr? && fileIdParam.s != "") then
      Handled(UploadResponse(400, UploadError(FileIdRequiredMsg)), [])
    else
      var effects := [DeleteFile(StripFilesPrefix(fileIdParam.s))];
      match reply
      case DeleteNetworkError(m) => Handled(UploadResponse(500, Unhandled(m)), effects)
      case DeleteResponse(ok, body) =>
        if !ok then Handled(UploadResponse(502, UploadError(Slice(body, ErrorDetailLength))), effects)
        else Handled(UploadResponse(200, Deleted), effects)
  }

  datatype UploadRequest = UploadRequest(httpMethod: string, form: FormResult, fileIdParam: Json)

  /** `handler`: POST and DELETE go to their handlers, anything else is 405. */
  function Handle(req: UploadRequest, apiKey: Option<string>, io: UploadIo, deleteReply: DeleteReply): (h: Handled)
    ensures req.httpMethod == "POST" ==> h == HandlePost(apiKey, req.form, io)
    ensures req.httpMethod == "DELETE" ==> h == HandleDelete(apiKey, req.fileIdParam, deleteReply)
    ensures req.httpMethod != "POST" && req.httpMethod != "DELETE" ==>
      h == Handled(UploadResponse(405, UploadError(OnlyPostOrDelete)), [])
  {
    if req.httpMethod == "POST" then HandlePost(apiKey, req.form, io)
    else if req.httpMethod == "DELETE" then HandleDelete(apiKey, req.fileIdParam, deleteReply)
    else Handled(UploadResponse(405, UploadError(OnlyPostOrDelete)), [])
  }
}
