/** The quiz-generation endpoint: method check, rate limit, text and
    configuration guards, generation with one repair, validation and the
    mapping of outcomes to HTTP statuses. */
module QuizApi {
  import opened Js
  import opened RateLimit
  import opened QuizSchema
  import opened Generation

  /** The parts of the request the handler reads; `body` is the parsed JSON body. */
  datatype QuizRequest = QuizRequest(
    httpMethod: string,
    forwardedFor: Option<string>,
    remoteAddress: Option<string>,
    body: Json)

  /** X-RateLimit-Limit, X-RateLimit-Remaining and (on rejection) Retry-After. */
  datatype RateHeaders = RateHeaders(limit: int, remaining: int, retryAfter: Option<int>)

  datatype QuizBody = QuizError(error: string) | QuizQuestions(questions: Json)

  datatype QuizResponse = QuizResponse(status: int, rateHeaders: Option<RateHeaders>, body: QuizBody)

  /** The response, and the prompts sent to the model, in order. */
  datatype Handled = Handled(response: QuizResponse, calls: seq<string>)

  const MinTextLength: nat := 50

  const OnlyPost: string := "Nur POST"
  const TooManyRequests: string := "Zu viele Anfragen. Bitte später erneut versuchen."
  const TextTooShort: string := "Bitte ausreichend Lerntext senden."
  const MissingKey: string := "Server-Konfiguration fehlt (API Key)."
  const GenerationFailed: string := "Fehler bei der Generierung"

  const PromptHead: string :=
    "Du bist ein Trainer für angehende Product Manager.\nAus folgendem Text:\n\""
  const PromptTail: string :=
    "\"\n\nErstelle genau 3 Multiple-Choice-Fragen mit je 1 richtigen und 4 falschen Antworten.\n" +
    "Kennzeichne die richtige Antwort und formuliere die Fragen so, dass sie praxisnah sind.\n" +
    "Liefere ausschliesslich gültiges JSON ohne Erklärtext im Format:\n[{\n" +
    "  \"frage\": \"...\",\n" +
    "  \"optionen\": [\"...\",\"...\",\"...\",\"...\",\"...\"],\n" +
    "  \"richtige_index\": 0,\n" +
    "  \"erklaerung\": \"...\"\n}]"

  /** The generation prompt: the study text, untrimmed, between the fixed head and tail. */
  function Prompt(text: string): string {
    Embed(PromptHead, text, PromptTail)
  }

  /** `text` is a string of at least 50 UTF-16 units once trimmed. */
  predicate SufficientText(text: Json) {
    text.JStr? && Utf16Length(Trim(text.s)) >= MinTextLength
  }

  /** The handler after the rate limiter has admitted the request. */
  function RespondAdmitted(headers: RateHeaders, text: Json, apiKey: Option<string>,
                           gen: Generator, parse: JsonParser): (h: Handled)
    ensures h.response.rateHeaders == Some(headers)
    // the guards, in order, before any model call
    ensures !SufficientText(text) ==> h == Handled(QuizResponse(400, Some(headers), QuizError(TextTooShort)), [])
    ensures SufficientText(text) && !Configured(apiKey) ==>
      h == Handled(QuizResponse(500, Some(headers), QuizError(MissingKey)), [])
    ensures h.calls != [] <==> SufficientText(text) && Configured(apiKey)
    // past the guards: one call, plus one repair exactly when generation asks for it
    ensures SufficientText(text) && Configured(apiKey) ==>
      var run := GenerateWithRepair(Prompt(text.s), gen, parse);
      && h.calls == run.calls
      && (run.outcome.Threw? ==>
            h.response == QuizResponse(503, Some(headers), QuizError(OrString(Some(run.outcome.message), GenerationFailed))))
      && (run.outcome.Data? && ValidationError(run.outcome.value).Some? ==>
            h.response == QuizResponse(502, Some(headers), QuizError(Message(ValidationError(run.outcome.value).value))))
      && (run.outcome.Data? && ValidationError(run.outcome.value).None? ==>
            h.response == QuizResponse(200, Some(headers), QuizQuestions(run.outcome.value)))
    ensures h.response.status in {200, 400, 500, 502, 503}
    ensures h.response.status == 200 ==>
      h.response.body.QuizQuestions? && ValidationError(h.response.body.questions).None?
  {
    if !SufficientText(text) then
      Handled(QuizResponse(400, Some(headers), QuizError(TextTooShort)), [])
    else if !Configured(apiKey) then
      Handled(QuizResponse(500, Some(headers), QuizError(MissingKey)), [])
    else
      var run := GenerateWithRepair(Prompt(text.s), gen, parse);
      match run.outcome
      case Threw(m) =>
        Handled(QuizResponse(503, Some(headers), QuizError(OrString(Some(m), GenerationFailed))), run.calls)
      case Data(data) =>
        match ValidationError(data)
        case Some(e) => Handled(QuizResponse(502, Some(headers), QuizError(Message(e))), run.calls)
        case None => Handled(QuizResponse(200, Some(headers), QuizQuestions(data)), run.calls)
  }

  /** A 200 always carries exactly three well-formed questions. */
  lemma SuccessIsWellFormedQuiz(headers: RateHeaders, text: Json, apiKey: Option<string>,
                                gen: Generator, parse: JsonParser)
    ensures var r := RespondAdmitted(headers, text, apiKey, gen, parse).response;
      r.status == 200 ==>
        r.body.QuizQuestions? && r.body.questions.JArr? &&
        |r.body.questions.items| == QuestionCount &&
        forall i :: 0 <= i < QuestionCount ==> WellFormedQuestion(r.body.questions.items[i])
  {
    var r := RespondAdmitted(headers, text, apiKey, gen, parse).response;
    if r.status == 200 {
      ValidationAcceptsIff(r.body.questions);
    }
  }

  /** `handler`: 405 for anything but POST (the limiter untouched), then
      the rate limit, which counts every POST, then the rest. */
  method Handle(limiter: RateLimiter, req: QuizRequest, now: int, apiKey: Option<string>,
                gen: Generator, parse: JsonParser) returns (h: Handled)
    modifies limiter
    ensures req.httpMethod != "POST" ==>
      h == Handled(QuizResponse(405, None, QuizError(OnlyPost)), []) &&
      limiter.usage == old(limiter.usage)
    ensures req.httpMethod == "POST" ==>
      var ip := ClientIp(req.forwardedFor, req.remoteAddress);
      var before := old(limiter.usage);
      && limiter.usage == before[ip := Touch(if ip in before then Some(before[ip]) else None, now)]
      && var d := Decide(limiter.usage[ip], now);
      && (!d.allowed ==>
            h == Handled(QuizResponse(429, Some(RateHeaders(MaxRequests, d.remaining, d.retryAfter)),
                                      QuizError(TooManyRequests)), []))
      && (d.allowed ==>
            h == RespondAdmitted(RateHeaders(MaxRequests, d.remaining, None), Prop(req.body, "text"),
                                 apiKey, gen, parse))
  {
    if req.httpMethod != "POST" {
      return Handled(QuizResponse(405, None, QuizError(OnlyPost)), []);
    }
    var ip := ClientIp(req.forwardedFor, req.remoteAddress);
    var d := limiter.Check(ip, now);
    var headers := RateHeaders(MaxRequests, d.remaining, d.retryAfter);
    if !d.allowed {
      return Handled(QuizResponse(429, Some(headers), QuizError(TooManyRequests)), []);
    }
    h := RespondAdmitted(headers, Prop(req.body, "text"), apiKey, gen, parse);
  }
}
