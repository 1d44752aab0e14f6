# franklin-pm quiz pipeline in Dafny

This project models the server and client logic of franklin-pm, a Next.js
app that makes multiple-choice quizzes out of product-management study
material. It models five pieces:

- **Quiz endpoint** (`pages/api/generate-quiz.js`). It has a per-client
  fixed-window rate limiter: 10 requests per 15 minutes, keyed by the
  first X-Forwarded-For hop. Requests then pass a guard chain: method,
  rate limit, text length, API key. Then come one generation call, at
  most one repair call and validation against the quiz schema (exactly 3
  questions, 5 options each, `richtige_index` in 0..4, a non-blank
  explanation). Outcomes map to 200/400/405/429/500/502/503.
- **File-ingestion gateway** (`pages/api/gemini-upload.js`). POST hands
  a multipart upload to the provider's two-phase resumable upload, then
  polls the file's processing state within a bounded budget. DELETE
  removes a provider file. Any other method gets a 405.
- **PDF text extraction** (`pages/api/upload-pdf.js`). The guards run in
  order: field, path, 5 MiB size, MIME type. Then text is extracted, and
  the catch block maps errors to a status.
- **Command-line generator** (`scripts/generate-quiz.mjs`). It uses the
  same validator and the same repair-once step. It ends with exit codes
  0/1/2/3.
- **Quiz page** (`pages/index.js`). This is the client state machine:
  generate, answer one question at a time, next, restart.

Modules:

- `Js` holds the JavaScript semantics the code relies on: JSON values,
  truthiness, `?.` property reads, `trim`, UTF-16 `length`, `slice` and
  `includes`.
- `Multipart` holds formidable's file fields.
- `QuizSchema` is the validator. The web copy and the CLI copy of
  `validate` are textually identical, so one module models both.
- `Generation` is generate-then-repair-once, shared by the endpoint and
  the CLI.
- `RateLimit` is the limiter, a class whose field is the `ipToUsage` map.
- `QuizApi`, `GeminiUpload`, `PdfUpload`, `QuizCli` and `QuizPage` model
  one source file each.

Everything outside the process is an input. This covers:

- the generative-AI provider, as an oracle from prompt to reply;
- `JSON.parse`, as an oracle from text to value or SyntaxError;
- the status polls, as a sequence of replies;
- formidable, `fs`, `pdf-parse` and `fetch` replies, as plain values;
- `Date.now()`, as an integer parameter.

Handlers return their response together with a trace of the calls they
made: model prompts, file-system and provider requests. The trace lets
contracts say what happens "before any network call".

`waitForActive` and `validate` are loops in the source. They are Dafny
methods with loops, proved equal to the recursive specification functions
`PollFrom` and `ValidationError`. The handlers, which are functions, use
those specifications. `checkRateLimit` mutates a shared map, so it is a
method of the `RateLimiter` class. The page's React state is the `Page`
class, one method per event handler.

Where the intended design and the code differ, the model follows the
code:

- the question count is always 3 and does not depend on text length;
- no answers are shuffled;
- no markdown fences are stripped before parsing;
- the quiz endpoint reads only `text` and has no file parts;
- the repair call is made only when the first output parses to a falsy
  value, not after a validation failure;
- the temporary file is not removed on every path: the PDF endpoint removes
  it only before its 200, and the file gateway removes it once the provider
  has named the uploaded file (before polling, so a later 500 from polling
  or from a non-string name comes after the removal); both keep it after
  every guard failure, every earlier error and the gateway's 502.

## Model

| member | source | states |
|---|---|---|
| Js.Prop | pages/api/gemini-upload.js:114-116 | `v?.key` is the key's value when v is an object that has the key, and undefined otherwise |
| Js.FirstNonEmpty | pages/api/gemini-upload.js:102 | `a \|\| b` on optional strings is the first non-empty one, and absent only when both are falsy |
| Js.TrimStartSpec | pages/api/generate-quiz.js:10 | TrimStart keeps a suffix, drops only whitespace, and does not start with whitespace |
| Js.TrimEndSpec | pages/api/generate-quiz.js:10 | TrimEnd keeps a prefix, drops only whitespace, and does not end with whitespace |
| Js.TrimPiece | pages/api/generate-quiz.js:57 | `trim()` returns a contiguous piece of s with only whitespace around it, and neither end of the piece is whitespace |
| Js.TrimSpec | pages/api/generate-quiz.js:57 | the same piece, and it is empty exactly when s is all whitespace |
| Js.Utf16Length | pages/api/generate-quiz.js:57 | `.length` counts UTF-16 units: between \|s\| and 2\|s\|, and exactly \|s\| when every character is in the Basic Multilingual Plane |
| Js.Utf16LengthOfChar | pages/api/generate-quiz.js:57 | one character counts 1 inside the Basic Multilingual Plane and 2 (a surrogate pair) outside it |
| Js.Utf16LengthConcat | pages/api/generate-quiz.js:57 | lengths add over concatenation, so with the one-character values the length of every string is fixed |
| Js.Slice | pages/api/gemini-upload.js:66 | `slice(0, n)` is a prefix of at most n characters, the whole string when it is short enough |
| Js.IncludesAt | pages/api/upload-pdf.js:45 | sub occurring at any position k of s makes `s.includes(sub)` true |
| Js.IncludesWitness | pages/api/upload-pdf.js:57 | `s.includes(sub)` yields a position where sub occurs |
| Multipart.PickField | pages/api/gemini-upload.js:99 | `files.a \|\| files.b \|\| ...` is absent iff no listed field is present, else the value of a present listed field |
| Multipart.PickFieldFirst | pages/api/gemini-upload.js:99 | the first present field in the list wins |
| QuizSchema.MessagesDistinct | pages/api/generate-quiz.js:44-48 | the four validation messages are pairwise different, so the message identifies the failed check |
| QuizSchema.QuestionError | pages/api/generate-quiz.js:46-48 | one item passes iff it has a string `frage`, 5 `optionen`, a number `richtige_index` in [0, 4] and a non-blank string `erklaerung`; a failure reports the options check first, then the index, then the explanation |
| QuizSchema.ItemsError | pages/api/generate-quiz.js:45-49 | the scan over the items never reports the count error |
| QuizSchema.ValidationError | pages/api/generate-quiz.js:43-51 | a value that is not an array of exactly 3 elements fails the count check before any item is looked at; otherwise the result is the item scan's, never the count error |
| QuizSchema.ItemsErrorNoneIff | pages/api/generate-quiz.js:45-50 | no item error iff every item is well formed |
| QuizSchema.ValidationAcceptsIff | pages/api/generate-quiz.js:43-51 | `validate` returns null iff the input is an array of exactly 3 well-formed questions |
| QuizSchema.ItemsErrorFirstFailure | pages/api/generate-quiz.js:45-49 | when items 0..k-1 pass and item k fails, the result is item k's own first failure, whatever follows |
| QuizSchema.ValidationFirstFailure | pages/api/generate-quiz.js:43-49 | the same first-failure rule for a 3-element array |
| QuizSchema.Validate | scripts/generate-quiz.mjs:55-63 | the loop returns null iff ValidationError finds nothing, and otherwise the message of the first failure |
| Generation.FixPrompt | pages/api/generate-quiz.js:76 | the repair prompt is the fixed instruction followed by the whole first output |
| Generation.GenerateWithRepair | pages/api/generate-quiz.js:72-79 | 1 or 2 calls, the first with the prompt; the second iff the first returned text that parses to a falsy value, carrying the fix prompt; the outcome is the first error, the truthy first parse, or the single parse of the repaired output |
| Generation.Embed | pages/api/generate-quiz.js:64-69 | the prompt template holds the text verbatim between its fixed head and tail, so the text can be read back; the command-line prompt (scripts/generate-quiz.mjs:26-45) uses it with its own tail and the trimmed input |
| RateLimit.FirstSegment | pages/api/generate-quiz.js:10 | `split(',')[0]` is a comma-free prefix ending at the first comma or the end |
| RateLimit.FirstSegmentOf | pages/api/generate-quiz.js:10 | the first segment of hop + ",rest" is hop |
| RateLimit.ClientIp | pages/api/generate-quiz.js:8-12 | a non-empty header gives a comma-free, trimmed identity no longer than the header; otherwise the remote address, or 'unknown', never empty |
| RateLimit.ClientIpIsFirstHop | pages/api/generate-quiz.js:10 | a header "hop, later hops" identifies the client as trim(hop) |
| RateLimit.CeilDiv | pages/api/generate-quiz.js:28 | `Math.ceil(a / b)` is the least r with a <= r * b |
| RateLimit.Touch | pages/api/generate-quiz.js:17-22 | an unseen or expired entry restarts as count 1 at now; otherwise the count goes up by one and the start stays |
| RateLimit.Decide | pages/api/generate-quiz.js:24-31 | admitted iff count <= 10; remaining = max(0, 10 - count) in [0, 10]; Retry-After present iff rejected, as the ceiling of the seconds left in the window |
| RateLimit.RejectionRetryAfter | pages/api/generate-quiz.js:18-28 | a rejection's Retry-After is at least 1 second, and at most 900 when the clock has not gone back |
| RateLimit.ExpiredWindowAdmits | pages/api/generate-quiz.js:18-27 | the first request after the window expired is admitted and counts as 1 |
| RateLimit.Replay | pages/api/generate-quiz.js:17-23 | a series of calls always leaves an entry |
| RateLimit.ReplayWithinWindow | pages/api/generate-quiz.js:18-22 | calls inside an open window add exactly their number to the count |
| RateLimit.BurstFromNewClient | pages/api/generate-quiz.js:17-27 | a burst of n calls inside one window counts n, and the n-th is rejected iff n > 10, so the 11th is the first rejection |
| RateLimit.RateLimiter.constructor | pages/api/generate-quiz.js:6 | the table starts empty |
| RateLimit.RateLimiter.Check | pages/api/generate-quiz.js:14-34 | the caller's entry becomes Touch of its old entry, every other client's entry is unchanged, and the verdict is Decide on the new entry |
| QuizApi.RespondAdmitted | pages/api/generate-quiz.js:56-85 | after admission: 400 for a too-short text, then 500 without a key, both with no model call; otherwise the calls of generate-with-repair and 503 on a throw, 502 with the validator's message, or 200 with the validated questions |
| QuizApi.SuccessIsWellFormedQuiz | pages/api/generate-quiz.js:80-82 | every 200 carries exactly 3 well-formed questions |
| QuizApi.Handle | pages/api/generate-quiz.js:53-62 | non-POST gets 405 with the limiter untouched; every POST is counted, rejected ones get 429 with the rate headers and no model call, admitted ones go on, so too-short texts also use quota |
| GeminiUpload.StripFilesPrefix | pages/api/gemini-upload.js:59 | one leading "files/" is removed and nothing else changes |
| GeminiUpload.Classify | pages/api/gemini-upload.js:62-72 | a network error escapes; a non-ok reply is UNKNOWN with at most 200 characters of body; an ok reply that parses with state ACTIVE gives success/ACTIVE, with FAILED gives failure/FAILED with "processing failed", and anything else goes on polling |
| GeminiUpload.PollFrom | pages/api/gemini-upload.js:58-78 | at most maxAttempts requests, none when maxAttempts <= 0, one sleep fewer than requests, and a settled state is ACTIVE, FAILED, UNKNOWN or PROCESSING with success iff ACTIVE |
| GeminiUpload.PollStopsAtFirstTerminal | pages/api/gemini-upload.js:64-71 | the first terminal reply at attempt k decides the result after k+1 requests and k sleeps |
| GeminiUpload.PollExhausts | pages/api/gemini-upload.js:61-77 | without a terminal reply the result is PROCESSING with success false after exactly maxAttempts requests |
| GeminiUpload.WaitForActive | pages/api/gemini-upload.js:58-78 | the loop's result, request count and sleep count equal PollFrom's |
| GeminiUpload.Fail500 | pages/api/gemini-upload.js:133-135 | the catch block answers 500 with the error's message when it is non-empty, and the default message otherwise |
| GeminiUpload.Screen | pages/api/gemini-upload.js:99-107 | no listed field gives 400; an empty file array gives the TypeError 500; then a missing path gives 400; then size > 10 MiB gives 400; a file with a path within 10 MiB is accepted with that path and the defaulted MIME type and name |
| GeminiUpload.StartUploadStep | pages/api/gemini-upload.js:30-37 | the upload URL comes back iff the reply is ok and has a non-empty URL header; otherwise the network error, the body's `error.message` or 'Upload initialization failed' for a non-ok reply, or 'No upload URL returned by Gemini' |
| GeminiUpload.ProviderMessage | pages/api/gemini-upload.js:51-53 | the error is the body's `error.message` when the body parses and that is a non-empty string, and the fallback otherwise |
| GeminiUpload.TransferStep | pages/api/gemini-upload.js:49-55 | the parsed body comes back iff the reply is ok and the body parses; otherwise the network error, ProviderMessage with 'File upload failed' for a non-ok reply, or the SyntaxError of an unparseable ok body |
| GeminiUpload.Transfer | pages/api/gemini-upload.js:109-132 | the temporary file is read first; a failed read, upload start or byte transfer answers 500 with its error and nothing after it is sent; a 200 needs all three to succeed and reports the provider's `file.name`; the temporary file is removed exactly when the provider named the file, and before any status request; at most 10 status requests |
| GeminiUpload.HandlePost | pages/api/gemini-upload.js:80-136 | no key gives 500 with no other step; a form error gives 500; every 400 happens right after parsing with no file or provider access; accepted files go through Transfer |
| GeminiUpload.TransferAfterUpload | pages/api/gemini-upload.js:114-132 | after a successful transfer: a missing file name gives 502 and keeps the temporary file; an ACTIVE file gives 200 with its name, ACTIVE and the size without polling; a non-string name gives the TypeError 500; otherwise the polled state is reported with 200, or the poll's error with 500; sizeBytes falls back to the buffer length |
| GeminiUpload.HandleDelete | pages/api/gemini-upload.js:138-151 | no key gives 500, and a missing or non-string fileId gives 400, both with no request; otherwise one DELETE of the stripped id; a non-ok reply gives 502 with the first 200 characters of its body; 200 iff the reply is ok |
| GeminiUpload.Handle | pages/api/gemini-upload.js:153-157 | POST and DELETE go to their handlers; anything else gets 405 with no effect |
| PdfUpload.Caught | pages/api/upload-pdf.js:56-61 | an error mentioning "maxFileSize exceeded" gives the size 400; any other gives 500 with its message, or 'Upload fehlgeschlagen' when the message is empty |
| PdfUpload.Screen | pages/api/upload-pdf.js:34-45 | fields file, upload, pdf in order; an empty file array goes to the catch block as a TypeError; then missing path, size > 5 MiB and a MIME type without "pdf" (absent counts as "") give their 400s; a file passing all three is accepted under its path |
| PdfUpload.Extract | pages/api/upload-pdf.js:47-55 | read and parser errors go through the catch block; blank text gives 400; other text gives 200 with the trimmed text and removes the temporary file; 200 iff the file is removed |
| PdfUpload.Handle | pages/api/upload-pdf.js:16-62 | non-POST gets 405 before parsing; guard failures come right after parsing; a 200 carries non-empty text |
| PdfUpload.SizeLimitIsInclusive | pages/api/upload-pdf.js:44 | for any file under any of the fields with a path and a PDF MIME type, exactly 5 MiB passes and one byte more is refused |
| PdfUpload.PdfMimeTypePasses | pages/api/upload-pdf.js:40-45 | any picked file with a path and type `application/pdf` passes the MIME guard, so it is accepted iff it is within 5 MiB |
| QuizCli.JoinAllWhitespace | scripts/generate-quiz.mjs:20 | the arguments joined with spaces are all whitespace iff every argument is |
| QuizCli.NoInputIff | scripts/generate-quiz.mjs:20-21 | the input is empty iff there are no arguments or all are blank |
| QuizCli.Run | scripts/generate-quiz.mjs:11-88 | a missing key, then empty input, exit 1 with no model call; otherwise the calls of generate-with-repair and exit 3 on a throw, 2 with the validator's message, or 0 printing the data; printed iff exit 0, and only valid data |
| QuizCli.PrintedQuizIsWellFormed | scripts/generate-quiz.mjs:78-84 | printed data is always 3 well-formed questions |
| QuizPage.PageGuardMatchesEndpoint | pages/index.js:19 | the page's text guard accepts exactly the texts the endpoint's guard accepts |
| QuizPage.ErrorText | pages/index.js:24 | a non-empty string `data.error` is shown, a falsy one becomes 'Fehler' |
| QuizPage.QuestionList | pages/index.js:25 | an array is taken as the questions, a falsy value as none |
| QuizPage.Load | pages/index.js:21-30 | questions are stored iff the response is ok and its body parses to non-null; otherwise the fetch error, the parse error, the server's error text, or the TypeError of reading `error` or `questions` of a null body |
| QuizPage.RoundDiv | pages/index.js:15 | `Math.round(x / d)` is within half a unit of x / d, halves rounded up |
| QuizPage.PercentBounds | pages/index.js:109 | the rounded percentage of score out of n is in [0, 100], 0 for no points and 100 for all |
| QuizPage.Page.constructor | pages/index.js:4-12 | the initial state: empty text, no questions, index 0, nothing selected, score 0, no timestamps |
| QuizPage.Page.ScoreWithinQuiz | pages/index.js:33-45 | score <= idx + (selected ? 1 : 0) <= number of questions |
| QuizPage.Page.ScorePercent | pages/index.js:109 | the result percentage lies in [0, 100] |
| QuizPage.Page.Elapsed | pages/index.js:15 | 0 unless both timestamps are set, otherwise the rounded number of seconds between them |
| QuizPage.Page.EditText | pages/index.js:59 | only the text changes |
| QuizPage.Page.BeginGenerate | pages/index.js:17-20 | the quiz state is reset; a text failing the guard sets the error and sends no request; otherwise loading starts at now and the untrimmed text is sent |
| QuizPage.Page.CompleteGenerate | pages/index.js:21-30 | loading ends, and either the loaded questions or the error message is stored, nothing else |
| QuizPage.Page.SelectOption | pages/index.js:33-37 | nothing changes once an option is selected; otherwise it selects i and adds a point iff i is the current question's `richtige_index` |
| QuizPage.Page.Next | pages/index.js:39-45 | advances to the next question and clears the selection if there is one; otherwise only stops the clock |
| QuizPage.Page.Restart | pages/index.js:111 | clears questions, index, selection, score, end time and text, so neither card is shown |

## Left out

- Network, files and SDK: `fetch`, the `@google/generative-ai` SDK, formidable, `fs.readFile`/`unlink` and `pdf-parse` are not modelled. Their replies are inputs, and their requests appear in traces without URLs or headers.
- `encodeURIComponent` and URL building are not modelled. Traces record the stripped file id.
- JSON serialisation is not modelled: `JSON.stringify` of request and response bodies, and the CLI's pretty-printing.
- The internals of `JSON.parse` are not modelled; parsing is an oracle.
- Time: `Date.now()` is a parameter, and `setTimeout` sleeps are counted, not waited for. The 2-second poll interval does not appear.
- Concurrency is not modelled. Requests and page events run one at a time, as under the JavaScript event loop. Overlapping `generate` calls on the page are not modelled.
- Floating point is not modelled. JSON numbers are exact reals, and `Math.round` for the elapsed time and the score percentage uses exact integers. IEEE rounding of `score / length * 100` is out of scope.
- QuizPage.Page.IsCorrect: compares an integer option index with `richtige_index` by value, so a non-integral index in [0, 4] passes validation but never matches, as in the source.
- Js.Slice: counts characters (code points), where JavaScript counts UTF-16 units. A string with characters outside the Basic Multilingual Plane is cut at a different place.
- GeminiUpload.StartUploadStep: a truthy `error.message` that is not a string is treated as absent. The source would convert it with `String()`.
- GeminiUpload.ProviderMessage: the same for a non-string `error.message`.
- QuizPage.ErrorText: a truthy `data.error` that is not a string is shown as 'Fehler'. The source would show its `String()` conversion.
- QuizPage.QuestionList: a truthy `data.questions` that is not an array counts as no questions. The source would store it as it is.
- PdfUpload.Extract: a `text` property of the parser result that is not a string is treated as absent. The source would throw on `trim`.
- QuizCli.Run: the diagnostic for a thrown error with an empty message is "prefix + empty message". The source prints the error object itself there.
- QuizCli.Run: stdout/stderr formatting, `process.exit` and the `.env.local`/`.env` loading order are not modelled. The key is an input and the exit code is the result.
- GeminiUpload.HandleDelete: a request that throws is reported as an unhandled 500. The framework's error page is not modelled.
- Response headers other than X-RateLimit-Limit, X-RateLimit-Remaining and Retry-After are not modelled, and header values appear as integers.
- The model name, the provider endpoints and the prompt wording carry no behaviour. They appear only as the prompt constants.
- Rendering is not modelled: the JSX of `pages/index.js` beyond which card is shown, and `pages/_document.js`, `pages/500.js` and `pages/404.js`.
