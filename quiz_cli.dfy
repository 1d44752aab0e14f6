/** The command-line quiz generator: configuration and argument checks,
    generation with one repair, validation, and the process exit code.
    The environment variable and the command-line arguments are inputs;
    console output is modelled as the value printed and the diagnostic. */
module QuizCli {
  import opened Js
  import opened QuizSchema
  import opened Generation

  const MissingKeyMsg: string := "Fehlender GEMINI_API_KEY. Lege ihn in .env.local an."
  const UsageMsg: string := "Gib Lerntext als Argument an. Beispiel: npm run quiz -- \"Dein PM-Text\""
  const BadDataPrefix: string := "Fehlerhafte Quiz-Daten: "
  const GenerationFailedPrefix: string := "Fehler bei der Generierung: "

  const PromptHead: string :=
    "Du bist ein Trainer für angehende Product Manager.\nAus folgendem Text:\n\""
  const PromptTail: string :=
    "\"\n\nErstelle genau 3 Multiple-Choice-Fragen mit je 1 richtigen und 4 falschen Antworten.\n\n" +
    "WICHTIGE REGELN für die Fragen:\n" +
    "- Die richtige Antwort muss EINDEUTIG richtig sein basierend auf dem gegebenen Text\n" +
    "- Die falschen Antworten müssen KLAR falsch oder unpassend für den Kontext sein\n" +
    "- Vermeide Antworten, die \"auch richtig\" sein könnten\n" +
    "- Fokussiere auf spezifische Details aus dem Text, nicht auf allgemeine PM-Prinzipien\n" +
    "- Stelle sicher, dass nur eine Antwort logisch korrekt ist\n\n" +
    "Liefere ausschließlich gültiges JSON ohne Erklärtext im Format:\n[{\n" +
    "  \"frage\": \"...\",\n" +
    "  \"optionen\": [\"...\",\"...\",\"...\",\"...\",\"...\"],\n" +
    "  \"richtige_index\": 0,\n" +
    "  \"erklaerung\": \"...\"\n}]"

  /** The prompt: the trimmed user input between the fixed head and tail. */
  function Prompt(input: string): string {
    Embed(PromptHead, input, PromptTail)
  }

  /** `parts.join(sep)`. */
  function Join(parts: seq<string>, sep: string): string
    decreases |parts|
  {
    if |parts| == 0 then ""
    else if |parts| == 1 then parts[0]
    else parts[0] + sep + Join(parts[1..], sep)
  }

  /** `process.argv.slice(2).join(' ').trim()`. */
  function UserInput(args: seq<string>): string {
    Trim(Join(args, " "))
  }

  /** Joining with spaces yields only whitespace exactly when every part is whitespace. */
  lemma {:induction false} JoinAllWhitespace(parts: seq<string>)
    ensures AllWhitespace(Join(parts, " ")) <==> forall i :: 0 <= i < |parts| ==> AllWhitespace(parts[i])
    decreases |parts|
  {
    if |parts| > 1 {
      JoinAllWhitespace(parts[1..]);
      AllWhitespaceConcat(parts[0] + " ", Join(parts[1..], " "));
      AllWhitespaceConcat(parts[0], " ");
      assert forall i :: 1 <= i < |parts| ==> parts[i] == parts[1..][i - 1];
    }
  }

  /** The input is empty exactly when there are no arguments or every
      argument is blank. */
  lemma NoInputIff(args: seq<string>)
    ensures UserInput(args) == "" <==> forall i :: 0 <= i < |args| ==> AllWhitespace(args[i])
  {
    JoinAllWhitespace(args);
    var _ := TrimSpec(Join(args, " "));
  }

  /** How the process ends: its exit code, what it prints on stdout (the
      quiz, serialised) and stderr, and the prompts sent to the model. */
  datatype CliOutcome = CliOutcome(exitCode: int, printed: Option<Json>, diagnostic: Option<string>,
                                   calls: seq<string>)

  /** The whole script for the given environment key and arguments. */
  function Run(apiKey: Option<string>, args: seq<string>, gen: Generator, parse: JsonParser): (o: CliOutcome)
    // the two guards end the process with code 1 before any model call
    ensures !Configured(apiKey) ==> o == CliOutcome(1, None, Some(MissingKeyMsg), [])
    ensures Configured(apiKey) && UserInput(args) == "" ==> o == CliOutcome(1, None, Some(UsageMsg), [])
    ensures o.calls != [] <==> Configured(apiKey) && UserInput(args) != ""
    ensures Configured(apiKey) && UserInput(args) != "" ==>
      var run := GenerateWithRepair(Prompt(UserInput(args)), gen, parse);
      && o.calls == run.calls
      && (run.outcome.Threw? ==>
            o == CliOutcome(3, None, Some(GenerationFailedPrefix + run.outcome.message), run.calls))
      && (run.outcome.Data? && ValidationError(run.outcome.value).Some? ==>
            o == CliOutcome(2, None, Some(BadDataPrefix + Message(ValidationError(run.outcome.value).value)),
                            run.calls))
      && (run.outcome.Data? && ValidationError(run.outcome.value).None? ==>
            o == CliOutcome(0, Some(run.outcome.value), None, run.calls))
    ensures o.exitCode in {0, 1, 2, 3}
    // only a valid quiz is printed, and printing is what success means
    ensures o.exitCode == 0 <==> o.printed.Some?
    ensures o.printed.Some? ==> ValidationError(o.printed.value).None?
  {
    if !Configured(apiKey) then CliOutcome(1, None, Some(MissingKeyMsg), [])
    else
      var input := UserInput(args);
      if input == "" then CliOutcome(1, None, Some(UsageMsg), [])
      else
        var run := GenerateWithRepair(Prompt(input), gen, parse);
        match run.outcome
        case Threw(m) => CliOutcome(3, None, Some(GenerationFailedPrefix + m), run.calls)
        case Data(data) =>
          match ValidationError(data)
          case Some(e) => CliOutcome(2, None, Some(BadDataPrefix + Message(e)), run.calls)
          case None => CliOutcome(0, Some(data), None, run.calls)
  }

  /** A printed quiz is always three well-formed questions. */
  lemma PrintedQuizIsWellFormed(apiKey: Option<string>, args: seq<string>, gen: Generator, parse: JsonParser)
    ensures var o := Run(apiKey, args, gen, parse);
      o.printed.Some? ==>
        o.printed.value.JArr? && |o.printed.value.items| == QuestionCount &&
        forall i :: 0 <= i < QuestionCount ==> WellFormedQuestion(o.printed.value.items[i])
  {
    var o := Run(apiKey, args, gen, parse);
    if o.printed.Some? {
      ValidationAcceptsIff(o.printed.value);
    }
  }
}
