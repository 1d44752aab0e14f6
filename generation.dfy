/** The generate-then-repair-once step shared by the web endpoint and the
    command-line generator: one generateContent call, and a second one only
    when the first output does not parse to a truthy value. The provider
    is an oracle from prompt to reply. */
module Generation {
  import opened Js

  /** A generateContent call either yields the response text or throws. */
  datatype GenReply = Generated(text: string) | GenThrew(message: string)

  type Generator = string -> GenReply

  /** What the step ends with: the parsed data (null when unparseable), or
      the error thrown by one of the calls. */
  datatype GenOutcome = Data(value: Json) | Threw(message: string)

  /** The prompts sent, in order, and the outcome. */
  datatype GenRun = GenRun(calls: seq<string>, outcome: GenOutcome)

  /** `safeParseJson`: the parsed value, or null when JSON.parse throws. */
  function SafeParse(parse: JsonParser, text: string): (v: Json)
    ensures parse(text).SyntaxError? ==> v == JNull
    ensures parse(text).Parsed? ==> v == parse(text).value
  {
    match parse(text)
    case Parsed(v) => v
    case SyntaxError(_) => JNull
  }

  /** A template literal `${head}${text}${tail}`: the text sits verbatim
      between the fixed parts, so it can be read back out of the prompt. */
  function Embed(head: string, text: string, tail: string): (p: string)
    ensures |p| == |head| + |text| + |tail|
    ensures head <= p && p[|head|..|head| + |text|] == text && p[|head| + |text|..] == tail
  {
    head + text + tail
  }

  const FixPromptHead: string :=
    "Korrigiere folgende Ausgabe zu gültigem JSON Array im spezifizierten Schema, ohne jeglichen Zusatztext:\n"

  /** The repair prompt quotes the first output in full. */
  function FixPrompt(output: string): (p: string)
    ensures FixPromptHead <= p && p[|FixPromptHead|..] == output
  {
    FixPromptHead + output
  }

  function GenerateWithRepair(prompt: string, gen: Generator, parse: JsonParser): (r: GenRun)
    // the first call always carries the prompt, and at most one repair follows
    ensures 1 <= |r.calls| <= 2 && r.calls[0] == prompt
    // the repair is made exactly when the first call returned text that
    // does not parse to a truthy value
    ensures |r.calls| == 2 <==>
      gen(prompt).Generated? && !Truthy(SafeParse(parse, gen(prompt).text))
    ensures |r.calls| == 2 ==> r.calls[1] == FixPrompt(gen(prompt).text)
    // without repair: the error of the first call, or its parsed output
    ensures |r.calls| == 1 && gen(prompt).GenThrew? ==> r.outcome == Threw(gen(prompt).message)
    ensures |r.calls| == 1 && gen(prompt).Generated? ==>
      r.outcome == Data(SafeParse(parse, gen(prompt).text)) && Truthy(r.outcome.value)
    // with repair: the repaired output is parsed once and taken as it is
    ensures |r.calls| == 2 ==>
      r.outcome == match gen(r.calls[1])
                   case Generated(t) => Data(SafeParse(parse, t))
                   case GenThrew(m) => Threw(m)
  {
    match gen(prompt)
    case GenThrew(m) => GenRun([prompt], Threw(m))
    case Generated(out) =>
      var data := SafeParse(parse, out);
      if Truthy(data) then GenRun([prompt], Data(data))
      else
        var fix := FixPrompt(out);
        match gen(fix)
        case GenThrew(m) => GenRun([prompt, fix], Threw(m))
        case Generated(out2) => GenRun([prompt, fix], Data(SafeParse(parse, out2)))
  }
}
