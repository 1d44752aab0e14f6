/** The quiz page's client-side state machine: the study text, the fetch
    of a generated quiz, answering one question at a time with a running
    score, the result screen and the restart. Each React state variable is
    a field, each event handler a method; clock readings (`Date.now()`) and
    the fetch reply are parameters. Rendering is reduced to the predicates
    that decide which card is shown. */
module QuizPage {
  import opened Js
  import QuizApi

  const MinTextLength: nat := 50
  const TooShortMsg: string := "Bitte mehr Text eingeben (mind. 50 Zeichen)."
  const DefaultFetchError: string := "Fehler"
  /** The TypeErrors of reading a property of a null response body. */
  const NullErrorRead: string := "Cannot read properties of null (reading 'error')"
  const NullQuestionsRead: string := "Cannot read properties of null (reading 'questions')"

  /** The POST to the quiz endpoint: the response's `ok` flag and what
      `res.json()` yields, or the error fetch throws. */
  datatype FetchReply = Responded(ok: bool, body: ParseResult) | FetchFailed(message: string)

  /** What the try block ends with: the questions to show, or the message
      of the error it caught. */
  datatype Loaded = Questions(items: seq<Json>) | Failed(message: string)

  /** The guard of `generate`: a non-empty text of at least 50 UTF-16 units once trimmed. */
  predicate LongEnough(text: string) {
    !(text == "" || Utf16Length(Trim(text)) < MinTextLength)
  }

  /** The page lets through exactly the texts the endpoint accepts, so the
      endpoint's 400 for short texts is not reached from the page. */
  lemma PageGuardMatchesEndpoint(text: string)
    ensures LongEnough(text) <==> QuizApi.SufficientText(JStr(text))
  {
    if text == "" {
      assert Trim(text) == [];
    }
  }

  /** `data.error || 'Fehler'` for a string error. */
  function ErrorText(data: Json): (m: string)
    ensures Prop(data, "error").JStr? && Prop(data, "error").s != "" ==> m == Prop(data, "error").s
    ensures !Truthy(Prop(data, "error")) ==> m == DefaultFetchError
    ensures m != ""
  {
    var e := Prop(data, "error");
    if e.JStr? && e.s != "" then e.s else DefaultFetchError
  }

  /** `data.questions || []` for an array of questions. */
  function QuestionList(v: Json): (qs: seq<Json>)
    ensures v.JArr? ==> qs == v.items
    ensures !Truthy(v) ==> qs == []
  {
    if v.JArr? then v.items else []
  }

  /** The try/catch of `generate` after the fetch. */
  function Load(reply: FetchReply): (r: Loaded)
    ensures r.Questions? <==> reply.Responded? && reply.ok && reply.body.Parsed? && reply.body.value != JNull
    ensures r.Questions? ==> r.items == QuestionList(Prop(reply.body.value, "questions"))
    ensures reply.FetchFailed? ==> r == Failed(reply.message)
    ensures reply.Responded? && reply.body.SyntaxError? ==> r == Failed(reply.body.message)
    ensures reply.Responded? && !reply.ok && reply.body.Parsed? ==>
      r == Failed(if reply.body.value == JNull then NullErrorRead else ErrorText(reply.body.value))
    ensures reply.Responded? && reply.ok && reply.body == Parsed(JNull) ==> r == Failed(NullQuestionsRead)
  {
    match reply
    case FetchFailed(m) => Failed(m)
    case Responded(ok, body) =>
      match body
      case SyntaxError(m) => Failed(m)
      case Parsed(data) =>
        if !ok then Failed(if data == JNull then NullErrorRead else ErrorText(data))
        else if data == JNull then Failed(NullQuestionsRead)
        else Questions(QuestionList(Prop(data, "questions")))
  }

  /** `Math.round(x / d)` for d > 0: the nearest whole number, halves rounded up. */
  function RoundDiv(x: int, d: int): (r: int)
    requires d > 0
    ensures 2 * x - d < 2 * r * d <= 2 * x + d
  {
    var q, m := (2 * x + d) / (2 * d), (2 * x + d) % (2 * d);
    assert 2 * x + d == q * (2 * d) + m && 0 <= m < 2 * d;
    q
  }

  /** For a positive n, bounds on a * n are bounds on a. */
  lemma ProductBounds(a: int, n: int, lo: int, hi: int)
    requires n > 0 && lo * n < a * n <= hi * n
    ensures lo < a <= hi
  {
  }

  /** The rounded percentage of `score` out of n lies in [0, 100], and is
      exactly 0 and 100 at the ends. */
  lemma PercentBounds(score: int, n: int)
    requires n > 0 && 0 <= score <= n
    ensures 0 <= RoundDiv(score * 100, n) <= 100
    ensures score == n ==> RoundDiv(score * 100, n) == 100
    ensures score == 0 ==> RoundDiv(score * 100, n) == 0
  {
    var p := RoundDiv(score * 100, n);
    assert 2 * p * n == (2 * p) * n;
    ProductBounds(2 * p, n, -1, 201);
    if score == n {
      ProductBounds(2 * p, n, 199, 201);
    }
    if score == 0 {
      ProductBounds(2 * p, n, -1, 1);
    }
  }

  class Page {
    var text: string
    var loading: bool
    var error: string
    var questions: seq<Json>
    var idx: int
    var selected: Option<int>
    var score: int
    var startTs: Option<int>
    var endTs: Option<int>

    /** The position is within the quiz, a point is scored at most once
        per question reached (so never more points than questions), and a
        fetch in flight starts from an empty quiz. */
    ghost predicate Valid()
      reads this
    {
      && 0 <= idx
      && (questions == [] ==> idx == 0 && score == 0)
      && (questions != [] ==> idx < |questions|)
      && 0 <= score <= idx + (if selected.Some? then 1 else 0)
      && (loading ==> questions == [])
    }

    /** The bound the invariant gives: score <= idx + (selected ? 1 : 0) <= |questions|. */
    lemma ScoreWithinQuiz()
      requires Valid()
      ensures score <= idx + (if selected.Some? then 1 else 0)
      ensures questions != [] ==> idx + (if selected.Some? then 1 else 0) <= |questions|
      ensures score <= |questions|
    {
    }

    /** The initial state of `Home`. */
    constructor ()
      ensures Valid()
      ensures text == "" && !loading && error == "" && questions == [] && idx == 0
      ensures selected.None? && score == 0 && startTs.None? && endTs.None?
    {
      text := "";
      loading := false;
      error := "";
      questions := [];
      idx := 0;
      selected := None;
      score := 0;
      startTs := None;
      endTs := None;
    }

    /** The quiz card is shown. */
    predicate ShowQuiz()
      reads this
    {
      |questions| > 0 && endTs.None?
    }

    /** The result card is shown. */
    predicate ShowResults()
      reads this
    {
      |questions| > 0 && endTs.Some?
    }

    /** The option i is the right answer to the current question. */
    predicate IsCorrect(i: int)
      reads this
    {
      0 <= idx < |questions| && Prop(questions[idx], "richtige_index") == JNum(i as real)
    }

    /** The score as a whole percentage of the questions. */
    function ScorePercent(): (p: int)
      requires Valid() && questions != []
      reads this
      ensures 0 <= p <= 100
      ensures score == |questions| ==> p == 100
      ensures score == 0 ==> p == 0
    {
      PercentBounds(score, |questions|);
      RoundDiv(score * 100, |questions|)
    }

    /** `elapsed`: whole seconds from start to end, 0 unless both are set
        (a reading of 0 counts as unset). */
    function Elapsed(): (s: int)
      reads this
      ensures !(startTs.Some? && startTs.value != 0 && endTs.Some? && endTs.value != 0) ==> s == 0
      ensures startTs.Some? && startTs.value != 0 && endTs.Some? && endTs.value != 0 ==>
        2 * (endTs.value - startTs.value) - 1000 < 2000 * s <= 2 * (endTs.value - startTs.value) + 1000
    {
      if startTs.Some? && startTs.value != 0 && endTs.Some? && endTs.value != 0
      then RoundDiv(endTs.value - startTs.value, 1000) else 0
    }

    /** The textarea's onChange. */
    method EditText(t: string)
      requires Valid()
      modifies this
      ensures Valid()
      ensures text == t
      ensures loading == old(loading) && error == old(error) && questions == old(questions)
      ensures idx == old(idx) && selected == old(selected) && score == old(score)
      ensures startTs == old(startTs) && endTs == old(endTs)
    {
      text := t;
    }

    /** `generate` up to the fetch: the quiz is cleared, then the guard
        either sets the error or starts loading. The request carries the
        untrimmed text. Clearing the quiz restores the invariant from any state. */
    method BeginGenerate(now: int) returns (request: Option<string>)
      modifies this
      ensures Valid()
      ensures questions == [] && idx == 0 && selected.None? && score == 0 && endTs.None?
      ensures text == old(text)
      ensures request.Some? <==> LongEnough(text)
      ensures request.None? ==>
        error == TooShortMsg && loading == old(loading) && startTs == old(startTs)
      ensures request.Some? ==>
        request.value == text && error == "" && loading && startTs == Some(now)
    {
      var t := text;
      var accepted := LongEnough(t);
      error, questions, idx, selected, score, endTs := "", [], 0, None, 0, None;
      if !accepted {
        error := TooShortMsg;
        return None;
      }
      loading := true;
      startTs := Some(now);
      request := Some(t);
    }

    /** `generate` after the fetch, run only for a fetch BeginGenerate
        started: the questions or the error are stored, and loading ends. */
    method CompleteGenerate(reply: FetchReply)
      requires Valid() && loading
      modifies this
      ensures Valid()
      ensures !loading
      ensures Load(reply).Questions? ==> questions == Load(reply).items && error == old(error)
      ensures Load(reply).Failed? ==> error == Load(reply).message && questions == old(questions)
      ensures text == old(text) && idx == old(idx) && selected == old(selected) && score == old(score)
      ensures startTs == old(startTs) && endTs == old(endTs)
    {
      var outcome := Load(reply);
      match outcome {
        case Questions(items) => questions := items;
        case Failed(m) => error := m;
      }
      loading := false;
    }

    /** `selectOption(i)`: the first choice per question is final and
        scores a point when it is the right one. */
    method SelectOption(i: int)
      requires Valid()
      modifies this
      ensures Valid()
      ensures old(selected).Some? ==> selected == old(selected) && score == old(score)
      ensures old(selected).None? ==>
        selected == Some(i) && score == old(score) + (if old(IsCorrect(i)) then 1 else 0)
      ensures text == old(text) && loading == old(loading) && error == old(error)
      ensures questions == old(questions) && idx == old(idx)
      ensures startTs == old(startTs) && endTs == old(endTs)
    {
      if selected.Some? {
        return;
      }
      var correct := IsCorrect(i);
      selected := Some(i);
      if correct {
        score := score + 1;
      }
    }

    /** `next`: move to the following question, or after the last one
        stop the clock. */
    method Next(now: int)
      requires Valid()
      modifies this
      ensures Valid()
      ensures old(idx) + 1 < |questions| ==>
        idx == old(idx) + 1 && selected.None? && endTs == old(endTs)
      ensures old(idx) + 1 >= |questions| ==>
        idx == old(idx) && selected == old(selected) && endTs == Some(now)
      ensures text == old(text) && loading == old(loading) && error == old(error)
      ensures questions == old(questions) && score == old(score) && startTs == old(startTs)
    {
      if idx + 1 < |questions| {
        idx := idx + 1;
        selected := None;
      } else {
        endTs := Some(now);
      }
    }

    /** "Neues Quiz starten": back to an empty page with an empty text. */
    method Restart()
      requires Valid()
      modifies this
      ensures Valid()
      ensures questions == [] && idx == 0 && selected.None? && score == 0 && endTs.None? && text == ""
      ensures !ShowQuiz() && !ShowResults()
      ensures loading == old(loading) && error == old(error) && startTs == old(startTs)
    {
      questions := [];
      idx := 0;
      selected := None;
      score := 0;
      endTs := None;
      text := "";
    }
  }
}
