/** The quiz validator. The web endpoint and the command-line generator
    carry two textually identical copies of it; both are modelled here. */
module QuizSchema {
  import opened Js

  /** The number of questions demanded (fixed, whatever the input size). */
  const QuestionCount: nat := 3
  /** The number of options every question must carry. */
  const OptionCount: nat := 5

  /** The four checks, in the order they are made; each has its own message. */
  datatype SchemaError = WrongCount | BadOptions | BadIndex | MissingExplanation

  function Message(e: SchemaError): string {
    match e
    case WrongCount => "Es müssen genau 3 Fragen sein."
    case BadOptions => "Jede Frage braucht 5 Optionen."
    case BadIndex => "richtige_index muss 0..4 sein."
    case MissingExplanation => "Erklärung fehlt."
  }

  lemma MessagesDistinct(e1: SchemaError, e2: SchemaError)
    ensures Message(e1) == Message(e2) <==> e1 == e2
  {
    if e1 != e2 {
      // the four messages already differ in their second character
      assert Message(e1)[1] != Message(e2)[1];
    }
  }

  /** Check 1 per item: a truthy item whose `frage` is a string and whose
      `optionen` is an array of exactly five elements. A non-object item
      has neither property. */
  predicate HasOptions(q: Json) {
    Prop(q, "frage").JStr? && Prop(q, "optionen").JArr? &&
    |Prop(q, "optionen").items| == OptionCount
  }

  /** Check 2: `richtige_index` is a number in [0, 4] (not necessarily whole). */
  predicate HasIndex(q: Json) {
    var i := Prop(q, "richtige_index");
    i.JNum? && 0.0 <= i.n <= 4.0
  }

  /** Check 3: `erklaerung` is a string that is not blank. */
  predicate HasExplanation(q: Json) {
    var e := Prop(q, "erklaerung");
    e.JStr? && Utf16Length(Trim(e.s)) != 0
  }

  predicate WellFormedQuestion(q: Json) {
    HasOptions(q) && HasIndex(q) && HasExplanation(q)
  }

  /** The outcome of the three checks on one item, first failure wins. */
  function QuestionError(q: Json): (r: Option<SchemaError>)
    ensures r.None? <==> WellFormedQuestion(q)
    // the options check comes first, then the index, then the explanation
    ensures !HasOptions(q) ==> r == Some(BadOptions)
    ensures HasOptions(q) && !HasIndex(q) ==> r == Some(BadIndex)
    ensures HasOptions(q) && HasIndex(q) && !HasExplanation(q) ==> r == Some(MissingExplanation)
    ensures r.Some? ==> r.value != WrongCount
  {
    if !HasOptions(q) then Some(BadOptions)
    else if !HasIndex(q) then Some(BadIndex)
    else if !HasExplanation(q) then Some(MissingExplanation)
    else None
  }

  /** The first failure over the items, scanned in order. */
  function ItemsError(items: seq<Json>): (r: Option<SchemaError>)
    ensures r.Some? ==> r.value != WrongCount
  {
    if items == [] then None
    else if QuestionError(items[0]).Some? then QuestionError(items[0])
    else ItemsError(items[1..])
  }

  /** What `validate` returns, as an error kind: None for the value null. */
  function ValidationError(v: Json): (r: Option<SchemaError>)
    // the count is checked before any item
    ensures !v.JArr? || |v.items| != QuestionCount ==> r == Some(WrongCount)
    ensures v.JArr? && |v.items| == QuestionCount ==> r == ItemsError(v.items) && r != Some(WrongCount)
  {
    if !v.JArr? || |v.items| != QuestionCount then Some(WrongCount)
    else ItemsError(v.items)
  }

  /** Acceptance: `validate` returns null exactly for an array of three
      well-formed questions. */
  lemma {:induction false} ItemsErrorNoneIff(items: seq<Json>)
    ensures ItemsError(items).None? <==> forall i :: 0 <= i < |items| ==> WellFormedQuestion(items[i])
  {
    if items != [] {
      ItemsErrorNoneIff(items[1..]);
      assert forall i :: 1 <= i < |items| ==> items[i] == items[1..][i - 1];
    }
  }

  lemma ValidationAcceptsIff(v: Json)
    ensures ValidationError(v).None? <==>
      v.JArr? && |v.items| == QuestionCount &&
      forall i :: 0 <= i < |v.items| ==> WellFormedQuestion(v.items[i])
  {
    if v.JArr? { ItemsErrorNoneIff(v.items); }
  }

  /** First failure: when items 0..k-1 pass and item k fails, the error is
      the one item k's own checks produce, whatever the later items hold. */
  lemma {:induction false} ItemsErrorFirstFailure(items: seq<Json>, k: nat)
    requires k < |items|
    requires forall j :: 0 <= j < k ==> WellFormedQuestion(items[j])
    requires !WellFormedQuestion(items[k])
    ensures ItemsError(items) == QuestionError(items[k])
    decreases k
  {
    if k > 0 {
      ItemsErrorFirstFailure(items[1..], k - 1);
    }
  }

  lemma ValidationFirstFailure(v: Json, k: nat)
    requires v.JArr? && |v.items| == QuestionCount && k < QuestionCount
    requires forall j :: 0 <= j < k ==> WellFormedQuestion(v.items[j])
    requires !WellFormedQuestion(v.items[k])
    ensures ValidationError(v) == QuestionError(v.items[k])
  {
    ItemsErrorFirstFailure(v.items, k);
  }

  /** `validate`: null (None) or the message of the first failing check. */
  method Validate(questions: Json) returns (err: Option<string>)
    ensures err.None? <==> ValidationError(questions).None?
    ensures err.Some? ==> err.value == Message(ValidationError(questions).value)
  {
    if !questions.JArr? || |questions.items| != QuestionCount {
      return Some(Message(WrongCount));
    }
    var items := questions.items;
    for i := 0 to |items|
      invariant ItemsError(items) == ItemsError(items[i..])
    {
      var q := items[i];
      assert items[i..][1..] == items[i + 1..];
      if !HasOptions(q) {
        return Some(Message(BadOptions));
      }
      if !HasIndex(q) {
        return Some(Message(BadIndex));
      }
      if !HasExplanation(q) {
        return Some(Message(MissingExplanation));
      }
    }
    return None;
  }
}
