/** The per-question validation and repair loop of the quiz generator
    (backend/app.py, generate_quiz_questions). */
module QuizEntries {
  import opened Wrappers
  import opened Json

  const QuestionKey: string := "question"
  const OptionsKey: string := "options"
  const AnswerKey: string := "correct_answer"

  /** An exception raised while the questions are extracted or validated;
      the generator turns each into its error question. */
  datatype ParseError =
    | NoQuestionsArray              // the ValueError raised when no array is found
    | NoItems(typeName: string)     // `.items()` on a value that is not a dict
    | NotIterable(typeName: string) // `for q in questions` on a scalar
    | NotContainer(typeName: string) // `"question" in q` on a scalar
    | StrIndex                      // `q["correct_answer"]` on a str
    | ListIndex                     // `q["correct_answer"]` on a list
    | NoLen(typeName: string)       // `len(q["options"])` on a scalar

  /** `str(e)` for each such exception. */
  function ErrorText(e: ParseError): string
  {
    match e
    case NoQuestionsArray => "Could not extract questions array from response"
    case NoItems(t) => "'" + t + "' object has no attribute 'items'"
    case NotIterable(t) => "'" + t + "' object is not iterable"
    case NotContainer(t) => "argument of type '" + t + "' is not iterable"
    case StrIndex => "string indices must be integers"
    case ListIndex => "list indices must be integers or slices, not str"
    case NoLen(t) => "object of type '" + t + "' has no len()"
  }

  /** What the loop body does with one raw entry. */
  datatype Step = Keep(kept: Json) | Drop | Fail(error: ParseError)

  /** A dict holding all three required keys. */
  predicate Complete(q: Json)
  {
    q.Object? && HasKey(q.fields, QuestionKey) && HasKey(q.fields, OptionsKey) && HasKey(q.fields, AnswerKey)
  }

  /** How an answer reads after the digit-string conversion. */
  function Coerced(answer: Json): Json
  {
    if answer.Str? && IsDigits(answer.s) then Int(DigitsValue(answer.s)) else answer
  }

  /** The repair of a complete entry: a digit string becomes its integer, then
      a non-integer, negative or too large answer becomes 0. */
  function Repair(fields: seq<Field>): (r: Step)
    requires HasKey(fields, OptionsKey) && HasKey(fields, AnswerKey)
    ensures !r.Drop?
    // the one exception: an answer that needs the range test, beside options without a length
    ensures r.Fail? <==> Coerced(Get(fields, AnswerKey)).Int? && Coerced(Get(fields, AnswerKey)).i >= 0 &&
                         Len(Get(fields, OptionsKey)).None?
    ensures r.Fail? ==> r.error == NoLen(TypeName(Get(fields, OptionsKey)))
    ensures r.Keep? ==> r.kept.Object? && |r.kept.fields| == |fields| && AnswerOk(r.kept)
  {
    var answer := Get(fields, AnswerKey);
    var converted := if answer.Str? && IsDigits(answer.s) then SetField(fields, AnswerKey, Coerced(answer)) else fields;
    var a := Coerced(answer);
    if !a.Int? || a.i < 0 then Keep(Object(SetField(converted, AnswerKey, Int(0))))
    else
      var options := Get(fields, OptionsKey);
      match Len(options)
      case None => Fail(NoLen(TypeName(options)))
      case Some(n) =>
        if a.i >= n then Keep(Object(SetField(converted, AnswerKey, Int(0)))) else Keep(Object(converted))
  }

  /** One iteration of the loop: the three `in` tests, then the repair.
      On a str `in` is a substring test and on a list a membership test;
      either then fails when the entry is indexed by a key. */
  function CheckEntry(q: Json): (r: Step)
    ensures r.Keep? ==> Complete(q)
    ensures q.Object? ==> (r.Drop? <==> !Complete(q))
    ensures !q.Object? ==> !r.Keep?
    ensures (q.Null? || q.Bool? || q.Int? || q.Float?) ==> r == Fail(NotContainer(TypeName(q)))
  {
    match q
    case Object(fields) =>
      if HasKey(fields, QuestionKey) && HasKey(fields, OptionsKey) && HasKey(fields, AnswerKey)
      then Repair(fields) else Drop
    case Str(s) =>
      if Contains(s, QuestionKey) && Contains(s, OptionsKey) && Contains(s, AnswerKey)
      then Fail(StrIndex) else Drop
    case Array(items) =>
      if Str(QuestionKey) in items && Str(OptionsKey) in items && Str(AnswerKey) in items
      then Fail(ListIndex) else Drop
    case _ => Fail(NotContainer(TypeName(q)))
  }

  /** The list the loop builds from `questions`, or the first exception it raises. */
  function Validated(questions: seq<Json>): Result<seq<Json>, ParseError>
  {
    if |questions| == 0 then Ok([])
    else
      match Validated(questions[..|questions| - 1])
      case Err(e) => Err(e)
      case Ok(vs) =>
        match CheckEntry(questions[|questions| - 1])
        case Keep(q) => Ok(vs + [q])
        case Drop => Ok(vs)
        case Fail(e) => Err(e)
  }

  /** The positions of the complete entries, in order: the independent
      account of which entries the loop keeps. */
  function KeptIndices(questions: seq<Json>): (idx: seq<nat>)
    ensures |idx| <= |questions|
    ensures forall k :: 0 <= k < |idx| ==> idx[k] < |questions| && Complete(questions[idx[k]])
    ensures forall k, l :: 0 <= k < l < |idx| ==> idx[k] < idx[l]
    ensures forall i :: 0 <= i < |questions| && Complete(questions[i]) ==> i in idx
  {
    if |questions| == 0 then []
    else
      var init := questions[..|questions| - 1];
      assert forall i :: 0 <= i < |init| ==> init[i] == questions[i];
      KeptIndices(init) + (if Complete(questions[|questions| - 1]) then [|questions| - 1] else [])
  }

  /** The contract a validated question keeps: an integer answer, at least 0,
      and below the number of options whenever the options have a non-zero length. */
  predicate AnswerOk(q: Json)
  {
    && q.Object?
    && HasKey(q.fields, AnswerKey)
    && HasKey(q.fields, OptionsKey)
    && var a := Get(q.fields, AnswerKey);
    && var n := Len(Get(q.fields, OptionsKey));
    && a.Int? && a.i >= 0
    && (n.Some? && n.value > 0 ==> a.i < n.value)
  }

  /** A kept entry comes from a complete dict, keeps its keys in order and
      every value but the answer, and satisfies the answer contract. */
  lemma KeptEntry(q: Json)
    requires CheckEntry(q).Keep?
    ensures Complete(q)
    ensures var r := CheckEntry(q).kept;
      && r.Object?
      && |r.fields| == |q.fields|
      && (forall i :: 0 <= i < |r.fields| ==> r.fields[i].key == q.fields[i].key)
      && (forall i :: 0 <= i < |r.fields| && q.fields[i].key != AnswerKey ==> r.fields[i].value == q.fields[i].value)
      && AnswerOk(r)
  {
  }

  /** A dict missing any of the three keys is dropped. */
  lemma IncompleteDropped(q: Json)
    requires q.Object? && !Complete(q)
    ensures CheckEntry(q) == Drop
  {
  }

  /** Only complete dicts are kept, and a complete dict is never silently dropped. */
  lemma KeptIffComplete(q: Json)
    ensures CheckEntry(q).Keep? ==> Complete(q)
    ensures Complete(q) ==> !CheckEntry(q).Drop?
  {
  }

  /** An integer answer already in range is left as it is: the entry is kept unchanged. */
  lemma InRangeAnswerUnchanged(q: Json, n: nat)
    requires Complete(q)
    requires Get(q.fields, AnswerKey) == Int(n)
    requires Len(Get(q.fields, OptionsKey)).Some? && n < Len(Get(q.fields, OptionsKey)).value
    ensures CheckEntry(q) == Keep(q)
  {
  }

  /** A digit-string answer in range becomes the integer it spells, e.g. "2" becomes 2. */
  lemma DigitAnswerCoerced(q: Json, n: nat)
    requires Complete(q)
    requires Get(q.fields, AnswerKey) == Str(ShowNat(n))
    requires Len(Get(q.fields, OptionsKey)).Some? && n < Len(Get(q.fields, OptionsKey)).value
    ensures CheckEntry(q).Keep?
    ensures CheckEntry(q).kept == Object(SetField(q.fields, AnswerKey, Int(n)))
  {
    DigitsRoundTrip(n);
  }

  /** Every other answer (not an integer after conversion, negative, or not
      below the options' length) is replaced by 0. */
  lemma InvalidAnswerDefaulted(q: Json)
    requires Complete(q)
    requires var a := Coerced(Get(q.fields, AnswerKey));
             var n := Len(Get(q.fields, OptionsKey));
             !a.Int? || a.i < 0 || (n.Some? && a.i >= n.value)
    ensures CheckEntry(q).Keep?
    ensures HasKey(CheckEntry(q).kept.fields, AnswerKey) && Get(CheckEntry(q).kept.fields, AnswerKey) == Int(0)
  {
  }

  /** The loop completes exactly when no entry raises. */
  lemma {:induction false} ValidatedOkIff(questions: seq<Json>)
    ensures Validated(questions).Ok? <==> forall i :: 0 <= i < |questions| ==> !CheckEntry(questions[i]).Fail?
  {
    if |questions| > 0 {
      var init := questions[..|questions| - 1];
      ValidatedOkIff(init);
      assert forall i :: 0 <= i < |init| ==> init[i] == questions[i];
    }
  }

  /** When the loop raises, it raises the exception of the first entry that fails. */
  lemma {:induction false} ValidatedErrIsFirstFailure(questions: seq<Json>)
    requires Validated(questions).Err?
    ensures exists i :: 0 <= i < |questions| && CheckEntry(questions[i]) == Fail(Validated(questions).error) &&
                        forall j :: 0 <= j < i ==> !CheckEntry(questions[j]).Fail?
  {
    var init := questions[..|questions| - 1];
    assert forall i :: 0 <= i < |init| ==> init[i] == questions[i];
    if Validated(init).Err? {
      ValidatedErrIsFirstFailure(init);
      var i :| 0 <= i < |init| && CheckEntry(init[i]) == Fail(Validated(init).error) &&
               forall j :: 0 <= j < i ==> !CheckEntry(init[j]).Fail?;
      assert CheckEntry(questions[i]) == Fail(Validated(questions).error);
    } else {
      ValidatedOkIff(init);
      assert CheckEntry(questions[|questions| - 1]) == Fail(Validated(questions).error);
    }
  }

  /** The validated list is the order-preserving image of exactly the complete
      entries: its k-th element is the repair of the k-th complete entry. */
  lemma {:induction false} ValidatedKeepsComplete(questions: seq<Json>)
    requires Validated(questions).Ok?
    ensures |Validated(questions).value| == |KeptIndices(questions)|
    ensures forall k :: 0 <= k < |KeptIndices(questions)| ==>
              CheckEntry(questions[KeptIndices(questions)[k]]) == Keep(Validated(questions).value[k])
  {
    if |questions| > 0 {
      var init := questions[..|questions| - 1];
      assert forall i :: 0 <= i < |init| ==> init[i] == questions[i];
      ValidatedKeepsComplete(init);
      KeptIffComplete(questions[|questions| - 1]);
    }
  }

  /** Every validated question keeps the answer contract, and the loop never lengthens the list. */
  lemma ValidatedAnswersOk(questions: seq<Json>)
    requires Validated(questions).Ok?
    ensures |Validated(questions).value| <= |questions|
    ensures forall q :: q in Validated(questions).value ==> AnswerOk(q)
  {
    ValidatedKeepsComplete(questions);
    var vs, idx := Validated(questions).value, KeptIndices(questions);
    forall q | q in vs ensures AnswerOk(q) {
      var k :| 0 <= k < |vs| && vs[k] == q;
      KeptEntry(questions[idx[k]]);
    }
  }

  /** An exception raised at position `i` ends the loop with that exception. */
  lemma {:induction false} ValidatedErrPersists(questions: seq<Json>, i: nat)
    requires i <= |questions|
    requires Validated(questions[..i]).Err?
    ensures Validated(questions) == Validated(questions[..i])
    decreases |questions| - i
  {
    if i < |questions| {
      assert questions[..i + 1][..i] == questions[..i];
      ValidatedErrPersists(questions, i + 1);
    } else {
      assert questions[..i] == questions;
    }
  }

  /** The validation loop of generate_quiz_questions: checks each entry, repairs its answer in
      place and appends it, or stops at the first exception. */
  method ValidateQuestions(questions: seq<Json>) returns (r: Result<seq<Json>, ParseError>)
    ensures r == Validated(questions)
  {
    var validated: seq<Json> := [];
    var i := 0;
    while i < |questions|
      invariant 0 <= i <= |questions|
      invariant Validated(questions[..i]) == Ok(validated)
    {
      var q := questions[i];
      assert questions[..i + 1][..i] == questions[..i];
      assert questions[..i + 1][i] == q;
      match q {
        case Object(fields) =>
          if HasKey(fields, QuestionKey) && HasKey(fields, OptionsKey) && HasKey(fields, AnswerKey) {
            var d := fields;
            var answer := Get(d, AnswerKey);
            if answer.Str? && IsDigits(answer.s) {
              d := SetField(d, AnswerKey, Int(DigitsValue(answer.s)));
            }
            SetFieldGet(fields, AnswerKey, Coerced(answer), OptionsKey);
            answer := Get(d, AnswerKey);
            var reset := !answer.Int? || answer.i < 0;
            if !reset {
              var n := Len(Get(d, OptionsKey));
              if n.None? {
                r := Err(NoLen(TypeName(Get(d, OptionsKey))));
                ValidatedErrPersists(questions, i + 1);
                return;
              }
              reset := answer.i >= n.value;
            }
            if reset {
              d := SetField(d, AnswerKey, Int(0));
            }
            validated := validated + [Object(d)];
          }
        case Str(s) =>
          if Contains(s, QuestionKey) && Contains(s, OptionsKey) && Contains(s, AnswerKey) {
            r := Err(StrIndex);
            ValidatedErrPersists(questions, i + 1);
            return;
          }
        case Array(items) =>
          if Str(QuestionKey) in items && Str(OptionsKey) in items && Str(AnswerKey) in items {
            r := Err(ListIndex);
            ValidatedErrPersists(questions, i + 1);
            return;
          }
        case _ =>
          r := Err(NotContainer(TypeName(q)));
          ValidatedErrPersists(questions, i + 1);
          return;
      }
      i := i + 1;
    }
    assert questions[..i] == questions;
    r := Ok(validated);
  }
}
