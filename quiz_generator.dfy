/** Normalisation of the language model's quiz reply (backend/app.py,
    generate_quiz_questions): locating the questions array, validating it,
    and the error and mock questions. */
module QuizGenerator {
  import opened Wrappers
  import opened Json
  import opened QuizEntries

  const QuestionsKey: string := "questions"

  /** What json.loads made of the reply text. */
  datatype ParseOutcome = Parsed(data: Json) | Unparsable(msg: string)

  /** The chat-completion call: it raised, or it returned content. */
  datatype QuizReply = QuizCallFailed(msg: string) | QuizReplied(content: ParseOutcome)

  const ParseFailurePrefix: string := "Error parsing quiz questions: "
  const CallFailurePrefix: string := "Error generating quiz: "
  const ParseFailureOptions: seq<string> := ["Error", "Try again", "Check logs", "Contact support"]
  const CallFailureOptions: seq<string> := ["Error", "Try again", "Check API key", "Contact support"]
  const ErrorAnswer: int := 2

  function StrArray(ss: seq<string>): (v: Json)
    ensures v.Array? && |v.items| == |ss|
  {
    Array(seq(|ss|, i requires 0 <= i < |ss| => Str(ss[i])))
  }

  /** A question dict with its three keys in the source's order. */
  function Question(text: string, options: seq<string>, answer: int): Json
  {
    Object([Field(QuestionKey, Str(text)), Field(OptionsKey, StrArray(options)), Field(AnswerKey, Int(answer))])
  }

  /** The single question returned in place of a quiz when something failed. */
  function ErrorQuestion(text: string, options: seq<string>): Json
  {
    Question(text, options, ErrorAnswer)
  }

  /** The two fixed questions returned when no client is configured. */
  const MockQuestions: seq<Json> := [
    Question("What is the main topic of this mock transcript?",
             ["Artificial Intelligence", "Machine Learning", "Data Science", "Mock Data"], 3),
    Question("This is a mock question because...",
             ["The GROQ_API_KEY is not set", "The transcript is too short",
              "The system is in testing mode", "All of the above"], 0)
  ]

  predicate IsNonEmptyArray(v: Json)
  {
    v.Array? && |v.items| > 0
  }

  /** The position of the first non-empty array value at or after `from`, in key order. */
  function FirstArrayFrom(fields: seq<Field>, from: nat): (r: Option<nat>)
    requires from <= |fields|
    decreases |fields| - from
    ensures r.Some? ==> from <= r.value < |fields| && IsNonEmptyArray(fields[r.value].value)
    ensures r.Some? ==> forall j :: from <= j < r.value ==> !IsNonEmptyArray(fields[j].value)
    ensures r.None? ==> forall j :: from <= j < |fields| ==> !IsNonEmptyArray(fields[j].value)
  {
    if from == |fields| then None
    else if IsNonEmptyArray(fields[from].value) then Some(from)
    else FirstArrayFrom(fields, from + 1)
  }

  function FirstArray(fields: seq<Field>): Option<nat>
  {
    FirstArrayFrom(fields, 0)
  }

  /** The shape rules, in priority order: a dict's "questions" value, a bare
      array, the first non-empty array value of a dict; otherwise the ValueError,
      or the AttributeError of calling `.items()` on a scalar. */
  function Extract(data: Json): (r: Result<Json, ParseError>)
    ensures data.Object? && HasKey(data.fields, QuestionsKey) ==> r == Ok(Get(data.fields, QuestionsKey))
    ensures data.Array? ==> r == Ok(data)
    ensures data.Object? && !HasKey(data.fields, QuestionsKey) ==>
              (r.Ok? <==> exists i :: 0 <= i < |data.fields| && IsNonEmptyArray(data.fields[i].value))
    ensures data.Object? && !HasKey(data.fields, QuestionsKey) && r.Ok? ==>
              exists i :: 0 <= i < |data.fields| && r.value == data.fields[i].value && IsNonEmptyArray(r.value) &&
                          forall j :: 0 <= j < i ==> !IsNonEmptyArray(data.fields[j].value)
    ensures data.Object? && !HasKey(data.fields, QuestionsKey) && r.Err? ==> r.error == NoQuestionsArray
    ensures !data.Object? && !data.Array? ==> r == Err(NoItems(TypeName(data)))
  {
    if data.Object? && HasKey(data.fields, QuestionsKey) then Ok(Get(data.fields, QuestionsKey))
    else if data.Array? then Ok(data)
    else if data.Object? then
      match FirstArray(data.fields)
      case Some(i) => Ok(data.fields[i].value)
      case None => Err(NoQuestionsArray)
    else Err(NoItems(TypeName(data)))
  }

  /** What `for q in questions` iterates over: a list's items, a str's
      characters, a dict's keys; a scalar raises. */
  function Entries(v: Json): (r: Result<seq<Json>, ParseError>)
    ensures r.Ok? <==> Len(v).Some?
    ensures r.Ok? ==> |r.value| == Len(v).value
    ensures v.Array? ==> r == Ok(v.items)
    ensures r.Err? ==> r.error == NotIterable(TypeName(v))
  {
    match v
    case Array(items) => Ok(items)
    case Str(s) => Ok(seq(|s|, i requires 0 <= i < |s| => Str([s[i]])))
    case Object(fields) => Ok(seq(|fields|, i requires 0 <= i < |fields| => Str(fields[i].key)))
    case _ => Err(NotIterable(TypeName(v)))
  }

  /** The inner `try`: extract, iterate, validate. */
  function Normalise(data: Json): Result<seq<Json>, ParseError>
  {
    match Extract(data)
    case Err(e) => Err(e)
    case Ok(v) =>
      match Entries(v)
      case Err(e) => Err(e)
      case Ok(entries) => Validated(entries)
  }

  /** The questions returned for a reply of the configured client. */
  function QuizFrom(reply: QuizReply): seq<Json>
  {
    match reply
    case QuizCallFailed(msg) => [ErrorQuestion(CallFailurePrefix + msg, CallFailureOptions)]
    case QuizReplied(Unparsable(msg)) => [ErrorQuestion(ParseFailurePrefix + msg, ParseFailureOptions)]
    case QuizReplied(Parsed(data)) =>
      match Normalise(data)
      case Ok(questions) => questions
      case Err(e) => [ErrorQuestion(ParseFailurePrefix + ErrorText(e), ParseFailureOptions)]
  }

  /** generate_quiz_questions: the mock questions without a client, otherwise
      the normalised reply to the prompt built from the transcript and the count. */
  function QuizQuestions(transcript: string, count: int, llm: Option<(string, int) -> QuizReply>): seq<Json>
  {
    match llm
    case None => MockQuestions
    case Some(call) => QuizFrom(call(transcript, count))
  }

  /** The three keys of a built question are found where they were put. */
  lemma QuestionLookup(text: string, options: seq<string>, answer: int)
    ensures var fs := Question(text, options, answer).fields;
            && HasKey(fs, QuestionKey) && Get(fs, QuestionKey) == Str(text)
            && HasKey(fs, OptionsKey) && Get(fs, OptionsKey) == StrArray(options)
            && HasKey(fs, AnswerKey) && Get(fs, AnswerKey) == Int(answer)
  {
    var fs := Question(text, options, answer).fields;
    assert fs[0].key == QuestionKey && fs[1].key == OptionsKey && fs[2].key == AnswerKey;
    assert IndexFrom(fs, AnswerKey, 1) == IndexFrom(fs, AnswerKey, 2) == Some(2);
    assert IndexFrom(fs, OptionsKey, 0) == IndexFrom(fs, OptionsKey, 1) == Some(1);
  }

  lemma QuestionAnswerOk(text: string, options: seq<string>, answer: int)
    requires 0 <= answer < |options|
    ensures AnswerOk(Question(text, options, answer))
  {
    QuestionLookup(text, options, answer);
  }

  /** The error questions and the mock questions keep the answer contract too. */
  lemma FixedQuestionsOk(text: string)
    ensures AnswerOk(ErrorQuestion(text, ParseFailureOptions)) && AnswerOk(ErrorQuestion(text, CallFailureOptions))
    ensures forall q :: q in MockQuestions ==> AnswerOk(q)
  {
    QuestionAnswerOk(text, ParseFailureOptions, ErrorAnswer);
    QuestionAnswerOk(text, CallFailureOptions, ErrorAnswer);
    QuestionAnswerOk("What is the main topic of this mock transcript?",
                     ["Artificial Intelligence", "Machine Learning", "Data Science", "Mock Data"], 3);
    QuestionAnswerOk("This is a mock question because...",
                     ["The GROQ_API_KEY is not set", "The transcript is too short",
                      "The system is in testing mode", "All of the above"], 0);
  }

  /** Whatever the model replies, every returned question has an integer answer
      at least 0 and below the options' length whenever that is non-zero. */
  lemma QuizAnswersOk(transcript: string, count: int, llm: Option<(string, int) -> QuizReply>)
    ensures forall q :: q in QuizQuestions(transcript, count, llm) ==> AnswerOk(q)
  {
    FixedQuestionsOk(CallFailurePrefix);
    if llm.Some? {
      var reply := llm.value(transcript, count);
      match reply {
        case QuizCallFailed(msg) => FixedQuestionsOk(CallFailurePrefix + msg);
        case QuizReplied(Unparsable(msg)) => FixedQuestionsOk(ParseFailurePrefix + msg);
        case QuizReplied(Parsed(data)) =>
          var n := Normalise(data);
          if n.Ok? {
            var entries := Entries(Extract(data).value).value;
            ValidatedAnswersOk(entries);
          } else {
            FixedQuestionsOk(ParseFailurePrefix + ErrorText(n.error));
          }
      }
    }
  }

  /** A reply that raised anywhere yields exactly one question: the failure's
      message under the matching prefix, the four fixed error options and answer 2. */
  lemma FailureGivesErrorQuestion(reply: QuizReply)
    requires reply.QuizCallFailed? || reply.content.Unparsable? || Normalise(reply.content.data).Err?
    ensures reply.QuizCallFailed? ==>
              QuizFrom(reply) == [ErrorQuestion(CallFailurePrefix + reply.msg, CallFailureOptions)]
    ensures !reply.QuizCallFailed? ==>
              QuizFrom(reply) == [ErrorQuestion(ParseFailurePrefix +
                                     (if reply.content.Unparsable? then reply.content.msg
                                      else ErrorText(Normalise(reply.content.data).error)),
                                   ParseFailureOptions)]
  {
  }

  /** An object such as {"foo": [...]} with no "questions" key is unwrapped to its
      first non-empty array, and those entries are what get validated. */
  lemma ArbitraryKeyUnwrapped(key: string, entries: seq<Json>)
    requires key != QuestionsKey && |entries| > 0
    ensures Normalise(Object([Field(key, Array(entries))])) == Validated(entries)
  {
    assert IndexFrom([Field(key, Array(entries))], QuestionsKey, 1) == None;
  }

  /** The options' length is never checked: a question with no options survives
      with answer 0, so "0 <= answer < len(options)" can fail. */
  lemma EmptyOptionsSurvive()
    ensures var q := Question("q", [], 0);
            QuizFrom(QuizReplied(Parsed(Array([q])))) == [q] && Len(Get(q.fields, OptionsKey)) == Some(0)
  {
    var q := Question("q", [], 0);
    QuestionLookup("q", [], 0);
    assert CheckEntry(q) == Keep(Object(SetField(q.fields, AnswerKey, Int(0))));
    assert SetField(q.fields, AnswerKey, Int(0)) == q.fields;
    var qs := [q];
    assert qs[..|qs| - 1] == [];
    assert Validated(qs[..|qs| - 1]) == Ok([]);
    assert CheckEntry(qs[|qs| - 1]) == Keep(q);
    assert [] + [q] == [q];
    assert Validated(qs) == Ok([q]);
  }

  /** The `for ... else` search of generate_quiz_questions: the first value, in key order,
      that is a non-empty list. */
  method FindQuestionsArray(fields: seq<Field>) returns (r: Option<nat>)
    ensures r == FirstArray(fields)
  {
    var i := 0;
    while i < |fields|
      invariant 0 <= i <= |fields|
      invariant forall j :: 0 <= j < i ==> !IsNonEmptyArray(fields[j].value)
    {
      var value := fields[i].value;
      if value.Array? && |value.items| > 0 {
        return Some(i);
      }
      i := i + 1;
    }
    return None;
  }

  /** generate_quiz_questions once the prompt has been sent. */
  method GenerateQuizQuestions(transcript: string, count: int, llm: Option<(string, int) -> QuizReply>)
    returns (questions: seq<Json>)
    ensures questions == QuizQuestions(transcript, count, llm)
    ensures forall q :: q in questions ==> AnswerOk(q)
  {
    QuizAnswersOk(transcript, count, llm);
    if llm.None? {
      return MockQuestions;
    }
    var reply := llm.value(transcript, count);
    if reply.QuizCallFailed? {
      return [ErrorQuestion(CallFailurePrefix + reply.msg, CallFailureOptions)];
    }
    if reply.content.Unparsable? {
      return [ErrorQuestion(ParseFailurePrefix + reply.content.msg, ParseFailureOptions)];
    }
    var data := reply.content.data;
    var raw: Json;
    if data.Object? && HasKey(data.fields, QuestionsKey) {
      raw := Get(data.fields, QuestionsKey);
    } else if data.Array? {
      raw := data;
    } else if data.Object? {
      var found := FindQuestionsArray(data.fields);
      if found.None? {
        return [ErrorQuestion(ParseFailurePrefix + ErrorText(NoQuestionsArray), ParseFailureOptions)];
      }
      raw := data.fields[found.value].value;
    } else {
      return [ErrorQuestion(ParseFailurePrefix + ErrorText(NoItems(TypeName(data))), ParseFailureOptions)];
    }
    var entries := Entries(raw);
    if entries.Err? {
      return [ErrorQuestion(ParseFailurePrefix + ErrorText(entries.error), ParseFailureOptions)];
    }
    var validated := ValidateQuestions(entries.value);
    if validated.Err? {
      return [ErrorQuestion(ParseFailurePrefix + ErrorText(validated.error), ParseFailureOptions)];
    }
    return validated.value;
  }
}
