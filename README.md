# edubot backend: request policy and response normalisation

A Dafny model of the deterministic logic in `backend/app.py` of the edubot
backend, a FastAPI service that sends an uploaded audio file to a
speech-to-text provider and sends transcripts to a language model for a
bullet-point summary and a multiple-choice quiz. The provider calls are
inputs of the model. What is modelled:

- **Transcript truncation** (`RequestPolicy.Truncate`): the first 16000
  characters, with `"\n[Transcript truncated due to length...]"` appended
  only when the transcript was longer. Both LLM endpoints apply it.
- **Question-count clamp** (`RequestPolicy.ClampQuestionCount`): `max(1, min(n, 10))`.
- **Quiz normalisation** (`QuizGenerator`, `QuizEntries`): the reply, as
  json.loads parsed it (`Json.Json`), is searched for the questions array in
  priority order: a dict's `"questions"` value, then a bare list, then the
  first non-empty list value in key order. Each entry is then checked for the
  keys `question`, `options` and `correct_answer`, and its answer is repaired:
  a digit string becomes an integer, and an answer that is not an integer, is
  negative or is not below `len(options)` becomes 0. Every exception on the
  way gives the single error question, as the source's `except` does.
  That includes the TypeErrors Python raises when it iterates or indexes a
  value of the wrong kind. The results are the mock questions without a
  client, and the "Error generating quiz" question when the call itself raised.
- **Sentence flattening** (`Transcription`): the provider's paragraphs of
  sentences become one ordered list of `{text, start, end}` records.
- **Endpoints** (`Endpoints`): the summary and quiz endpoints, and the upload
  endpoint as a method over `UploadStore`, the set of files in the upload
  directory. The upload endpoint rejects a non-`audio/` content type before
  anything is written. Once the save succeeded, it removes the file on both
  the success and the failure path, and passes the transcription error on
  unchanged.

Where the documented behaviour of the service and the code disagree, the model follows the code:

- An empty transcript raises a 400 HTTPException inside the endpoint's `try`.
  The endpoint's own `except Exception` turns it into a 500 whose detail is
  `"Error generating summary: 400: Transcript is required"` (the quiz endpoint
  likewise). So the model answers 500, not 400.
- The documentation says every returned question has exactly four options and
  `0 <= correct_answer < len(options)`. The code checks neither the number of
  options nor the empty case: a question with `options: []` and answer 0 is
  returned as it is (`QuizGenerator.EmptyOptionsSurvive`). What the code does
  guarantee is `QuizEntries.AnswerOk`: the answer is an integer, at least 0,
  and below `len(options)` whenever that length is non-zero.
- If copying the upload fails after `open` created the file, the partly
  written file is not removed (`SaveOutcome.CopyFailed`). The guaranteed
  cleanup covers only the transcription step.

## Model

| member | source | states |
|---|---|---|
| `RequestPolicy.Truncate` | backend/app.py:256-261 | up to 16000 characters pass unchanged; a longer transcript becomes its first 16000 characters plus the marker; the output always starts with the input's first min(len, 16000) characters, is at most 16000 + marker long, and exceeds 16000 exactly when the input did (same code at lines 419-423) |
| `RequestPolicy.TruncationBoundary` | backend/app.py:419-423 | 16000 characters are sent unmodified; 16001 become 16000 characters followed by the marker |
| `RequestPolicy.ClampQuestionCount` | backend/app.py:426 | the count lies in [1, 10]; values already in [1, 10] are unchanged, smaller ones give 1, larger ones give 10 |
| `RequestPolicy.ClampExamples` | backend/app.py:426 | 0 and -1 give 1, 15 gives 10, 5 stays 5 |
| `Json.IndexFrom` | backend/app.py:355-356 | dict lookup: the position found holds the key and no earlier position does; no position is found only when no field holds the key |
| `Json.SetFieldGet` | backend/app.py:376-381 | `q["correct_answer"] = v` keeps every key, makes the key read `v`, and leaves every other key's value alone |
| `Json.DigitsRoundTrip` | backend/app.py:375-376 | `int()` of the decimal digits of n is n, the reference the digit-string conversion is checked against |
| `QuizEntries.KeptIndices` | backend/app.py:371-373 | the positions of the entries that are dicts with all three keys: increasing, in range, and containing every such entry |
| `QuizEntries.ValidateQuestions` | backend/app.py:371-385 | the loop returns exactly the validated list of the reference definition, or the first exception it raises |
| `QuizEntries.ValidatedKeepsComplete` | backend/app.py:371-383 | the validated list is the order-preserving image of exactly the complete entries: its k-th element is the repair of the k-th complete entry |
| `QuizEntries.ValidatedAnswersOk` | backend/app.py:378-385 | the validated list is never longer than the raw list, and each of its questions has an integer answer at least 0 and below a non-zero options length |
| `QuizEntries.ValidatedOkIff` | backend/app.py:372-385 | the loop completes exactly when no entry raises |
| `QuizEntries.ValidatedErrIsFirstFailure` | backend/app.py:372-385 | a raising loop raises the exception of the first failing entry |
| `QuizEntries.ValidatedErrPersists` | backend/app.py:372-385 | an exception at one entry ends the loop with that exception, whatever follows |
| `QuizEntries.KeptEntry` | backend/app.py:373-383 | a kept entry came from a complete dict, keeps all its keys in order and every value except the answer, and its answer is in range |
| `QuizEntries.CheckEntry` | backend/app.py:373-383 | one loop iteration: only a complete dict is kept; a dict is dropped exactly when it misses a key; a non-dict is never kept, and `in` on null, a bool or a number raises the TypeError |
| `QuizEntries.Repair` | backend/app.py:375-383 | the repair of a complete dict is never a drop; it raises exactly when the (converted) answer is a non-negative integer and the options have no length, and that raise is the `len` TypeError; otherwise it keeps the same number of fields and the answer contract holds |
| `QuizEntries.IncompleteDropped` | backend/app.py:373 | a dict missing any of the three keys is dropped |
| `QuizEntries.KeptIffComplete` | backend/app.py:373 | only complete dicts are kept, and a complete dict is never silently dropped |
| `QuizEntries.InRangeAnswerUnchanged` | backend/app.py:379 | an integer answer already below len(options) leaves the entry unchanged |
| `QuizEntries.DigitAnswerCoerced` | backend/app.py:375-376 | an answer given as the digit string of n, with n in range, becomes the integer n |
| `QuizEntries.InvalidAnswerDefaulted` | backend/app.py:379-381 | a non-integer, negative or too large answer becomes 0 |
| `QuizGenerator.FirstArrayFrom` | backend/app.py:362-365 | the position found holds a non-empty list and no earlier value is one; nothing is found only when no value is a non-empty list |
| `QuizGenerator.FindQuestionsArray` | backend/app.py:362-368 | the `for ... else` search returns the first non-empty list value in key order, or nothing |
| `QuizGenerator.Extract` | backend/app.py:355-368 | priority order: a dict's "questions" value; else a list itself; else the first non-empty list value of a dict, or the ValueError when there is none; `.items()` on any other value raises |
| `QuizGenerator.Entries` | backend/app.py:372 | `for q in questions` iterates exactly when the value has a length, and then over that many items (a list's own items); a scalar raises "not iterable" |
| `QuizGenerator.ArbitraryKeyUnwrapped` | backend/app.py:361-365 | `{"foo": [...]}` is unwrapped and its entries are what gets validated |
| `QuizGenerator.FailureGivesErrorQuestion` | backend/app.py:386-394 | a call failure yields exactly one question "Error generating quiz: " + its message with the "Check API key" options; a parse, extraction or validation failure yields exactly one question "Error parsing quiz questions: " + str(e) of that failure with the "Check logs" options; both have answer 2 |
| `QuizGenerator.FixedQuestionsOk` | backend/app.py:278-299 | the two mock questions and both error questions keep the answer contract |
| `QuizGenerator.QuizAnswersOk` | backend/app.py:272-394 | whatever the model replies, every returned question keeps the answer contract |
| `QuizGenerator.EmptyOptionsSurvive` | backend/app.py:379 | a question with no options comes back with answer 0, so the answer need not index an option |
| `QuizGenerator.GenerateQuizQuestions` | backend/app.py:272-394 | the generator returns the mock, error or validated questions of the reference definition, each keeping the answer contract |
| `Transcription.FlattenSentences` | backend/app.py:105-113 | the nested loop builds exactly the concatenation of each paragraph's records in paragraph order |
| `Transcription.FlattenLength` | backend/app.py:105-113 | the flat list is as long as the sum of the paragraphs' sentence counts |
| `Transcription.FlattenAt` | backend/app.py:107-113 | sentence j of paragraph i is record offset(i) + j, with text, start and end copied exactly |
| `Transcription.FlattenFrom` | backend/app.py:107-113 | every record is the copy of some sentence of some paragraph |
| `Transcription.TranscribeAudio` | backend/app.py:73-120 | a provider failure becomes status 500 with "Error during transcription: " and the message; otherwise the transcript and the flattened sentences |
| `Endpoints.BulletSummary` | backend/app.py:164-237 | the mock text without a client, the model's content when the call returned, and otherwise exactly "Error generating summary: " followed by the exception's message |
| `Endpoints.SummaryEndpoint` | backend/app.py:247-270 | fails exactly for the empty transcript, then with 500 and the wrapped 400 message; otherwise the summary of the truncated transcript |
| `Endpoints.MockSummaryScenario` | backend/app.py:168-175 | without a client the endpoint returns the mock summary, which contains "mock summary" |
| `Endpoints.QuizEndpoint` | backend/app.py:410-435 | fails exactly for the empty transcript, with 500; otherwise the questions generated from the truncated transcript and the clamped count, each keeping the answer contract |
| `Endpoints.MockQuizScenario` | backend/app.py:276-299 | without a client the two mock questions come back whatever the count |
| `Endpoints.UploadPath` | backend/app.py:132-134 | the saved path lies in the upload directory and ends with the original extension |
| `Endpoints.UploadStore.Create` | backend/app.py:137-139 | opening the path for writing adds exactly that file to the directory |
| `Endpoints.UploadStore.Remove` | backend/app.py:156-162 | removing an existing file takes exactly it out of the directory |
| `Endpoints.TranscribeEndpoint` | backend/app.py:122-162 | a non-audio content type gives 400 with no file created; a failed open gives 500 with no file; once saved, the file is gone afterwards on success and on failure, and the transcription error is passed on unchanged |

## Left out

- FastAPI application object, CORS middleware, route decorators and the
  pydantic request and response models (lines 14-23, 240-245, 397-408): web
  framework plumbing. FastAPI's validation of the returned questions against
  `QuizQuestion` is therefore not modelled.
- The `GET /` endpoint returning `{"message": "Hello World"}`: a constant, with no logic.
- The Deepgram and Groq client calls and their options (lines 75-98, 223-234,
  336-348): network calls to external services. Their results are inputs:
  `ProviderReply`, and `Option` of a function from the request to the reply,
  where `None` is "no client configured".
- The prompt templates (lines 179-220, 303-333): constant text. The model
  records only what goes into them: the truncated transcript and the clamped count.
- `json.loads` itself: its result is the input `ParseOutcome`, either a
  `Json` value or the message of the exception it raised. Duplicate keys in
  the reply text are not modelled: an `Object` stands for the dict json.loads
  built, whose keys are distinct.
- Environment and configuration loading, the startup `ValueError` and the
  creation of the upload directory (lines 25-49): process configuration.
- The mock branch of `transcribe_audio` (lines 57-71): it cannot run, because
  startup fails when the transcription key is missing.
- `uuid.uuid4()` and `os.path.splitext` (lines 132-134): randomness and a
  library routine. They are the parameters `id` and `ext` of `TranscribeEndpoint`.
- Timestamps and JSON floats are carried as `real` values and never computed with.
- `async`/`await`: nothing depends on concurrency.
- QuizEntries.Repair: does not model Python's `bool` being an `int`. The model
  treats a `true`/`false` answer as a non-integer and replaces it with 0.
  Python compares it as 1 or 0: it evaluates `len(q["options"])`, so options
  without a length give the "Error parsing quiz questions" question, and
  `true` with two or more options (`false` with at least one) is kept as it is.
- QuizEntries.Coerced: the model's digit strings are the ASCII digits 0-9
  only. Python's `isdigit` and `int()` also accept other Unicode decimal
  digits, so an answer such as "\u0663" (Arabic-Indic three) becomes 3 in
  Python and is kept when in range, where the model resets it to 0. Digits
  such as superscripts pass `isdigit` but make `int()` raise, giving the
  error question in Python and answer 0 in the model.
- QuizEntries.Coerced: CPython's limit on `int()` of a long digit string
  (4300 digits by default) is not modelled. Past it `int()` raises ValueError
  and Python returns the "Error parsing quiz questions" question; the model
  converts the string and keeps the entry (with answer 0, as such a number is
  out of range).
- `num_questions` absent (default 5) or null, and `content_type` missing:
  request-parsing cases. The model takes an integer count and a content-type string.
- The wording of Python's TypeError and AttributeError messages in the error
  question differs between Python versions: `QuizEntries.ErrorText` uses one wording.
- The raw question dicts are repaired in place in the source. The model
  builds repaired copies, because nothing reads the raw list afterwards.
