/** The three POST endpoints of backend/app.py with the provider calls as inputs,
    and the upload directory as a mutable set of paths. */
module Endpoints {
  import opened Wrappers
  import opened Http
  import opened Json
  import opened RequestPolicy
  import opened QuizEntries
  import opened QuizGenerator
  import opened Transcription

  // ---------------------------------------------------------------- summary

  /** The chat-completion call for a summary: its content, or the message of what it raised. */
  datatype SummaryReply = Summarised(content: string) | SummaryFailed(msg: string)

  /** Prefix of the summary generator's own error text. */
  const SummaryFailurePrefix: string := "Error generating summary: "

  /** Prefixes of the details the summary and quiz endpoints' `except` clauses raise with. */
  const SummaryRequestFailurePrefix: string := "Error generating summary: "
  const QuizRequestFailurePrefix: string := "Error generating quiz: "

  /** `str(HTTPException(400, "Transcript is required"))`, re-raised by the endpoints' `except`. */
  const MissingTranscript: string := "400: Transcript is required"

  /** The fixed text returned when no language-model client is configured. */
  const MockSummary: string :=
    "\n        \U{2022} This is a " + "mock summary" + " for development purposes." +
    "\n        \U{2022} Please set the GROQ_API_KEY environment variable for actual summary generation." +
    "\n        \U{2022} The real summary would extract key points from the transcript." +
    "\n        \U{2022} It would be organized as a bullet-point list for easy reading." +
    "\n        "

  /** generate_bullet_summary: always a string, the mock text without a client
      and the error message when the call raised. */
  function BulletSummary(transcript: string, llm: Option<string -> SummaryReply>): (r: string)
    ensures llm.None? ==> r == MockSummary
    ensures llm.Some? && llm.value(transcript).Summarised? ==> r == llm.value(transcript).content
    // a failed call is reported inside the text: the prefix, then exactly the exception's message
    ensures llm.Some? && llm.value(transcript).SummaryFailed? ==>
              |SummaryFailurePrefix| <= |r| && r[..|SummaryFailurePrefix|] == SummaryFailurePrefix &&
              r[|SummaryFailurePrefix|..] == llm.value(transcript).msg
  {
    match llm
    case None => MockSummary
    case Some(call) =>
      match call(transcript)
      case Summarised(content) => content
      case SummaryFailed(msg) => SummaryFailurePrefix + msg
  }

  /** generate_summary_endpoint: the only failure is the empty transcript, and it
      surfaces as 500, because the endpoint's own `except` wraps the 400. */
  function SummaryEndpoint(transcript: string, llm: Option<string -> SummaryReply>): (r: Response<string>)
    ensures r.HttpError? <==> transcript == ""
    ensures r.HttpError? ==> r == HttpError(500, SummaryRequestFailurePrefix + MissingTranscript)
    ensures r.Respond? ==> r.body == BulletSummary(Truncate(transcript), llm)
  {
    if transcript == "" then HttpError(500, SummaryRequestFailurePrefix + MissingTranscript)
    else Respond(BulletSummary(Truncate(transcript), llm))
  }

  /** Without a client, any transcript gets the mock summary, which mentions "mock summary". */
  lemma MockSummaryScenario(transcript: string)
    requires transcript != ""
    ensures SummaryEndpoint(transcript, None) == Respond(MockSummary)
    ensures Contains(MockSummary, "mock summary")
  {
    var lead := "\n        \U{2022} This is a ";
    assert |lead| == 21;
    assert MockSummary[21..33] == "mock summary";
    assert OccursAt(MockSummary, "mock summary", 21);
  }

  // ------------------------------------------------------------------- quiz

  /** generate_quiz_endpoint: truncate, clamp the count to [1, 10], generate.
      Every question returned keeps the answer contract. */
  method QuizEndpoint(transcript: string, numQuestions: int, llm: Option<(string, int) -> QuizReply>)
    returns (r: Response<seq<Json>>)
    ensures r.HttpError? <==> transcript == ""
    ensures r.HttpError? ==> r == HttpError(500, QuizRequestFailurePrefix + MissingTranscript)
    ensures r.Respond? ==> r.body == QuizQuestions(Truncate(transcript), ClampQuestionCount(numQuestions), llm)
    ensures r.Respond? ==> forall q :: q in r.body ==> AnswerOk(q)
  {
    if transcript == "" {
      return HttpError(500, QuizRequestFailurePrefix + MissingTranscript);
    }
    var truncated := Truncate(transcript);
    var count := ClampQuestionCount(numQuestions);
    var questions := GenerateQuizQuestions(truncated, count, llm);
    return Respond(questions);
  }

  /** Without a client the two mock questions come back whatever count was asked for. */
  lemma MockQuizScenario(transcript: string, count: int)
    ensures QuizQuestions(transcript, count, None) == MockQuestions && |MockQuestions| == 2
  {
  }

  // ----------------------------------------------------------------- upload

  const UploadDirectory: string := "uploads"
  const AudioPrefix: string := "audio/"
  const NotAudio: string := "File must be an audio file"
  const SaveFailurePrefix: string := "Error saving file: "

  /** Python's `s.startswith(prefix)`. */
  predicate StartsWith(s: string, prefix: string)
  {
    |prefix| <= |s| && s[..|prefix|] == prefix
  }

  /** `os.path.join(UPLOAD_DIR, f"{uuid}{extension}")`: inside the upload
      directory, ending with the original extension. */
  function UploadPath(id: string, ext: string): (p: string)
    ensures StartsWith(p, UploadDirectory + "/")
    ensures |ext| <= |p| && p[|p| - |ext|..] == ext
  {
    UploadDirectory + "/" + id + ext
  }

  /** The files present in the upload directory. */
  class UploadStore {
    var files: set<string>

    constructor ()
      ensures files == {}
    {
      files := {};
    }

    /** `os.path.exists(path)`. */
    predicate Exists(path: string)
      reads this
    {
      path in files
    }

    /** `open(path, "wb")`: the file exists from then on. */
    method Create(path: string)
      modifies this
      ensures files == old(files) + {path}
    {
      files := files + {path};
    }

    /** `os.remove(path)`, which raises on a missing file. */
    method Remove(path: string)
      requires path in files
      modifies this
      ensures files == old(files) - {path}
    {
      files := files - {path};
    }
  }

  datatype Upload = Upload(filename: string, contentType: string)

  /** How writing the upload went: `open` raised (nothing created), the copy
      raised (the opened file remains), or the save completed. */
  datatype SaveOutcome = Saved | OpenFailed(msg: string) | CopyFailed(msg: string)

  datatype TranscribeBody = TranscribeBody(filename: string, transcription: string, sentences: seq<TimedSentence>)

  /** The endpoint's answer once the file was saved: the transcription, or the
      exception transcribe_audio raised, passed on unchanged. */
  function Served(filename: string, result: Response<TranscriptResult>): Response<TranscribeBody>
  {
    match result
    case Respond(t) => Respond(TranscribeBody(filename, t.transcript, t.sentences))
    case HttpError(status, detail) => HttpError(status, detail)
  }

  /** transcribe_audio_endpoint. `id` stands for the generated
      uuid and `ext` for the extension os.path.splitext takes from the file name. */
  method TranscribeEndpoint(store: UploadStore, upload: Upload, id: string, ext: string,
                            save: SaveOutcome, reply: ProviderReply)
    returns (r: Response<TranscribeBody>)
    modifies store
    ensures !StartsWith(upload.contentType, AudioPrefix) ==>
              r == HttpError(400, NotAudio) && store.files == old(store.files)
    ensures StartsWith(upload.contentType, AudioPrefix) && save.OpenFailed? ==>
              r == HttpError(500, SaveFailurePrefix + save.msg) && store.files == old(store.files)
    ensures StartsWith(upload.contentType, AudioPrefix) && save.CopyFailed? ==>
              r == HttpError(500, SaveFailurePrefix + save.msg) &&
              store.files == old(store.files) + {UploadPath(id, ext)}
    ensures StartsWith(upload.contentType, AudioPrefix) && save.Saved? ==>
              r == Served(upload.filename, TranscriptionOf(reply)) &&
              store.files == old(store.files) - {UploadPath(id, ext)}
  {
    if !StartsWith(upload.contentType, AudioPrefix) {
      return HttpError(400, NotAudio);
    }
    var path := UploadPath(id, ext);
    match save {
      case OpenFailed(msg) =>
        return HttpError(500, SaveFailurePrefix + msg);
      case CopyFailed(msg) =>
        store.Create(path);
        return HttpError(500, SaveFailurePrefix + msg);
      case Saved =>
        store.Create(path);
    }
    var result := TranscribeAudio(reply);
    if result.HttpError? {
      // except: remove the file, then re-raise
      if store.Exists(path) {
        store.Remove(path);
      }
      r := HttpError(result.status, result.detail);
    } else {
      r := Respond(TranscribeBody(upload.filename, result.body.transcript, result.body.sentences));
    }
    // finally
    if store.Exists(path) {
      store.Remove(path);
    }
  }
}
