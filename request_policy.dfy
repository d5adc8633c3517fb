/** The bounds the summary and quiz endpoints put on a request before the
    language model sees it. */
module RequestPolicy {

  /** The longest transcript passed on whole (backend/app.py, both endpoints). */
  const MaxTranscriptLength: nat := 16000

  /** Appended to a transcript that was cut. */
  const TruncationMarker: string := "\n[Transcript truncated due to length...]"

  const FewestQuestions: int := 1
  const MostQuestions: int := 10

  function Min(a: int, b: int): int { if a <= b then a else b }
  function Max(a: int, b: int): int { if a >= b then a else b }

  /** `t[:16000]`, followed by the marker when `len(t) > 16000`. */
  function Truncate(t: string): (r: string)
    ensures |t| <= MaxTranscriptLength ==> r == t
    ensures |t| > MaxTranscriptLength ==> r == t[..MaxTranscriptLength] + TruncationMarker
    ensures r[..Min(|t|, MaxTranscriptLength)] == t[..Min(|t|, MaxTranscriptLength)]
    ensures |r| <= MaxTranscriptLength + |TruncationMarker|
    // the marker can be told apart: the output is over the limit exactly when the input was
    ensures |r| > MaxTranscriptLength <==> |t| > MaxTranscriptLength
  {
    t[..Min(|t|, MaxTranscriptLength)] + (if |t| > MaxTranscriptLength then TruncationMarker else "")
  }

  /** `max(1, min(n, 10))`: the number of questions asked of the model. */
  function ClampQuestionCount(n: int): (r: int)
    ensures FewestQuestions <= r <= MostQuestions
    ensures FewestQuestions <= n <= MostQuestions ==> r == n
    ensures n < FewestQuestions ==> r == FewestQuestions
    ensures n > MostQuestions ==> r == MostQuestions
  {
    Max(FewestQuestions, Min(n, MostQuestions))
  }

  /** The boundary cases: exactly 16000 characters pass untouched, 16001 are cut to 16000 plus the marker. */
  lemma TruncationBoundary(t: string)
    ensures |t| == MaxTranscriptLength ==> Truncate(t) == t
    ensures |t| == MaxTranscriptLength + 1 ==>
              |Truncate(t)| == MaxTranscriptLength + |TruncationMarker| &&
              Truncate(t)[MaxTranscriptLength..] == TruncationMarker
  {
  }

  /** The documented clamping examples. */
  lemma ClampExamples()
    ensures ClampQuestionCount(0) == 1 && ClampQuestionCount(-1) == 1
    ensures ClampQuestionCount(15) == 10 && ClampQuestionCount(5) == 5
  {
  }
}
