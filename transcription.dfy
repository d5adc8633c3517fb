/** The speech-to-text step (backend/app.py, transcribe_audio): the provider's
    paragraph and sentence hierarchy flattened into one ordered list. */
module Transcription {
  import opened Http

  /** Timestamps in seconds; they are copied, never computed with. */
  type Seconds = real

  /** A sentence as the provider returns it. */
  datatype Sentence = Sentence(text: string, start: Seconds, end: Seconds)

  datatype Paragraph = Paragraph(sentences: seq<Sentence>)

  /** One `{"text", "start", "end"}` record of the endpoint's `sentences` list. */
  datatype TimedSentence = TimedSentence(text: string, start: Seconds, end: Seconds)

  /** The provider's answer: the transcription call raised, or it returned the
      first alternative's transcript and paragraphs. */
  datatype ProviderReply = ProviderFailed(msg: string) | Transcribed(transcript: string, paragraphs: seq<Paragraph>)

  datatype TranscriptResult = TranscriptResult(transcript: string, sentences: seq<TimedSentence>)

  const TranscriptionFailurePrefix: string := "Error during transcription: "

  function Record(s: Sentence): TimedSentence
  {
    TimedSentence(s.text, s.start, s.end)
  }

  function Records(ss: seq<Sentence>): (r: seq<TimedSentence>)
    ensures |r| == |ss|
    ensures forall k :: 0 <= k < |ss| ==> r[k] == TimedSentence(ss[k].text, ss[k].start, ss[k].end)
  {
    seq(|ss|, k requires 0 <= k < |ss| => Record(ss[k]))
  }

  /** The records of every paragraph, paragraph after paragraph. */
  function Flatten(ps: seq<Paragraph>): seq<TimedSentence>
  {
    if |ps| == 0 then [] else Flatten(ps[..|ps| - 1]) + Records(ps[|ps| - 1].sentences)
  }

  /** The number of sentences over all paragraphs. */
  function SentenceCount(ps: seq<Paragraph>): nat
  {
    if |ps| == 0 then 0 else SentenceCount(ps[..|ps| - 1]) + |ps[|ps| - 1].sentences|
  }

  /** Position in the flat list of paragraph i's first sentence. */
  function Offset(ps: seq<Paragraph>, i: nat): nat
    requires i <= |ps|
  {
    SentenceCount(ps[..i])
  }

  /** The flat list is as long as all the paragraphs together. */
  lemma {:induction false} FlattenLength(ps: seq<Paragraph>)
    ensures |Flatten(ps)| == SentenceCount(ps)
  {
    if |ps| > 0 {
      FlattenLength(ps[..|ps| - 1]);
    }
  }

  lemma {:induction false} OffsetGrows(ps: seq<Paragraph>, i: nat)
    requires i < |ps|
    ensures Offset(ps, i) + |ps[i].sentences| <= SentenceCount(ps)
    decreases |ps|
  {
    var init := ps[..|ps| - 1];
    if i < |ps| - 1 {
      assert init[..i] == ps[..i];
      assert init[i] == ps[i];
      OffsetGrows(init, i);
    } else {
      assert ps[..i] == init;
    }
  }

  /** Sentence j of paragraph i is record Offset(ps, i) + j, its text and both
      timestamps copied exactly. */
  lemma {:induction false} FlattenAt(ps: seq<Paragraph>, i: nat, j: nat)
    requires i < |ps| && j < |ps[i].sentences|
    ensures Offset(ps, i) + j < |Flatten(ps)|
    ensures Flatten(ps)[Offset(ps, i) + j] == TimedSentence(ps[i].sentences[j].text, ps[i].sentences[j].start, ps[i].sentences[j].end)
    decreases |ps|
  {
    var init := ps[..|ps| - 1];
    FlattenLength(ps);
    FlattenLength(init);
    OffsetGrows(ps, i);
    if i < |ps| - 1 {
      assert init[..i] == ps[..i];
      assert init[i] == ps[i];
      FlattenAt(init, i, j);
    } else {
      assert ps[..i] == init;
    }
  }

  /** Conversely, every record is the copy of some sentence of some paragraph. */
  lemma {:induction false} FlattenFrom(ps: seq<Paragraph>, k: nat)
    requires k < |Flatten(ps)|
    ensures exists i, j :: 0 <= i < |ps| && 0 <= j < |ps[i].sentences| &&
                           Flatten(ps)[k] == Record(ps[i].sentences[j])
    decreases |ps|
  {
    var init := ps[..|ps| - 1];
    FlattenLength(init);
    if k < |Flatten(init)| {
      FlattenFrom(init, k);
      var i, j :| 0 <= i < |init| && 0 <= j < |init[i].sentences| && Flatten(init)[k] == Record(init[i].sentences[j]);
      assert init[i] == ps[i];
      assert Flatten(ps)[k] == Record(ps[i].sentences[j]);
    } else {
      var j := k - |Flatten(init)|;
      assert Flatten(ps)[k] == Record(ps[|ps| - 1].sentences[j]);
    }
  }

  /** What transcribe_audio returns or raises for a provider reply. */
  function TranscriptionOf(reply: ProviderReply): Response<TranscriptResult>
  {
    match reply
    case ProviderFailed(msg) => HttpError(500, TranscriptionFailurePrefix + msg)
    case Transcribed(transcript, ps) => Respond(TranscriptResult(transcript, Flatten(ps)))
  }

  /** The nested loop of transcribe_audio that formats the sentences. */
  method FlattenSentences(ps: seq<Paragraph>) returns (formatted: seq<TimedSentence>)
    ensures formatted == Flatten(ps)
  {
    formatted := [];
    var i := 0;
    while i < |ps|
      invariant 0 <= i <= |ps|
      invariant formatted == Flatten(ps[..i])
    {
      var sentences := ps[i].sentences;
      var j := 0;
      while j < |sentences|
        invariant 0 <= j <= |sentences|
        invariant formatted == Flatten(ps[..i]) + Records(sentences[..j])
      {
        var s := sentences[j];
        assert Records(sentences[..j + 1]) == Records(sentences[..j]) + [Record(s)];
        formatted := formatted + [TimedSentence(s.text, s.start, s.end)];
        j := j + 1;
      }
      assert sentences[..j] == sentences;
      assert ps[..i + 1][..i] == ps[..i];
      i := i + 1;
    }
    assert ps[..i] == ps;
  }

  /** transcribe_audio with a configured key: the provider call, then the flattening;
      any exception becomes an HTTPException with status 500. */
  method TranscribeAudio(reply: ProviderReply) returns (r: Response<TranscriptResult>)
    ensures r == TranscriptionOf(reply)
    ensures r.HttpError? ==> r.status == 500
    ensures r.Respond? ==> |r.body.sentences| == SentenceCount(reply.paragraphs)
  {
    match reply {
      case ProviderFailed(msg) =>
        r := HttpError(500, TranscriptionFailurePrefix + msg);
      case Transcribed(transcript, ps) =>
        var sentences := FlattenSentences(ps);
        FlattenLength(ps);
        r := Respond(TranscriptResult(transcript, sentences));
    }
  }
}
