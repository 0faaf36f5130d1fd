/**
 * The Whisper speech service: the recognizer's output (given as a parameter) becomes a result
 * record whose confidence is the mean of the segments' confidences, or None.
 */
module OpenSourceSpeech {
  import opened Common

  const ModelName := "Whisper Base"

  /** A segment's `confidence` entry: missing (read as 0), a number, or something `sum` cannot add. */
  datatype SegmentConfidence = Absent | Number(x: real) | NotNumber

  /** What `model.transcribe` did: raised, or returned the text and its segments. */
  datatype WhisperOutcome =
    | WhisperRaised(error: string)
    | Transcribed(text: string, segments: seq<SegmentConfidence>)

  function Addend(c: SegmentConfidence): real {
    match c
    case Absent => 0.0
    case Number(x) => x
    case NotNumber => 0.0
  }

  predicate Summable(segments: seq<SegmentConfidence>) {
    forall i | 0 <= i < |segments| :: !segments[i].NotNumber?
  }

  /** `sum(segment.get("confidence", 0) for segment in segments)`, when it does not raise. */
  function ConfidenceSum(segments: seq<SegmentConfidence>): real {
    if segments == [] then 0.0 else ConfidenceSum(segments[..|segments| - 1]) + Addend(segments[|segments| - 1])
  }

  /**
   * The reported confidence: the mean over all segments (a missing confidence counting as 0),
   * with no segments, a mean of exactly 0, or a sum that raises all reported as None.
   */
  function AverageConfidence(segments: seq<SegmentConfidence>): (c: Value)
    ensures c == Null || c.Num?
    ensures c.Num? ==> c.n != 0.0 && c.n * (|segments| as real) == ConfidenceSum(segments)
    ensures c == Null <==> segments == [] || !Summable(segments) || ConfidenceSum(segments) == 0.0
  {
    if segments == [] || !Summable(segments) then Null
    else
      var avg := ConfidenceSum(segments) / (|segments| as real);
      if avg == 0.0 then Null else Num(avg)
  }

  /** Confidences in [0, 1] average to a value in (0, 1]. */
  lemma {:induction false} ConfidenceSumBounded(segments: seq<SegmentConfidence>)
    requires forall i | 0 <= i < |segments| :: segments[i].Number? ==> 0.0 <= segments[i].x <= 1.0
    ensures 0.0 <= ConfidenceSum(segments) <= |segments| as real
  {
    if segments != [] {
      var init := segments[..|segments| - 1];
      assert forall i | 0 <= i < |init| :: init[i] == segments[i];
      ConfidenceSumBounded(init);
    }
  }

  lemma AverageConfidenceBounded(segments: seq<SegmentConfidence>)
    requires forall i | 0 <= i < |segments| :: segments[i].Number? ==> 0.0 <= segments[i].x <= 1.0
    ensures AverageConfidence(segments).Num? ==> 0.0 < AverageConfidence(segments).n <= 1.0
  {
    ConfidenceSumBounded(segments);
  }

  /** Segments that carry no confidence at all, as Whisper's own segments do, give None. */
  lemma {:induction false} NoConfidencesGiveNone(segments: seq<SegmentConfidence>)
    requires forall i | 0 <= i < |segments| :: segments[i].Absent?
    ensures AverageConfidence(segments) == Null
  {
    if segments != [] {
      var init := segments[..|segments| - 1];
      assert forall i | 0 <= i < |init| :: init[i] == segments[i];
      NoConfidencesGiveNone(init);
      assert ConfidenceSum(segments) == ConfidenceSum(init);
    }
  }

  function Failure(error: string): Value {
    Obj(map["success" := Bool(false), "error" := Str(error), "text" := Null, "confidence" := Null,
            "model_used" := Str(ModelName)])
  }

  /** `transcribe_audio(path)`: `exists` says whether the file is there, `outcome` what Whisper did. */
  function Transcribe(path: string, fileExists: bool, outcome: WhisperOutcome): (r: Value)
    ensures Get(r, "model_used") == Str(ModelName)
    ensures Get(r, "success") == Bool(fileExists && outcome.Transcribed?)
    ensures !fileExists ==> r == Failure("File does not exist: " + path)
    ensures fileExists && outcome.WhisperRaised? ==> r == Failure(outcome.error)
    ensures fileExists && outcome.Transcribed? ==>
      && Get(r, "text") == Str(outcome.text)
      && Get(r, "confidence") == AverageConfidence(outcome.segments)
      && Get(r, "processing_time") == Num(0.0)
  {
    if !fileExists then Failure("File does not exist: " + path)
    else match outcome
      case WhisperRaised(e) => Failure(e)
      case Transcribed(text, segments) =>
        Obj(map["success" := Bool(true), "text" := Str(text), "confidence" := AverageConfidence(segments),
                "model_used" := Str(ModelName), "processing_time" := Num(0.0)])
  }
}
