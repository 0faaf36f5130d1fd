/**
 * The Google speech service: a guard on the audio file, then the recognition models tried in
 * order until one answers with results, whose alternatives are joined into one transcript.
 * What `client.recognize` returns for each model is given as a parameter.
 */
module GoogleSpeech {
  import opened Common

  /** The display names of the six recognition configurations, in the order they are tried. */
  const ModelNames: seq<string> := [
    "WebM OPUS Standard", "OGG OPUS Standard", "Latest Short", "Phone Call",
    "Enhanced Default", "With Speech Contexts"]

  const MinFileSize := 1000

  /** The audio file on disk: absent, or present with its size in bytes. */
  datatype AudioFile = Missing | Present(size: nat)

  /** One recognition hypothesis; `confidence` is None when the attribute is absent. */
  datatype Alternative = Alternative(transcript: string, confidence: Option<real>)

  datatype SpeechResult = SpeechResult(alternatives: seq<Alternative>)

  /** What `client.recognize` did for one model: raised, or answered (in `elapsed` seconds). */
  datatype RecognizeOutcome =
    | Raised(error: string)
    | Response(results: seq<SpeechResult>, elapsed: real)

  /** A model wins when its response has at least one result. */
  predicate Succeeds(o: RecognizeOutcome) {
    o.Response? && o.results != []
  }

  /** All alternatives of all results, in order. */
  function Alternatives(results: seq<SpeechResult>): seq<Alternative> {
    if results == [] then []
    else Alternatives(results[..|results| - 1]) + results[|results| - 1].alternatives
  }

  function Transcripts(alts: seq<Alternative>): (ts: seq<string>)
    ensures |ts| == |alts|
    ensures forall i | 0 <= i < |alts| :: ts[i] == alts[i].transcript
  {
    seq(|alts|, i requires 0 <= i < |alts| => alts[i].transcript)
  }

  function ConfidenceSum(alts: seq<Alternative>): real {
    if alts == [] then 0.0
    else ConfidenceSum(alts[..|alts| - 1]) + alts[|alts| - 1].confidence.GetOr(0.0)
  }

  function ConfidenceCount(alts: seq<Alternative>): nat {
    if alts == [] then 0
    else ConfidenceCount(alts[..|alts| - 1]) + (if alts[|alts| - 1].confidence.Some? then 1 else 0)
  }

  /** At most one confidence per alternative is counted, and all of them when every alternative has one. */
  lemma {:induction false} ConfidenceCountBounds(alts: seq<Alternative>)
    ensures ConfidenceCount(alts) <= |alts|
    ensures (forall i | 0 <= i < |alts| :: alts[i].confidence.Some?) ==> ConfidenceCount(alts) == |alts|
    ensures (forall i | 0 <= i < |alts| :: alts[i].confidence.None?) ==> ConfidenceCount(alts) == 0
  {
    if alts != [] {
      var init := alts[..|alts| - 1];
      assert forall i | 0 <= i < |init| :: init[i] == alts[i];
      ConfidenceCountBounds(init);
    }
  }

  /** Confidences in [0, 1] sum to at most their count, so their average is in [0, 1]. */
  lemma {:induction false} ConfidenceSumBounded(alts: seq<Alternative>)
    requires forall i | 0 <= i < |alts| :: alts[i].confidence.Some? ==> 0.0 <= alts[i].confidence.value <= 1.0
    ensures 0.0 <= ConfidenceSum(alts) <= ConfidenceCount(alts) as real
  {
    if alts != [] {
      var init := alts[..|alts| - 1];
      assert forall i | 0 <= i < |init| :: init[i] == alts[i];
      ConfidenceSumBounded(init);
    }
  }

  /** `confidence_sum / confidence_count if confidence_count > 0 else None`. */
  function Average(alts: seq<Alternative>): (c: Value)
    ensures c == Null <==> ConfidenceCount(alts) == 0
    ensures c.Num? ==> c.n * (ConfidenceCount(alts) as real) == ConfidenceSum(alts)
  {
    if ConfidenceCount(alts) > 0 then Num(ConfidenceSum(alts) / (ConfidenceCount(alts) as real)) else Null
  }

  /** The index of the first model, from `k` on, whose response has results. */
  function Winner(recognize: nat -> RecognizeOutcome, k: nat): (m: Option<nat>)
    requires k <= |ModelNames|
    ensures m.Some? ==> k <= m.value < |ModelNames| && Succeeds(recognize(m.value))
    ensures m.Some? ==> forall j | k <= j < m.value :: !Succeeds(recognize(j))
    ensures m.None? <==> forall j | k <= j < |ModelNames| :: !Succeeds(recognize(j))
    decreases |ModelNames| - k
  {
    if k == |ModelNames| then None
    else if Succeeds(recognize(k)) then Some(k)
    else Winner(recognize, k + 1)
  }

  function Failure(error: string): Value {
    Obj(map["success" := Bool(false), "error" := Str(error), "text" := Null, "model_used" := Null])
  }

  /** The success record for the winning model `m`. */
  function Success(m: nat, o: RecognizeOutcome): Value
    requires m < |ModelNames| && o.Response?
  {
    var alts := Alternatives(o.results);
    Obj(map["success" := Bool(true), "text" := Str(Join(Transcripts(alts), " ")),
            "model_used" := Str(ModelNames[m]), "confidence" := Average(alts),
            "processing_time" := Num(o.elapsed)])
  }

  /** The nested loops over results and alternatives: the transcript parts, the confidence sum and count. */
  method Collect(results: seq<SpeechResult>) returns (parts: seq<string>, sum: real, count: nat)
    ensures parts == Transcripts(Alternatives(results))
    ensures sum == ConfidenceSum(Alternatives(results))
    ensures count == ConfidenceCount(Alternatives(results))
  {
    parts, sum, count := [], 0.0, 0;
    var i := 0;
    while i < |results|
      invariant 0 <= i <= |results|
      invariant parts == Transcripts(Alternatives(results[..i]))
      invariant sum == ConfidenceSum(Alternatives(results[..i]))
      invariant count == ConfidenceCount(Alternatives(results[..i]))
    {
      assert results[..i + 1][..i] == results[..i];
      parts, sum, count := CollectAlternatives(results[i].alternatives, Alternatives(results[..i]), parts, sum, count);
      i := i + 1;
    }
    assert results[..i] == results;
  }

  /** Appending one alternative appends its transcript and adds its confidence, when it has one. */
  lemma CollectStep(done: seq<Alternative>, alt: Alternative)
    ensures Transcripts(done + [alt]) == Transcripts(done) + [alt.transcript]
    ensures ConfidenceSum(done + [alt]) == ConfidenceSum(done) + alt.confidence.GetOr(0.0)
    ensures ConfidenceCount(done + [alt]) == ConfidenceCount(done) + (if alt.confidence.Some? then 1 else 0)
  {
    assert (done + [alt])[..|done|] == done;
  }

  /** The inner loop over one result's alternatives, continuing the totals of the alternatives `seen` before. */
  method CollectAlternatives(alts: seq<Alternative>, ghost seen: seq<Alternative>, parts0: seq<string>, sum0: real, count0: nat)
    returns (parts: seq<string>, sum: real, count: nat)
    requires parts0 == Transcripts(seen) && sum0 == ConfidenceSum(seen) && count0 == ConfidenceCount(seen)
    ensures parts == Transcripts(seen + alts)
    ensures sum == ConfidenceSum(seen + alts)
    ensures count == ConfidenceCount(seen + alts)
  {
    parts, sum, count := parts0, sum0, count0;
    var j := 0;
    assert seen + alts[..j] == seen;
    while j < |alts|
      invariant 0 <= j <= |alts|
      invariant parts == Transcripts(seen + alts[..j])
      invariant sum == ConfidenceSum(seen + alts[..j])
      invariant count == ConfidenceCount(seen + alts[..j])
    {
      var alt := alts[j];
      parts := parts + [alt.transcript];
      if alt.confidence.Some? {
        sum := sum + alt.confidence.value;
        count := count + 1;
      }
      CollectStep(seen + alts[..j], alt);
      assert seen + alts[..j + 1] == seen + alts[..j] + [alt];
      j := j + 1;
    }
    assert alts[..j] == alts;
  }

  /**
   * The result of `transcribe_audio(path)` when `recognize(k)` is what the k-th model returns:
   * the guards on the file, then the first model with results, or a failure when none has any.
   */
  function Transcription(file: AudioFile, recognize: nat -> RecognizeOutcome): (r: Value)
    ensures Get(r, "success") == Bool(file.Present? && file.size >= MinFileSize && Winner(recognize, 0).Some?)
    ensures Get(r, "text") == Null || Get(r, "text").Str?
    ensures file.Missing? ==> r == Failure("Audio file does not exist")
    ensures file.Present? && file.size < MinFileSize ==> r == Failure("Audio file too small or empty")
    ensures file.Present? && file.size >= MinFileSize && Winner(recognize, 0).None? ==>
      r == Failure("Failed to transcribe with any model")
  {
    if file.Missing? then Failure("Audio file does not exist")
    else if file.size < MinFileSize then Failure("Audio file too small or empty")
    else match Winner(recognize, 0)
      case Some(m) => Success(m, recognize(m))
      case None => Failure("Failed to transcribe with any model")
  }

  /**
   * A successful transcription names the first model whose response had results, and its text
   * is the transcripts of all that response's alternatives joined by single spaces.
   */
  lemma TranscriptionSuccess(file: AudioFile, recognize: nat -> RecognizeOutcome)
    requires Get(Transcription(file, recognize), "success") == Bool(true)
    ensures Winner(recognize, 0).Some?
    ensures var m := Winner(recognize, 0).value;
      var alts := Alternatives(recognize(m).results);
      && Get(Transcription(file, recognize), "model_used") == Str(ModelNames[m])
      && Get(Transcription(file, recognize), "text") == Str(Join(Transcripts(alts), " "))
      && Get(Transcription(file, recognize), "confidence") == Average(alts)
      && (forall j | 0 <= j < m :: !Succeeds(recognize(j)))
  {
  }

  /** The success record built from the winning model's response, by the loops of `Collect`. */
  method Report(m: nat, o: RecognizeOutcome) returns (r: Value)
    requires m < |ModelNames| && o.Response?
    ensures r == Success(m, o)
  {
    var parts, sum, count := Collect(o.results);
    var confidence := if count > 0 then Num(sum / (count as real)) else Null;
    r := Obj(map["success" := Bool(true), "text" := Str(Join(parts, " ")),
                 "model_used" := Str(ModelNames[m]), "confidence" := confidence,
                 "processing_time" := Num(o.elapsed)]);
  }

  /**
   * `transcribe_audio(path)`: the models are called one at a time, in order; `tried` is the
   * number of models called, which stops at the first with results.
   */
  method Transcribe(file: AudioFile, recognize: nat -> RecognizeOutcome) returns (r: Value, tried: nat)
    ensures r == Transcription(file, recognize)
    ensures file.Missing? || file.size < MinFileSize ==> tried == 0
    ensures file.Present? && file.size >= MinFileSize ==>
      tried == match Winner(recognize, 0) case Some(m) => m + 1 case None => |ModelNames|
  {
    if file.Missing? {
      return Failure("Audio file does not exist"), 0;
    }
    if file.size < MinFileSize {
      return Failure("Audio file too small or empty"), 0;
    }
    tried := 0;
    while tried < |ModelNames|
      invariant 0 <= tried <= |ModelNames|
      invariant Winner(recognize, 0) == Winner(recognize, tried)
    {
      var outcome := recognize(tried);
      if outcome.Response? && outcome.results != [] {
        r := Report(tried, outcome);
        tried := tried + 1;
        return;
      }
      tried := tried + 1;
    }
    r := Failure("Failed to transcribe with any model");
  }
}
