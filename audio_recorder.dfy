/**
 * The speech-to-text screen: a recorder, the request hook, and the transcription panel built
 * from the server's reply. The result it reports to the parent is the one described under
 * "Findings" in the README: a record shaped like the ones the result views read.
 */
module AudioScreen {
  import opened Common
  import Api
  import Hook
  import Recording
  import Dashboard

  /** The transcription panel. */
  datatype Transcription = Transcription(text: Value, modelUsed: Value, confidence: Value, sentiment: Value)

  /**
   * The panel for a truthy reply: its transcription text or "No transcription available", the
   * model, the confidence and the sentiment; None when the reply has no `results` to read.
   */
  function TranscriptionOf(data: Value): (t: Option<Transcription>)
    ensures t.Some? <==> Get(data, "results") != Null && Get(data, "results") != Undefined
    ensures t.Some? ==> (t.value.sentiment == Get(data, "sentiment")
                         && t.value.modelUsed == Get(Get(data, "results"), "model_used")
                         && t.value.confidence == Get(Get(data, "results"), "confidence")
                         && JsTruthy(t.value.text))
  {
    var results := Get(data, "results");
    if results == Null || results == Undefined then None
    else Some(Transcription(JsOr(Get(results, "text"), Str("No transcription available")),
                            Get(results, "model_used"), Get(results, "confidence"), Get(data, "sentiment")))
  }

  /** The panel shows the recognised text when there is some, and the placeholder otherwise. */
  lemma TranscriptionText(data: Value, text: string)
    requires Get(data, "results").Obj? && Get(Get(data, "results"), "text") == Str(text)
    ensures TranscriptionOf(data).Some?
    ensures text != "" ==> TranscriptionOf(data).value.text == Str(text)
    ensures text == "" ==> TranscriptionOf(data).value.text == Str("No transcription available")
  {
  }

  /**
   * The result reported to the parent as written: the reply itself, so a reply without a
   * `type` is reported as a result of neither kind.
   */
  function ReportedAsWritten(data: Value): (r: Value)
    ensures Get(r, "id") == Get(data, "id") && Get(r, "results") == Get(data, "results")
    ensures Get(data, "type") == Undefined ==> !Dashboard.IsSpeechResult(r) && !Dashboard.IsTextResult(r)
  {
    data
  }

  /** The result reported to the parent: the reply's fields under the names the result views read. */
  function SpeechRecord(data: Value): (r: Value)
    ensures Dashboard.IsSpeechResult(r)
    ensures Get(r, "id") == Get(data, "id") && Get(r, "provider") == Get(data, "provider")
    ensures Get(r, "transcription") == Get(data, "results") && Get(r, "sentiment") == Get(data, "sentiment")
  {
    Obj(map["id" := Get(data, "id"), "type" := Str("speech_to_text"), "provider" := Get(data, "provider"),
            "transcription" := Get(data, "results"), "sentiment" := Get(data, "sentiment")])
  }

  /** The body of a successful POST /api/speech-to-text. */
  function SpeechReply(id: string, provider: string, results: Value, sentiment: Value): Value {
    Obj(map["id" := Str(id), "provider" := Str(provider), "results" := results, "sentiment" := sentiment])
  }

  /**
   * Reported as written, a transcription is titled "Text to Speech", summarised as "No text
   * available", and counted as neither kind on the dashboard.
   */
  lemma RawReplyMiscounted(id: string, provider: string, results: Value, sentiment: Value)
    ensures var r := ReportedAsWritten(SpeechReply(id, provider, results, sentiment));
      && Dashboard.Title(r) == "Text to Speech"
      && Dashboard.Summary(r) == "No text available"
      && Dashboard.KindCounts([r]) == Dashboard.Counts(1, 0, 0)
  {
    var r := ReportedAsWritten(SpeechReply(id, provider, results, sentiment));
    assert Filter([r], Dashboard.IsSpeechResult) == [];
    assert Filter([r], Dashboard.IsTextResult) == [];
  }

  /**
   * Reported as a speech record, a transcription is titled "Speech to Text", summarised by its
   * text, and counted as one speech-to-text result.
   */
  lemma SpeechRecordCounted(id: string, provider: string, text: string, results: Value, sentiment: Value)
    requires Get(results, "text") == Str(text) && text != ""
    ensures var r := SpeechRecord(SpeechReply(id, provider, results, sentiment));
      && Dashboard.Title(r) == "Speech to Text"
      && Dashboard.Summary(r) == Dashboard.Quoted(text, 50)
      && Dashboard.KindCounts([r]) == Dashboard.Counts(1, 1, 0)
  {
    var r := SpeechRecord(SpeechReply(id, provider, results, sentiment));
    assert Filter([r], Dashboard.IsSpeechResult) == [r];
    assert Filter([r], Dashboard.IsTextResult) == [];
  }

  class AudioRecorderView {
    const recorder: Recording.Recorder
    const api: Hook.ApiHook
    var transcription: Option<Transcription>

    predicate Valid()
      reads this, recorder, api
    {
      recorder.Valid() && api.Valid()
    }

    constructor()
      ensures Valid() && fresh(recorder) && fresh(api)
      ensures transcription.None? && recorder.audioBlob.None? && api.provider == "google"
    {
      recorder := new Recording.Recorder();
      api := new Hook.ApiHook();
      transcription := None;
    }

    /**
     * `processAudio`: nothing is sent without a recording; otherwise the recording goes to
     * the speech endpoint with the chosen provider, a successful reply is reported and, when
     * it carries results, shown in the panel.
     */
    method ProcessAudio(reply: Api.HttpReply) returns (reported: Option<Value>)
      requires Valid()
      modifies this, api
      ensures Valid()
      ensures old(recorder.audioBlob).None? ==> reported.None? && unchanged(this, api)
      ensures old(recorder.audioBlob).Some? ==>
        var c := Api.ConvertSpeechToText(old(recorder.audioBlob).value, Some(old(api.provider)));
        var data := Hook.Settled(c, reply).result;
        && api.sent == old(api.sent) + [c] && !api.loading && api.error == Hook.Settled(c, reply).error.GetOr(Null)
        && reported == (if Api.Call(c, reply).Ok? then Some(SpeechRecord(data)) else None)
        && transcription == (if JsTruthy(data) && TranscriptionOf(data).Some? then TranscriptionOf(data) else old(transcription))
    {
      var blob := recorder.audioBlob;
      if blob.None? {
        return None;
      }
      var c := api.BeginSpeechToText(blob);
      var data := api.Settle(c.value, reply);
      reported := if Api.Call(c.value, reply).Ok? then Some(SpeechRecord(data)) else None;
      if JsTruthy(data) {
        var t := TranscriptionOf(data);
        if t.Some? {
          transcription := t;
        }
      }
    }

    /** `resetRecorder`: the recording is reset and the panel closed. */
    method ResetRecorder()
      requires Valid()
      modifies this, recorder
      ensures Valid()
      ensures transcription.None? && recorder.audioBlob.None? && recorder.audioURL == "" && recorder.recordingTime == 0
      ensures recorder.revoked == if old(recorder.audioURL) != "" then old(recorder.revoked) + [old(recorder.audioURL)] else old(recorder.revoked)
    {
      recorder.ResetRecording();
      transcription := None;
    }
  }
}
