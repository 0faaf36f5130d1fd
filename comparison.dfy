/**
 * The comparison screen: the same input sent to both providers through one comparison call,
 * with its own recorder for the speech comparison and its own direct voice-list fetches.
 * The speech comparison as written also sends the recording twice more to the plain
 * speech endpoint (see `SttRunAsWritten`); the screen below does what was intended.
 */
module Comparison {
  import opened Common
  import Api
  import Hook
  import Recording
  import Backend

  const DefaultGoogleVoice := "en-US-Neural2-F"
  const DefaultOsVoice := "en-US-ChristopherNeural"
  const TranscriptionFallbackKey := "transcription"

  datatype Mode = SentimentMode | TtsMode | SttMode

  /** Whether a value is `null` or `undefined`, on which a property read raises a TypeError. */
  predicate Nullish(v: Value) {
    v == Null || v == Undefined
  }

  // ---------------------------------------------------------------- voice lists

  /**
   * The direct `GET /api/voices?provider=p` the screen sends: the request `getAvailableVoices`
   * sends for the same provider, except that no cookies go with it.
   */
  function VoicesRequest(provider: string): (r: Api.HttpRequest)
    ensures r == Api.BuildRequest(Api.FetchAvailableVoices(Some(provider))).(credentials := false)
    ensures !r.credentials
  {
    Api.HttpRequest(Api.GET, Api.BaseUrl + "/voices?provider=" + provider, Api.NoBody, false)
  }

  /**
   * What one voice-list fetch yields: an error when the fetch or `response.json()` fails or the
   * body is `null`; otherwise the `voices` array when there is one, and None when there is not.
   * The reply's status is not looked at.
   */
  function VoicesRead(reply: Api.HttpReply): (r: Result<Option<seq<Value>>>)
    ensures r.Ok? <==> reply.Reply? && reply.body.Parsed? && !Nullish(reply.body.json)
    ensures r.Ok? && r.value.Some? <==> reply.Reply? && reply.body.Parsed? && Get(reply.body.json, "voices").Arr?
  {
    match reply
    case NetworkFailure(e) => Err(e)
    case Reply(_, body) =>
      match body
      case Unparsable(e) => Err(e)
      case Parsed(data) =>
        if Nullish(data) then Err("Cannot read properties of null (reading 'voices')")
        else
          var v := Get(data, "voices");
          if v.Arr? then Ok(Some(v.items)) else Ok(None)
  }

  /** The server's voice list reaches the screen as it was sent. */
  lemma ServerVoicesRead(provider: string, voices: seq<Value>)
    ensures VoicesRead(Api.Reply(true, Api.Parsed(Obj(map["provider" := Str(provider), "voices" := Arr(voices)]))))
      == Ok(Some(voices))
  {
  }

  // ---------------------------------------------------------------- the comparison call

  /**
   * The run button is disabled while loading, without text (text modes) or without a
   * recording: exactly when something loads or a run would send no call.
   */
  function RunDisabled(loading: bool, localLoading: bool, mode: Mode, text: string, blob: Option<Blob>): (d: bool)
    ensures d <==> loading || localLoading || ComparisonCall(mode, text, DefaultGoogleVoice, DefaultOsVoice, blob).None?
  {
    loading || localLoading || (mode != SttMode && IsBlank(JavaScript, text)) || (mode == SttMode && blob.None?)
  }

  /** The call a run sends: none without a recording or without text, else the mode's comparison. */
  function ComparisonCall(mode: Mode, text: string, googleVoice: string, osVoice: string, blob: Option<Blob>): (c: Option<Api.ApiCall>)
    ensures c.Some? ==> Hook.HookCall(c.value)
    ensures c.Some? ==> (c.value.CompareSentiment? <==> mode == SentimentMode)
    ensures c.Some? ==> (c.value.CompareTextToSpeech? <==> mode == TtsMode)
    ensures c.Some? ==> (c.value.CompareSpeechToText? <==> mode == SttMode)
  {
    match mode
    case SttMode => if blob.None? then None else Some(Api.CompareSpeechToText(blob.value))
    case SentimentMode => if IsBlank(JavaScript, text) then None else Some(Api.CompareSentiment(text))
    case TtsMode => if IsBlank(JavaScript, text) then None else Some(Api.CompareTextToSpeech(text, Str(googleVoice), Str(osVoice)))
  }

  /** When nothing is loading, the button is enabled exactly when a run would send a call. */
  lemma EnabledIffCall(mode: Mode, text: string, gv: string, ov: string, blob: Option<Blob>)
    ensures !RunDisabled(false, false, mode, text, blob) <==> ComparisonCall(mode, text, gv, ov, blob).Some?
  {
  }

  /**
   * The speech comparison's reply in the shape the panels read: each side's `results` (or its
   * `transcription` when `results` is falsy) and `sentiment`. None where the source raises: the
   * reply or one of its sides is missing.
   */
  function NormalizeStt(result: Value): (r: Option<Value>)
    ensures r.Some? <==> !Nullish(result) && !Nullish(Get(result, "google")) && !Nullish(Get(result, "opensource"))
    ensures r.Some? ==> (forall side | side in {"google", "opensource"} ::
      && Get(Get(r.value, side), "sentiment") == Get(Get(result, side), "sentiment")
      && Get(Get(r.value, side), "results") == JsOr(Get(Get(result, side), "results"), Get(Get(result, side), TranscriptionFallbackKey)))
  {
    if Nullish(result) then None
    else
      var g := Get(result, "google");
      var o := Get(result, "opensource");
      if Nullish(g) || Nullish(o) then None
      else
        Some(Obj(map["google" := Backend.Pair(JsOr(Get(g, "results"), Get(g, TranscriptionFallbackKey)), Get(g, "sentiment")),
                     "opensource" := Backend.Pair(JsOr(Get(o, "results"), Get(o, TranscriptionFallbackKey)), Get(o, "sentiment"))]))
  }

  /** The server's comparison reply keeps both sides' results and sentiments and drops only its id. */
  lemma NormalizeServerComparison(id: string, gr: Value, gs: Value, osr: Value, oss: Value)
    requires JsTruthy(gr) && JsTruthy(osr)
    ensures NormalizeStt(Obj(map["id" := Str(id), "google" := Backend.Pair(gr, gs), "opensource" := Backend.Pair(osr, oss)]))
      == Some(Obj(map["google" := Backend.Pair(gr, gs), "opensource" := Backend.Pair(osr, oss)]))
  {
  }

  /** One run of the speech comparison: the requests it sends, and what it shows (None: unchanged). */
  datatype SttRun = SttRun(requests: seq<Api.HttpRequest>, shown: Option<Value>)

  /** The speech comparison as intended: the one comparison request, and its normalised reply. */
  function SttRunIntended(audio: Blob, reply: Api.HttpReply): (run: SttRun)
    ensures run.requests == [Api.BuildRequest(Api.CompareSpeechToText(audio))]
    ensures Api.Call(Api.CompareSpeechToText(audio), reply).Err? ==> run.shown.None?
  {
    var c := Api.CompareSpeechToText(audio);
    SttRun([Api.BuildRequest(c)], NormalizeStt(Hook.Settled(c, reply).result))
  }

  /**
   * The direct upload of the fall-through: the request `convertSpeechToText` sends for the
   * same recording and provider, except that no cookies go with it.
   */
  function DirectSttRequest(audio: Blob, provider: string): (r: Api.HttpRequest)
    ensures r == Api.BuildRequest(Api.ConvertSpeechToText(audio, Some(provider))).(credentials := false)
  {
    Api.HttpRequest(Api.POST, Api.BaseUrl + "/speech-to-text",
                    Api.Multipart([Api.FileField("audio", audio), Api.TextField("provider", provider)]), false)
  }

  /**
   * The fall-through's two direct uploads: the second is sent only after the first reply parsed;
   * the pair of bodies is shown whatever their status, and nothing when a step raised.
   */
  function DirectStt(audio: Blob, googleReply: Api.HttpReply, osReply: Api.HttpReply): (run: SttRun)
    ensures run.requests == [DirectSttRequest(audio, "google")]
         || run.requests == [DirectSttRequest(audio, "google"), DirectSttRequest(audio, "opensource")]
    ensures run.shown.Some? <==>
      && googleReply.Reply? && googleReply.body.Parsed? && !Nullish(googleReply.body.json)
      && osReply.Reply? && osReply.body.Parsed? && !Nullish(osReply.body.json)
  {
    var g := DirectSttRequest(audio, "google");
    var o := DirectSttRequest(audio, "opensource");
    if googleReply.NetworkFailure? || googleReply.body.Unparsable? then SttRun([g], None)
    else if osReply.NetworkFailure? || osReply.body.Unparsable? then SttRun([g, o], None)
    else
      var gd := googleReply.body.json;
      var od := osReply.body.json;
      if Nullish(gd) || Nullish(od) then SttRun([g, o], None)
      else SttRun([g, o], Some(Obj(map["google" := Backend.Pair(Get(gd, "results"), Get(gd, "sentiment")),
                                       "opensource" := Backend.Pair(Get(od, "results"), Get(od, "sentiment"))])))
  }

  /**
   * The speech comparison as written: after the comparison call the code falls through to the
   * older branch, which uploads the recording to each provider again and, when that succeeds,
   * replaces what the comparison showed.
   */
  function SttRunAsWritten(audio: Blob, reply: Api.HttpReply, googleReply: Api.HttpReply, osReply: Api.HttpReply): (run: SttRun)
    ensures 2 <= |run.requests| <= 3
    ensures run.requests[..2] == [Api.BuildRequest(Api.CompareSpeechToText(audio)), DirectSttRequest(audio, "google")]
    ensures run.shown.None? ==> SttRunIntended(audio, reply).shown.None?
  {
    var first := SttRunIntended(audio, reply);
    var direct := DirectStt(audio, googleReply, osReply);
    SttRun(first.requests + direct.requests, if direct.shown.Some? then direct.shown else first.shown)
  }

  /**
   * As written, a speech comparison sends three requests, two of them plain uploads, and shows
   * the plain uploads' bodies instead of the comparison's reply; as intended it sends one.
   */
  lemma SttFallsThrough(audio: Blob, reply: Api.HttpReply, okG: bool, gd: Value, okO: bool, od: Value)
    requires !Nullish(gd) && !Nullish(od)
    ensures var run := SttRunAsWritten(audio, reply, Api.Reply(okG, Api.Parsed(gd)), Api.Reply(okO, Api.Parsed(od)));
      && run.requests == [Api.BuildRequest(Api.CompareSpeechToText(audio)),
                          DirectSttRequest(audio, "google"), DirectSttRequest(audio, "opensource")]
      && run.shown == Some(Obj(map["google" := Backend.Pair(Get(gd, "results"), Get(gd, "sentiment")),
                                   "opensource" := Backend.Pair(Get(od, "results"), Get(od, "sentiment"))]))
    ensures |SttRunIntended(audio, reply).requests| == 1
  {
  }

  /**
   * As written, when both plain uploads fail with a server error the panels lose a successful
   * comparison's transcriptions: each side's `results` is shown as `undefined`.
   */
  lemma SttErrorsHideComparison(audio: Blob, id: string, gr: Value, gs: Value, osr: Value, oss: Value, m: string)
    requires JsTruthy(gr) && JsTruthy(osr)
    ensures var body := Obj(map["id" := Str(id), "google" := Backend.Pair(gr, gs), "opensource" := Backend.Pair(osr, oss)]);
      var failed := Api.Reply(false, Api.Parsed(Obj(map["error" := Str(m)])));
      var asWritten := SttRunAsWritten(audio, Api.Reply(true, Api.Parsed(body)), failed, failed);
      var intended := SttRunIntended(audio, Api.Reply(true, Api.Parsed(body)));
      && asWritten.shown.Some? && Get(Get(asWritten.shown.value, "google"), "results") == Undefined
      && intended.shown.Some? && Get(Get(intended.shown.value, "google"), "results") == gr
  {
    var body := Obj(map["id" := Str(id), "google" := Backend.Pair(gr, gs), "opensource" := Backend.Pair(osr, oss)]);
    var c := Api.CompareSpeechToText(audio);
    Api.SuccessPassesThrough(c, body);
    assert Hook.Settled(c, Api.Reply(true, Api.Parsed(body))).result == body;
    NormalizeServerComparison(id, gr, gs, osr, oss);
  }

  /**
   * What the screen shows after call `c` settles: the normalised speech comparison (unchanged
   * when that raised), or the text comparison's value (`null` when it failed).
   */
  function ComparisonResult(c: Api.ApiCall, reply: Api.HttpReply, prior: Value): (r: Value)
    requires c.CompareSentiment? || c.CompareTextToSpeech? || c.CompareSpeechToText?
    ensures !c.CompareSpeechToText? ==> r == (if Api.Call(c, reply).Ok? then Api.Call(c, reply).value else Null)
    ensures c.CompareSpeechToText? && Api.Call(c, reply).Err? ==> r == prior
  {
    if c.CompareSpeechToText? then SttRunIntended(c.audio, reply).shown.GetOr(prior)
    else Hook.Settled(c, reply).result
  }

  /** A text comparison shows exactly the server's successful reply. */
  lemma TextComparisonShown(c: Api.ApiCall, v: Value, prior: Value)
    requires c.CompareSentiment? || c.CompareTextToSpeech?
    ensures ComparisonResult(c, Api.Reply(true, Api.Parsed(v)), prior) == v
  {
    Api.SuccessPassesThrough(c, v);
  }

  class ComparisonView {
    var text: string
    var characterCount: nat
    /** `null` until a comparison has been shown. */
    var compareResults: Value
    var googleVoice: string
    var osVoice: string
    var googleVoices: seq<Value>
    var osVoices: seq<Value>
    var mode: Mode
    var audioBlob: Option<Blob>
    var isRecording: bool
    var audioURL: string
    /** The chunks delivered since recording started. */
    var chunks: seq<Chunk>
    /** A MediaRecorder has been created. */
    var hasRecorder: bool
    /** The one-second interval is running. */
    var timerRunning: bool
    /** The microphone stream's tracks are live. */
    var streamOpen: bool
    var elapsedTime: nat
    var localLoading: bool
    const api: Hook.ApiHook
    /** The requests the screen sent itself, in order. */
    ghost var fetched: seq<Api.HttpRequest>

    /** Only non-empty chunks are kept, and a recording is an "audio/webm" blob of kept chunks. */
    predicate Valid()
      reads this, api
    {
      && api.Valid()
      && (forall k | 0 <= k < |chunks| :: chunks[k].size > 0)
      && (audioBlob.Some? ==>
            audioBlob.value.mimeType == Recording.RecordingType
            && forall k | 0 <= k < |audioBlob.value.parts| :: audioBlob.value.parts[k].size > 0)
    }

    /** The text and comparison part of the screen is as it was. */
    twostate predicate ScreenKept()
      reads this
    {
      && text == old(text) && characterCount == old(characterCount) && compareResults == old(compareResults)
      && googleVoice == old(googleVoice) && osVoice == old(osVoice)
      && googleVoices == old(googleVoices) && osVoices == old(osVoices)
      && mode == old(mode) && localLoading == old(localLoading) && fetched == old(fetched)
    }

    /** The recording part of the screen is as it was. */
    twostate predicate RecorderKept()
      reads this
    {
      && audioBlob == old(audioBlob) && isRecording == old(isRecording) && audioURL == old(audioURL)
      && chunks == old(chunks) && hasRecorder == old(hasRecorder) && timerRunning == old(timerRunning)
      && streamOpen == old(streamOpen) && elapsedTime == old(elapsedTime)
    }

    function FormattedTime(): string
      reads this
    {
      Recording.FormatTime(elapsedTime)
    }

    constructor()
      ensures Valid() && fresh(api)
      ensures text == "" && characterCount == 0 && compareResults == Null
      ensures googleVoice == DefaultGoogleVoice && osVoice == DefaultOsVoice
      ensures googleVoices == [] && osVoices == [] && mode == SentimentMode
      ensures audioBlob.None? && !isRecording && audioURL == "" && chunks == []
      ensures !hasRecorder && !timerRunning && !streamOpen && elapsedTime == 0 && !localLoading && fetched == []
    {
      text := "";
      characterCount := 0;
      compareResults := Null;
      googleVoice := DefaultGoogleVoice;
      osVoice := DefaultOsVoice;
      googleVoices := [];
      osVoices := [];
      mode := SentimentMode;
      audioBlob := None;
      isRecording := false;
      audioURL := "";
      chunks := [];
      hasRecorder := false;
      timerRunning := false;
      streamOpen := false;
      elapsedTime := 0;
      localLoading := false;
      api := new Hook.ApiHook();
      fetched := [];
    }

    /**
     * The mount effect: the Google list, then the open-source list, each kept when its reply
     * carries a `voices` array; the first failure ends the effect.
     */
    method LoadAllVoices(googleReply: Api.HttpReply, osReply: Api.HttpReply)
      requires Valid()
      modifies this
      ensures Valid()
      ensures var g := VoicesRead(googleReply);
        && googleVoices == (if g.Ok? && g.value.Some? then g.value.value else old(googleVoices))
        && (g.Err? ==> fetched == old(fetched) + [VoicesRequest("google")] && osVoices == old(osVoices))
        && (g.Ok? ==> (var o := VoicesRead(osReply);
                       && fetched == old(fetched) + [VoicesRequest("google"), VoicesRequest("opensource")]
                       && osVoices == (if o.Ok? && o.value.Some? then o.value.value else old(osVoices))))
      ensures text == old(text) && characterCount == old(characterCount) && compareResults == old(compareResults)
      ensures googleVoice == old(googleVoice) && osVoice == old(osVoice) && mode == old(mode)
      ensures audioBlob == old(audioBlob) && isRecording == old(isRecording) && audioURL == old(audioURL)
      ensures chunks == old(chunks) && hasRecorder == old(hasRecorder) && timerRunning == old(timerRunning)
      ensures streamOpen == old(streamOpen) && elapsedTime == old(elapsedTime) && localLoading == old(localLoading)
    {
      fetched := fetched + [VoicesRequest("google")];
      var g := VoicesRead(googleReply);
      if g.Err? {
        return;
      }
      if g.value.Some? {
        googleVoices := g.value.value;
      }
      fetched := fetched + [VoicesRequest("opensource")];
      var o := VoicesRead(osReply);
      if o.Ok? && o.value.Some? {
        osVoices := o.value.value;
      }
    }

    /** `handleTextChange`: the text and its length. */
    method ChangeText(t: string)
      modifies this
      ensures text == t && characterCount == |t|
      ensures compareResults == old(compareResults) && googleVoice == old(googleVoice) && osVoice == old(osVoice)
      ensures googleVoices == old(googleVoices) && osVoices == old(osVoices) && mode == old(mode)
      ensures localLoading == old(localLoading) && fetched == old(fetched)
      ensures RecorderKept()
    {
      text := t;
      characterCount := |t|;
    }

    /** The mode buttons; the results shown so far are kept. */
    method SelectMode(m: Mode)
      modifies this
      ensures mode == m
      ensures text == old(text) && characterCount == old(characterCount) && compareResults == old(compareResults)
      ensures googleVoice == old(googleVoice) && osVoice == old(osVoice)
      ensures googleVoices == old(googleVoices) && osVoices == old(osVoices)
      ensures localLoading == old(localLoading) && fetched == old(fetched)
      ensures RecorderKept()
    {
      mode := m;
    }

    /** The two voice selectors. */
    method SelectVoices(google: string, os: string)
      modifies this
      ensures googleVoice == google && osVoice == os
      ensures text == old(text) && characterCount == old(characterCount) && compareResults == old(compareResults)
      ensures googleVoices == old(googleVoices) && osVoices == old(osVoices) && mode == old(mode)
      ensures localLoading == old(localLoading) && fetched == old(fetched)
      ensures RecorderKept()
    {
      googleVoice := google;
      osVoice := os;
    }

    /**
     * `startRecording`: with microphone access a new recording starts at time 0 with its timer,
     * the previous recording staying until the new one stops; without it nothing changes.
     */
    method StartRecording(mic: Recording.MicOutcome)
      requires Valid()
      modifies this
      ensures Valid()
      ensures mic.Refused? ==> unchanged(this)
      ensures mic.Granted? ==> chunks == [] && isRecording && elapsedTime == 0 && timerRunning && hasRecorder && streamOpen
      ensures audioBlob == old(audioBlob) && audioURL == old(audioURL)
      ensures ScreenKept()
    {
      if mic.Granted? {
        streamOpen := true;
        hasRecorder := true;
        chunks := [];
        isRecording := true;
        elapsedTime := 0;
        timerRunning := true;
      }
    }

    /** The recorder's `dataavailable` event: empty chunks are dropped. */
    method DataAvailable(chunk: Chunk)
      requires Valid()
      modifies this
      ensures Valid()
      ensures chunks == if chunk.size > 0 then old(chunks) + [chunk] else old(chunks)
      ensures audioBlob == old(audioBlob) && isRecording == old(isRecording) && audioURL == old(audioURL)
      ensures hasRecorder == old(hasRecorder) && timerRunning == old(timerRunning)
      ensures streamOpen == old(streamOpen) && elapsedTime == old(elapsedTime)
      ensures ScreenKept()
    {
      if chunk.size > 0 {
        chunks := chunks + [chunk];
      }
    }

    /** The recorder's `stop` event: the chunks become the recording, `url` its object URL. */
    method RecorderStopped(url: string)
      requires Valid()
      modifies this
      ensures Valid()
      ensures audioBlob == Some(Blob(old(chunks), Recording.RecordingType)) && audioURL == url
      ensures isRecording == old(isRecording) && chunks == old(chunks) && hasRecorder == old(hasRecorder)
      ensures timerRunning == old(timerRunning) && streamOpen == old(streamOpen) && elapsedTime == old(elapsedTime)
      ensures ScreenKept()
    {
      audioBlob := Some(Blob(chunks, Recording.RecordingType));
      audioURL := url;
    }

    /** One firing of the interval: a second more while the timer runs. */
    method Tick()
      modifies this
      ensures elapsedTime == if old(timerRunning) then old(elapsedTime) + 1 else old(elapsedTime)
      ensures audioBlob == old(audioBlob) && isRecording == old(isRecording) && audioURL == old(audioURL)
      ensures chunks == old(chunks) && hasRecorder == old(hasRecorder) && timerRunning == old(timerRunning)
      ensures streamOpen == old(streamOpen)
      ensures ScreenKept()
    {
      if timerRunning {
        elapsedTime := elapsedTime + 1;
      }
    }

    /**
     * `stopRecording`: only a recorder that is recording is stopped, with its timer; otherwise
     * nothing happens. The result says whether the recorder was asked to stop.
     */
    method StopRecording() returns (recorderStopped: bool)
      requires Valid()
      modifies this
      ensures Valid()
      ensures recorderStopped == (old(hasRecorder) && old(isRecording))
      ensures recorderStopped ==> !isRecording && !timerRunning && !streamOpen
      ensures !recorderStopped ==> unchanged(this)
      ensures audioBlob == old(audioBlob) && audioURL == old(audioURL) && chunks == old(chunks)
      ensures hasRecorder == old(hasRecorder) && elapsedTime == old(elapsedTime)
      ensures ScreenKept()
    {
      recorderStopped := hasRecorder && isRecording;
      if recorderStopped {
        streamOpen := false;
        timerRunning := false;
        isRecording := false;
      }
    }

    /** Whether the run button is disabled: while loading, or when a run would send nothing. */
    predicate RunButtonDisabled()
      reads this, api
      ensures RunButtonDisabled() <==> api.loading || localLoading || ComparisonCall(mode, text, googleVoice, osVoice, audioBlob).None?
    {
      RunDisabled(api.loading, localLoading, mode, text, audioBlob)
    }

    /**
     * `runComparison` up to its request: without a recording (speech) or without text (the
     * others) nothing is sent; the speech comparison turns the screen's own loading flag on.
     */
    method BeginComparison() returns (call: Option<Api.ApiCall>)
      requires Valid()
      modifies this, api
      ensures Valid()
      ensures call == ComparisonCall(old(mode), old(text), old(googleVoice), old(osVoice), old(audioBlob))
      ensures call.None? ==> unchanged(this, api)
      ensures call.Some? ==> (api.Dispatched(call.value) && localLoading == (old(localLoading) || call.value.CompareSpeechToText?))
      ensures text == old(text) && characterCount == old(characterCount) && compareResults == old(compareResults)
      ensures googleVoice == old(googleVoice) && osVoice == old(osVoice)
      ensures googleVoices == old(googleVoices) && osVoices == old(osVoices)
      ensures mode == old(mode) && fetched == old(fetched)
      ensures RecorderKept()
    {
      match mode {
        case SttMode =>
          if audioBlob.None? {
            return None;
          }
          localLoading := true;
          call := api.BeginCompareSpeechToText(audioBlob);
        case SentimentMode =>
          call := api.BeginCompareSentiment(text);
        case TtsMode =>
          call := api.BeginCompareTextToSpeech(text, Str(googleVoice), Str(osVoice));
      }
    }

    /**
     * The rest of `runComparison` once `c` settles, as intended: the reply is shown and the
     * speech comparison's loading flag turned off; nothing else is sent.
     */
    method FinishComparison(c: Api.ApiCall, reply: Api.HttpReply)
      requires Valid()
      requires c.CompareSentiment? || c.CompareTextToSpeech? || c.CompareSpeechToText?
      modifies this, api
      ensures Valid()
      ensures compareResults == ComparisonResult(c, reply, old(compareResults))
      ensures localLoading == (if c.CompareSpeechToText? then false else old(localLoading))
      ensures !api.loading && api.error == Hook.Settled(c, reply).error.GetOr(old(api.error)) && api.sent == old(api.sent)
      ensures text == old(text) && characterCount == old(characterCount)
      ensures googleVoice == old(googleVoice) && osVoice == old(osVoice)
      ensures googleVoices == old(googleVoices) && osVoices == old(osVoices)
      ensures mode == old(mode) && fetched == old(fetched)
      ensures RecorderKept()
    {
      var result := api.Settle(c, reply);
      if c.CompareSpeechToText? {
        var shown := NormalizeStt(result);
        if shown.Some? {
          compareResults := shown.value;
        }
        localLoading := false;
      } else {
        compareResults := result;
      }
    }
  }
}
