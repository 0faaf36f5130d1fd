/**
 * The `useApi` hook: the request state one component holds (loading flag, last error,
 * voice list, chosen provider) and how each call changes it. A call is split at its `await`:
 * a `Begin…` method runs the synchronous part and yields the request it sends (or none when
 * the input is rejected), and `Settle` runs the rest once the reply is known, so requests of
 * one component may overlap and settle in any order.
 */
module Hook {
  import opened Common
  import Api

  /** The message a `null` reply body raises when `loadVoices` reads its `voices`. */
  const NullVoicesError := "Cannot read properties of null (reading 'voices')"

  /** The calls the hook itself issues. */
  predicate HookCall(c: Api.ApiCall) {
    c.ConvertSpeechToText? || c.ConvertTextToSpeech? || c.AnalyzeSentiment? || c.FetchAvailableVoices?
    || c.CompareTextToSpeech? || c.CompareSentiment? || c.CompareSpeechToText?
  }

  /** The message stored when a call fails with an empty message. */
  function Fallback(c: Api.ApiCall): string
    requires HookCall(c)
  {
    match c
    case ConvertSpeechToText(_, _) => "Failed to process speech"
    case ConvertTextToSpeech(_, _, _) => "Failed to process text"
    case AnalyzeSentiment(_, _) => "Failed to analyze sentiment"
    case FetchAvailableVoices(_) => "Failed to load voices"
    case CompareTextToSpeech(_, _, _) => "Failed to compare text-to-speech"
    case CompareSentiment(_) => "Failed to compare sentiment"
    case CompareSpeechToText(_) => "Failed to compare speech-to-text"
  }

  /** `err.message || fallback`. */
  function ErrorText(message: string, fallback: string): string {
    if message != "" then message else fallback
  }

  /**
   * What settling a call leaves behind: the value the call returns (and hands to `onSuccess`
   * when it succeeded), the `error` it writes (`None` when it writes none, so the error stays
   * whatever it is by then), and the new voice list when the call was `loadVoices`.
   */
  datatype Settlement = Settlement(result: Value, error: Option<Value>, voices: Option<seq<Value>>)

  /** The voice list `loadVoices` keeps from a successful reply: `data.voices` when it is an array. */
  function VoicesOf(data: Value): seq<Value> {
    var v := Get(data, "voices");
    if v.Arr? then v.items else []
  }

  /** The part of a call after its `await`, as a function of the call and the reply. */
  function Settled(c: Api.ApiCall, reply: Api.HttpReply): (s: Settlement)
    requires HookCall(c)
    ensures s.voices.Some? <==> c.FetchAvailableVoices?
    ensures s.error.Some? ==> s.error.value.Str? && s.error.value.s != ""
  {
    var r := Api.Call(c, reply);
    if c.FetchAvailableVoices? then
      if r.Err? then Settlement(Undefined, Some(Str(ErrorText(r.message, Fallback(c)))), Some([]))
      else if r.value == Null then Settlement(Undefined, Some(Str(NullVoicesError)), Some([]))
      else Settlement(Undefined, None, Some(VoicesOf(r.value)))
    else if r.Err? then Settlement(Null, Some(Str(ErrorText(r.message, Fallback(c)))), None)
    else Settlement(r.value, None, None)
  }

  /**
   * A call other than `loadVoices` returns exactly what the client layer resolved to and
   * writes no error, so one left by an overlapping call stays; a rejected one returns `null`
   * and records a non-empty message.
   */
  lemma SettledCallSpec(c: Api.ApiCall, reply: Api.HttpReply)
    requires HookCall(c) && !c.FetchAvailableVoices?
    ensures Api.Call(c, reply).Ok? ==> Settled(c, reply) == Settlement(Api.Call(c, reply).value, None, None)
    ensures Api.Call(c, reply).Err? ==> Settled(c, reply).result == Null && Settled(c, reply).error.Some?
    ensures Settled(c, reply).error.None? <==> Api.Call(c, reply).Ok?
  {
  }

  /**
   * A server error `{"error": m}` with m non-empty is what the hook shows; a network
   * failure with an empty message shows the call's own fallback text.
   */
  lemma ServerErrorShown(c: Api.ApiCall, m: string)
    requires HookCall(c)
    ensures m != "" ==> Settled(c, Api.Reply(false, Api.Parsed(Obj(map["error" := Str(m)])))).error == Some(Str(m))
    ensures Settled(c, Api.NetworkFailure("")).error == Some(Str(Fallback(c)))
  {
    Api.ServerErrorMessage(c, m);
  }

  /**
   * `loadVoices` keeps the reply's voice array, and ends with an empty list whenever the
   * call failed or the reply carried no array.
   */
  lemma VoicesSettled(p: Option<string>, reply: Api.HttpReply)
    ensures var s := Settled(Api.FetchAvailableVoices(p), reply);
      var r := Api.Call(Api.FetchAvailableVoices(p), reply);
      && (r.Ok? && Get(r.value, "voices").Arr? ==> s.voices == Some(Get(r.value, "voices").items) && s.error.None?)
      && (r.Err? ==> s.voices == Some([]) && s.error.Some?)
      && (r.Ok? && !Get(r.value, "voices").Arr? ==> s.voices == Some([]))
  {
  }

  class ApiHook {
    var loading: bool
    /** `null`, or the message of the last failure. */
    var error: Value
    var voices: seq<Value>
    var voicesLoaded: bool
    /** "google" or "opensource". */
    var provider: string
    /** Every request sent, in order. */
    ghost var sent: seq<Api.ApiCall>

    /** The error shown is either absent or a non-empty message. */
    predicate Valid()
      reads this
    {
      error == Null || (error.Str? && error.s != "")
    }

    constructor()
      ensures Valid()
      ensures !loading && error == Null && voices == [] && !voicesLoaded && provider == "google" && sent == []
    {
      loading := false;
      error := Null;
      voices := [];
      voicesLoaded := false;
      provider := "google";
      sent := [];
    }

    method SetProvider(p: string)
      modifies this
      ensures provider == p
      ensures loading == old(loading) && error == old(error) && voices == old(voices)
      ensures voicesLoaded == old(voicesLoaded) && sent == old(sent)
    {
      provider := p;
    }

    /** The state right after `c` was sent: loading, no error, the rest as before. */
    twostate predicate Dispatched(c: Api.ApiCall)
      reads this
    {
      loading && error == Null && sent == old(sent) + [c]
      && voices == old(voices) && voicesLoaded == old(voicesLoaded) && provider == old(provider)
    }

    /** The common synchronous part of a dispatched call: loading on, error cleared, request sent. */
    method Dispatch(c: Api.ApiCall)
      modifies this
      ensures Dispatched(c)
      ensures Valid()
    {
      loading := true;
      error := Null;
      sent := sent + [c];
    }

    /** `processSpeechToText` up to its request: nothing happens without a recording. */
    method BeginSpeechToText(audio: Option<Blob>) returns (call: Option<Api.ApiCall>)
      modifies this
      ensures audio.None? ==> call.None? && unchanged(this)
      ensures audio.Some? ==> call == Some(Api.ConvertSpeechToText(audio.value, Some(old(provider))))
      ensures call.Some? ==> Dispatched(call.value)
    {
      if audio.None? {
        return None;
      }
      call := Some(Api.ConvertSpeechToText(audio.value, Some(provider)));
      Dispatch(call.value);
    }

    /** `processTextToSpeech` up to its request: blank text sends nothing. */
    method BeginTextToSpeech(text: string, voice: Value) returns (call: Option<Api.ApiCall>)
      modifies this
      ensures IsBlank(JavaScript, text) ==> call.None? && unchanged(this)
      ensures !IsBlank(JavaScript, text) ==> call == Some(Api.ConvertTextToSpeech(text, voice, Some(old(provider))))
      ensures call.Some? ==> Dispatched(call.value)
    {
      if IsBlank(JavaScript, text) {
        return None;
      }
      call := Some(Api.ConvertTextToSpeech(text, voice, Some(provider)));
      Dispatch(call.value);
    }

    /** `processSentiment` up to its request: blank text sends nothing. */
    method BeginSentiment(text: string) returns (call: Option<Api.ApiCall>)
      modifies this
      ensures IsBlank(JavaScript, text) ==> call.None? && unchanged(this)
      ensures !IsBlank(JavaScript, text) ==> call == Some(Api.AnalyzeSentiment(text, Some(old(provider))))
      ensures call.Some? ==> Dispatched(call.value)
    {
      if IsBlank(JavaScript, text) {
        return None;
      }
      call := Some(Api.AnalyzeSentiment(text, Some(provider)));
      Dispatch(call.value);
    }

    /** `compareTextToSpeechProcessing` up to its request; the provider plays no part. */
    method BeginCompareTextToSpeech(text: string, googleVoice: Value, osVoice: Value) returns (call: Option<Api.ApiCall>)
      modifies this
      ensures IsBlank(JavaScript, text) ==> call.None? && unchanged(this)
      ensures !IsBlank(JavaScript, text) ==> call == Some(Api.CompareTextToSpeech(text, googleVoice, osVoice))
      ensures call.Some? ==> Dispatched(call.value)
    {
      if IsBlank(JavaScript, text) {
        return None;
      }
      call := Some(Api.CompareTextToSpeech(text, googleVoice, osVoice));
      Dispatch(call.value);
    }

    /** `compareSentimentProcessing` up to its request. */
    method BeginCompareSentiment(text: string) returns (call: Option<Api.ApiCall>)
      modifies this
      ensures IsBlank(JavaScript, text) ==> call.None? && unchanged(this)
      ensures !IsBlank(JavaScript, text) ==> call == Some(Api.CompareSentiment(text))
      ensures call.Some? ==> Dispatched(call.value)
    {
      if IsBlank(JavaScript, text) {
        return None;
      }
      call := Some(Api.CompareSentiment(text));
      Dispatch(call.value);
    }

    /** `compareSpeechToTextProcessing` up to its request. */
    method BeginCompareSpeechToText(audio: Option<Blob>) returns (call: Option<Api.ApiCall>)
      modifies this
      ensures audio.None? ==> call.None? && unchanged(this)
      ensures audio.Some? ==> call == Some(Api.CompareSpeechToText(audio.value))
      ensures call.Some? ==> Dispatched(call.value)
    {
      if audio.None? {
        return None;
      }
      call := Some(Api.CompareSpeechToText(audio.value));
      Dispatch(call.value);
    }

    /**
     * `loadVoices` up to its request: while any call of this hook is loading it does nothing;
     * otherwise the voice list is marked as not loaded.
     */
    method BeginLoadVoices() returns (call: Option<Api.ApiCall>)
      modifies this
      ensures old(loading) ==> call.None? && unchanged(this)
      ensures !old(loading) ==> call == Some(Api.FetchAvailableVoices(Some(old(provider))))
      ensures !old(loading) ==> (loading && error == Null && !voicesLoaded && sent == old(sent) + [call.value]
                                 && voices == old(voices) && provider == old(provider))
    {
      if loading {
        return None;
      }
      call := Some(Api.FetchAvailableVoices(Some(provider)));
      Dispatch(call.value);
      voicesLoaded := false;
    }

    /**
     * The part of a call after its `await`: loading ends, a failure's message replaces the
     * error while a success leaves it as it stands (another call may have set it meanwhile),
     * the voice list takes its settled value for `loadVoices`, and the call's value is returned.
     */
    method Settle(c: Api.ApiCall, reply: Api.HttpReply) returns (result: Value)
      requires HookCall(c)
      requires Valid()
      modifies this
      ensures Valid()
      ensures !loading
      ensures result == Settled(c, reply).result && error == Settled(c, reply).error.GetOr(old(error))
      ensures voices == Settled(c, reply).voices.GetOr(old(voices))
      ensures voicesLoaded == (old(voicesLoaded) || c.FetchAvailableVoices?)
      ensures provider == old(provider) && sent == old(sent)
    {
      var s := Settled(c, reply);
      result := s.result;
      if s.error.Some? {
        error := s.error.value;
      }
      if s.voices.Some? {
        voices := s.voices.value;
        voicesLoaded := true;
      }
      loading := false;
    }
  }
}
