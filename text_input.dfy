/**
 * The text-to-speech screen: the text being edited, the chosen voice, the last sentiment and
 * the playable audio. Processing asks the sentiment endpoint first and the synthesis endpoint
 * second, reports the new result to the parent, and turns the returned base64 audio into bytes.
 */
module TextScreen {
  import opened Common
  import Api
  import Hook
  import Base64
  import Dashboard

  const GoogleVoice := "en-US-Neural2-F"
  const EdgeVoice := "en-US-ChristopherNeural"

  /** The voice selected after the provider switches to `p`; other values leave it alone. */
  function VoiceAfterSwitch(p: string, current: string): (v: string)
    ensures p == "opensource" ==> v == EdgeVoice
    ensures p == "google" ==> v == GoogleVoice
    ensures p != "opensource" && p != "google" ==> v == current
  {
    if p == "opensource" then EdgeVoice else if p == "google" then GoogleVoice else current
  }

  /** The bytes the copy loop stores: each character code, reduced modulo 256 as a Uint8Array does. */
  function BytesOf(binary: string): (b: seq<Byte>)
    ensures |b| == |binary|
  {
    seq(|binary|, i requires 0 <= i < |binary| => binary[i] as int % 256)
  }

  /** A binary string of bytes copies back to exactly those bytes. */
  lemma BytesOfBinaryString(b: seq<Byte>)
    ensures BytesOf(Base64.BinaryString(b)) == b
  {
    var s := Base64.BinaryString(b);
    forall i | 0 <= i < |b| ensures BytesOf(s)[i] == b[i] {
      assert s[i] as int == b[i];
    }
  }

  /** `x?.key`: undefined when x is null. */
  function OptionalGet(x: Value, key: string): Value {
    if x == Null || x == Undefined then Undefined else Get(x, key)
  }

  /**
   * The playable audio of a synthesis reply: the bytes of its `audio` text when that is a
   * non-empty string `atob` accepts; None when there is nothing to play or `atob` throws.
   */
  function AudioOf(ttsData: Value): Option<seq<Byte>> {
    var a := OptionalGet(ttsData, "audio");
    if a.Str? && a.s != "" then
      match Base64.Atob(a.s)
      case Ok(binary) => Some(BytesOf(binary))
      case Err(_) => None
    else None
  }

  /**
   * The server's base64 of non-empty audio plays back as that very audio; empty audio is
   * encoded as "" and plays nothing.
   */
  lemma AudioRoundTrip(fields: map<string, Value>, b: seq<Byte>)
    requires "audio" in fields && fields["audio"] == Str(Base64.Encode(b))
    ensures AudioOf(Obj(fields)) == if b == [] then None else Some(b)
  {
    var e := Base64.Encode(b);
    assert OptionalGet(Obj(fields), "audio") == Str(e);
    if b != [] {
      Base64.AtobEncode(b);
      BytesOfBinaryString(b);
      assert AudioOf(Obj(fields)) == Some(BytesOf(Base64.BinaryString(b)));
    }
  }

  /**
   * The record handed to the parent after a successful synthesis, as written: a text-to-speech
   * record with the reply's id and audio, but no provider, so the dashboard badges it
   * "Open Source" whichever provider synthesized it.
   */
  function NewResultAsWritten(result: Value, text: string, sentimentData: Value): (r: Value)
    ensures Dashboard.IsTextResult(r) && Get(r, "text") == Str(text)
    ensures Get(r, "id") == Get(result, "id") && Get(r, "audio") == Get(result, "audio")
    ensures Get(r, "provider") == Undefined && Dashboard.Badge(r) == "Open Source"
  {
    Obj(map["id" := Get(result, "id"), "type" := Str("text_to_speech"), "text" := Str(text),
            "audio" := Get(result, "audio"), "sentiment" := OptionalGet(sentimentData, "sentiment")])
  }

  /** The record handed to the parent after a successful synthesis, with the reply's provider. */
  function NewResult(result: Value, text: string, sentimentData: Value): (r: Value)
    ensures Dashboard.IsTextResult(r) && Get(r, "text") == Str(text)
    ensures Get(r, "id") == Get(result, "id") && Get(r, "audio") == Get(result, "audio")
    ensures Get(r, "provider") == Get(result, "provider")
    ensures Get(r, "sentiment") == OptionalGet(sentimentData, "sentiment")
  {
    Obj(map["id" := Get(result, "id"), "type" := Str("text_to_speech"), "provider" := Get(result, "provider"),
            "text" := Str(text), "audio" := Get(result, "audio"), "sentiment" := OptionalGet(sentimentData, "sentiment")])
  }

  /**
   * A Google synthesis reported as written carries the "Open Source" badge on the dashboard;
   * with the provider kept it carries the "Google" badge.
   */
  lemma ReportedBadge(result: Value, text: string, sentimentData: Value)
    requires Get(result, "provider") == Str("google")
    ensures Dashboard.Badge(NewResultAsWritten(result, text, sentimentData)) == "Open Source"
    ensures Dashboard.Badge(NewResult(result, text, sentimentData)) == "Google"
  {
    assert Get(NewResultAsWritten(result, text, sentimentData), "provider") == Undefined;
  }

  class TextInputView {
    var text: string
    var characterCount: nat
    var audioUrl: string
    /** The bytes behind `audioUrl`. */
    var audioBytes: seq<Byte>
    var selectedVoice: string
    var sentiment: Value
    const api: Hook.ApiHook

    predicate Valid()
      reads this, api
    {
      api.Valid()
    }

    constructor()
      ensures Valid() && fresh(api)
      ensures text == "" && characterCount == 0 && audioUrl == "" && audioBytes == []
      ensures selectedVoice == GoogleVoice && sentiment == Null
      ensures !api.loading && api.provider == "google" && api.sent == []
    {
      text := "";
      characterCount := 0;
      audioUrl := "";
      audioBytes := [];
      selectedVoice := GoogleVoice;
      sentiment := Null;
      api := new Hook.ApiHook();
    }

    /** The effects that run on the first render and after every provider change. */
    method ProviderEffects() returns (call: Option<Api.ApiCall>)
      requires Valid()
      modifies this, api
      ensures Valid()
      ensures old(api.loading) ==> call.None? && unchanged(api)
      ensures !old(api.loading) ==> (call == Some(Api.FetchAvailableVoices(Some(api.provider)))
                                     && api.sent == old(api.sent) + [call.value] && !api.voicesLoaded)
      ensures selectedVoice == VoiceAfterSwitch(api.provider, old(selectedVoice))
      ensures api.provider == old(api.provider)
      ensures text == old(text) && characterCount == old(characterCount) && audioUrl == old(audioUrl)
      ensures audioBytes == old(audioBytes) && sentiment == old(sentiment)
    {
      call := api.BeginLoadVoices();
      selectedVoice := VoiceAfterSwitch(api.provider, selectedVoice);
    }

    /** The mount: voices are loaded for the initial provider. */
    method Mount() returns (call: Option<Api.ApiCall>)
      requires Valid()
      modifies this, api
      ensures Valid()
      ensures !old(api.loading) ==> call == Some(Api.FetchAvailableVoices(Some(old(api.provider))))
      ensures selectedVoice == VoiceAfterSwitch(old(api.provider), old(selectedVoice))
    {
      call := ProviderEffects();
    }

    /** The provider toggle: a new provider reloads the voices and resets the voice to its default. */
    method ChangeProvider(p: string) returns (call: Option<Api.ApiCall>)
      requires Valid()
      modifies this, api
      ensures Valid()
      ensures p == old(api.provider) ==> call.None? && unchanged(this, api)
      ensures p != old(api.provider) ==> api.provider == p && selectedVoice == VoiceAfterSwitch(p, old(selectedVoice))
      ensures p != old(api.provider) && !old(api.loading) ==> call == Some(Api.FetchAvailableVoices(Some(p)))
    {
      if p == api.provider {
        return None;
      }
      api.SetProvider(p);
      call := ProviderEffects();
    }

    /** `handleTextChange`: the counter follows the text's length. */
    method ChangeText(newText: string)
      modifies this
      ensures text == newText && characterCount == |newText|
      ensures audioUrl == old(audioUrl) && audioBytes == old(audioBytes)
      ensures selectedVoice == old(selectedVoice) && sentiment == old(sentiment)
    {
      text := newText;
      characterCount := |newText|;
    }

    method SelectVoice(v: string)
      modifies this
      ensures selectedVoice == v
      ensures text == old(text) && characterCount == old(characterCount) && audioUrl == old(audioUrl)
      ensures audioBytes == old(audioBytes) && sentiment == old(sentiment)
    {
      selectedVoice := v;
    }

    /** The loop that copies the decoded characters into a byte array. */
    static method DecodeToBytes(binary: string) returns (buf: array<Byte>)
      ensures fresh(buf) && buf[..] == BytesOf(binary)
    {
      buf := new Byte[|binary|];
      var i := 0;
      while i < |binary|
        invariant 0 <= i <= |binary|
        invariant buf[..i] == BytesOf(binary)[..i]
      {
        buf[i] := binary[i] as int % 256;
        i := i + 1;
      }
    }

    /**
     * `processText`: nothing is sent for blank text; otherwise the sentiment request and then the
     * synthesis request go out, the sentiment shown follows a successful analysis, the parent
     * receives the new result after a successful synthesis, and playable audio replaces the
     * current audio under the object URL `url`.
     */
    method ProcessText(sentimentReply: Api.HttpReply, ttsReply: Api.HttpReply, url: string)
      returns (reported: Option<Value>)
      requires Valid()
      modifies this, api
      ensures Valid()
      ensures IsBlank(JavaScript, old(text)) ==> reported.None? && unchanged(this, api)
      ensures !IsBlank(JavaScript, old(text)) ==>
        var sc := Api.AnalyzeSentiment(old(text), Some(old(api.provider)));
        var tc := Api.ConvertTextToSpeech(old(text), Str(old(selectedVoice)), Some(old(api.provider)));
        var sentimentData := Hook.Settled(sc, sentimentReply).result;
        var ttsData := Hook.Settled(tc, ttsReply).result;
        && api.sent == old(api.sent) + [sc, tc]
        && !api.loading && api.error == Hook.Settled(tc, ttsReply).error.GetOr(Null)
        && sentiment == (if Api.Call(sc, sentimentReply).Ok? then Get(sentimentData, "sentiment") else old(sentiment))
        && reported == (if Api.Call(tc, ttsReply).Ok? then Some(NewResult(ttsData, old(text), sentimentData)) else None)
        && (AudioOf(ttsData).Some? ==> audioUrl == url && audioBytes == AudioOf(ttsData).value)
        && (AudioOf(ttsData).None? ==> audioUrl == old(audioUrl) && audioBytes == old(audioBytes))
      ensures text == old(text) && characterCount == old(characterCount) && selectedVoice == old(selectedVoice)
    {
      if IsBlank(JavaScript, text) {
        return None;
      }
      var sc := api.BeginSentiment(text);
      var sentimentData := api.Settle(sc.value, sentimentReply);
      if Api.Call(sc.value, sentimentReply).Ok? {
        sentiment := Get(sentimentData, "sentiment");
      }
      var tc := api.BeginTextToSpeech(text, Str(selectedVoice));
      var ttsData := api.Settle(tc.value, ttsReply);
      reported := if Api.Call(tc.value, ttsReply).Ok? then Some(NewResult(ttsData, text, sentimentData)) else None;
      PlayAudio(ttsData, url);
    }

    /** The audio step of `processText`: playable audio in the reply replaces the current audio. */
    method PlayAudio(ttsData: Value, url: string)
      modifies this
      ensures AudioOf(ttsData).Some? ==> audioUrl == url && audioBytes == AudioOf(ttsData).value
      ensures AudioOf(ttsData).None? ==> audioUrl == old(audioUrl) && audioBytes == old(audioBytes)
      ensures text == old(text) && characterCount == old(characterCount)
      ensures selectedVoice == old(selectedVoice) && sentiment == old(sentiment)
    {
      var a := OptionalGet(ttsData, "audio");
      if a.Str? && a.s != "" {
        var binary := Base64.Atob(a.s);
        if binary.Ok? {
          var buf := DecodeToBytes(binary.value);
          audioBytes := buf[..];
          audioUrl := url;
        }
      }
    }

    /** `resetText`: text, audio and sentiment are cleared; the voice stays. */
    method ResetText()
      modifies this
      ensures text == "" && characterCount == 0 && audioUrl == "" && audioBytes == [] && sentiment == Null
      ensures selectedVoice == old(selectedVoice)
    {
      text := "";
      audioUrl := "";
      audioBytes := [];
      sentiment := Null;
      characterCount := 0;
    }
  }
}
