/**
 * The Edge text-to-speech service: a cached voice list with a two-voice fallback, and synthesis
 * through a temporary MP3 file. What edge_tts returns is given as a parameter.
 */
module OpenSourceText {
  import opened Common

  const DefaultVoice := "en-US-ChristopherNeural"

  /** A voice as `edge_tts.list_voices()` describes it. */
  datatype EdgeVoice = EdgeVoice(shortName: string, locale: string, gender: string)

  /** What listing the voices did: raised (in edge_tts or the event loop), or answered. */
  datatype EdgeListing = EdgeRaised(error: string) | EdgeListed(voices: seq<EdgeVoice>)

  /** What `Communicate(text, voice).save(path)` did: raised, or wrote the MP3 bytes. */
  datatype EdgeSynthesis = SaveRaised(error: string) | Saved(audio: seq<Byte>)

  datatype Audio = Audio(fileName: string, content: seq<Byte>)

  /** The outcome of `synthesize_speech`, the voice asked for, and whether the temporary MP3 is left on disk. */
  datatype SynthesisRun = SynthesisRun(result: Result<Audio>, voice: Value, tempLeftBehind: bool)

  function Entry(name: string, locale: string, gender: string): Value {
    Obj(map["name" := Str(name), "language_codes" := Arr([Str(locale)]), "gender" := Str(gender),
            "natural" := Bool(true)])
  }

  /** One entry per Edge voice: its short name, its locale, FEMALE iff "Female" occurs in its gender, natural. */
  function VoiceEntry(v: EdgeVoice): Value {
    Entry(v.shortName, v.locale, if Contains(v.gender, "Female") then "FEMALE" else "MALE")
  }

  function VoiceEntries(vs: seq<EdgeVoice>): (es: seq<Value>)
    ensures |es| == |vs|
    ensures forall i | 0 <= i < |vs| ::
      && Get(es[i], "name") == Str(vs[i].shortName)
      && Get(es[i], "language_codes") == Arr([Str(vs[i].locale)])
      && (Get(es[i], "gender") == Str("FEMALE") <==> Contains(vs[i].gender, "Female"))
      && Get(es[i], "natural") == Bool(true)
  {
    seq(|vs|, i requires 0 <= i < |vs| => VoiceEntry(vs[i]))
  }

  /** The list used when listing fails: Christopher (male) and Jenny (female), both en-US. */
  const FallbackVoices: seq<Value> := [
    Entry("en-US-ChristopherNeural", "en-US", "MALE"),
    Entry("en-US-JennyNeural", "en-US", "FEMALE")]

  /** `_get_voices()`: the mapped list, or the fallback when anything raises. */
  function ListVoices(listing: EdgeListing): (vs: seq<Value>)
    ensures listing.EdgeRaised? ==> vs == FallbackVoices
    ensures listing.EdgeListed? ==> vs == VoiceEntries(listing.voices)
  {
    match listing
    case EdgeRaised(_) => FallbackVoices
    case EdgeListed(voices) => VoiceEntries(voices)
  }

  /** Every listed voice is reported as natural, with exactly one language code. */
  lemma ListedVoicesShape(listing: EdgeListing)
    ensures forall v | v in ListVoices(listing) ::
      Get(v, "natural") == Bool(true) && Get(v, "language_codes").Arr? && |Get(v, "language_codes").items| == 1
      && (Get(v, "gender") == Str("FEMALE") || Get(v, "gender") == Str("MALE"))
  {
  }

  class TextService {
    var availableVoices: Option<seq<Value>>

    constructor ()
      ensures availableVoices == None
    {
      availableVoices := None;
    }

    /** `get_available_voices()`: the listing is consulted (`called`) only while nothing is cached. */
    method GetAvailableVoices(listing: EdgeListing) returns (voices: seq<Value>, called: bool)
      modifies this
      ensures called <==> old(availableVoices).None?
      ensures availableVoices == Some(voices)
      ensures old(availableVoices).Some? ==> voices == old(availableVoices).value
      ensures called ==> voices == ListVoices(listing)
    {
      called := availableVoices.None?;
      if called {
        availableVoices := Some(ListVoices(listing));
      }
      voices := availableVoices.value;
    }
  }

  /**
   * `synthesize_speech(text, voice_name)`: the voice is `voice_name or "en-US-ChristopherNeural"`.
   * The temporary file is removed once its bytes are read; when saving raises, the error is
   * re-raised and the file created for it stays behind. `textHash` is Python's `hash(text)`.
   */
  function Synthesize(text: string, voiceName: Value, outcome: EdgeSynthesis, textHash: int): (run: SynthesisRun)
    ensures run.voice == if PyTruthy(voiceName) then voiceName else Str(DefaultVoice)
    ensures run.result.Ok? <==> outcome.Saved?
    ensures run.tempLeftBehind <==> outcome.SaveRaised?
    ensures outcome.SaveRaised? ==> run.result == Err(outcome.error)
    ensures outcome.Saved? ==> run.result == Ok(Audio("tts_os_" + NatToString(textHash % 10000) + ".mp3", outcome.audio))
  {
    var voice := if PyTruthy(voiceName) then voiceName else Str(DefaultVoice);
    match outcome
    case SaveRaised(e) => SynthesisRun(Err(e), voice, true)
    case Saved(audio) => SynthesisRun(Ok(Audio("tts_os_" + NatToString(textHash % 10000) + ".mp3", audio)), voice, false)
  }
}
