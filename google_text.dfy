/**
 * The Google text-to-speech service: a cached list of voices, and the voice parameters
 * (language code and gender) read off a voice name before synthesis. The API's answers are
 * given as parameters.
 */
module GoogleText {
  import opened Common

  const DefaultVoice := "en-US-Neural2-F"

  /** A voice as `client.list_voices()` describes it; `ssmlGender` is the enum member's name. */
  datatype ApiVoice = ApiVoice(name: string, languageCodes: seq<string>, ssmlGender: string, naturalSampleRateHertz: int)

  /** What `client.list_voices()` did: raised, or answered with voices. */
  datatype VoiceListing = ListRaised(error: string) | Listed(voices: seq<ApiVoice>)

  datatype SsmlGender = Female | Male | Neutral

  /** The voice selection sent with a synthesis request. */
  datatype VoiceParams = VoiceParams(languageCode: string, name: string, gender: SsmlGender)

  /** What `client.synthesize_speech` did: raised, or returned the MP3 bytes. */
  datatype SynthesisOutcome = SynthesisRaised(error: string) | Synthesized(audio: seq<Byte>)

  /** The synthesized audio and the file name the service gives it. */
  datatype Audio = Audio(fileName: string, content: seq<Byte>)

  /** One entry of the voice list the service returns. */
  function VoiceEntry(v: ApiVoice): (e: Value)
    ensures Get(e, "name") == Str(v.name)
    ensures Get(e, "natural") == Bool(v.naturalSampleRateHertz > 0)
  {
    Obj(map["name" := Str(v.name),
            "language_codes" := Arr(seq(|v.languageCodes|, i requires 0 <= i < |v.languageCodes| => Str(v.languageCodes[i]))),
            "gender" := Str(v.ssmlGender), "natural" := Bool(v.naturalSampleRateHertz > 0)])
  }

  /** The list comprehension over `response.voices`: one entry per voice, in order. */
  function VoiceEntries(vs: seq<ApiVoice>): (es: seq<Value>)
    ensures |es| == |vs|
    ensures forall i | 0 <= i < |vs| :: es[i] == VoiceEntry(vs[i])
  {
    seq(|vs|, i requires 0 <= i < |vs| => VoiceEntry(vs[i]))
  }

  /** The voice list an API answer yields: the mapped voices, or the empty list when the API raised. */
  function ListVoices(listing: VoiceListing): (vs: seq<Value>)
    ensures listing.ListRaised? ==> vs == []
    ensures listing.Listed? ==> vs == VoiceEntries(listing.voices)
  {
    match listing
    case ListRaised(_) => []
    case Listed(voices) => VoiceEntries(voices)
  }

  /** The service object; only its voice cache changes after construction. */
  class TextService {
    var availableVoices: Option<seq<Value>>

    constructor ()
      ensures availableVoices == None
    {
      availableVoices := None;
    }

    /**
     * `get_available_voices()`: the API is called (`called`) only while nothing is cached; an
     * error caches the empty list, which is then returned on every later call.
     */
    method GetAvailableVoices(listing: VoiceListing) returns (voices: seq<Value>, called: bool)
      modifies this
      ensures called <==> old(availableVoices).None?
      ensures availableVoices == Some(voices)
      ensures old(availableVoices).Some? ==> voices == old(availableVoices).value
      ensures called ==> voices == ListVoices(listing)
    {
      called := availableVoices.None?;
      if called {
        match listing {
          case ListRaised(_) => availableVoices := Some([]);
          case Listed(vs) => availableVoices := Some(VoiceEntries(vs));
        }
      }
      voices := availableVoices.value;
    }
  }

  /** `voice_name.split('-')[0] + '-' + voice_name.split('-')[1]`, or the IndexError it raises. */
  function LanguageCode(name: string): Result<string> {
    var parts := Split(name, '-');
    if |parts| < 2 then Err("list index out of range") else Ok(parts[0] + "-" + parts[1])
  }

  /** Splitting yields at least two pieces exactly when the separator occurs. */
  lemma SplitHasTwoPieces(s: string, sep: char)
    ensures |Split(s, sep)| >= 2 <==> sep in s
  {
  }

  /**
   * A name with a '-' yields the name's first two '-'-separated fields: a prefix of the name
   * holding exactly one '-', followed in the name by nothing or by another '-'.
   */
  lemma LanguageCodeShape(name: string)
    ensures LanguageCode(name).Ok? <==> '-' in name
    ensures LanguageCode(name).Ok? ==>
      var lc := LanguageCode(name).value;
      && |lc| <= |name| && name[..|lc|] == lc
      && (|lc| == |name| || name[|lc|] == '-')
      && |Filter(lc, c => c == '-')| == 1
  {
    SplitHasTwoPieces(name, '-');
    var parts := Split(name, '-');
    if |parts| >= 2 {
      CodeIsPrefix(name, parts);
      CodeHasOneDash(parts[0], parts[1]);
    }
  }

  /** The first field of a split starts the string and ends at its end or at a separator. */
  lemma SplitHead(s: string, sep: char)
    ensures var h := Split(s, sep)[0];
      |h| <= |s| && s[..|h|] == h && (|h| == |s| || s[|h|] == sep)
  {
    if sep in s {
      var i := IndexOf(s, sep);
      assert Split(s, sep)[0] == s[..i];
    }
  }

  /** The first two fields joined by '-' start the name and end at its end or at a '-'. */
  lemma CodeIsPrefix(name: string, parts: seq<string>)
    requires parts == Split(name, '-') && |parts| >= 2
    ensures var lc := parts[0] + "-" + parts[1];
      |lc| <= |name| && name[..|lc|] == lc && (|lc| == |name| || name[|lc|] == '-')
  {
    assert '-' in name;
    var i := IndexOf(name, '-');
    var t := name[i + 1..];
    assert parts[0] == name[..i] && parts[1] == Split(t, '-')[0];
    SplitHead(t, '-');
    FieldAfterDash(name, i, parts[1]);
  }

  /** The text before position i, a '-', and a field starting right after it form a prefix of the name. */
  lemma FieldAfterDash(name: string, i: nat, h: string)
    requires i < |name| && name[i] == '-'
    requires |h| <= |name[i + 1..]| && name[i + 1..][..|h|] == h
    requires |h| == |name[i + 1..]| || name[i + 1..][|h|] == '-'
    ensures var lc := name[..i] + "-" + h;
      |lc| <= |name| && name[..|lc|] == lc && (|lc| == |name| || name[|lc|] == '-')
  {
    assert name[..i + 1 + |h|] == name[..i] + "-" + h;
  }

  /** Two dash-free fields joined by '-' hold exactly one '-'. */
  lemma CodeHasOneDash(a: string, b: string)
    requires '-' !in a && '-' !in b
    ensures |Filter(a + "-" + b, c => c == '-')| == 1
  {
    NoDashFilter(a);
    NoDashFilter(b);
    FilterAppend(a, "-" + b, c => c == '-');
    FilterAppend("-", b, c => c == '-');
    assert a + "-" + b == a + ("-" + b);
  }

  /** A string without '-' keeps none of its characters under the dash filter. */
  lemma {:induction false} NoDashFilter(s: string)
    requires '-' !in s
    ensures Filter(s, c => c == '-') == []
    decreases |s|
  {
    if s != [] {
      assert '-' !in s[1..] by {
        forall k | 0 <= k < |s| - 1 ensures s[1..][k] != '-' { assert s[1..][k] == s[k + 1]; }
      }
      NoDashFilter(s[1..]);
    }
  }

  /** The gender a voice name suggests: female first, then male, else neutral. */
  function GenderOf(name: string): (g: SsmlGender)
    ensures g == Female <==> Contains(name, "Female") || EndsWith(name, 'F')
    ensures g == Male <==> !(Contains(name, "Female") || EndsWith(name, 'F')) && (Contains(name, "Male") || EndsWith(name, 'M'))
  {
    if Contains(name, "Female") || EndsWith(name, 'F') then Female
    else if Contains(name, "Male") || EndsWith(name, 'M') then Male
    else Neutral
  }

  /**
   * The name Python gives the type of a decoded JSON value. A JSON number is an `int` when it
   * has no fractional part; `5.0`, a `float` in Python, is not told apart here.
   */
  function PyTypeName(v: Value): string {
    match v
    case Undefined => "NoneType"
    case Null => "NoneType"
    case Bool(_) => "bool"
    case Num(n) => if n == n.Floor as real then "int" else "float"
    case Str(_) => "str"
    case Arr(_) => "list"
    case Obj(_) => "dict"
  }

  /**
   * The voice selection for a (Python-truthy) voice name: the parsed language code and gender,
   * or the default en-US neutral "en-US-Neural2-F" when no name is given. A name that is not a
   * string, or has no '-', raises.
   */
  function VoiceFor(voiceName: Value): (r: Result<VoiceParams>)
    ensures !PyTruthy(voiceName) ==> r == Ok(VoiceParams("en-US", DefaultVoice, Neutral))
    ensures PyTruthy(voiceName) ==> (r.Ok? <==> voiceName.Str? && '-' in voiceName.s)
    ensures PyTruthy(voiceName) && !voiceName.Str? ==>
      r == Err("'" + PyTypeName(voiceName) + "' object has no attribute 'split'")
    ensures PyTruthy(voiceName) && r.Ok? ==>
      r.value.name == voiceName.s && r.value.gender == GenderOf(voiceName.s)
      && r.value.languageCode == LanguageCode(voiceName.s).value
  {
    if !PyTruthy(voiceName) then Ok(VoiceParams("en-US", DefaultVoice, Neutral))
    else if !voiceName.Str? then Err("'" + PyTypeName(voiceName) + "' object has no attribute 'split'")
    else
      LanguageCodeShape(voiceName.s);
      match LanguageCode(voiceName.s)
      case Err(e) => Err(e)
      case Ok(lc) => Ok(VoiceParams(lc, voiceName.s, GenderOf(voiceName.s)))
  }

  /** A name of the form a-b-rest, with no '-' in a and b, has language code a-b. */
  lemma LanguageCodeOf(a: string, b: string, rest: string)
    requires '-' !in a && '-' !in b
    ensures LanguageCode(a + "-" + b + "-" + rest) == Ok(a + "-" + b)
  {
    var name := a + "-" + b + "-" + rest;
    assert name == a + ['-'] + (b + ['-'] + rest);
    SplitCons(b, '-', rest);
    SplitCons(a, '-', b + ['-'] + rest);
  }

  /** The front end's default Google voice is female by its final 'F' (without a name the service asks for a neutral voice). */
  lemma DefaultGender()
    ensures GenderOf(DefaultVoice) == Female
  {
    assert EndsWith(DefaultVoice, 'F');
  }

  /**
   * `synthesize_speech(text, voice_name)`: the voice parameters, then the API call; errors from
   * either are raised to the caller. `textHash` is Python's `hash(text)`.
   */
  function Synthesize(text: string, voiceName: Value, outcome: SynthesisOutcome, textHash: int): (r: Result<Audio>)
    ensures r.Ok? <==> VoiceFor(voiceName).Ok? && outcome.Synthesized?
    ensures r.Ok? ==> (r.value.content == outcome.audio &&
                       r.value.fileName == "tts_" + NatToString(textHash % 10000) + ".mp3")
    ensures VoiceFor(voiceName).Err? ==> r == Err(VoiceFor(voiceName).message)
  {
    match VoiceFor(voiceName)
    case Err(e) => Err(e)
    case Ok(_) =>
      match outcome
      case SynthesisRaised(e) => Err(e)
      case Synthesized(audio) => Ok(Audio("tts_" + NatToString(textHash % 10000) + ".mp3", audio))
  }
}
