/**
 * The Flask endpoints: request validation, dispatch to the Google or the open-source services,
 * one session entry per conversion, and the temporary files each handler leaves in the
 * server's temporary directory. The services' engines, the ffmpeg conversion, uuid4, the
 * clock and Python's `hash` are parameters.
 */
module Backend {
  import opened Common
  import Session
  import GoogleSpeech
  import GoogleText
  import GoogleSentiment
  import OpenSourceSpeech
  import OpenSourceText
  import OpenSourceSentiment
  import Base64

  /** An uploaded file part: its file name and its bytes. */
  datatype Upload = Upload(filename: string, content: seq<Byte>)

  /** The parts of a request the handlers read: multipart files and fields, the JSON body, the query. */
  datatype Request = Request(files: map<string, Upload>, form: map<string, string>, json: Value, args: map<string, string>)

  /** A JSON response, or Flask's own error page for an exception raised outside any `try`. */
  datatype Response = Json(status: int, body: Value) | Uncaught

  /** What the engines behind the services answer for this request. */
  datatype Engines = Engines(
    recognize: nat -> GoogleSpeech.RecognizeOutcome,
    whisper: OpenSourceSpeech.WhisperOutcome,
    language: GoogleSentiment.LanguageOutcome,
    nlp: OpenSourceSentiment.NlpOutcome,
    googleSynthesis: GoogleText.SynthesisOutcome,
    edgeSynthesis: OpenSourceText.EdgeSynthesis,
    googleVoices: GoogleText.VoiceListing,
    edgeVoices: OpenSourceText.EdgeListing,
    ffmpegSucceeds: bool,
    textHash: int)

  /** `datetime.now().isoformat()` and `time.time()` at the moment of the request. */
  datatype Clock = Clock(iso: string, epoch: real)

  const GoogleDefaultVoice := "en-US-Neural2-F"
  const EdgeDefaultVoice := "en-US-ChristopherNeural"

  function ErrorBody(message: string): Value {
    Obj(map["error" := Str(message)])
  }

  /** The two checks on the "audio" part shared by both speech endpoints. */
  function AudioProblem(req: Request): (problem: Option<string>)
    ensures problem == Some("No audio file provided") <==> "audio" !in req.files
    ensures problem == Some("Empty filename") <==> "audio" in req.files && req.files["audio"].filename == ""
    ensures problem.None? <==> "audio" in req.files && req.files["audio"].filename != ""
  {
    if "audio" !in req.files then Some("No audio file provided")
    else if req.files["audio"].filename == "" then Some("Empty filename")
    else None
  }

  /** How the JSON endpoints read `text`: absent, raising, or the stripped string. */
  datatype TextField = NoText | Raises | Text(stripped: string)

  /**
   * `if not data or 'text' not in data` followed by `data.get('text', '').strip()`. For a body
   * that is not an object, `in` tests list membership or substrings (and raises on numbers and
   * booleans), after which `.get` raises; a `text` that is not a string raises at `.strip()`.
   */
  function ReadText(data: Value): (f: TextField)
    ensures f == NoText <==> (!PyTruthy(data) || (data.Obj? && "text" !in data.fields)
                              || (data.Arr? && Str("text") !in data.items) || (data.Str? && !Contains(data.s, "text")))
    ensures f.Text? <==> PyTruthy(data) && data.Obj? && "text" in data.fields && data.fields["text"].Str?
    ensures f.Text? ==> f.stripped == Trim(SpaceOf(Python), data.fields["text"].s)
  {
    if !PyTruthy(data) then NoText
    else match data
      case Obj(fields) =>
        if "text" !in fields then NoText
        else if fields["text"].Str? then Text(Trim(SpaceOf(Python), fields["text"].s))
        else Raises
      case Arr(items) => if Str("text") in items then Raises else NoText
      case Str(s) => if Contains(s, "text") then Raises else NoText
      case _ => Raises
  }

  /** `data.get(key, default)` on a dict body. */
  function DictGet(data: Value, key: string, default: Value): Value {
    if data.Obj? && key in data.fields then data.fields[key] else default
  }

  /** Every value of `provider` other than the string "opensource" selects the Google services. */
  predicate IsOpenSource(provider: Value) {
    provider == Str("opensource")
  }

  /** A text body's validation failure, if any: 400 "No text provided", 400 "Empty text", or an uncaught error. */
  function TextProblem(data: Value): (r: Option<Response>)
    ensures r.None? <==> ReadText(data).Text? && ReadText(data).stripped != ""
    ensures ReadText(data) == NoText ==> r == Some(Json(400, ErrorBody("No text provided")))
    ensures ReadText(data) == Text("") ==> r == Some(Json(400, ErrorBody("Empty text")))
  {
    match ReadText(data)
    case NoText => Some(Json(400, ErrorBody("No text provided")))
    case Raises => Some(Uncaught)
    case Text(t) => if t == "" then Some(Json(400, ErrorBody("Empty text"))) else None
  }

  /**
   * A JSON object whose `text` is a string is rejected with 400 "Empty text" exactly when that
   * string is all whitespace; otherwise the handlers see it without surrounding whitespace.
   */
  lemma TextBodyChecks(fields: map<string, Value>, text: string)
    requires "text" in fields && fields["text"] == Str(text)
    ensures TextProblem(Obj(fields)) == Some(Json(400, ErrorBody("Empty text"))) <==> IsBlank(Python, text)
    ensures TextProblem(Obj(fields)).None? <==> !IsBlank(Python, text)
    ensures !IsBlank(Python, text) ==> var t := ReadText(Obj(fields)).stripped;
      !IsSpace(Python, t[0]) && !IsSpace(Python, t[|t| - 1])
  {
    TrimEmptyIffBlank(SpaceOf(Python), text);
    TrimEnds(SpaceOf(Python), text);
    var data := Obj(fields);
    assert PyTruthy(data);
    assert ReadText(data) == Text(Trim(SpaceOf(Python), text));
  }

  /** The speech endpoints accept an upload exactly when it is present with a non-empty file name. */
  lemma AudioAccepted(req: Request)
    ensures AudioProblem(req).None? <==> "audio" in req.files && req.files["audio"].filename != ""
  {
  }

  /** The transcription the chosen speech service returns for the saved upload. */
  function Transcription(openSource: bool, path: string, size: nat, e: Engines): Value {
    if openSource then OpenSourceSpeech.Transcribe(path, true, e.whisper)
    else GoogleSpeech.Transcription(GoogleSpeech.Present(size), e.recognize)
  }

  /** The analysis the chosen sentiment service returns for `text`. */
  function Sentiment(openSource: bool, text: string, e: Engines): Value {
    if openSource then OpenSourceSentiment.Analysis(text, e.nlp)
    else GoogleSentiment.Analyze(text, e.language)
  }

  /** `if results['success'] and results['text']`: a sentiment only for a successful, non-empty transcription. */
  function SentimentAfter(results: Value, openSource: bool, e: Engines): (s: Value)
    ensures s != Null <==> PyTruthy(Get(results, "success")) && Get(results, "text").Str? && Get(results, "text").s != ""
  {
    var text := Get(results, "text");
    if PyTruthy(Get(results, "success")) && text.Str? && text.s != "" then
      var s := Sentiment(openSource, text.s, e);
      assert Get(s, "success").Bool?;
      s
    else Null
  }

  /** The session entry of one speech-to-text conversion. */
  function SpeechEntry(id: string, provider: string, now: Clock, results: Value, sentiment: Value): Session.Record {
    map["id" := Str(id), "type" := Str("speech_to_text"), "provider" := Str(provider), "timestamp" := Str(now.iso),
        "transcription" := results, "sentiment" := sentiment]
  }

  function Pair(results: Value, sentiment: Value): Value {
    Obj(map["results" := results, "sentiment" := sentiment])
  }

  /** The open-source side of a comparison: Whisper on the WAV (or the WebM), when that file exists. */
  function CompareOpenSource(wavPath: string, wavExists: bool, e: Engines): Value {
    if wavExists then OpenSourceSpeech.Transcribe(wavPath, true, e.whisper)
    else Obj(map["success" := Bool(false), "error" := Str("Audio file not found"), "text" := Null])
  }

  /** The session entry of one speech-to-text comparison. */
  function SpeechComparisonEntry(id: string, now: Clock, google: Value, googleSentiment: Value, os: Value, osSentiment: Value): Session.Record {
    map["id" := Str(id), "type" := Str("speech_to_text_comparison"), "timestamp" := Str(now.iso),
        "google" := Obj(map["transcription" := google, "sentiment" := googleSentiment]),
        "opensource" := Obj(map["transcription" := os, "sentiment" := osSentiment])]
  }

  /** The session entry of one text-to-speech conversion. */
  function SpeechAudioEntry(id: string, provider: Value, now: Clock, text: string, sentiment: Value): Session.Record {
    map["id" := Str(id), "type" := Str("text_to_speech"), "provider" := provider, "timestamp" := Str(now.iso),
        "text" := Str(text), "audio_path" := Str(id + ".mp3"), "sentiment" := sentiment]
  }

  /** The audio the chosen text-to-speech service synthesizes, or the message of what it raised. */
  function Synthesis(openSource: bool, text: string, voice: Value, e: Engines): Result<seq<Byte>> {
    if openSource then
      match OpenSourceText.Synthesize(text, voice, e.edgeSynthesis, e.textHash).result
      case Ok(a) => Ok(a.content)
      case Err(m) => Err(m)
    else
      match GoogleText.Synthesize(text, voice, e.googleSynthesis, e.textHash)
      case Ok(a) => Ok(a.content)
      case Err(m) => Err(m)
  }

  function ComparisonEntry(id: string, now: Clock, text: string, googleVoice: Value, osVoice: Value,
                           googleSentiment: Value, osSentiment: Value): Session.Record {
    map["id" := Str(id), "type" := Str("comparison"), "timestamp" := Str(now.iso), "text" := Str(text),
        "google" := Obj(map["voice" := googleVoice, "audio_path" := Str(id + "_google.mp3"), "sentiment" := googleSentiment]),
        "opensource" := Obj(map["voice" := osVoice, "audio_path" := Str(id + "_os.mp3"), "sentiment" := osSentiment])]
  }

  /**
   * The application: the session store, the two cached voice lists, and the file names
   * present in the temporary directory.
   */
  class Server {
    const sessions: Session.SessionManager
    const googleText: GoogleText.TextService
    const osText: OpenSourceText.TextService
    var tempFiles: set<string>

    constructor ()
      ensures fresh(sessions) && sessions.maxResults == Session.DefaultMaxResults && sessions.stored == None
      ensures fresh(googleText) && googleText.availableVoices == None
      ensures fresh(osText) && osText.availableVoices == None
      ensures tempFiles == {}
    {
      sessions := new Session.SessionManager.Default();
      googleText := new GoogleText.TextService();
      osText := new OpenSourceText.TextService();
      tempFiles := {};
    }

    method Transcribe(openSource: bool, path: string, size: nat, e: Engines) returns (r: Value)
      ensures r == Transcription(openSource, path, size, e)
    {
      if openSource {
        r := OpenSourceSpeech.Transcribe(path, true, e.whisper);
      } else {
        var tried;
        r, tried := GoogleSpeech.Transcribe(GoogleSpeech.Present(size), e.recognize);
      }
    }

    method Analyze(openSource: bool, text: string, e: Engines) returns (s: Value)
      ensures s == Sentiment(openSource, text, e)
    {
      if openSource {
        s := OpenSourceSentiment.Analyze(text, e.nlp);
      } else {
        s := GoogleSentiment.Analyze(text, e.language);
      }
    }

    method AnalyzeAfter(results: Value, openSource: bool, e: Engines) returns (s: Value)
      ensures s == SentimentAfter(results, openSource, e)
    {
      s := Null;
      var text := Get(results, "text");
      if PyTruthy(Get(results, "success")) && text.Str? && text.s != "" {
        s := Analyze(openSource, text.s, e);
      }
    }

    /**
     * Saves the upload as `<id>.webm` and, when ffmpeg succeeds, its conversion `<id>.wav`;
     * the file Whisper reads is the WAV, or the WebM itself when conversion failed.
     */
    method StoreForComparison(id: string, e: Engines) returns (wav: string)
      modifies this
      ensures wav == if e.ffmpegSucceeds then id + ".wav" else id + ".webm"
      ensures tempFiles == old(tempFiles) + {id + ".webm", wav}
    {
      tempFiles := tempFiles + {id + ".webm"};
      if e.ffmpegSucceeds {
        wav := id + ".wav";
        tempFiles := tempFiles + {wav};
      } else {
        wav := id + ".webm";
      }
    }

    /** Deletes the comparison's files: the WebM when present, and the WAV when it is a separate file still present. */
    method RemoveStored(webm: string, wav: string)
      modifies this
      ensures tempFiles == old(tempFiles) - {webm, wav}
    {
      if webm in tempFiles {
        tempFiles := tempFiles - {webm};
      }
      if wav in tempFiles && wav != webm {
        tempFiles := tempFiles - {wav};
      }
    }

    /**
     * The open-source half of a speech comparison: Whisper on the converted file when it is
     * still on disk, otherwise the "Audio file not found" result, then the sentiment of its text.
     */
    method TranscribeStored(wav: string, e: Engines) returns (os: Value, osSentiment: Value)
      ensures os == CompareOpenSource(wav, wav in tempFiles, e)
      ensures osSentiment == SentimentAfter(os, true, e)
    {
      if wav in tempFiles {
        os := OpenSourceSpeech.Transcribe(wav, true, e.whisper);
      } else {
        os := Obj(map["success" := Bool(false), "error" := Str("Audio file not found"), "text" := Null]);
      }
      osSentiment := AnalyzeAfter(os, true, e);
    }

    /**
     * POST /api/speech-to-text: the upload is saved as `<id>.webm`, transcribed by the chosen
     * provider, analysed only when the transcription succeeded with text, recorded once in the
     * session, and deleted.
     */
    method SpeechToText(req: Request, id: string, now: Clock, e: Engines) returns (resp: Response)
      modifies this, sessions
      ensures AudioProblem(req).Some? ==>
        resp == Json(400, ErrorBody(AudioProblem(req).value))
        && sessions.stored == old(sessions.stored) && tempFiles == old(tempFiles)
      ensures AudioProblem(req).None? ==>
        var provider := if "provider" in req.form then req.form["provider"] else "google";
        var openSource := provider == "opensource";
        var results := Transcription(openSource, id + ".webm", |req.files["audio"].content|, e);
        var sentiment := SentimentAfter(results, openSource, e);
        && resp == Json(200, Obj(map["id" := Str(id), "provider" := Str(provider), "results" := results, "sentiment" := sentiment]))
        && sessions.stored == Some(Session.Added(old(sessions.Results()), SpeechEntry(id, provider, now, results, sentiment), sessions.maxResults))
        && tempFiles == old(tempFiles) - {id + ".webm"}
    {
      var problem := AudioProblem(req);
      if problem.Some? {
        return Json(400, ErrorBody(problem.value));
      }
      var file := req.files["audio"];
      var provider := if "provider" in req.form then req.form["provider"] else "google";
      var path := id + ".webm";
      tempFiles := tempFiles + {path};
      var openSource := provider == "opensource";
      var results := Transcribe(openSource, path, |file.content|, e);
      var sentiment := AnalyzeAfter(results, openSource, e);
      var entry := SpeechEntry(id, provider, now, results, sentiment);
      var _ := sessions.AddResult(entry, now.epoch);
      tempFiles := tempFiles - {path};
      resp := Json(200, Obj(map["id" := Str(id), "provider" := Str(provider), "results" := results, "sentiment" := sentiment]));
    }

    /**
     * POST /api/compare/speech-to-text: Google transcribes the WebM; ffmpeg converts it to WAV
     * for Whisper, falling back to the WebM itself when conversion fails. Both files go
     * afterwards (the WAV only when it is a separate file).
     */
    method CompareSpeechToText(req: Request, id: string, now: Clock, e: Engines) returns (resp: Response)
      modifies this, sessions
      ensures AudioProblem(req).Some? ==>
        resp == Json(400, ErrorBody(AudioProblem(req).value))
        && sessions.stored == old(sessions.stored) && tempFiles == old(tempFiles)
      ensures AudioProblem(req).None? ==>
        var webm := id + ".webm";
        var wav := if e.ffmpegSucceeds then id + ".wav" else webm;
        var google := GoogleSpeech.Transcription(GoogleSpeech.Present(|req.files["audio"].content|), e.recognize);
        var googleSentiment := SentimentAfter(google, false, e);
        var os := CompareOpenSource(wav, true, e);
        var osSentiment := SentimentAfter(os, true, e);
        && resp == Json(200, Obj(map["id" := Str(id), "google" := Pair(google, googleSentiment),
                                     "opensource" := Pair(os, osSentiment)]))
        && sessions.stored == Some(Session.Added(old(sessions.Results()),
             SpeechComparisonEntry(id, now, google, googleSentiment, os, osSentiment), sessions.maxResults))
        && tempFiles == old(tempFiles) - {webm, wav}
    {
      var problem := AudioProblem(req);
      if problem.Some? {
        return Json(400, ErrorBody(problem.value));
      }
      var file := req.files["audio"];
      var webm := id + ".webm";
      var wav := StoreForComparison(id, e);
      var google, _ := GoogleSpeech.Transcribe(GoogleSpeech.Present(|file.content|), e.recognize);
      var googleSentiment := AnalyzeAfter(google, false, e);
      var os, osSentiment := TranscribeStored(wav, e);
      var _ := sessions.AddResult(SpeechComparisonEntry(id, now, google, googleSentiment, os, osSentiment), now.epoch);
      RemoveStored(webm, wav);
      resp := Json(200, Obj(map["id" := Str(id), "google" := Pair(google, googleSentiment),
                                "opensource" := Pair(os, osSentiment)]));
    }

    /**
     * POST /api/text-to-speech: synthesis by the chosen provider (its errors give a 500), the
     * audio kept as `<id>.mp3`, a sentiment for the stripped text, one session entry, and the
     * audio returned as base64.
     */
    method TextToSpeech(req: Request, id: string, now: Clock, e: Engines) returns (resp: Response)
      modifies this, sessions
      ensures TextProblem(req.json).Some? ==>
        resp == TextProblem(req.json).value && sessions.stored == old(sessions.stored) && tempFiles == old(tempFiles)
      ensures TextProblem(req.json).None? ==>
        var text := ReadText(req.json).stripped;
        var voice := DictGet(req.json, "voice", Str(GoogleDefaultVoice));
        var provider := DictGet(req.json, "provider", Str("google"));
        var openSource := IsOpenSource(provider);
        match Synthesis(openSource, text, voice, e)
        case Err(m) =>
          resp == Json(500, ErrorBody(m)) && sessions.stored == old(sessions.stored) && tempFiles == old(tempFiles)
        case Ok(audio) =>
          var sentiment := Sentiment(openSource, text, e);
          && resp == Json(200, Obj(map["id" := Str(id), "provider" := provider,
                                       "audio" := Str(Base64.Encode(audio)), "sentiment" := sentiment]))
          && sessions.stored == Some(Session.Added(old(sessions.Results()),
               SpeechAudioEntry(id, provider, now, text, sentiment), sessions.maxResults))
          && tempFiles == old(tempFiles) + {id + ".mp3"}
    {
      var problem := TextProblem(req.json);
      if problem.Some? {
        return problem.value;
      }
      var text := ReadText(req.json).stripped;
      var voice := DictGet(req.json, "voice", Str(GoogleDefaultVoice));
      var provider := DictGet(req.json, "provider", Str("google"));
      var openSource := IsOpenSource(provider);
      var synthesized := Synthesis(openSource, text, voice, e);
      if synthesized.Err? {
        return Json(500, ErrorBody(synthesized.message));
      }
      var audio := synthesized.value;
      tempFiles := tempFiles + {id + ".mp3"};
      var sentiment := Analyze(openSource, text, e);
      var _ := sessions.AddResult(SpeechAudioEntry(id, provider, now, text, sentiment), now.epoch);
      resp := Json(200, Obj(map["id" := Str(id), "provider" := provider,
                                "audio" := Str(Base64.Encode(audio)), "sentiment" := sentiment]));
    }

    /** POST /api/sentiment: the chosen provider's analysis of the stripped text; the session is not touched. */
    method AnalyzeSentiment(req: Request, e: Engines) returns (resp: Response)
      ensures TextProblem(req.json).Some? ==> resp == TextProblem(req.json).value
      ensures TextProblem(req.json).None? ==>
        var text := ReadText(req.json).stripped;
        var provider := DictGet(req.json, "provider", Str("google"));
        resp == Json(200, Obj(map["text" := Str(text), "provider" := provider,
                                  "sentiment" := Sentiment(IsOpenSource(provider), text, e)]))
    {
      var problem := TextProblem(req.json);
      if problem.Some? {
        return problem.value;
      }
      var text := ReadText(req.json).stripped;
      var provider := DictGet(req.json, "provider", Str("google"));
      var sentiment := Analyze(IsOpenSource(provider), text, e);
      resp := Json(200, Obj(map["text" := Str(text), "provider" := provider, "sentiment" := sentiment]));
    }

    /** GET /api/voices: the chosen provider's cached voice list. */
    method GetVoices(req: Request, e: Engines) returns (resp: Response)
      modifies googleText, osText
      ensures var provider := if "provider" in req.args then req.args["provider"] else "google";
        && resp.Json? && resp.status == 200 && Get(resp.body, "provider") == Str(provider)
        && Get(resp.body, "voices").Arr?
        && (provider == "opensource" ==>
              && osText.availableVoices == Some(Get(resp.body, "voices").items)
              && googleText.availableVoices == old(googleText.availableVoices)
              && (old(osText.availableVoices).None? ==> osText.availableVoices == Some(OpenSourceText.ListVoices(e.edgeVoices)))
              && (old(osText.availableVoices).Some? ==> osText.availableVoices == old(osText.availableVoices)))
        && (provider != "opensource" ==>
              && googleText.availableVoices == Some(Get(resp.body, "voices").items)
              && osText.availableVoices == old(osText.availableVoices)
              && (old(googleText.availableVoices).None? ==> googleText.availableVoices == Some(GoogleText.ListVoices(e.googleVoices)))
              && (old(googleText.availableVoices).Some? ==> googleText.availableVoices == old(googleText.availableVoices)))
    {
      var provider := if "provider" in req.args then req.args["provider"] else "google";
      var voices, called;
      if provider == "opensource" {
        voices, called := osText.GetAvailableVoices(e.edgeVoices);
      } else {
        voices, called := googleText.GetAvailableVoices(e.googleVoices);
      }
      resp := Json(200, Obj(map["provider" := Str(provider), "voices" := Arr(voices)]));
    }

    /** GET /api/results: every stored record, newest first. */
    method GetResults() returns (resp: Response)
      modifies sessions
      ensures sessions.stored == Some(old(sessions.Results()))
      ensures resp == Json(200, Obj(map["results" := Arr(Records(sessions.Results()))]))
    {
      var rs := sessions.GetAllResults();
      resp := Json(200, Obj(map["results" := Arr(Records(rs))]));
    }

    /** GET /api/results/<id>: the first record with that id, or 404 "Result not found". */
    method GetResult(id: string) returns (resp: Response)
      modifies sessions
      ensures sessions.stored == Some(old(sessions.Results()))
      ensures match Session.Lookup(sessions.Results(), Str(id))
        case Some(r) => resp == (if r != map[] then Json(200, Obj(r)) else Json(404, ErrorBody("Result not found")))
        case None => resp == Json(404, ErrorBody("Result not found"))
    {
      var r := sessions.GetResult(Str(id));
      if r.Some? && r.value != map[] {
        resp := Json(200, Obj(r.value));
      } else {
        resp := Json(404, ErrorBody("Result not found"));
      }
    }

    /** DELETE /api/results. */
    method ClearResults() returns (resp: Response)
      modifies sessions
      ensures sessions.stored == Some([])
      ensures resp == Json(200, Obj(map["status" := Str("Session cleared")]))
    {
      sessions.ClearResults();
      resp := Json(200, Obj(map["status" := Str("Session cleared")]));
    }

    /** POST /api/compare/sentiment: both providers' analyses of the stripped text; the session is not touched. */
    method CompareSentiment(req: Request, e: Engines) returns (resp: Response)
      ensures TextProblem(req.json).Some? ==> resp == TextProblem(req.json).value
      ensures TextProblem(req.json).None? ==>
        var text := ReadText(req.json).stripped;
        resp == Json(200, Obj(map["text" := Str(text),
          "google" := Obj(map["provider" := Str("google"), "sentiment" := Sentiment(false, text, e)]),
          "opensource" := Obj(map["provider" := Str("opensource"), "sentiment" := Sentiment(true, text, e)])]))
    {
      var problem := TextProblem(req.json);
      if problem.Some? {
        return problem.value;
      }
      var text := ReadText(req.json).stripped;
      var googleSentiment := Analyze(false, text, e);
      var osSentiment := Analyze(true, text, e);
      resp := Json(200, Obj(map["text" := Str(text),
        "google" := Obj(map["provider" := Str("google"), "sentiment" := googleSentiment]),
        "opensource" := Obj(map["provider" := Str("opensource"), "sentiment" := osSentiment])]));
    }

    /**
     * POST /api/compare/text-to-speech: Google then Edge synthesis (either failure gives a 500
     * and stores nothing), both sentiments, both MP3 files kept, one session entry.
     */
    method CompareTextToSpeech(req: Request, id: string, now: Clock, e: Engines) returns (resp: Response)
      modifies this, sessions
      ensures TextProblem(req.json).Some? ==>
        resp == TextProblem(req.json).value && sessions.stored == old(sessions.stored) && tempFiles == old(tempFiles)
      ensures TextProblem(req.json).None? ==>
        var text := ReadText(req.json).stripped;
        var googleVoice := DictGet(req.json, "google_voice", Str(GoogleDefaultVoice));
        var osVoice := DictGet(req.json, "os_voice", Str(EdgeDefaultVoice));
        var google := Synthesis(false, text, googleVoice, e);
        var os := Synthesis(true, text, osVoice, e);
        && (google.Err? ==> resp == Json(500, ErrorBody(google.message)))
        && (google.Ok? && os.Err? ==> resp == Json(500, ErrorBody(os.message)))
        && (google.Err? || os.Err? ==> sessions.stored == old(sessions.stored) && tempFiles == old(tempFiles))
        && (google.Ok? && os.Ok? ==>
              var googleSentiment := Sentiment(false, text, e);
              var osSentiment := Sentiment(true, text, e);
              && resp == Json(200, Obj(map["id" := Str(id), "text" := Str(text),
                   "google" := Obj(map["voice" := googleVoice, "audio" := Str(Base64.Encode(google.value)), "sentiment" := googleSentiment]),
                   "opensource" := Obj(map["voice" := osVoice, "audio" := Str(Base64.Encode(os.value)), "sentiment" := osSentiment])]))
              && sessions.stored == Some(Session.Added(old(sessions.Results()),
                   ComparisonEntry(id, now, text, googleVoice, osVoice, googleSentiment, osSentiment), sessions.maxResults))
              && tempFiles == old(tempFiles) + {id + "_google.mp3", id + "_os.mp3"})
    {
      var problem := TextProblem(req.json);
      if problem.Some? {
        return problem.value;
      }
      var text := ReadText(req.json).stripped;
      var googleVoice := DictGet(req.json, "google_voice", Str(GoogleDefaultVoice));
      var osVoice := DictGet(req.json, "os_voice", Str(EdgeDefaultVoice));
      var google := Synthesis(false, text, googleVoice, e);
      if google.Err? {
        return Json(500, ErrorBody(google.message));
      }
      var googleSentiment := Analyze(false, text, e);
      var os := Synthesis(true, text, osVoice, e);
      if os.Err? {
        return Json(500, ErrorBody(os.message));
      }
      var osSentiment := Analyze(true, text, e);
      tempFiles := tempFiles + {id + "_google.mp3", id + "_os.mp3"};
      var entry := ComparisonEntry(id, now, text, googleVoice, osVoice, googleSentiment, osSentiment);
      var _ := sessions.AddResult(entry, now.epoch);
      resp := Json(200, Obj(map["id" := Str(id), "text" := Str(text),
        "google" := Obj(map["voice" := googleVoice, "audio" := Str(Base64.Encode(google.value)), "sentiment" := googleSentiment]),
        "opensource" := Obj(map["voice" := osVoice, "audio" := Str(Base64.Encode(os.value)), "sentiment" := osSentiment])]));
    }
  }

  /**
   * A text-to-speech request for the open-source provider without a `voice` key asks Edge for
   * the Google default "en-US-Neural2-F", not for Edge's own default voice.
   */
  lemma OpenSourceSpeechWithoutVoice(fields: map<string, Value>, e: Engines, text: string)
    requires "voice" !in fields && "provider" in fields && fields["provider"] == Str("opensource")
    ensures var voice := DictGet(Obj(fields), "voice", Str(GoogleDefaultVoice));
      && IsOpenSource(DictGet(Obj(fields), "provider", Str("google")))
      && OpenSourceText.Synthesize(text, voice, e.edgeSynthesis, e.textHash).voice == Str(GoogleDefaultVoice)
      && OpenSourceText.Synthesize(text, voice, e.edgeSynthesis, e.textHash).voice != Str(EdgeDefaultVoice)
  {
  }

  /** The stored records as the JSON objects `jsonify` sends. */
  function Records(rs: seq<Session.Record>): (vs: seq<Value>)
    ensures |vs| == |rs|
    ensures forall i | 0 <= i < |rs| :: vs[i] == Obj(rs[i])
  {
    seq(|rs|, i requires 0 <= i < |rs| => Obj(rs[i]))
  }
}
