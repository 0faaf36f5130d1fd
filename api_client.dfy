/**
 * The client's HTTP layer: one request per exported call, and the mapping of the server's
 * reply to a parsed body or a thrown error. `fetch` itself is not modelled: the reply is given.
 */
module Api {
  import opened Common

  const BaseUrl := "http://localhost:8080/api"
  const GenericError := "An error occurred"
  const CompareSpeechError := "Failed to compare speech-to-text"
  /** The TypeError a property read on a `null` body raises. */
  const NullBodyError := "Cannot read properties of null (reading 'error')"

  datatype HttpMethod = GET | POST | DELETE

  datatype FormField = FileField(name: string, blob: Blob) | TextField(name: string, text: string)

  datatype Body = NoBody | JsonBody(json: Value) | Multipart(fields: seq<FormField>)

  /** What `fetch` is asked to send; `credentials` is `credentials: "include"`. */
  datatype HttpRequest = HttpRequest(verb: HttpMethod, url: string, body: Body, credentials: bool)

  /** A reply body: parsed JSON, or text that `response.json()` rejects with `error`. */
  datatype ReplyBody = Parsed(json: Value) | Unparsable(error: string)

  /** What `fetch` resolved to, or the error it rejected with. */
  datatype HttpReply = NetworkFailure(error: string) | Reply(ok: bool, body: ReplyBody)

  /**
   * One exported call with its arguments. A provider of None is an omitted argument, which
   * the default `"google"` replaces; a voice of `Undefined` is an omitted voice.
   */
  datatype ApiCall =
    | FetchResults
    | ClearAllResults
    | FetchResultById(resultId: string)
    | ConvertSpeechToText(audio: Blob, provider: Option<string>)
    | ConvertTextToSpeech(text: string, voice: Value, provider: Option<string>)
    | AnalyzeSentiment(text: string, provider: Option<string>)
    | FetchAvailableVoices(provider: Option<string>)
    | CompareTextToSpeech(text: string, googleVoice: Value, osVoice: Value)
    | CompareSentiment(text: string)
    | CompareSpeechToText(audio: Blob)
    | CheckApiHealth

  function ProviderOrDefault(p: Option<string>): string {
    p.GetOr("google")
  }

  /** `JSON.stringify` of an object literal: properties whose value is `undefined` are left out. */
  function JsonObject(m: map<string, Value>): (v: Value)
    ensures v.Obj? && v.fields.Keys == set k | k in m && m[k] != Undefined
    ensures forall k | k in v.fields :: v.fields[k] == m[k]
  {
    Obj(map k | k in m && m[k] != Undefined :: m[k])
  }

  /** The request each exported function sends. */
  function BuildRequest(c: ApiCall): HttpRequest {
    match c
    case FetchResults => HttpRequest(GET, BaseUrl + "/results", NoBody, true)
    case ClearAllResults => HttpRequest(DELETE, BaseUrl + "/results", NoBody, true)
    case FetchResultById(id) => HttpRequest(GET, BaseUrl + "/results/" + id, NoBody, true)
    case ConvertSpeechToText(audio, p) =>
      HttpRequest(POST, BaseUrl + "/speech-to-text",
                  Multipart([FileField("audio", audio), TextField("provider", ProviderOrDefault(p))]), true)
    case ConvertTextToSpeech(text, voice, p) =>
      HttpRequest(POST, BaseUrl + "/text-to-speech",
                  JsonBody(JsonObject(map["text" := Str(text), "voice" := voice, "provider" := Str(ProviderOrDefault(p))])), true)
    case AnalyzeSentiment(text, p) =>
      HttpRequest(POST, BaseUrl + "/sentiment",
                  JsonBody(JsonObject(map["text" := Str(text), "provider" := Str(ProviderOrDefault(p))])), true)
    case FetchAvailableVoices(p) =>
      HttpRequest(GET, BaseUrl + "/voices?provider=" + ProviderOrDefault(p), NoBody, true)
    case CompareTextToSpeech(text, gv, ov) =>
      HttpRequest(POST, BaseUrl + "/compare/text-to-speech",
                  JsonBody(JsonObject(map["text" := Str(text), "google_voice" := gv, "os_voice" := ov])), true)
    case CompareSentiment(text) =>
      HttpRequest(POST, BaseUrl + "/compare/sentiment", JsonBody(JsonObject(map["text" := Str(text)])), true)
    case CompareSpeechToText(audio) =>
      HttpRequest(POST, BaseUrl + "/compare/speech-to-text", Multipart([FileField("audio", audio)]), false)
    case CheckApiHealth => HttpRequest(GET, BaseUrl + "/health", NoBody, false)
  }

  /** Cookies are sent with every call except the speech comparison and the health check. */
  lemma CredentialsExceptTwo(c: ApiCall)
    ensures BuildRequest(c).credentials <==> !(c.CompareSpeechToText? || c.CheckApiHealth?)
  {
  }

  /**
   * The speech upload sends the fields "audio" and "provider" (defaulting to "google"); the
   * comparison upload sends only "audio".
   */
  lemma UploadFields(audio: Blob, p: Option<string>)
    ensures BuildRequest(ConvertSpeechToText(audio, p)).body.Multipart?
    ensures var fs := BuildRequest(ConvertSpeechToText(audio, p)).body.fields;
      |fs| == 2 && fs[0] == FileField("audio", audio) && fs[1].name == "provider"
      && (p.None? ==> fs[1] == TextField("provider", "google"))
    ensures BuildRequest(CompareSpeechToText(audio)).body == Multipart([FileField("audio", audio)])
  {
  }

  /**
   * The comparison sends the Google voice as `google_voice` and the Edge voice as `os_voice`;
   * a voice left undefined is not sent at all, so the server's default applies.
   */
  lemma CompareVoiceKeys(text: string, gv: Value, ov: Value)
    ensures var body := BuildRequest(CompareTextToSpeech(text, gv, ov)).body.json;
      && (gv != Undefined ==> Get(body, "google_voice") == gv)
      && (ov != Undefined ==> Get(body, "os_voice") == ov)
      && (gv == Undefined <==> "google_voice" !in body.fields)
      && (ov == Undefined <==> "os_voice" !in body.fields)
      && Get(body, "text") == Str(text)
  {
  }

  /** `errorData.error || fallback` on the parsed error body, or the TypeError a `null` body raises. */
  function ErrorMessage(errorData: Value, fallback: string): string {
    if errorData == Null then NullBodyError
    else
      var e := Get(errorData, "error");
      if e.Str? && e.s != "" then e.s else fallback
  }

  /**
   * `handleResponse(response)`: the parsed body of a successful reply; for a failed one, an
   * error carrying the body's `error` string, or "An error occurred" when there is none or
   * the body is not JSON.
   */
  function HandleResponse(ok: bool, body: ReplyBody): (r: Result<Value>)
    ensures ok && body.Parsed? ==> r == Ok(body.json)
    ensures ok && body.Unparsable? ==> r == Err(body.error)
    ensures !ok ==> r.Err?
    ensures !ok && body.Unparsable? ==> r == Err(GenericError)
  {
    if !ok then
      var errorData := if body.Parsed? then body.json else Obj(map[]);
      Err(ErrorMessage(errorData, GenericError))
    else match body
      case Parsed(v) => Ok(v)
      case Unparsable(e) => Err(e)
  }

  /**
   * `compareSpeechToText`'s own check: the same selection with "Failed to compare
   * speech-to-text" as fallback, but an error body that is not JSON rejects with the parse error.
   */
  function CompareResponse(ok: bool, body: ReplyBody): (r: Result<Value>)
    ensures ok && body.Parsed? ==> r == Ok(body.json)
    ensures body.Unparsable? ==> r == Err(body.error)
    ensures !ok ==> r.Err?
  {
    match body
    case Unparsable(e) => Err(e)
    case Parsed(v) => if ok then Ok(v) else Err(ErrorMessage(v, CompareSpeechError))
  }

  /** The outcome of an exported call once the server (or the network) has answered. */
  function Call(c: ApiCall, reply: HttpReply): Result<Value> {
    match reply
    case NetworkFailure(e) => Err(e)
    case Reply(ok, body) => if c.CompareSpeechToText? then CompareResponse(ok, body) else HandleResponse(ok, body)
  }

  /**
   * A server error `{"error": m}` reaches the caller as an error with message m; without a
   * usable message the two paths differ only in their fallback text.
   */
  lemma ServerErrorMessage(c: ApiCall, m: string)
    ensures m != "" ==> Call(c, Reply(false, Parsed(Obj(map["error" := Str(m)])))) == Err(m)
    ensures Call(c, Reply(false, Parsed(Obj(map[])))) ==
      Err(if c.CompareSpeechToText? then CompareSpeechError else GenericError)
  {
  }

  /** A successful reply with a JSON body is passed through unchanged by every call. */
  lemma SuccessPassesThrough(c: ApiCall, v: Value)
    ensures Call(c, Reply(true, Parsed(v))) == Ok(v)
  {
  }
}
