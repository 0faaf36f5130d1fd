# Speech analysis platform — a Dafny model

This project models the logic of a speech-analysis web application. It has two parts: a
Flask backend and a React client. Each speech task has two providers:

| task | Google provider | open-source provider |
|---|---|---|
| speech-to-text | Cloud Speech | Whisper |
| text-to-speech | Cloud Text-to-Speech | Edge TTS |
| sentiment | Cloud Natural Language | spaCy with TextBlob |

The cloud engines, the ML libraries, `fetch`, the browser's MediaRecorder, the clock, `uuid4`
and Python's `hash` are not modelled. What they answer arrives as parameters: an outcome
datatype per engine, an `Api.HttpReply` per request, and explicit events for chunks, timer
ticks and recorder stops.

Backend modules:

- `Session`: the newest-first, bounded list of results kept per browser session.
- `GoogleSpeech`, `GoogleText`, `GoogleSentiment`, `OpenSourceSpeech`, `OpenSourceText` and
  `OpenSourceSentiment`: each service's decisions. These cover the size guard, the model
  fallback loop, transcript joining and confidence averaging. They also cover voice-name
  parsing, the voice caches, the label thresholds and the confidence clamp.
- `Backend`: the endpoints of `app.py`. It covers validation, provider dispatch, session
  entries and temporary files.
- `Base64`: `b64encode` on the server and `atob` in the browser. Section 4 of RFC 4648
  defines the alphabet; the WHATWG forgiving-base64 decode defines `atob`.

Client modules:

- `Api`: the request builders and response handling of `api.js`.
- `Hook`: the loading, error and voice bookkeeping of `useApi.js`.
- `Recording`: the recorder of `useRecorder.js` and the MM:SS formatter.
- `TextScreen`, `AudioScreen` and `Comparison`: the three screens.
- `Dashboard` and `ResultsView`: the views derived from the results.
- `Shell`: the result store of `App.jsx`.

Python and JavaScript values are modelled by `Common.Value`. Code that mutates state is
modelled by classes whose methods state their whole new state. The session manager, the voice
caches, the hook, the recorder, the screens and the store are such classes. Pure code is
modelled by functions, and lemmas relate them. The Comparison screen's `formatTime` is the
same function as the recorder's, so `Comparison.ComparisonView.FormattedTime` uses
`Recording.FormatTime`.

## Model

| member | source | states |
|---|---|---|
| Session.Stamped | backend/utils/session_manager.py:36-38 | the stored record has every key of the input with its value, plus `timestamp`, set to the clock only when the input had none |
| Session.AddedShape | backend/utils/session_manager.py:41-45 | after an add the list holds min(n + 1, max) records, the new one first, followed by the previous ones in order (the oldest dropped) |
| Session.AddedBounded | backend/utils/session_manager.py:12-19 | with the default bound the list never exceeds 30 records |
| Session.FindIndex | backend/utils/session_manager.py:66-71 | the index found holds a record with that id and none before it does; None means no record has that id |
| Session.LookupSpec | backend/utils/session_manager.py:54-71 | get_result finds a record iff some record has the id, and it is the first such record |
| Session.UpdatedSpec | backend/utils/session_manager.py:129-139 | update changes only the first matching record; every record with another id, and the whole list when none matches, is unchanged |
| Session.MergeSpec | backend/utils/session_manager.py:131-132 | `dict.update` keeps every old key and lets the new data win |
| Session.RemovedIff | backend/utils/session_manager.py:102-114 | the filtered list is shorter iff some record had the id; without one it is the same list; no kept record has the id |
| Session.FilterByTypeExact | backend/utils/session_manager.py:153 | the filter returns every record of that type and nothing else |
| Session.FirstMatchIsFound | backend/utils/session_manager.py:66-68 | a match with none before it is the one the scan returns |
| Session.SessionManager.constructor | backend/utils/session_manager.py:12-19 | a manager with the given bound and no list yet |
| Session.SessionManager.Default | backend/utils/session_manager.py:12 | the default bound is 30 |
| Session.SessionManager.EnsureSessionResults | backend/utils/session_manager.py:22-25 | creates an empty list when there is none, and that assignment marks the session modified; otherwise changes nothing |
| Session.SessionManager.AddResult | backend/utils/session_manager.py:27-52 | stores the stamped record at the front, truncated to the bound, and returns it |
| Session.SessionManager.GetResult | backend/utils/session_manager.py:54-71 | the loop returns the first record with the id and leaves the list as it was (the session is marked modified only when the list had to be created) |
| Session.SessionManager.GetAllResults | backend/utils/session_manager.py:73-81 | returns the whole list |
| Session.SessionManager.ClearResults | backend/utils/session_manager.py:83-88 | leaves an empty list |
| Session.SessionManager.RemoveResult | backend/utils/session_manager.py:90-114 | keeps exactly the records with another id, in order, reports true iff the list got shorter, and always marks the session modified because the list is reassigned |
| Session.SessionManager.UpdateResult | backend/utils/session_manager.py:116-139 | merges into the first match and returns it, or None with the list unchanged; the session is marked modified on a match or when the list had to be created |
| Session.SessionManager.FilterResultsByType | backend/utils/session_manager.py:141-156 | returns the records of that type, in order |
| Session.SessionManager.GetRecentResults | backend/utils/session_manager.py:158-173 | returns `results[:count]` (Python slice semantics) |
| Session.SessionManager.HasResults | backend/utils/session_manager.py:175-183 | true iff the list is non-empty |
| Common.ScoreConfidence | backend/google_services/sentiment_service.py:66 | `min(abs(score)*2, 1.0)` lies in [0, 1], is 1 iff abs(score) >= 0.5, and is 2·abs(score) below that |
| Common.PyPrefix | backend/utils/session_manager.py:170 | Python's `s[:n]` (also JavaScript's `slice(0, n)`) is a prefix of length min(n, len) for n >= 0, counting from the end for negative n |
| Common.TrimStart | backend/app.py:239 | what is kept after leading whitespace is removed is a suffix of the text (the whitespace test is a parameter: Python's `strip` set or JavaScript's `trim` set) |
| Common.TrimStartBlank | backend/app.py:239 | everything removed from the front is whitespace |
| Common.TrimStartHead | backend/app.py:239 | what remains after the front is removed starts with a non-space |
| Common.TrimEnd | backend/app.py:239 | what `strip` or `trim` keeps after the end is removed is a prefix of the text |
| Common.TrimEndBlank | backend/app.py:239 | everything removed from the end is whitespace |
| Common.TrimEndLast | backend/app.py:239 | what remains after the end is removed ends with a non-space |
| Common.Trim | backend/app.py:239 | the stripped text is the contiguous slice of the input that starts where the leading whitespace ends |
| Common.TrimEnds | backend/app.py:239 | non-empty stripped text begins and ends with a non-space |
| Common.TrimEmptyIffBlank | backend/app.py:240-242 | the stripped text is empty iff the text is all whitespace |
| Common.TrimIdempotent | backend/app.py:239 | stripping twice is stripping once |
| Common.BlankDiffers | backend/app.py:240-242 | Python's and JavaScript's whitespace differ: " \x1c" is blank to `strip` but not to `trim`, U+FEFF the other way round |
| Common.PreviewShape | frontend/speech-analysis/src/components/Dashboard.jsx:386-398 | a preview keeps the text's first n characters, appends "..." exactly when the text is longer, and is the text itself otherwise |
| Common.Lower | frontend/speech-analysis/src/components/Dashboard.jsx:41 | lower-casing keeps the length and maps every character through the ASCII lower-case table (see Left out) |
| Common.NatToString | frontend/speech-analysis/src/hooks/useRecorder.js:117-123 | the decimal digits of a number: non-empty, all digits, no leading zero |
| Common.DigitsValueOfNatToString | frontend/speech-analysis/src/hooks/useRecorder.js:117-123 | reading the digits back gives the number |
| Common.DigitsValueLeadingZeros | frontend/speech-analysis/src/hooks/useRecorder.js:119-122 | zero padding does not change the value read back |
| Common.PadStartZeros | frontend/speech-analysis/src/hooks/useRecorder.js:119-122 | `padStart(width, "0")` keeps the string as its suffix and reaches at least the width |
| Common.Split | backend/google_services/text_service.py:72 | Python's `split(sep)` gives at least one piece, none containing the separator |
| Common.JoinSplit | backend/google_services/text_service.py:72 | joining the pieces of a split with the separator gives the string back |
| Common.SplitCons | backend/google_services/text_service.py:72 | a string with a separator splits into the part before it followed by the split of the rest |
| GoogleSentiment.Interpret | backend/google_services/sentiment_service.py:95-102 | positive iff score >= 0.25, negative iff <= -0.25, neutral iff strictly between; exactly one label |
| GoogleSentiment.InterpretMonotone | backend/google_services/sentiment_service.py:95-102 | a higher score never gets a lower label |
| GoogleSentiment.Analyze | backend/google_services/sentiment_service.py:25-93 | success iff the text has at least 3 characters and the API answered; the short-text and exception failures with null score and magnitude |
| GoogleSentiment.AnalyzeSuccess | backend/google_services/sentiment_service.py:45-83 | the overall label is the document score's interpretation, the confidence is in [0, 1], and there is one sentence entry per sentence in order, labelled by the same thresholds |
| GoogleSentiment.ShortTextIgnoresApi | backend/google_services/sentiment_service.py:35-42 | text shorter than 3 characters gets the same answer whatever the API would say |
| GoogleSpeech.Transcripts | backend/google_services/speech_service.py:160-162 | one transcript per alternative, in order |
| GoogleSpeech.ConfidenceCountBounds | backend/google_services/speech_service.py:163-165 | at most one confidence is counted per alternative; all are counted when all have one, none when none has |
| GoogleSpeech.ConfidenceSumBounded | backend/google_services/speech_service.py:163-168 | confidences in [0, 1] sum to at most their count |
| GoogleSpeech.Average | backend/google_services/speech_service.py:168 | None iff nothing was counted; otherwise the mean of the counted confidences |
| GoogleSpeech.Winner | backend/google_services/speech_service.py:143-184 | the first model, in list order, whose response has results; None iff no model's response has any |
| GoogleSpeech.Collect | backend/google_services/speech_service.py:156-168 | the nested loops collect every alternative's transcript in order, with the confidence sum and count |
| GoogleSpeech.CollectAlternatives | backend/google_services/speech_service.py:161-165 | the inner loop continues the totals over one result's alternatives: transcripts appended in order, confidences summed and counted |
| GoogleSpeech.CollectStep | backend/google_services/speech_service.py:162-165 | one alternative appends its transcript and adds its confidence to the sum and one to the count exactly when it has one |
| GoogleSpeech.Report | backend/google_services/speech_service.py:154-179 | the record built from the winning response is the success record: the joined transcripts, the model's name, the average confidence and the elapsed time |
| GoogleSpeech.Transcription | backend/google_services/speech_service.py:103-192 | the missing-file and too-small (< 1000 bytes) failures, the "Failed to transcribe with any model" failure, and success iff some model had results |
| GoogleSpeech.TranscriptionSuccess | backend/google_services/speech_service.py:154-179 | a success names the first model with results, and its text is all that response's transcripts joined by single spaces |
| GoogleSpeech.Transcribe | backend/google_services/speech_service.py:103-192 | the loop calls no model for a missing or small file, stops at the first model with results, and returns Transcription's result |
| GoogleText.VoiceEntry | backend/google_services/text_service.py:35-41 | a voice entry has the API voice's name, and `natural` iff its natural sample rate is positive |
| GoogleText.VoiceEntries | backend/google_services/text_service.py:34-43 | one entry per API voice, in order |
| GoogleText.ListVoices | backend/google_services/text_service.py:31-48 | the mapped voices, or [] when the API raised |
| GoogleText.TextService.constructor | backend/google_services/text_service.py:11-26 | the cache starts empty |
| GoogleText.TextService.GetAvailableVoices | backend/google_services/text_service.py:28-50 | the API is called iff nothing is cached; later calls return the cached list (also an empty one after an error) |
| GoogleText.SplitHasTwoPieces | backend/google_services/text_service.py:72 | `split('-')[1]` exists iff the name contains '-' |
| GoogleText.LanguageCodeShape | backend/google_services/text_service.py:72 | the language code exists iff the name has a '-'; it is a prefix of the name holding exactly one '-', followed by the name's end or a '-' |
| GoogleText.SplitHead | backend/google_services/text_service.py:72 | the first field of a split starts the string and ends at its end or at a separator |
| GoogleText.CodeIsPrefix | backend/google_services/text_service.py:72 | the first two fields joined by '-' are a prefix of the name, ending at the name's end or at a '-' |
| GoogleText.FieldAfterDash | backend/google_services/text_service.py:72 | the text before a '-', the '-' and a field right after it form a prefix of the name |
| GoogleText.CodeHasOneDash | backend/google_services/text_service.py:72 | the language code holds exactly one '-' |
| GoogleText.NoDashFilter | backend/google_services/text_service.py:72 | a field without '-' contributes no '-' |
| GoogleText.GenderOf | backend/google_services/text_service.py:75-80 | FEMALE iff the name contains "Female" or ends in 'F'; otherwise MALE iff it contains "Male" or ends in 'M'; otherwise NEUTRAL |
| GoogleText.VoiceFor | backend/google_services/text_service.py:66-93 | no name gives en-US, NEUTRAL and "en-US-Neural2-F"; a name succeeds iff it is a string with a '-', and then carries its language code, its gender and itself; a non-string name raises "'<type>' object has no attribute 'split'" |
| GoogleText.LanguageCodeOf | backend/google_services/text_service.py:72 | "a-b-rest" with dash-free a and b has language code "a-b" |
| GoogleText.DefaultGender | backend/google_services/text_service.py:75-93 | the default voice name would itself parse as FEMALE |
| GoogleText.Synthesize | backend/google_services/text_service.py:52-121 | audio iff the voice parses and the API synthesizes; the file name and content; parse and API errors are raised to the caller |
| OpenSourceSentiment.Label | backend/open_source_services/sentiment_service.py:31-36 | positive iff polarity >= t, negative iff <= -t, neutral iff strictly between |
| OpenSourceSentiment.LabelsDisagree | backend/open_source_services/sentiment_service.py:31-52 | the overall (±0.1) and sentence (±0.25) labels differ iff 0.1 <= abs(p) < 0.25, and then the sentence label is neutral |
| OpenSourceSentiment.Entries | backend/open_source_services/sentiment_service.py:42-59 | one entry per sentence, in order |
| OpenSourceSentiment.Analysis | backend/open_source_services/sentiment_service.py:15-72 | the short-text and exception failures; on success the overall label, the clamped confidence, the subjectivity as magnitude and the sentence entries |
| OpenSourceSentiment.ShortTextIgnoresPipeline | backend/open_source_services/sentiment_service.py:17-18 | text shorter than 3 characters gets the same answer whatever the pipeline would say |
| OpenSourceSentiment.CollectSentences | backend/open_source_services/sentiment_service.py:42-59 | the loop appends one entry per sentence, in order |
| OpenSourceSentiment.Analyze | backend/open_source_services/sentiment_service.py:15-72 | the imperative analysis returns Analysis's result |
| OpenSourceSpeech.AverageConfidence | backend/open_source_services/speech_service.py:53-61 | None iff there are no segments, the sum raises or the mean is exactly 0; otherwise the mean over all segments, with a missing confidence counted as 0 |
| OpenSourceSpeech.ConfidenceSumBounded | backend/open_source_services/speech_service.py:54 | confidences in [0, 1] sum to at most the number of segments |
| OpenSourceSpeech.AverageConfidenceBounded | backend/open_source_services/speech_service.py:53-61 | a reported average lies in (0, 1] |
| OpenSourceSpeech.NoConfidencesGiveNone | backend/open_source_services/speech_service.py:54-61 | segments without confidences, as Whisper returns them, are reported as None |
| OpenSourceSpeech.Transcribe | backend/open_source_services/speech_service.py:17-82 | model "Whisper Base" always; the missing-file and exception failures; success carries Whisper's text and the average confidence |
| OpenSourceText.VoiceEntries | backend/open_source_services/text_service.py:27-36 | one entry per Edge voice, in order: short name, [locale], FEMALE iff "Female" is in the gender, natural |
| OpenSourceText.ListVoices | backend/open_source_services/text_service.py:17-53 | exactly the mapped entries, in order, when listing answered (`VoiceEntries`); exactly the two fallback voices when listing raised |
| OpenSourceText.ListedVoicesShape | backend/open_source_services/text_service.py:27-53 | every listed voice is natural, with exactly one language code |
| OpenSourceText.TextService.constructor | backend/open_source_services/text_service.py:13-15 | the cache starts empty |
| OpenSourceText.TextService.GetAvailableVoices | backend/open_source_services/text_service.py:55-91 | the listing is consulted iff nothing is cached; later calls return the cached list |
| OpenSourceText.Synthesize | backend/open_source_services/text_service.py:102-144 | the voice is `voice_name or "en-US-ChristopherNeural"`; the audio and file name on success; a save error is raised and leaves its temporary file |
| Backend.AudioProblem | backend/app.py:64-69 | 400 "No audio file provided" iff there is no audio part, "Empty filename" iff its name is empty, and no problem otherwise |
| Backend.ReadText | backend/app.py:233-242 | "No text provided" iff the body is falsy or an object without `text`; a string `text` is read stripped |
| Backend.TextProblem | backend/app.py:233-242 | the body passes iff its text is a string that is non-empty after stripping; the two 400 responses |
| Backend.TextBodyChecks | backend/app.py:233-242 | for a JSON object with string text: 400 "Empty text" iff the text is blank; otherwise the handlers get the stripped text |
| Backend.AudioAccepted | backend/app.py:64-69 | an upload is accepted iff present with a non-empty file name |
| Backend.SentimentAfter | backend/app.py:93-95 | a sentiment is computed iff the transcription succeeded with non-empty text |
| Backend.Server.constructor | backend/app.py:28-40 | a fresh session manager with bound 30, empty voice caches, no temporary files |
| Backend.Server.Transcribe | backend/app.py:85-90 | the service chosen by the provider transcribes |
| Backend.Server.Analyze | backend/app.py:306-309 | the service chosen by the provider analyses |
| Backend.Server.AnalyzeAfter | backend/app.py:93-95 | the sentiment step of speech-to-text |
| Backend.Server.SpeechToText | backend/app.py:61-120 | the 400s; otherwise one session entry with the transcription and sentiment, the same id returned, and the upload deleted |
| Backend.Server.CompareSpeechToText | backend/app.py:122-228 | the 400s; Google on the WebM, Whisper on the WAV or the WebM; both sentiments; one entry; cleanup of the WAV only when it is a separate file |
| Backend.Server.StoreForComparison | backend/app.py:137-155 | the WebM is saved, the WAV exists only when ffmpeg succeeded, and Whisper's file is the WAV or else the WebM |
| Backend.Server.TranscribeStored | backend/app.py:163-175 | Whisper runs on the file when it is still on disk, otherwise the result is "Audio file not found"; the sentiment follows only a successful non-empty transcription |
| Backend.Server.RemoveStored | backend/app.py:196-203 | after cleanup neither the WebM nor the WAV is left among the temporary files, and nothing else is removed |
| Backend.Server.TextToSpeech | backend/app.py:230-289 | the 400s; synthesis errors give 500; one entry; the sentiment of the stripped text; the audio as base64 |
| Backend.Server.AnalyzeSentiment | backend/app.py:291-319 | the 400s; the chosen provider's analysis; the session untouched |
| Backend.Server.GetVoices | backend/app.py:321-339 | the chosen provider's cached list, filling only that provider's cache |
| Backend.Server.GetResults | backend/app.py:341-349 | every stored record, in order |
| Backend.Server.GetResult | backend/app.py:351-362 | the first record with the id, or 404 "Result not found" |
| Backend.Server.ClearResults | backend/app.py:364-372 | the list is emptied and "Session cleared" returned |
| Backend.Server.CompareSentiment | backend/app.py:375-406 | the 400s; both analyses of the stripped text; the session untouched |
| Backend.Server.CompareTextToSpeech | backend/app.py:408-485 | the 400s; the default voices; either synthesis failing gives 500 and stores nothing; otherwise one entry |
| Backend.OpenSourceSpeechWithoutVoice | backend/app.py:238-254 | without a `voice` key the open-source provider is asked for the Google default voice, not Edge's own default |
| Backend.Records | backend/app.py:341-349 | one JSON object per stored record, in order |
| Base64.DecodeEncodeChar | backend/app.py:278 | every 6-bit value has its own character and decodes back to itself |
| Base64.Sextets | backend/app.py:278 | ceil(4n/3) groups of 6 bits; none iff no bytes |
| Base64.Chars | backend/app.py:278 | one alphabet character per group |
| Base64.Encode | backend/app.py:278 | the encoding's length is a multiple of 4, and it is empty iff the data is |
| Base64.BinaryString | frontend/speech-analysis/src/components/TextInput.jsx:87 | one character per byte, with that byte's code |
| Base64.DecodeSextetsOfSextets | frontend/speech-analysis/src/components/TextInput.jsx:87 | decoding the groups of some bytes gives the bytes back |
| Base64.EncodeParts | backend/app.py:278 | the encoding is the groups' characters followed by the padding |
| Base64.AtobEncode | frontend/speech-analysis/src/components/TextInput.jsx:87 | `atob(b64encode(b))` succeeds with exactly b, one character per byte |
| Api.JsonObject | frontend/speech-analysis/src/services/api.js:54-65 | `JSON.stringify` leaves out exactly the undefined properties |
| Api.CredentialsExceptTwo | frontend/speech-analysis/src/services/api.js:14-143 | cookies are sent iff the call is not the speech comparison or the health check |
| Api.UploadFields | frontend/speech-analysis/src/services/api.js:39-51 | the upload sends "audio" and "provider" (default "google"); the comparison sends only "audio" |
| Api.CompareVoiceKeys | frontend/speech-analysis/src/services/api.js:91-106 | the voices go as `google_voice` and `os_voice`, and an undefined voice is not sent |
| Api.HandleResponse | frontend/speech-analysis/src/services/api.js:5-11 | an ok reply yields its body; a failed one throws its `error` or "An error occurred" |
| Api.CompareResponse | frontend/speech-analysis/src/services/api.js:122-137 | the comparison's own error path with fallback "Failed to compare speech-to-text" |
| Api.ServerErrorMessage | frontend/speech-analysis/src/services/api.js:5-11 | a server's `{"error": m}` surfaces as m; without a message only the fallback differs |
| Api.SuccessPassesThrough | frontend/speech-analysis/src/services/api.js:10 | every call passes a successful JSON body through unchanged |
| Hook.Settled | frontend/speech-analysis/src/hooks/useApi.js:22-203 | voices are touched only by loadVoices; a failure writes a non-empty message, a success writes no error |
| Hook.SettledCallSpec | frontend/speech-analysis/src/hooks/useApi.js:28-43 | a successful call returns the API's value and writes no error; a failed one returns null with a message; an error is written iff the call failed |
| Hook.ServerErrorShown | frontend/speech-analysis/src/hooks/useApi.js:36-41 | the server's message is shown; a message-less failure shows the call's fallback |
| Hook.VoicesSettled | frontend/speech-analysis/src/hooks/useApi.js:96-124 | voices become `data.voices` when it is an array and [] otherwise or on failure |
| Hook.ApiHook.constructor | frontend/speech-analysis/src/hooks/useApi.js:15-19 | not loading, no error, no voices, provider "google" |
| Hook.ApiHook.SetProvider | frontend/speech-analysis/src/hooks/useApi.js:19 | only the provider changes |
| Hook.ApiHook.Dispatch | frontend/speech-analysis/src/hooks/useApi.js:28-29 | a dispatched call sets loading and clears the error |
| Hook.ApiHook.BeginSpeechToText | frontend/speech-analysis/src/hooks/useApi.js:22-30 | no recording, no call; otherwise the upload with the current provider |
| Hook.ApiHook.BeginTextToSpeech | frontend/speech-analysis/src/hooks/useApi.js:47-55 | blank text, no call; otherwise the synthesis with the voice and the provider |
| Hook.ApiHook.BeginSentiment | frontend/speech-analysis/src/hooks/useApi.js:72-80 | blank text, no call; otherwise the analysis with the provider |
| Hook.ApiHook.BeginCompareTextToSpeech | frontend/speech-analysis/src/hooks/useApi.js:127-140 | blank text, no call; otherwise the comparison with both voices |
| Hook.ApiHook.BeginCompareSentiment | frontend/speech-analysis/src/hooks/useApi.js:157-165 | blank text, no call; otherwise the comparison |
| Hook.ApiHook.BeginCompareSpeechToText | frontend/speech-analysis/src/hooks/useApi.js:181-189 | no recording, no call; otherwise the comparison upload |
| Hook.ApiHook.BeginLoadVoices | frontend/speech-analysis/src/hooks/useApi.js:96-106 | nothing while loading; otherwise voicesLoaded false and the list request |
| Hook.ApiHook.Settle | frontend/speech-analysis/src/hooks/useApi.js:30-43 | loading off; a failure's message replaces the error, a success leaves the error as it stands (an overlapping call's message stays); the settled voices, voicesLoaded after loadVoices, the value returned |
| Recording.TwoDigitsIsPadding | frontend/speech-analysis/src/hooks/useRecorder.js:119-122 | the two-digit field is the number's digits padded to width 2 |
| Recording.TwoDigitsValue | frontend/speech-analysis/src/hooks/useRecorder.js:119-122 | the field has at least 2 digits, exactly 2 iff n < 100, and reads back as n |
| Recording.FormatTimeShape | frontend/speech-analysis/src/hooks/useRecorder.js:117-123 | "MM:SS" with SS two digits and MM at least two |
| Recording.ParseParts | frontend/speech-analysis/src/hooks/useRecorder.js:117-123 | a minutes field and a two-character seconds field around ':' parse as their reading |
| Recording.ReadingOfDigits | frontend/speech-analysis/src/hooks/useRecorder.js:117-123 | the two fields read back as 60·q + k |
| Recording.FormatTimeRoundTrip | frontend/speech-analysis/src/hooks/useRecorder.js:117-123 | parsing a formatted time gives the seconds back, so 60·MM + SS = s |
| Recording.FormatTimeInjective | frontend/speech-analysis/src/hooks/useRecorder.js:117-123 | different durations are formatted differently |
| Recording.Recorder.constructor | frontend/speech-analysis/src/hooks/useRecorder.js:4-28 | not recording, time 0, no recording, no error, no chunks, no timer or stream |
| Recording.Recorder.StartRecording | frontend/speech-analysis/src/hooks/useRecorder.js:31-79 | the previous recording is cleared first; granted: recording at time 0 with timer and stream; refused: the message or "Could not access microphone", not recording |
| Recording.Recorder.DataAvailable | frontend/speech-analysis/src/hooks/useRecorder.js:48-52 | only non-empty chunks are kept, in arrival order |
| Recording.Recorder.RecorderStopped | frontend/speech-analysis/src/hooks/useRecorder.js:55-64 | all kept chunks, in order, become one "audio/webm" recording with its URL; not recording |
| Recording.Recorder.Tick | frontend/speech-analysis/src/hooks/useRecorder.js:71-74 | each tick adds exactly one second while the timer runs |
| Recording.Recorder.StopRecording | frontend/speech-analysis/src/hooks/useRecorder.js:82-101 | from any state: timer and stream stopped, not recording; the recorder is stopped only if it was recording |
| Recording.Recorder.ResetRecording | frontend/speech-analysis/src/hooks/useRecorder.js:104-114 | the URL is revoked and the recording, URL, time, error and chunks cleared |
| TextScreen.VoiceAfterSwitch | frontend/speech-analysis/src/components/TextInput.jsx:38-50 | opensource selects "en-US-ChristopherNeural", google "en-US-Neural2-F", anything else keeps the voice |
| TextScreen.BytesOf | frontend/speech-analysis/src/components/TextInput.jsx:87-93 | one byte per character, its code modulo 256 |
| TextScreen.BytesOfBinaryString | frontend/speech-analysis/src/components/TextInput.jsx:87-93 | the bytes of a binary string are the data it was made from |
| TextScreen.AudioRoundTrip | frontend/speech-analysis/src/components/TextInput.jsx:85-98 | the server's base64 of non-empty audio plays back as exactly that audio; empty audio plays nothing |
| TextScreen.NewResult | frontend/speech-analysis/src/components/TextInput.jsx:74-81 | a text-to-speech record with the reply's id, provider and audio, the text, and the analysed sentiment |
| TextScreen.NewResultAsWritten | frontend/speech-analysis/src/components/TextInput.jsx:74-81 | as written: a text-to-speech record with the reply's id and audio and the text, but no provider, so it is badged "Open Source" whichever provider synthesized it |
| TextScreen.ReportedBadge | frontend/speech-analysis/src/components/TextInput.jsx:74-81 | a Google synthesis reported as written is badged "Open Source"; with its provider it is badged "Google" |
| TextScreen.TextInputView.constructor | frontend/speech-analysis/src/components/TextInput.jsx:10-14 | empty text, no audio, Google voice, no sentiment |
| TextScreen.TextInputView.ProviderEffects | frontend/speech-analysis/src/components/TextInput.jsx:38-50 | the voice list is requested for the provider and the voice reset for it |
| TextScreen.TextInputView.Mount | frontend/speech-analysis/src/components/TextInput.jsx:38-50 | the mount loads the voices for the initial provider |
| TextScreen.TextInputView.ChangeProvider | frontend/speech-analysis/src/components/TextInput.jsx:38-50 | a new provider resets the voice and reloads the list; the same provider changes nothing |
| TextScreen.TextInputView.ChangeText | frontend/speech-analysis/src/components/TextInput.jsx:53-57 | the text and its length |
| TextScreen.TextInputView.SelectVoice | frontend/speech-analysis/src/components/TextInput.jsx:10-14 | only the voice changes |
| TextScreen.TextInputView.DecodeToBytes | frontend/speech-analysis/src/components/TextInput.jsx:87-93 | the loop fills a buffer as long as the string with each character's code |
| TextScreen.TextInputView.ProcessText | frontend/speech-analysis/src/components/TextInput.jsx:60-99 | blank text sends nothing; sentiment then synthesis; the sentiment on success; the record after a successful synthesis; the audio only when the reply carries some |
| TextScreen.TextInputView.PlayAudio | frontend/speech-analysis/src/components/TextInput.jsx:85-98 | audio the reply carries and `atob` accepts replaces the current audio under the new URL; otherwise the audio stays; nothing else changes |
| TextScreen.TextInputView.ResetText | frontend/speech-analysis/src/components/TextInput.jsx:102-107 | text, count, audio and sentiment cleared |
| AudioScreen.TranscriptionOf | frontend/speech-analysis/src/components/AudioRecorder.jsx:52-58 | a panel iff the reply has results; the model, confidence and sentiment copied; the text always truthy |
| AudioScreen.TranscriptionText | frontend/speech-analysis/src/components/AudioRecorder.jsx:53-54 | the panel shows the recognised text, or "No transcription available" when it is empty |
| AudioScreen.ReportedAsWritten | frontend/speech-analysis/src/components/AudioRecorder.jsx:45-50 | as written: the reply itself is reported, so a reply without `type` counts as neither kind |
| AudioScreen.SpeechRecord | frontend/speech-analysis/src/components/AudioRecorder.jsx:45-50 | the reported record is a speech-to-text result with the reply's id, provider, results and sentiment |
| AudioScreen.RawReplyMiscounted | frontend/speech-analysis/src/components/AudioRecorder.jsx:45-50 | the raw reply, as written, is titled "Text to Speech", summarised "No text available" and counted as neither kind |
| AudioScreen.SpeechRecordCounted | frontend/speech-analysis/src/components/AudioRecorder.jsx:45-50 | the speech record is titled "Speech to Text", summarised by its text and counted as speech |
| AudioScreen.AudioRecorderView.constructor | frontend/speech-analysis/src/components/AudioRecorder.jsx:7-36 | no panel, no recording, provider "google" |
| AudioScreen.AudioRecorderView.ProcessAudio | frontend/speech-analysis/src/components/AudioRecorder.jsx:39-60 | no recording, no request; otherwise the upload with the provider, the record reported after a success, and the panel replaced only when the reply has results |
| AudioScreen.AudioRecorderView.ResetRecorder | frontend/speech-analysis/src/components/AudioRecorder.jsx:63-66 | the recorder is reset and the panel closed |
| Comparison.VoicesRead | frontend/speech-analysis/src/components/Comparison.jsx:38-65 | a voice fetch fails iff the fetch, the parse or a null body raises; it yields a list iff `voices` is an array; the status is ignored |
| Comparison.VoicesRequest | frontend/speech-analysis/src/components/Comparison.jsx:40-57 | the screen's direct voice fetch is the request `getAvailableVoices` sends, without cookies |
| Comparison.ServerVoicesRead | frontend/speech-analysis/src/components/Comparison.jsx:43-48 | the server's voice list reaches the screen unchanged |
| Comparison.ComparisonCall | frontend/speech-analysis/src/components/Comparison.jsx:144-193 | the comparison matching the mode, or none without a recording (speech) or text (others) |
| Comparison.EnabledIffCall | frontend/speech-analysis/src/components/Comparison.jsx:459-466 | when nothing loads, the Run button is enabled iff a run sends a call |
| Comparison.RunDisabled | frontend/speech-analysis/src/components/Comparison.jsx:459-466 | the button is disabled iff something loads or a run would send no call |
| Comparison.ComparisonView.RunButtonDisabled | frontend/speech-analysis/src/components/Comparison.jsx:459-466 | the screen's button is disabled iff the hook or the screen loads or a run would send no call |
| Comparison.NormalizeStt | frontend/speech-analysis/src/components/Comparison.jsx:159-169 | each side becomes {results: results or transcription, sentiment}; none when the reply or a side is missing |
| Comparison.NormalizeServerComparison | frontend/speech-analysis/src/components/Comparison.jsx:159-169 | the server's comparison keeps both sides' results and sentiments |
| Comparison.SttRunIntended | frontend/speech-analysis/src/components/Comparison.jsx:144-175 | one request; a failed call shows nothing new |
| Comparison.DirectSttRequest | frontend/speech-analysis/src/components/Comparison.jsx:195-221 | each fall-through upload is the request `convertSpeechToText` sends for that provider, without cookies |
| Comparison.DirectStt | frontend/speech-analysis/src/components/Comparison.jsx:194-242 | the Google upload always goes out and the open-source one only after it parsed; the pair is shown iff both bodies parsed to non-null values |
| Comparison.SttRunAsWritten | frontend/speech-analysis/src/components/Comparison.jsx:144-242 | as written: the comparison request and at least the Google upload go out whatever the comparison answered; nothing is shown only when the intended run shows nothing either |
| Comparison.SttFallsThrough | frontend/speech-analysis/src/components/Comparison.jsx:177-233 | as written three requests go out and the plain uploads' bodies replace the comparison; as intended one |
| Comparison.SttErrorsHideComparison | frontend/speech-analysis/src/components/Comparison.jsx:200-233 | as written two failed uploads replace a successful comparison's transcription by undefined |
| Comparison.ComparisonResult | frontend/speech-analysis/src/components/Comparison.jsx:155-193 | text comparisons show the value or null; a failed speech comparison keeps what was shown |
| Comparison.TextComparisonShown | frontend/speech-analysis/src/components/Comparison.jsx:184-193 | a text comparison shows the server's reply unchanged |
| Comparison.ComparisonView.constructor | frontend/speech-analysis/src/components/Comparison.jsx:8-32 | the initial state: sentiment mode, the two default voices, nothing shown |
| Comparison.ComparisonView.LoadAllVoices | frontend/speech-analysis/src/components/Comparison.jsx:34-73 | Google first, then open source only if the first read did not raise; each list kept only when an array came back |
| Comparison.ComparisonView.ChangeText | frontend/speech-analysis/src/components/Comparison.jsx:75-79 | the text and its length; every other field of the screen and its recorder unchanged |
| Comparison.ComparisonView.SelectMode | frontend/speech-analysis/src/components/Comparison.jsx:259-290 | only the mode changes: text, results, voices, voice lists, loading flags and the recorder's fields stay |
| Comparison.ComparisonView.SelectVoices | frontend/speech-analysis/src/components/Comparison.jsx:412-445 | only the two chosen voices change: every other screen and recorder field stays |
| Comparison.ComparisonView.StartRecording | frontend/speech-analysis/src/components/Comparison.jsx:82-120 | granted: chunks reset, recording at 0 with timer and stream, the previous recording kept until the new one stops; refused: nothing changes (`unchanged(this)`); the text, results and voices stay in both cases |
| Comparison.ComparisonView.DataAvailable | frontend/speech-analysis/src/components/Comparison.jsx:90-94 | only non-empty chunks are kept, in order; nothing else changes |
| Comparison.ComparisonView.RecorderStopped | frontend/speech-analysis/src/components/Comparison.jsx:96-104 | the chunks become one "audio/webm" recording with its URL; nothing else changes |
| Comparison.ComparisonView.Tick | frontend/speech-analysis/src/components/Comparison.jsx:111-113 | one second more while the timer runs; nothing else changes |
| Comparison.ComparisonView.StopRecording | frontend/speech-analysis/src/components/Comparison.jsx:123-133 | acts only when a recorder exists and is recording: stopped, tracks and timer stopped, the recording and the rest of the screen kept; otherwise nothing changes (`unchanged(this)`) |
| Comparison.ComparisonView.BeginComparison | frontend/speech-analysis/src/components/Comparison.jsx:144-193 | the request the mode calls for, none when invalid; the speech comparison turns loading on; the rest of the screen and the recorder stay |
| Comparison.ComparisonView.FinishComparison | frontend/speech-analysis/src/components/Comparison.jsx:155-193 | the settled reply is shown as ComparisonResult says; nothing else is sent; the input, voices and recorder stay |
| Dashboard.StatusAfter | frontend/speech-analysis/src/components/Dashboard.jsx:14-23 | "online" iff the health call succeeds; never left "checking" |
| Dashboard.OfflineCases | frontend/speech-analysis/src/components/Dashboard.jsx:14-23 | network failure, a failed status or an unparsable body give "offline"; an ok JSON reply "online" |
| Dashboard.HealthIndicator.constructor | frontend/speech-analysis/src/components/Dashboard.jsx:11 | starts "checking" |
| Dashboard.HealthIndicator.BeginCheck | frontend/speech-analysis/src/components/Dashboard.jsx:14-17 | "checking" and the health request |
| Dashboard.HealthIndicator.FinishCheck | frontend/speech-analysis/src/components/Dashboard.jsx:17-22 | the status after the reply |
| Dashboard.KindCountsBounded | frontend/speech-analysis/src/components/Dashboard.jsx:26-36 | speech plus text counts are at most the total, with equality iff every result is of one of the two types |
| Dashboard.LabelOf | frontend/speech-analysis/src/components/Dashboard.jsx:39-50 | a result has a label iff its sentiment is truthy with a non-empty string label; the label is compared lower-cased, with the same length |
| Dashboard.TallyCounts | frontend/speech-analysis/src/components/Dashboard.jsx:39-50 | each counter counts exactly its label's results (lower-cased; any other label neutral); their sum counts the labelled results, at most the total |
| Dashboard.CountSentiments | frontend/speech-analysis/src/components/Dashboard.jsx:39-50 | the forEach loop computes the tally |
| Dashboard.Recent | frontend/speech-analysis/src/components/Dashboard.jsx:30 | the first min(5, n) results in order |
| Dashboard.Title | frontend/speech-analysis/src/components/Dashboard.jsx:350-355 | "Speech to Text" iff the type is speech_to_text, else "Text to Speech" |
| Dashboard.Badge | frontend/speech-analysis/src/components/Dashboard.jsx:363-368 | "Google" iff the provider is "google", else "Open Source" |
| Dashboard.SummarySpec | frontend/speech-analysis/src/components/Dashboard.jsx:386-398 | a speech result is summarised by its quoted transcription (first 50 characters, "..." when longer), or "No transcription available" without one; any other result by its quoted text, or "No text available" without one |
| Dashboard.FormatDate | frontend/speech-analysis/src/components/Dashboard.jsx:53-62 | "Unknown" iff the timestamp is falsy |
| ResultsView.Filtered | frontend/speech-analysis/src/components/Results.jsx:10-13 | "all" keeps everything; otherwise only results of the active type, taken from the list |
| ResultsView.FilteredKeeps | frontend/speech-analysis/src/components/Results.jsx:10-13 | every result of the active type is kept |
| ResultsView.Toggled | frontend/speech-analysis/src/components/Results.jsx:16-18 | collapses iff the id was expanded; otherwise the id is the single expanded result |
| ResultsView.ToggleTwice | frontend/speech-analysis/src/components/Results.jsx:16-18 | from any state in which an entry is not expanded, one click expands it and a second leaves nothing expanded |
| ResultsView.ReplaceFirstUnderscore | frontend/speech-analysis/src/components/Results.jsx:144 | JavaScript's `replace("_", " ")` keeps the length and turns exactly the first '_' into a space, changing nothing else |
| ResultsView.UnderscoresToSpaces | frontend/speech-analysis/src/components/Results.jsx:144 | every '_' becomes a space and nothing else changes |
| ResultsView.EmptyTabMessageAsWritten | frontend/speech-analysis/src/components/Results.jsx:141-148 | as written: "No " + the kind + " results found", with only the kind's first '_' turned into a space |
| ResultsView.EmptyTabMessage | frontend/speech-analysis/src/components/Results.jsx:141-148 | corrected: the same line with every '_' of the kind turned into a space, so it holds no '_' |
| ResultsView.FirstReplaceLeavesUnderscore | frontend/speech-analysis/src/components/Results.jsx:144 | a string with two underscores keeps one after `replace` |
| ResultsView.EmptyTabMessageUnderscores | frontend/speech-analysis/src/components/Results.jsx:141-148 | the as-written empty-tab message keeps an underscore of a two-underscore type; the corrected one has none |
| ResultsView.SummaryFallback | frontend/speech-analysis/src/components/Results.jsx:180-198 | an 80-character preview of the text, or "No content available" |
| ResultsView.SentimentText | frontend/speech-analysis/src/components/Results.jsx:262-270 | the label, or "Neutral" when it is missing |
| ResultsView.ScreenOf | frontend/speech-analysis/src/components/Results.jsx:33-65 | the empty state iff there are no results, whatever the filter; loading iff results and loading; the empty-tab message iff nothing passes the filter, with no underscore in it; otherwise the filtered results |
| ResultsView.ResultsList.constructor | frontend/speech-analysis/src/components/Results.jsx:7-8 | filter "all", nothing expanded |
| ResultsView.ResultsList.SelectType | frontend/speech-analysis/src/components/Results.jsx:100-128 | only the filter changes |
| ResultsView.ResultsList.ToggleExpand | frontend/speech-analysis/src/components/Results.jsx:16-18 | the expansion is toggled |
| ResultsView.ResultsList.ClearClicked | frontend/speech-analysis/src/components/Results.jsx:82-88 | onClear runs iff the user confirms |
| Shell.LoadsServerRecords | frontend/speech-analysis/src/App.jsx:22-33 | loading the server's results body yields exactly the stored records |
| Shell.FailedLoadKeeps | frontend/speech-analysis/src/App.jsx:24-32 | a failed load yields nothing to replace the list |
| Shell.ResultStore.constructor | frontend/speech-analysis/src/App.jsx:13-15 | no results, not loading, the dashboard tab |
| Shell.ResultStore.LoadResults | frontend/speech-analysis/src/App.jsx:22-33 | the list is replaced on success and kept on failure; loading is false afterwards |
| Shell.ResultStore.ClearResults | frontend/speech-analysis/src/App.jsx:35-44 | the list is emptied only after the server confirms |
| Shell.ResultStore.NewResult | frontend/speech-analysis/src/App.jsx:47-49 | the new result is prepended, without deduplication |
| Shell.ResultStore.SelectTab | frontend/speech-analysis/src/App.jsx:15 | only the tab changes |

## Left out

- Engines and transport: the cloud and ML engines, ffmpeg, `fetch`, Flask routing and CORS, cookies, MediaRecorder, `getUserMedia`, object URLs and `setInterval` are not modelled. Their answers are parameters, and browser events are explicit methods.
- Identifiers and clocks: `uuid4` ids, `datetime.now`/`time.time` and Python's salted `hash` are parameters.
- File paths are the bare file names; the server's temporary-directory prefix is left out.
- Floating point is modelled as `real`. `toFixed`, percentages and `toLocaleString` date formatting are not modelled, so `Dashboard.FormatDate` only separates "Unknown" from a localized date.
- String lengths count code points, not UTF-16 units.
- Common.Lower: lower-cases ASCII letters only. JavaScript's `toLowerCase` is Unicode-aware, so a label such as "POSİTİVE" is counted differently.
- GoogleText.PyTypeName: a JSON number with no fractional part is named `int`. Python names `5.0` a `float`, and the model cannot tell the two apart.
- Toasts, console logging, JSX markup and intermediate renders are left out. `ProviderToggle.jsx` is pure presentation.
- React closures: every handler reads the current state. The `loading` that `useCallback` captures, and the stale `isRecording` in the unmount cleanup, are not modelled.
- A second `startRecording` while recording overwrites the timer reference, which leaks the old interval. The model has a single timer flag.
- Exceptions thrown by `onSuccess` callbacks, and callbacks on a `null` body, are not modelled.
- `error` fields that are not strings are treated as absent.
- A truthy non-array `results` in `App.jsx`, and dashboard labels that are truthy but not strings, are read as absent. Audio that is not a string is not played.
- Dashboard.Summary and ResultsView.Summary: a truthy `text` or `transcription.text` that is not a string is read as absent. In the source `.slice` works on an array and throws on other values.
- Google Speech: the exceptions of `read`/`getsize` are not modelled. The check `hasattr(alternative, 'confidence')` is read as "a confidence is present".
- Whisper segment confidences that are booleans are not modelled.
- Edge TTS: a `KeyError` in the voice mapping is merged into the listing failure.
- Failures to write temporary files are not modelled. Flask's 415 for a non-JSON content type is read as an empty body.
- Comparison.ComparisonView.FinishComparison: models the intended speech comparison; the as-written fall-through is `Comparison.SttRunAsWritten`.
- TextScreen.TextInputView.ProcessText: reports the corrected record `TextScreen.NewResult`, which carries the reply's provider. The source reports `TextScreen.NewResultAsWritten`, which has none (Findings, row 3).
- AudioScreen.AudioRecorderView.ProcessAudio: reports the corrected record `AudioScreen.SpeechRecord`. The source reports the raw reply, `AudioScreen.ReportedAsWritten` (Findings, row 2).
- ResultsView.ScreenOf: shows the corrected message `ResultsView.EmptyTabMessage`. The source shows `ResultsView.EmptyTabMessageAsWritten`, which keeps every underscore after the first (Findings, row 4).

## Findings

| source | as written | input that shows it | evidently intended | confidence | as-written member | corrected member |
|---|---|---|---|---|---|---|
| frontend/speech-analysis/src/components/Comparison.jsx:144-233 | the speech comparison has no `return`, so it falls through to the older branch: it uploads the recording twice more to `/speech-to-text` and replaces the comparison with those bodies | speech mode with a recording: three requests; both uploads answering 500 `{"error": m}` replace a successful comparison's transcriptions by `undefined` | return after the unified comparison | not executed | Comparison.SttRunAsWritten (Comparison.SttFallsThrough, Comparison.SttErrorsHideComparison) | Comparison.SttRunIntended (used by Comparison.ComparisonResult) |
| frontend/speech-analysis/src/components/AudioRecorder.jsx:45-50 | the raw reply `{id, provider, results, sentiment}` is handed to `onNewResult`; it has no `type` | any successful transcription: the dashboard titles it "Text to Speech", shows "No text available" and counts it as neither kind | a `speech_to_text` record with the transcription under `transcription` | not executed | AudioScreen.ReportedAsWritten (AudioScreen.RawReplyMiscounted) | AudioScreen.SpeechRecord (AudioScreen.SpeechRecordCounted, used by ProcessAudio) |
| frontend/speech-analysis/src/components/TextInput.jsx:74-81 | the new record omits `provider` | a synthesis with the Google provider: the dashboard badge reads "Open Source" until the list is reloaded | the record carries the reply's provider | not executed | TextScreen.NewResultAsWritten (TextScreen.ReportedBadge) | TextScreen.NewResult (used by ProcessText) |
| frontend/speech-analysis/src/components/Results.jsx:144 | `replace("_", " ")` replaces only the first underscore | an active type with two underscores keeps one in "No … results" | every underscore shown as a space | not executed | ResultsView.EmptyTabMessageAsWritten (ResultsView.EmptyTabMessageUnderscores) | ResultsView.EmptyTabMessage |
