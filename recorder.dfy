/**
 * The `useRecorder` hook: microphone recording through the browser's MediaRecorder, a
 * one-second timer, and the recorded "audio/webm" blob with its object URL. The microphone,
 * the recorder's events and `URL.createObjectURL` are outside the model: their outcomes
 * arrive as parameters of the event methods below.
 */
module Recording {
  import opened Common

  const FallbackError := "Could not access microphone"
  const RecordingType := "audio/webm"

  /** What `getUserMedia` (and the recorder built on its stream) did. */
  datatype MicOutcome = Granted | Refused(message: string)

  predicate IsDigits(s: string) {
    forall i | 0 <= i < |s| :: '0' <= s[i] <= '9'
  }

  /** A number with at least two digits, as `n.toString().padStart(2, "0")` gives it. */
  function TwoDigits(n: nat): string {
    if n < 10 then "0" + NatToString(n) else NatToString(n)
  }

  /** TwoDigits is JavaScript's zero padding to width 2 of the decimal representation. */
  lemma TwoDigitsIsPadding(n: nat)
    ensures TwoDigits(n) == PadStartZeros(NatToString(n), 2)
  {
    if n < 10 {
      assert seq(2 - |NatToString(n)|, _ => '0') == "0";
    }
  }

  lemma TwoDigitsValue(n: nat)
    ensures |TwoDigits(n)| >= 2
    ensures n < 100 <==> |TwoDigits(n)| == 2
    ensures IsDigits(TwoDigits(n))
    ensures DigitsValue(TwoDigits(n)) == n
  {
    var d := NatToString(n);
    if n >= 10 {
      assert d == NatToString(n / 10) + [('0' as int + n % 10) as char];
    } else {
      DigitsValueLeadingZeros("0", d);
    }
    DigitsValueOfNatToString(n);
  }

  /** `formatTime(seconds)`: minutes and seconds, each at least two digits, separated by ':'. */
  function FormatTime(seconds: nat): string {
    TwoDigits(seconds / 60) + ":" + TwoDigits(seconds % 60)
  }

  /** The display is "MM:SS" for times below 100 minutes and grows in the minutes beyond. */
  lemma FormatTimeShape(seconds: nat)
    ensures |FormatTime(seconds)| >= 5 && FormatTime(seconds)[|FormatTime(seconds)| - 3] == ':'
    ensures seconds < 6000 <==> |FormatTime(seconds)| == 5
  {
    TwoDigitsValue(seconds / 60);
    TwoDigitsValue(seconds % 60);
  }

  /** The seconds a display shows, given its minute digits and its second digits. */
  function Reading(minutes: string, secs: string): Option<int> {
    if IsDigits(minutes) && IsDigits(secs) then Some(DigitsValue(minutes) * 60 + DigitsValue(secs)) else None
  }

  /** Reads an "MM:SS" display back as a number of seconds; None for text of another shape. */
  function ParseTime(r: string): Option<int> {
    if |r| >= 5 && r[|r| - 3] == ':' then Reading(r[..|r| - 3], r[|r| - 2..]) else None
  }

  /** Reading a display assembled from minute and second digits. */
  lemma ParseParts(m: string, t: string)
    requires |m| >= 2 && |t| == 2
    ensures ParseTime(m + ":" + t) == Reading(m, t)
  {
    var r := m + ":" + t;
    assert r[..|r| - 3] == m;
    assert r[|r| - 2..] == t;
  }

  lemma ReadingOfDigits(q: nat, k: nat)
    ensures Reading(TwoDigits(q), TwoDigits(k)) == Some(q * 60 + k)
  {
    TwoDigitsValue(q);
    TwoDigitsValue(k);
  }

  /** The display reads back as the time it shows. */
  lemma FormatTimeRoundTrip(seconds: nat)
    ensures ParseTime(FormatTime(seconds)) == Some(seconds)
  {
    var q, k := seconds / 60, seconds % 60;
    TwoDigitsValue(q);
    TwoDigitsValue(k);
    ParseParts(TwoDigits(q), TwoDigits(k));
    ReadingOfDigits(q, k);
  }

  /** Different recording times never show the same display. */
  lemma FormatTimeInjective(a: nat, b: nat)
    requires FormatTime(a) == FormatTime(b)
    ensures a == b
  {
    FormatTimeRoundTrip(a);
    FormatTimeRoundTrip(b);
  }

  class Recorder {
    var isRecording: bool
    var recordingTime: nat
    var audioBlob: Option<Blob>
    var audioURL: string
    /** `null`, or why recording could not start. */
    var error: Value
    /** The chunks delivered since recording started. */
    var chunks: seq<Chunk>
    /** A MediaRecorder has been created (it is kept after it stops). */
    var hasRecorder: bool
    /** The one-second interval is running. */
    var timerRunning: bool
    /** The microphone stream is open. */
    var streamOpen: bool
    /** Object URLs released so far, in order. */
    ghost var revoked: seq<string>

    /** Only non-empty chunks are kept, and a recording is always an "audio/webm" blob of kept chunks. */
    predicate Valid()
      reads this
    {
      && (forall k | 0 <= k < |chunks| :: chunks[k].size > 0)
      && (audioBlob.Some? ==>
            audioBlob.value.mimeType == RecordingType
            && forall k | 0 <= k < |audioBlob.value.parts| :: audioBlob.value.parts[k].size > 0)
    }

    /** The `formattedTime` the hook exposes. */
    function FormattedTime(): string
      reads this
    {
      FormatTime(recordingTime)
    }

    constructor()
      ensures Valid()
      ensures !isRecording && recordingTime == 0 && audioBlob.None? && audioURL == "" && error == Null
      ensures chunks == [] && !hasRecorder && !timerRunning && !streamOpen && revoked == []
    {
      isRecording := false;
      recordingTime := 0;
      audioBlob := None;
      audioURL := "";
      error := Null;
      chunks := [];
      hasRecorder := false;
      timerRunning := false;
      streamOpen := false;
      revoked := [];
    }

    /**
     * `startRecording`: the previous recording is dropped first; with microphone access a new
     * recorder starts at time 0 with its timer, otherwise the error is recorded.
     */
    method StartRecording(mic: MicOutcome)
      requires Valid()
      modifies this
      ensures Valid()
      ensures audioBlob.None? && audioURL == "" && chunks == [] && revoked == old(revoked)
      ensures mic.Granted? ==> (error == Null && isRecording && recordingTime == 0
                                && hasRecorder && timerRunning && streamOpen)
      ensures mic.Refused? ==> (error == Str(if mic.message != "" then mic.message else FallbackError)
                                && isRecording == old(isRecording) && recordingTime == old(recordingTime)
                                && hasRecorder == old(hasRecorder) && timerRunning == old(timerRunning)
                                && streamOpen == old(streamOpen))
    {
      audioBlob := None;
      audioURL := "";
      error := Null;
      chunks := [];
      match mic
      case Refused(m) =>
        error := Str(if m != "" then m else FallbackError);
      case Granted =>
        streamOpen := true;
        hasRecorder := true;
        isRecording := true;
        recordingTime := 0;
        timerRunning := true;
    }

    /** The recorder's `dataavailable` event: empty chunks are dropped. */
    method DataAvailable(chunk: Chunk)
      requires Valid()
      modifies this
      ensures Valid()
      ensures chunks == if chunk.size > 0 then old(chunks) + [chunk] else old(chunks)
      ensures isRecording == old(isRecording) && recordingTime == old(recordingTime)
      ensures audioBlob == old(audioBlob) && audioURL == old(audioURL) && error == old(error)
      ensures hasRecorder == old(hasRecorder) && timerRunning == old(timerRunning)
      ensures streamOpen == old(streamOpen) && revoked == old(revoked)
    {
      if chunk.size > 0 {
        chunks := chunks + [chunk];
      }
    }

    /** The recorder's `stop` event: the chunks become the recording, `url` its object URL. */
    method RecorderStopped(url: string)
      requires Valid()
      modifies this
      ensures Valid()
      ensures audioBlob == Some(Blob(old(chunks), RecordingType)) && audioURL == url && !isRecording
      ensures chunks == old(chunks) && recordingTime == old(recordingTime) && error == old(error)
      ensures hasRecorder == old(hasRecorder) && timerRunning == old(timerRunning)
      ensures streamOpen == old(streamOpen) && revoked == old(revoked)
    {
      audioBlob := Some(Blob(chunks, RecordingType));
      audioURL := url;
      isRecording := false;
    }

    /** One firing of the interval: a second more while the timer runs. */
    method Tick()
      modifies this
      ensures recordingTime == if old(timerRunning) then old(recordingTime) + 1 else old(recordingTime)
      ensures isRecording == old(isRecording) && audioBlob == old(audioBlob) && audioURL == old(audioURL)
      ensures error == old(error) && chunks == old(chunks) && hasRecorder == old(hasRecorder)
      ensures timerRunning == old(timerRunning) && streamOpen == old(streamOpen) && revoked == old(revoked)
    {
      if timerRunning {
        recordingTime := recordingTime + 1;
      }
    }

    /**
     * `stopRecording`: the timer and the stream stop; the recorder is asked to stop (its
     * `stop` event follows) only when it exists and recording was on.
     */
    method StopRecording() returns (recorderStopped: bool)
      requires Valid()
      modifies this
      ensures Valid()
      ensures recorderStopped == (old(hasRecorder) && old(isRecording))
      ensures !timerRunning && !streamOpen && !isRecording
      ensures recordingTime == old(recordingTime) && audioBlob == old(audioBlob) && audioURL == old(audioURL)
      ensures error == old(error) && chunks == old(chunks) && hasRecorder == old(hasRecorder)
      ensures revoked == old(revoked)
    {
      timerRunning := false;
      recorderStopped := hasRecorder && isRecording;
      streamOpen := false;
      isRecording := false;
    }

    /** `resetRecording`: the recording's URL is released and the recording, time and error cleared. */
    method ResetRecording()
      requires Valid()
      modifies this
      ensures Valid()
      ensures revoked == if old(audioURL) != "" then old(revoked) + [old(audioURL)] else old(revoked)
      ensures audioBlob.None? && audioURL == "" && recordingTime == 0 && error == Null && chunks == []
      ensures isRecording == old(isRecording) && hasRecorder == old(hasRecorder)
      ensures timerRunning == old(timerRunning) && streamOpen == old(streamOpen)
    {
      if audioURL != "" {
        revoked := revoked + [audioURL];
      }
      audioBlob := None;
      audioURL := "";
      recordingTime := 0;
      error := Null;
      chunks := [];
    }
  }
}
