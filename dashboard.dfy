/**
 * The dashboard: the server's health indicator, the counts over the result list (by kind and by
 * sentiment label), and the five most recent results with their one-line summaries.
 */
module Dashboard {
  import opened Common
  import Api

  datatype ApiStatus = Checking | Online | Offline

  /** The health indicator once the check has settled: online exactly when the call resolved. */
  function StatusAfter(reply: Api.HttpReply): (s: ApiStatus)
    ensures s == Online <==> Api.Call(Api.CheckApiHealth, reply).Ok?
    ensures s != Checking
  {
    if Api.Call(Api.CheckApiHealth, reply).Ok? then Online else Offline
  }

  /** A network failure, an error status or an unreadable body all show the server as offline. */
  lemma OfflineCases(ok: bool, body: Api.ReplyBody, e: string)
    ensures StatusAfter(Api.NetworkFailure(e)) == Offline
    ensures !ok ==> StatusAfter(Api.Reply(ok, body)) == Offline
    ensures body.Unparsable? ==> StatusAfter(Api.Reply(ok, body)) == Offline
    ensures ok && body.Parsed? ==> StatusAfter(Api.Reply(ok, body)) == Online
  {
  }

  /** The health indicator of the dashboard. */
  class HealthIndicator {
    var apiStatus: ApiStatus

    constructor()
      ensures apiStatus == Checking
    {
      apiStatus := Checking;
    }

    /** `checkApiHealthStatus` up to its request. */
    method BeginCheck() returns (req: Api.HttpRequest)
      modifies this
      ensures apiStatus == Checking && req == Api.BuildRequest(Api.CheckApiHealth)
    {
      apiStatus := Checking;
      req := Api.BuildRequest(Api.CheckApiHealth);
    }

    /** The rest of `checkApiHealthStatus`, once the reply is known. */
    method FinishCheck(reply: Api.HttpReply)
      modifies this
      ensures apiStatus == StatusAfter(reply)
    {
      var r := Api.Call(Api.CheckApiHealth, reply);
      if r.Ok? {
        apiStatus := Online;
      } else {
        apiStatus := Offline;
      }
    }
  }

  function TypeOf(r: Value): Value {
    Get(r, "type")
  }

  predicate IsSpeechResult(r: Value) {
    TypeOf(r) == Str("speech_to_text")
  }

  predicate IsTextResult(r: Value) {
    TypeOf(r) == Str("text_to_speech")
  }

  /** The counters on the cards: all results, speech-to-text results and text-to-speech results. */
  datatype Counts = Counts(total: nat, speechToText: nat, textToSpeech: nat)

  function KindCounts(results: seq<Value>): Counts {
    Counts(|results|, |Filter(results, IsSpeechResult)|, |Filter(results, IsTextResult)|)
  }

  /**
   * The two kind counters never exceed the total, and they add up to it exactly when every
   * result is of one of the two kinds.
   */
  lemma {:induction false} KindCountsBounded(results: seq<Value>)
    ensures KindCounts(results).speechToText + KindCounts(results).textToSpeech <= KindCounts(results).total
    ensures KindCounts(results).speechToText + KindCounts(results).textToSpeech == KindCounts(results).total
            <==> forall k | 0 <= k < |results| :: IsSpeechResult(results[k]) || IsTextResult(results[k])
    decreases |results|
  {
    if results != [] {
      var rest := results[1..];
      KindCountsBounded(rest);
      assert Filter(results, IsSpeechResult) == (if IsSpeechResult(results[0]) then [results[0]] else []) + Filter(rest, IsSpeechResult);
      assert Filter(results, IsTextResult) == (if IsTextResult(results[0]) then [results[0]] else []) + Filter(rest, IsTextResult);
      assert forall k | 1 <= k < |results| :: results[k] == rest[k - 1];
      if forall k | 0 <= k < |rest| :: IsSpeechResult(rest[k]) || IsTextResult(rest[k]) {
        assert forall k | 1 <= k < |results| :: IsSpeechResult(results[k]) || IsTextResult(results[k]);
      }
    }
  }

  /** The lower-cased sentiment label of a result, when `result.sentiment.sentiment` is a non-empty string. */
  function LabelOf(r: Value): (l: Option<string>)
    ensures l.Some? <==> JsTruthy(Get(r, "sentiment")) && Get(Get(r, "sentiment"), "sentiment").Str?
                         && Get(Get(r, "sentiment"), "sentiment").s != ""
    ensures l.Some? ==> |l.value| == |Get(Get(r, "sentiment"), "sentiment").s|
                        && forall i | 0 <= i < |l.value| :: !('A' <= l.value[i] <= 'Z')
  {
    var s := Get(r, "sentiment");
    var l := Get(s, "sentiment");
    if JsTruthy(s) && l.Str? && l.s != "" then Some(Lower(l.s)) else None
  }

  predicate IsPositive(r: Value) { LabelOf(r) == Some("positive") }
  predicate IsNegative(r: Value) { LabelOf(r) == Some("negative") }
  predicate IsNeutral(r: Value) { LabelOf(r).Some? && !IsPositive(r) && !IsNegative(r) }
  predicate IsLabelled(r: Value) { LabelOf(r).Some? }

  datatype SentimentCounts = SentimentCounts(positive: nat, neutral: nat, negative: nat)

  /** One result's contribution: every labelled result counts once, any other label as neutral. */
  function Count(c: SentimentCounts, r: Value): SentimentCounts {
    if IsPositive(r) then c.(positive := c.positive + 1)
    else if IsNegative(r) then c.(negative := c.negative + 1)
    else if IsLabelled(r) then c.(neutral := c.neutral + 1)
    else c
  }

  /** The sentiment counters after visiting `results` in order. */
  function Tally(results: seq<Value>): SentimentCounts
    decreases |results|
  {
    if results == [] then SentimentCounts(0, 0, 0)
    else Count(Tally(results[..|results| - 1]), results[|results| - 1])
  }

  /**
   * Each counter is the number of results with that label, so together they count exactly the
   * labelled results and never more than all of them.
   */
  lemma {:induction false} TallyCounts(results: seq<Value>)
    ensures Tally(results).positive == |Filter(results, IsPositive)|
    ensures Tally(results).negative == |Filter(results, IsNegative)|
    ensures Tally(results).neutral == |Filter(results, IsNeutral)|
    ensures Tally(results).positive + Tally(results).neutral + Tally(results).negative
            == |Filter(results, IsLabelled)| <= |results|
    decreases |results|
  {
    if results != [] {
      var init := results[..|results| - 1];
      var last := results[|results| - 1];
      TallyCounts(init);
      assert results == init + [last];
      FilterAppend(init, [last], IsPositive);
      FilterAppend(init, [last], IsNegative);
      FilterAppend(init, [last], IsNeutral);
      FilterAppend(init, [last], IsLabelled);
    }
  }

  /** The `forEach` loop over the results that fills the sentiment counters. */
  method CountSentiments(results: seq<Value>) returns (counts: SentimentCounts)
    ensures counts == Tally(results)
  {
    counts := SentimentCounts(0, 0, 0);
    var i := 0;
    while i < |results|
      invariant 0 <= i <= |results|
      invariant counts == Tally(results[..i])
    {
      assert results[..i + 1][..i] == results[..i];
      counts := Count(counts, results[i]);
      i := i + 1;
    }
    assert results[..|results|] == results;
  }

  /** The five most recent results, the list being newest first. */
  function Recent(results: seq<Value>): (r: seq<Value>)
    ensures |r| == MinInt(5, |results|) && r == results[..|r|]
  {
    if |results| <= 5 then results else results[..5]
  }

  /** The text shown for a string that is present and non-empty. */
  function TextOf(v: Value): Option<string> {
    if v.Str? && v.s != "" then Some(v.s) else None
  }

  /** A summary line: the text's first 50 characters in quotes, with "..." when it was longer. */
  function Quoted(s: string, n: nat): string {
    "\"" + Preview(s, n) + "\""
  }

  /** The heading of a recent result. */
  function Title(r: Value): (t: string)
    ensures t == "Speech to Text" <==> IsSpeechResult(r)
    ensures t == "Text to Speech" <==> !IsSpeechResult(r)
  {
    if IsSpeechResult(r) then "Speech to Text" else "Text to Speech"
  }

  /** The provider badge: "Google" only for results whose provider is exactly "google". */
  function Badge(r: Value): (b: string)
    ensures b == "Google" <==> Get(r, "provider") == Str("google")
    ensures b == "Open Source" <==> Get(r, "provider") != Str("google")
  {
    if Get(r, "provider") == Str("google") then "Google" else "Open Source"
  }

  /**
   * The summary line of a recent result: the transcription of a speech result, the text of
   * anything else, or a placeholder when there is none.
   */
  function Summary(r: Value): string {
    if IsSpeechResult(r) then
      match TextOf(Get(Get(r, "transcription"), "text"))
      case Some(t) => Quoted(t, 50)
      case None => "No transcription available"
    else
      match TextOf(Get(r, "text"))
      case Some(t) => Quoted(t, 50)
      case None => "No text available"
  }

  /**
   * A summary shows a speech result's transcription, and any other result's own text, cut at
   * 50 characters and quoted; without one it reads "No transcription available" for a speech
   * result and "No text available" for any other.
   */
  lemma SummarySpec(r: Value)
    ensures IsSpeechResult(r) && TextOf(Get(Get(r, "transcription"), "text")).Some? ==>
      Summary(r) == "\"" + Preview(TextOf(Get(Get(r, "transcription"), "text")).value, 50) + "\""
    ensures IsSpeechResult(r) && TextOf(Get(Get(r, "transcription"), "text")).None? ==>
      Summary(r) == "No transcription available"
    ensures !IsSpeechResult(r) && TextOf(Get(r, "text")).Some? ==>
      Summary(r) == "\"" + Preview(TextOf(Get(r, "text")).value, 50) + "\""
    ensures !IsSpeechResult(r) && TextOf(Get(r, "text")).None? ==> Summary(r) == "No text available"
    ensures |Summary(r)| >= 2
  {
  }

  /** `formatDate`: a missing timestamp reads "Unknown"; any other is shown in the browser's locale. */
  datatype DateText = UnknownDate | Localized(timestamp: Value)

  function FormatDate(timestamp: Value): (d: DateText)
    ensures d == UnknownDate <==> !JsTruthy(timestamp)
  {
    if !JsTruthy(timestamp) then UnknownDate else Localized(timestamp)
  }
}
