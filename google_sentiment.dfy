/**
 * The Google sentiment service: a guard on short text, one call to the Natural Language API
 * (here an outcome given as a parameter), and the mapping of its scores to labels.
 */
module GoogleSentiment {
  import opened Common

  /** One sentence of the API's response with its own score and magnitude. */
  datatype SentenceScore = SentenceScore(text: string, score: real, magnitude: real)

  /** What `client.analyze_sentiment` did: raised an exception, or answered. */
  datatype LanguageOutcome =
    | ApiRaised(error: string)
    | ApiResponse(score: real, magnitude: real, sentences: seq<SentenceScore>)

  const TooShortMessage := "Text too short for sentiment analysis"

  /** `_interpret_sentiment`: the label of a score. */
  function Interpret(score: real): (tag: string)
    ensures tag == "positive" <==> score >= 0.25
    ensures tag == "negative" <==> score <= -0.25
    ensures tag == "neutral" <==> -0.25 < score < 0.25
  {
    if score >= 0.25 then "positive"
    else if score <= -0.25 then "negative"
    else "neutral"
  }

  /** Positive > neutral > negative. */
  function Rank(tag: string): int {
    if tag == "positive" then 1 else if tag == "negative" then -1 else 0
  }

  /** A higher score never gets a lower label. */
  lemma InterpretMonotone(s1: real, s2: real)
    requires s1 <= s2
    ensures Rank(Interpret(s1)) <= Rank(Interpret(s2))
  {
  }

  function SentenceEntry(s: SentenceScore): Value {
    Obj(map["text" := Str(s.text), "score" := Num(s.score), "magnitude" := Num(s.magnitude),
            "sentiment" := Str(Interpret(s.score))])
  }

  function Failure(error: string): Value {
    Obj(map["success" := Bool(false), "error" := Str(error), "score" := Null, "magnitude" := Null])
  }

  /** `analyze_sentiment(text)` once the API has produced `outcome`. */
  function Analyze(text: string, outcome: LanguageOutcome): (r: Value)
    ensures Get(r, "success") == Bool(|text| >= 3 && outcome.ApiResponse?)
    ensures |text| < 3 ==> r == Failure(TooShortMessage)
    ensures |text| >= 3 && outcome.ApiRaised? ==> r == Failure(outcome.error)
    ensures Get(r, "success") == Bool(false) ==> Get(r, "score") == Null && Get(r, "magnitude") == Null
  {
    if |text| < 3 then Failure(TooShortMessage)
    else match outcome
      case ApiRaised(e) => Failure(e)
      case ApiResponse(score, magnitude, sentences) =>
        Obj(map["success" := Bool(true), "score" := Num(score), "magnitude" := Num(magnitude),
                "sentiment" := Str(Interpret(score)), "confidence" := Num(ScoreConfidence(score)),
                "sentences" := Arr(seq(|sentences|, i requires 0 <= i < |sentences| => SentenceEntry(sentences[i])))])
  }

  /**
   * A successful analysis labels the document by its own score, has a confidence in [0, 1],
   * and lists the response's sentences in order, each labelled by the same thresholds.
   */
  lemma AnalyzeSuccess(text: string, outcome: LanguageOutcome)
    requires |text| >= 3 && outcome.ApiResponse?
    ensures var r := Analyze(text, outcome);
      && Get(r, "score") == Num(outcome.score)
      && Get(r, "sentiment") == Str(Interpret(outcome.score))
      && Get(r, "confidence").Num? && 0.0 <= Get(r, "confidence").n <= 1.0
      && Get(r, "sentences").Arr?
      && |Get(r, "sentences").items| == |outcome.sentences|
      && forall i | 0 <= i < |outcome.sentences| ::
           Get(Get(r, "sentences").items[i], "text") == Str(outcome.sentences[i].text) &&
           Get(Get(r, "sentences").items[i], "sentiment") == Str(Interpret(outcome.sentences[i].score))
  {
  }

  /** Text shorter than three characters is answered without looking at the API at all. */
  lemma ShortTextIgnoresApi(text: string, o1: LanguageOutcome, o2: LanguageOutcome)
    requires |text| < 3
    ensures Analyze(text, o1) == Analyze(text, o2)
  {
  }
}
