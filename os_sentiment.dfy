/**
 * The open-source sentiment service: spaCy with TextBlob gives a polarity and a subjectivity
 * for the whole text and for each sentence (here an outcome given as a parameter); the service
 * turns them into labels, a confidence and a sentence list built one sentence at a time.
 */
module OpenSourceSentiment {
  import opened Common

  /** TextBlob's reading of one sentence, re-parsed on its own. */
  datatype SentenceBlob = SentenceBlob(text: string, polarity: real, subjectivity: real)

  /** What the pipeline did: raised an exception somewhere, or produced the document and its sentences. */
  datatype NlpOutcome =
    | NlpRaised(error: string)
    | NlpDoc(polarity: real, subjectivity: real, sentences: seq<SentenceBlob>)

  const TooShortMessage := "Text too short for sentiment analysis"

  /** The label of a polarity under a symmetric threshold. */
  function Label(polarity: real, threshold: real): (tag: string)
    requires threshold > 0.0
    ensures tag == "positive" <==> polarity >= threshold
    ensures tag == "negative" <==> polarity <= -threshold
    ensures tag == "neutral" <==> -threshold < polarity < threshold
  {
    if polarity >= threshold then "positive"
    else if polarity <= -threshold then "negative"
    else "neutral"
  }

  /** The whole text is labelled with the thresholds +-0.1. */
  function OverallLabel(polarity: real): string { Label(polarity, 0.1) }

  /** Each sentence is labelled with the stricter thresholds +-0.25. */
  function SentenceLabel(polarity: real): string { Label(polarity, 0.25) }

  /**
   * The two thresholds disagree exactly on polarities of size in [0.1, 0.25): there the text
   * counts as positive or negative while a sentence with the same polarity counts as neutral.
   */
  lemma LabelsDisagree(p: real)
    ensures OverallLabel(p) != SentenceLabel(p) <==> 0.1 <= AbsReal(p) < 0.25
    ensures OverallLabel(p) != SentenceLabel(p) ==> SentenceLabel(p) == "neutral"
  {
  }

  function SentenceEntry(s: SentenceBlob): Value {
    Obj(map["text" := Str(s.text), "score" := Num(s.polarity), "magnitude" := Num(s.subjectivity),
            "sentiment" := Str(SentenceLabel(s.polarity))])
  }

  function Failure(error: string): Value {
    Obj(map["success" := Bool(false), "error" := Str(error)])
  }

  /** One entry per sentence, in order. */
  function Entries(sents: seq<SentenceBlob>): (es: seq<Value>)
    ensures |es| == |sents|
    ensures forall i | 0 <= i < |sents| :: es[i] == SentenceEntry(sents[i])
  {
    seq(|sents|, i requires 0 <= i < |sents| => SentenceEntry(sents[i]))
  }

  /**
   * The result of `analyze_sentiment(text)` once the pipeline has produced `outcome`: a failure
   * for text under three characters or an exception; otherwise the labels, the confidence, the
   * subjectivity reported as the magnitude, and one entry per sentence in order.
   */
  function Analysis(text: string, outcome: NlpOutcome): (r: Value)
    ensures |text| < 3 ==> r == Failure(TooShortMessage)
    ensures |text| >= 3 && outcome.NlpRaised? ==> r == Failure(outcome.error)
    ensures Get(r, "success") == Bool(|text| >= 3 && outcome.NlpDoc?)
    ensures |text| >= 3 && outcome.NlpDoc? ==>
      && Get(r, "score") == Num(outcome.polarity)
      && Get(r, "magnitude") == Num(outcome.subjectivity)
      && Get(r, "sentiment") == Str(OverallLabel(outcome.polarity))
      && Get(r, "confidence") == Num(ScoreConfidence(outcome.polarity))
      && Get(r, "sentences") == Arr(Entries(outcome.sentences))
  {
    if |text| < 3 then Failure(TooShortMessage)
    else match outcome
      case NlpRaised(e) => Failure(e)
      case NlpDoc(polarity, subjectivity, sents) =>
        Obj(map["success" := Bool(true), "score" := Num(polarity), "magnitude" := Num(subjectivity),
                "sentiment" := Str(OverallLabel(polarity)), "confidence" := Num(ScoreConfidence(polarity)),
                "sentences" := Arr(Entries(sents))])
  }

  /** Text shorter than three characters is answered without running the pipeline. */
  lemma ShortTextIgnoresPipeline(text: string, o1: NlpOutcome, o2: NlpOutcome)
    requires |text| < 3
    ensures Analysis(text, o1) == Analysis(text, o2)
  {
  }

  /** The `for sent in doc.sents` loop: one entry appended per sentence. */
  method CollectSentences(sents: seq<SentenceBlob>) returns (entries: seq<Value>)
    ensures entries == Entries(sents)
  {
    entries := [];
    var k := 0;
    while k < |sents|
      invariant 0 <= k <= |sents|
      invariant entries == Entries(sents[..k])
    {
      assert sents[..k + 1] == sents[..k] + [sents[k]];
      entries := entries + [SentenceEntry(sents[k])];
      k := k + 1;
    }
    assert sents[..k] == sents;
  }

  /** `analyze_sentiment(text)`: the guard, the pipeline's figures, and the sentence loop. */
  method Analyze(text: string, outcome: NlpOutcome) returns (r: Value)
    ensures r == Analysis(text, outcome)
  {
    if |text| < 3 {
      return Failure(TooShortMessage);
    }
    match outcome {
      case NlpRaised(e) =>
        r := Failure(e);
      case NlpDoc(polarity, subjectivity, sents) =>
        var sentences := CollectSentences(sents);
        r := Obj(map["success" := Bool(true), "score" := Num(polarity), "magnitude" := Num(subjectivity),
                     "sentiment" := Str(OverallLabel(polarity)), "confidence" := Num(ScoreConfidence(polarity)),
                     "sentences" := Arr(sentences)]);
    }
  }
}
