/**
 * The results list: a filter by kind, one expandable entry at a time, summaries cut at 80
 * characters, the empty states, and clearing only after the user confirms.
 */
module ResultsView {
  import opened Common
  import Dashboard

  const All := "all"

  /** The results under the active tab: all of them, or those whose `type` is the tab's kind. */
  function Filtered(results: seq<Value>, activeType: string): (r: seq<Value>)
    ensures activeType == All ==> r == results
    ensures |r| <= |results|
    ensures activeType != All ==> forall k | 0 <= k < |r| :: Dashboard.TypeOf(r[k]) == Str(activeType) && r[k] in results
  {
    if activeType == All then results else Filter(results, (x: Value) => Dashboard.TypeOf(x) == Str(activeType))
  }

  /** A result of the tab's kind is never hidden by the filter. */
  lemma FilteredKeeps(results: seq<Value>, activeType: string, k: int)
    requires 0 <= k < |results|
    requires activeType == All || Dashboard.TypeOf(results[k]) == Str(activeType)
    ensures results[k] in Filtered(results, activeType)
  {
    if activeType != All {
      FilterKeeps(results, (x: Value) => Dashboard.TypeOf(x) == Str(activeType), k);
    }
  }

  /** The expanded entry after a click on the entry `id`: the same entry closes, another opens. */
  function Toggled(expanded: Value, id: Value): (e: Value)
    ensures e == Null <==> expanded == id || id == Null
    ensures e != Null ==> e == id
  {
    if expanded == id then Null else id
  }

  /**
   * Clicking an entry that is not expanded opens it, and clicking it again leaves nothing
   * expanded, whichever entry was open before.
   */
  lemma ToggleTwice(expanded: Value, id: Value)
    requires expanded != id
    ensures Toggled(expanded, id) == id
    ensures Toggled(Toggled(expanded, id), id) == Null
  {
  }

  /** JavaScript's `s.replace("_", " ")`: only the first underscore is replaced. */
  function ReplaceFirstUnderscore(s: string): (r: string)
    ensures |r| == |s|
    ensures '_' !in s ==> r == s
    ensures forall i | 0 <= i < |s| :: r[i] == (if s[i] == '_' && '_' !in s[..i] then ' ' else s[i])
  {
    if '_' in s then
      var i := IndexOf(s, '_');
      var r := s[..i] + " " + s[i + 1..];
      assert forall k | i < k < |s| :: s[i] in s[..k];
      r
    else s
  }

  /** Every underscore replaced by a space. */
  function UnderscoresToSpaces(s: string): (r: string)
    ensures |r| == |s| && '_' !in r
    ensures forall i | 0 <= i < |s| :: r[i] == (if s[i] == '_' then ' ' else s[i])
  {
    seq(|s|, i requires 0 <= i < |s| => if s[i] == '_' then ' ' else s[i])
  }

  /**
   * The line shown when the active tab has no results, as written: the kind with its first
   * underscore turned into a space, between "No " and " results found".
   */
  function EmptyTabMessageAsWritten(activeType: string): (m: string)
    ensures activeType != All ==> |m| == |activeType| + 17 && m[..3] == "No " && m[3 + |activeType|..] == " results found"
    ensures activeType != All ==> forall i | 0 <= i < |activeType| ::
      m[3 + i] == (if activeType[i] == '_' && '_' !in activeType[..i] then ' ' else activeType[i])
  {
    "No " + (if activeType != All then ReplaceFirstUnderscore(activeType) else "") + " results found"
  }

  /** The line shown when the active tab has no results, with the kind spelled out in words. */
  function EmptyTabMessage(activeType: string): (m: string)
    ensures '_' !in m
    ensures activeType != All ==> |m| == |activeType| + 17 && m[..3] == "No " && m[3 + |activeType|..] == " results found"
    ensures activeType != All ==> forall i | 0 <= i < |activeType| ::
      m[3 + i] == (if activeType[i] == '_' then ' ' else activeType[i])
  {
    "No " + (if activeType != All then UnderscoresToSpaces(activeType) else "") + " results found"
  }

  /** A kind with two underscores keeps one of them in the as-written message. */
  lemma {:induction false} FirstReplaceLeavesUnderscore(s: string, i: int, j: int)
    requires 0 <= i < j < |s| && s[i] == '_' && s[j] == '_'
    ensures '_' in ReplaceFirstUnderscore(s)
  {
    assert s[..j][i] == '_';
    assert ReplaceFirstUnderscore(s)[j] == '_';
  }

  /**
   * For a kind with two underscores, such as "speech_to_text", the as-written message still
   * shows an underscore; the message with every underscore replaced shows none.
   */
  lemma EmptyTabMessageUnderscores(s: string, i: int, j: int)
    requires s != All
    requires 0 <= i < j < |s| && s[i] == '_' && s[j] == '_'
    ensures '_' in EmptyTabMessageAsWritten(s)
    ensures '_' !in EmptyTabMessage(s)
  {
    assert s[..j][i] == '_';
    var m := EmptyTabMessageAsWritten(s);
    assert m[3 + j] == '_';
  }

  /** The one-line summary of a list entry: transcription or text, cut at 80 characters. */
  function Summary(r: Value): string {
    if Dashboard.IsSpeechResult(r) && JsTruthy(Get(r, "transcription")) then
      match Dashboard.TextOf(Get(Get(r, "transcription"), "text"))
      case Some(t) => Dashboard.Quoted(t, 80)
      case None => "No transcription available"
    else if Dashboard.IsTextResult(r) && Dashboard.TextOf(Get(r, "text")).Some? then
      Dashboard.Quoted(Dashboard.TextOf(Get(r, "text")).value, 80)
    else "No content available"
  }

  /** Entries of neither kind, and text results without text, show that there is no content. */
  lemma SummaryFallback(r: Value)
    ensures !Dashboard.IsSpeechResult(r) && !Dashboard.IsTextResult(r) ==> Summary(r) == "No content available"
    ensures Dashboard.IsTextResult(r) && Dashboard.TextOf(Get(r, "text")).None? ==> Summary(r) == "No content available"
    ensures Dashboard.IsTextResult(r) && Dashboard.TextOf(Get(r, "text")).Some? ==>
      Summary(r) == "\"" + Preview(Dashboard.TextOf(Get(r, "text")).value, 80) + "\""
  {
  }

  /** The sentiment line of an expanded entry: its label, or "Neutral" when it has none. */
  function SentimentText(sentiment: Value): (t: Value)
    ensures JsTruthy(Get(sentiment, "sentiment")) ==> t == Get(sentiment, "sentiment")
    ensures !JsTruthy(Get(sentiment, "sentiment")) ==> t == Str("Neutral")
  {
    JsOr(Get(sentiment, "sentiment"), Str("Neutral"))
  }

  /** What the list shows. */
  datatype Screen = NoResults | Loading | EmptyTab(message: string) | Entries(shown: seq<Value>)

  function ScreenOf(results: seq<Value>, activeType: string, loading: bool): (s: Screen)
    ensures s == NoResults <==> results == []
    ensures s == Loading <==> results != [] && loading
    ensures s.EmptyTab? <==> results != [] && !loading && Filtered(results, activeType) == []
    ensures s.EmptyTab? ==> s.message == EmptyTabMessage(activeType) && '_' !in s.message
    ensures s.Entries? ==> s.shown == Filtered(results, activeType) && s.shown != []
  {
    if results == [] then NoResults
    else if loading then Loading
    else if Filtered(results, activeType) == [] then EmptyTab(EmptyTabMessage(activeType))
    else Entries(Filtered(results, activeType))
  }

  class ResultsList {
    var activeType: string
    /** The `id` of the expanded entry, or `null`. */
    var expandedResult: Value

    constructor()
      ensures activeType == All && expandedResult == Null
    {
      activeType := All;
      expandedResult := Null;
    }

    method SelectType(t: string)
      modifies this
      ensures activeType == t && expandedResult == old(expandedResult)
    {
      activeType := t;
    }

    /** `toggleExpand(id)`. */
    method ToggleExpand(id: Value)
      modifies this
      ensures expandedResult == Toggled(old(expandedResult), id) && activeType == old(activeType)
    {
      expandedResult := if expandedResult == id then Null else id;
    }

    /** The "Clear All" button: the parent's clear runs only when the user confirms. */
    method ClearClicked(confirmed: bool) returns (clear: bool)
      ensures clear == confirmed
    {
      clear := confirmed;
    }
  }
}
