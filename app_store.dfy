/**
 * The application shell: the result list every tab shares, loaded from the server on start,
 * cleared through the server, and extended at the front by each new result a tab reports.
 */
module Shell {
  import opened Common
  import Api
  import Backend
  import Session

  /** `data.results || []`, for a reply whose `results` is an array or missing. */
  function ResultsOf(data: Value): seq<Value> {
    var r := Get(data, "results");
    if r.Arr? then r.items else []
  }

  /** What `loadResults` makes of the reply: the new list, or None when it keeps the old one. */
  function Loaded(reply: Api.HttpReply): Option<seq<Value>> {
    match Api.Call(Api.FetchResults, reply)
    case Ok(data) => if data == Null then None else Some(ResultsOf(data))
    case Err(_) => None
  }

  /** The server's answer to GET /api/results loads exactly its stored records, newest first. */
  lemma LoadsServerRecords(rs: seq<Session.Record>)
    ensures Loaded(Api.Reply(true, Api.Parsed(Obj(map["results" := Arr(Backend.Records(rs))])))) == Some(Backend.Records(rs))
  {
  }

  /** A failed load keeps the list that was shown. */
  lemma FailedLoadKeeps(e: string, body: Api.ReplyBody)
    ensures Loaded(Api.NetworkFailure(e)).None?
    ensures Loaded(Api.Reply(false, body)).None?
  {
  }

  class ResultStore {
    var results: seq<Value>
    var loading: bool
    var activeTab: string
    /** Every request sent, in order. */
    ghost var sent: seq<Api.ApiCall>

    constructor()
      ensures results == [] && !loading && activeTab == "dashboard" && sent == []
    {
      results := [];
      loading := false;
      activeTab := "dashboard";
      sent := [];
    }

    /** `loadResults` (run on start and by the Refresh buttons). */
    method LoadResults(reply: Api.HttpReply)
      modifies this
      ensures results == Loaded(reply).GetOr(old(results))
      ensures !loading && activeTab == old(activeTab) && sent == old(sent) + [Api.FetchResults]
    {
      loading := true;
      sent := sent + [Api.FetchResults];
      var r := Api.Call(Api.FetchResults, reply);
      if r.Ok? && r.value != Null {
        results := ResultsOf(r.value);
      }
      loading := false;
    }

    /** `handleClearResults`: the list empties only when the server confirmed. */
    method ClearResults(reply: Api.HttpReply)
      modifies this
      ensures results == if Api.Call(Api.ClearAllResults, reply).Ok? then [] else old(results)
      ensures loading == old(loading) && activeTab == old(activeTab) && sent == old(sent) + [Api.ClearAllResults]
    {
      sent := sent + [Api.ClearAllResults];
      if Api.Call(Api.ClearAllResults, reply).Ok? {
        results := [];
      }
    }

    /** `handleNewResult`: the newest result goes first. */
    method NewResult(r: Value)
      modifies this
      ensures results == [r] + old(results)
      ensures loading == old(loading) && activeTab == old(activeTab) && sent == old(sent)
    {
      results := [r] + results;
    }

    method SelectTab(tab: string)
      modifies this
      ensures activeTab == tab && results == old(results) && loading == old(loading) && sent == old(sent)
    {
      activeTab := tab;
    }
  }
}
