/**
 * The backend's per-session result history: a bounded list of result records, newest first,
 * kept under the session key 'results'.
 */
module Session {
  import opened Common

  /** A stored result: a Python dict. */
  type Record = map<string, Value>

  const DefaultMaxResults: int := 30

  /** `record.get('id')`: Python's None when the key is absent. */
  function IdOf(r: Record): Value {
    if "id" in r then r["id"] else Null
  }

  /** `record.get('type')`. */
  function TypeOf(r: Record): Value {
    if "type" in r then r["type"] else Null
  }

  /** The record as stored: a timestamp is added only when the record has none. */
  function Stamped(data: Record, now: real): (r: Record)
    ensures r.Keys == data.Keys + {"timestamp"}
    ensures forall k | k in data :: r[k] == data[k]
    ensures "timestamp" !in data ==> r["timestamp"] == Num(now)
  {
    if "timestamp" in data then data else data["timestamp" := Num(now)]
  }

  /** The list after inserting `r` at the front and cutting it back to `max` entries (`list[:max]`). */
  function Added(rs: seq<Record>, r: Record, max: int): seq<Record> {
    var grown := [r] + rs;
    if |grown| > max then PyPrefix(grown, max) else grown
  }

  /**
   * Adding puts the new record first, keeps the previous ones in their order after it, and
   * holds min(n + 1, max) entries: what is dropped is the oldest.
   */
  lemma AddedShape(rs: seq<Record>, r: Record, max: int)
    requires max >= 1
    ensures |Added(rs, r, max)| == MinInt(|rs| + 1, max)
    ensures Added(rs, r, max)[0] == r
    ensures Added(rs, r, max)[1..] == rs[..|Added(rs, r, max)| - 1]
  {
    var grown := [r] + rs;
    assert grown[1..] == rs;
    if |grown| > max {
      assert Added(rs, r, max) == grown[..max];
      assert grown[..max][1..] == rs[..max - 1];
    }
  }

  /** With the default bound, the list never holds more than 30 entries. */
  lemma {:induction false} AddedBounded(rs: seq<Record>, r: Record)
    requires |rs| <= DefaultMaxResults
    ensures 1 <= |Added(rs, r, DefaultMaxResults)| <= DefaultMaxResults
  {
    AddedShape(rs, r, DefaultMaxResults);
  }

  /** Index of the first record (in list order) whose id equals `id`. */
  function FindIndex(rs: seq<Record>, id: Value): (k: Option<nat>)
    ensures k.Some? ==> k.value < |rs| && IdOf(rs[k.value]) == id
    ensures k.Some? ==> forall j | 0 <= j < k.value :: IdOf(rs[j]) != id
    ensures k.None? ==> forall j | 0 <= j < |rs| :: IdOf(rs[j]) != id
  {
    if rs == [] then None
    else if IdOf(rs[0]) == id then Some(0)
    else match FindIndex(rs[1..], id)
      case None => None
      case Some(k) => Some(k + 1)
  }

  /** `get_result`: the first record with that id, or None. */
  function Lookup(rs: seq<Record>, id: Value): Option<Record> {
    match FindIndex(rs, id)
    case None => None
    case Some(k) => Some(rs[k])
  }

  /** Some record is found exactly when some record has that id, and it is the first such one. */
  lemma LookupSpec(rs: seq<Record>, id: Value)
    ensures Lookup(rs, id).Some? <==> exists i | 0 <= i < |rs| :: IdOf(rs[i]) == id
    ensures Lookup(rs, id).Some? ==>
      exists i | 0 <= i < |rs| :: rs[i] == Lookup(rs, id).value && IdOf(rs[i]) == id &&
        forall j | 0 <= j < i :: IdOf(rs[j]) != id
  {
  }

  /** `update_result`: the first record with that id gets `data` merged in (`dict.update`). */
  function Updated(rs: seq<Record>, id: Value, data: Record): seq<Record> {
    match FindIndex(rs, id)
    case None => rs
    case Some(k) => rs[k := rs[k] + data]
  }

  /** Only the first matching record changes, by a merge in which `data` wins; all others stay as they were. */
  lemma UpdatedSpec(rs: seq<Record>, id: Value, data: Record)
    ensures |Updated(rs, id, data)| == |rs|
    ensures Lookup(rs, id).None? ==> Updated(rs, id, data) == rs
    ensures Lookup(rs, id).Some? ==>
      exists k | 0 <= k < |rs| :: IdOf(rs[k]) == id &&
        (forall j | 0 <= j < k :: IdOf(rs[j]) != id) &&
        Updated(rs, id, data)[k] == rs[k] + data &&
        forall j | 0 <= j < |rs| && j != k :: Updated(rs, id, data)[j] == rs[j]
    ensures forall j | 0 <= j < |rs| && IdOf(rs[j]) != id :: Updated(rs, id, data)[j] == rs[j]
  {
  }

  /** Merging keeps every old key and lets the new data override. */
  lemma MergeSpec(old_: Record, data: Record)
    ensures (old_ + data).Keys == old_.Keys + data.Keys
    ensures forall k | k in data :: (old_ + data)[k] == data[k]
    ensures forall k | k in old_ && k !in data :: (old_ + data)[k] == old_[k]
  {
  }

  function HasId(id: Value): Record -> bool {
    r => IdOf(r) == id
  }

  function HasOtherId(id: Value): Record -> bool {
    r => IdOf(r) != id
  }

  function HasType(t: Value): Record -> bool {
    r => TypeOf(r) == t
  }

  /** `remove_result` reports a removal exactly when some record had that id. */
  lemma {:induction false} RemovedIff(rs: seq<Record>, id: Value)
    ensures |Filter(rs, HasOtherId(id))| < |rs| <==> exists i | 0 <= i < |rs| :: IdOf(rs[i]) == id
    ensures (forall i | 0 <= i < |rs| :: IdOf(rs[i]) != id) ==> Filter(rs, HasOtherId(id)) == rs
    ensures forall x | x in Filter(rs, HasOtherId(id)) :: x in rs && IdOf(x) != id
  {
    FilterShrinksIff(rs, HasOtherId(id));
  }

  /** Every record of the requested type is returned, and nothing else. */
  lemma {:induction false} FilterByTypeExact(rs: seq<Record>, t: Value)
    ensures forall x | x in Filter(rs, HasType(t)) :: TypeOf(x) == t
    ensures forall x | x in rs && TypeOf(x) == t :: x in Filter(rs, HasType(t))
  {
    forall x | x in rs && TypeOf(x) == t ensures x in Filter(rs, HasType(t)) {
      var i :| 0 <= i < |rs| && rs[i] == x;
      FilterKeeps(rs, HasType(t), i);
    }
  }

  /**
   * The manager together with the session it works on. `stored` is `session.get('results')`:
   * None until some operation first creates the list. `modified` is the session's
   * `modified` flag: Flask sets it on every assignment `session[key] = ...`, and the manager
   * also sets it explicitly. Changing the stored list in place (`insert`, an item assignment)
   * does not set it.
   */
  class SessionManager {
    const maxResults: int
    var stored: Option<seq<Record>>
    var modified: bool

    /** The results list as every operation sees it once it has made sure the list exists. */
    function Results(): seq<Record>
      reads this
    {
      stored.GetOr([])
    }

    constructor (maxResults: int)
      ensures this.maxResults == maxResults
      ensures stored == None && !modified
    {
      this.maxResults := maxResults;
      stored := None;
      modified := false;
    }

    /** `SessionManager()` with the default bound of 30. */
    constructor Default()
      ensures maxResults == DefaultMaxResults
      ensures stored == None && !modified
    {
      maxResults := DefaultMaxResults;
      stored := None;
      modified := false;
    }

    /**
     * `_ensure_session_results`: creates an empty list when the session has none, which marks
     * the session modified; otherwise changes nothing.
     */
    method EnsureSessionResults()
      modifies this
      ensures stored == Some(old(Results()))
      ensures modified == (old(modified) || old(stored).None?)
    {
      if stored.None? {
        stored := Some([]);
        modified := true;
      }
    }

    /** `add_result`; `now` stands for `time.time()`. */
    method AddResult(data: Record, now: real) returns (r: Record)
      modifies this
      ensures r == Stamped(data, now)
      ensures stored == Some(Added(old(Results()), r, maxResults))
      ensures modified
    {
      EnsureSessionResults();
      r := data;
      if "timestamp" !in r {
        r := r["timestamp" := Num(now)];
      }
      var list := [r] + stored.value;
      stored := Some(list);
      if |list| > maxResults {
        stored := Some(PyPrefix(list, maxResults));
      }
      modified := true;
    }

    /** `get_result`: scans the list in order and returns the first record with that id. */
    method GetResult(id: Value) returns (r: Option<Record>)
      modifies this
      ensures stored == Some(old(Results())) && modified == (old(modified) || old(stored).None?)
      ensures r == Lookup(Results(), id)
    {
      EnsureSessionResults();
      var rs := stored.value;
      var i := 0;
      while i < |rs|
        invariant 0 <= i <= |rs|
        invariant forall j | 0 <= j < i :: IdOf(rs[j]) != id
      {
        if IdOf(rs[i]) == id {
          FirstMatchIsFound(rs, id, i);
          return Some(rs[i]);
        }
        i := i + 1;
      }
      r := None;
    }

    /** `get_all_results`. */
    method GetAllResults() returns (rs: seq<Record>)
      modifies this
      ensures stored == Some(old(Results())) && modified == (old(modified) || old(stored).None?)
      ensures rs == Results()
    {
      EnsureSessionResults();
      rs := stored.value;
    }

    /** `clear_results`. */
    method ClearResults()
      modifies this
      ensures stored == Some([]) && modified
    {
      EnsureSessionResults();
      stored := Some([]);
      modified := true;
    }

    /** `remove_result`: drops every record with that id and reports whether the list got shorter. */
    method RemoveResult(id: Value) returns (removed: bool)
      modifies this
      ensures stored == Some(Filter(old(Results()), HasOtherId(id)))
      ensures removed <==> |Results()| < |old(Results())|
      ensures modified
    {
      EnsureSessionResults();
      var initialCount := |stored.value|;
      stored := Some(Filter(stored.value, HasOtherId(id)));
      modified := true;
      removed := |stored.value| < initialCount;
    }

    /** `update_result`: merges `data` into the first record with that id and returns it. */
    method UpdateResult(id: Value, data: Record) returns (r: Option<Record>)
      modifies this
      ensures stored == Some(Updated(old(Results()), id, data))
      ensures r.Some? <==> Lookup(old(Results()), id).Some?
      ensures r.Some? ==> r.value == Lookup(old(Results()), id).value + data
      ensures modified == (old(modified) || old(stored).None? || r.Some?)
    {
      EnsureSessionResults();
      var rs := stored.value;
      var i := 0;
      while i < |rs|
        invariant 0 <= i <= |rs|
        invariant stored == Some(rs)
        invariant forall j | 0 <= j < i :: IdOf(rs[j]) != id
      {
        if IdOf(rs[i]) == id {
          FirstMatchIsFound(rs, id, i);
          var result := rs[i] + data;
          stored := Some(rs[i := result]);
          modified := true;
          return Some(result);
        }
        i := i + 1;
      }
      r := None;
    }

    /** `filter_results_by_type`. */
    method FilterResultsByType(t: Value) returns (rs: seq<Record>)
      modifies this
      ensures stored == Some(old(Results())) && modified == (old(modified) || old(stored).None?)
      ensures rs == Filter(Results(), HasType(t))
    {
      EnsureSessionResults();
      rs := Filter(stored.value, HasType(t));
    }

    /** `get_recent_results` (`count` defaults to 5 in the source). */
    method GetRecentResults(count: int) returns (rs: seq<Record>)
      modifies this
      ensures stored == Some(old(Results())) && modified == (old(modified) || old(stored).None?)
      ensures rs == PyPrefix(Results(), count)
    {
      EnsureSessionResults();
      rs := PyPrefix(stored.value, count);
    }

    /** `has_results`. */
    method HasResults() returns (b: bool)
      modifies this
      ensures stored == Some(old(Results())) && modified == (old(modified) || old(stored).None?)
      ensures b <==> Results() != []
    {
      EnsureSessionResults();
      b := |stored.value| > 0;
    }
  }

  /** A match at `i` with none before it is what FindIndex reports. */
  lemma {:induction false} FirstMatchIsFound(rs: seq<Record>, id: Value, i: nat)
    requires i < |rs| && IdOf(rs[i]) == id
    requires forall j | 0 <= j < i :: IdOf(rs[j]) != id
    ensures FindIndex(rs, id) == Some(i)
    decreases i
  {
    if i > 0 {
      FirstMatchIsFound(rs[1..], id, i - 1);
    }
  }
}
