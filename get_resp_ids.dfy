/**
 * The response-id lookup of _hp/server/get_resp_ids.py: the ids of all stored
 * responses with a given label and response type, memoised without bound per
 * (label, resp_type) for the lifetime of the server process. The database is
 * an explicit store value passed to each call; a store whose query raises
 * yields the empty list, and that list is memoised like any other.
 */
module RespIds {
  import opened Common

  /** One row of the responses table, as far as the lookup reads it (`lbl` is its label column). */
  datatype StoredResponse = StoredResponse(id: int, lbl: string, respType: string)

  /** The state of the database at the time of a call: queryable, or raising on every query. */
  datatype Store = Available(responses: seq<StoredResponse>) | Failing

  /** The ids of the responses that match on both label and resp_type, in query order. */
  function MatchingIds(responses: seq<StoredResponse>, lbl: string, respType: string): (ids: seq<int>)
    ensures |ids| <= |responses|
    decreases |responses|
  {
    if |responses| == 0 then []
    else
      var last := responses[|responses| - 1];
      MatchingIds(responses[..|responses| - 1], lbl, respType)
        + (if last.lbl == lbl && last.respType == respType then [last.id] else [])
  }

  /** The uncached body of `get_resp_ids`: the matching ids, or `[]` when the query raises. */
  function QueryIds(store: Store, lbl: string, respType: string): (ids: seq<int>)
    ensures store.Failing? ==> ids == []
  {
    match store
    case Failing => []
    case Available(responses) => MatchingIds(responses, lbl, respType)
  }

  /** An id is returned exactly when some response with that id matches on label and resp_type. */
  lemma {:induction false} MatchingIdsMembers(responses: seq<StoredResponse>, lbl: string, respType: string, id: int)
    ensures id in MatchingIds(responses, lbl, respType) <==>
      exists k :: 0 <= k < |responses| && responses[k] == StoredResponse(id, lbl, respType)
    decreases |responses|
  {
    if |responses| > 0 {
      var init := responses[..|responses| - 1];
      MatchingIdsMembers(init, lbl, respType, id);
      if exists k :: 0 <= k < |init| && init[k] == StoredResponse(id, lbl, respType) {
        var k :| 0 <= k < |init| && init[k] == StoredResponse(id, lbl, respType);
        assert responses[k] == init[k];
      }
      if exists k :: 0 <= k < |responses| && responses[k] == StoredResponse(id, lbl, respType) {
        var k :| 0 <= k < |responses| && responses[k] == StoredResponse(id, lbl, respType);
        if k < |init| {
          assert init[k] == responses[k];
        }
      }
    }
  }

  /** Responses of other labels or types do not affect the result. */
  lemma {:induction false} MatchingIdsIgnoresOthers(responses: seq<StoredResponse>, r: StoredResponse, lbl: string, respType: string)
    requires r.lbl != lbl || r.respType != respType
    ensures MatchingIds(responses + [r], lbl, respType) == MatchingIds(responses, lbl, respType)
  {
    assert (responses + [r])[..|responses|] == responses;
  }

  /** The memo table of `lru_cache(maxsize=None)` around `get_resp_ids`. */
  class RespIdCache {
    var cache: map<(string, string), seq<int>>

    constructor ()
      ensures cache == map[]
    {
      cache := map[];
    }

    /**
     * `get_resp_ids(label, resp_type)`: a cached key is answered from the table without
     * looking at the store; otherwise the query result (or `[]` on error) is computed,
     * added under that key, and returned. Other keys are never touched.
     */
    method GetRespIds(lbl: string, respType: string, store: Store) returns (ids: seq<int>)
      modifies this
      ensures (lbl, respType) in old(cache) ==> ids == old(cache)[(lbl, respType)] && cache == old(cache)
      ensures (lbl, respType) !in old(cache) ==>
        ids == QueryIds(store, lbl, respType) && cache == old(cache)[(lbl, respType) := ids]
    {
      var key := (lbl, respType);
      if key in cache {
        ids := cache[key];
        return;
      }
      match store {
        case Failing =>
          ids := [];
        case Available(responses) =>
          ids := MatchingIds(responses, lbl, respType);
      }
      cache := cache[key := ids];
    }

    /**
     * `main`: the GET parameters `label` and `resp_type` are passed through unchanged;
     * a missing parameter raises KeyError before the lookup.
     */
    method Handle(params: map<string, string>, store: Store) returns (r: Result<seq<int>>)
      modifies this
      ensures r.Err? <==> "label" !in params || "resp_type" !in params
      ensures r.Err? ==> cache == old(cache)
      ensures r.Ok? ==>
        var key := (params["label"], params["resp_type"]);
        (key in old(cache) ==> r.value == old(cache)[key] && cache == old(cache))
        && (key !in old(cache) ==> r.value == QueryIds(store, key.0, key.1) && cache == old(cache)[key := r.value])
    {
      if "label" !in params {
        return Err("KeyError: 'label'");
      }
      if "resp_type" !in params {
        return Err("KeyError: 'resp_type'");
      }
      var ids := GetRespIds(params["label"], params["resp_type"], store);
      return Ok(ids);
    }
  }

  /**
   * Memoisation pins the first answer: a second call with the same key returns what the
   * first returned, even when the store has changed (or started failing) in between.
   */
  method RepeatedLookup(c: RespIdCache, lbl: string, respType: string, before: Store, after: Store)
    returns (first: seq<int>, second: seq<int>)
    modifies c
    ensures first == second
    ensures (lbl, respType) !in old(c.cache) ==> first == QueryIds(before, lbl, respType)
  {
    first := c.GetRespIds(lbl, respType, before);
    second := c.GetRespIds(lbl, respType, after);
  }
}
