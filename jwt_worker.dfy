/** The WorkManager variant of the keep-alive (app/.../JwtExtentionWorker.kt): renew the
    session and, only if that succeeds, poll the data tracker; enqueue the next run five
    minutes out when both succeed. This revision collects the kept records into a map
    keyed by the hash of their text and does nothing further with them. */
module JwtWorker {
  import opened Wrappers
  import opened Collections
  import opened Json
  import opened TrackerResponse
  import SessionState

  const StatusOk := 200
  /** The next run's initial delay: five minutes, in milliseconds. */
  const NextWorkDelay := 5 * 60 * 1000

  datatype Request = ExtendSession | PollTracker

  /** `Result.success()` and `Result.failure()`. */
  datatype WorkResult = Success | Failure

  /** The map `forEach { returnMap.put(hash(text), text) }` builds: each text under its
      hash, a later text replacing an earlier one with the same hash. */
  function HashIndex(texts: seq<string>, hash: string -> int): (m: map<int, string>)
    ensures forall k :: 0 <= k < |texts| ==> hash(texts[k]) in m
    ensures forall h :: h in m ==> m[h] in texts && hash(m[h]) == h
  {
    if texts == [] then map[]
    else
      var last := texts[|texts| - 1];
      var m := HashIndex(texts[..|texts| - 1], hash);
      assert forall k :: 0 <= k < |texts| - 1 ==> texts[..|texts| - 1][k] == texts[k];
      m[hash(last) := last]
  }

  /** Putting one more text into the map. */
  lemma HashIndexSnoc(texts: seq<string>, i: nat, hash: string -> int)
    requires i < |texts|
    ensures HashIndex(texts[..i + 1], hash) == HashIndex(texts[..i], hash)[hash(texts[i]) := texts[i]]
  {
    assert texts[..i + 1][..i] == texts[..i];
  }

  /** Under a hash, the map holds the last text with that hash. */
  lemma {:induction false} HashIndexLastWins(texts: seq<string>, hash: string -> int, j: nat)
    requires j < |texts|
    requires forall k :: j < k < |texts| ==> hash(texts[k]) != hash(texts[j])
    ensures HashIndex(texts, hash)[hash(texts[j])] == texts[j]
  {
    var init := texts[..|texts| - 1];
    if j < |texts| - 1 {
      assert forall k :: j < k < |init| ==> init[k] == texts[k];
      HashIndexLastWins(init, hash, j);
    }
  }

  /** Equal texts collapse to one entry; when the hash tells the batch's texts apart,
      the map holds every text, once. */
  lemma HashIndexValues(texts: seq<string>, hash: string -> int)
    requires forall i, j ::
      0 <= i < |texts| && 0 <= j < |texts| && hash(texts[i]) == hash(texts[j]) ==> texts[i] == texts[j]
    ensures HashIndex(texts, hash).Values == ToSet(texts)
  {
    var m := HashIndex(texts, hash);
    forall t | t in ToSet(texts)
      ensures t in m.Values
    {
      var k :| 0 <= k < |texts| && texts[k] == t;
      assert m[hash(texts[k])] == t;
    }
  }

  /** `parseDataTrackerResponseBody`: the kept records, indexed by the hash of their
      text; an exception is returned as `Err`. */
  method ParseDataTrackerResponseBody(body: Body, personalCode: Option<string>,
                                      render: JsonValue -> string, hash: string -> int)
    returns (r: Result<map<int, string>, PollError>)
    ensures KeptRecords(body, personalCode, render).Err? ==>
      r == Err(KeptRecords(body, personalCode, render).error)
    ensures KeptRecords(body, personalCode, render).Ok? ==>
      r == Ok(HashIndex(Texts(KeptRecords(body, personalCode, render).value, render), hash))
  {
    var kept := KeptRecords(body, personalCode, render);
    if kept.Err? {
      return Err(kept.error);
    }
    var records := kept.value;
    ghost var texts := Texts(records, render);
    var returnMap: map<int, string> := map[];
    for i := 0 to |records|
      invariant returnMap == HashIndex(texts[..i], hash)
    {
      var text := render(records[i]);
      HashIndexSnoc(texts, i, hash);
      returnMap := returnMap[hash(text) := text];
    }
    assert texts[..|records|] == texts;
    return Ok(returnMap);
  }

  class Worker {
    var requests: seq<Request>
    /** The initial delays of the runs this worker enqueued. */
    var enqueued: seq<int>

    constructor()
      ensures requests == [] && enqueued == []
    {
      requests, enqueued := [], [];
    }

    /** `extendJwtSession`: any status but 200 clears the saved and the WebView cookies. */
    method ExtendJwtSession(status: int, cookies: SessionState.CookieJar) returns (renewed: bool)
      modifies this, cookies
      ensures requests == old(requests) + [ExtendSession] && enqueued == old(enqueued)
      ensures renewed <==> status == StatusOk
      ensures renewed ==>
        cookies.webViewCookies == old(cookies.webViewCookies) && cookies.savedCookies == old(cookies.savedCookies)
      ensures !renewed ==> cookies.webViewCookies == {} && cookies.savedCookies == {}
    {
      requests := requests + [ExtendSession];
      if status != StatusOk {
        cookies.ClearAll();
        return false;
      }
      return true;
    }

    /** `pollDataTracker`; `handleParsedEntries` is empty in this revision. */
    method PollDataTracker(status: int, body: Body, personalCode: Option<string>,
                           render: JsonValue -> string, hash: string -> int)
      returns (r: Result<bool, PollError>)
      modifies this
      ensures requests == old(requests) + [PollTracker] && enqueued == old(enqueued)
      ensures status != StatusOk ==> r == Ok(false)
      ensures status == StatusOk && KeptRecords(body, personalCode, render).Err? ==>
        r == Err(KeptRecords(body, personalCode, render).error)
      ensures status == StatusOk && KeptRecords(body, personalCode, render).Ok? ==> r == Ok(true)
    {
      requests := requests + [PollTracker];
      if status != StatusOk {
        return Ok(false);
      }
      var entries := ParseDataTrackerResponseBody(body, personalCode, render, hash);
      if entries.Err? {
        return Err(entries.error);
      }
      return Ok(true);
    }

    /** `scheduleNextWork`. */
    method ScheduleNextWork()
      modifies this
      ensures enqueued == old(enqueued) + [NextWorkDelay] && requests == old(requests)
    {
      enqueued := enqueued + [NextWorkDelay];
    }

    /** `doWork`. The poll runs only after a renewal (`&&` short-circuits), and the next
        run is enqueued only when both steps succeed. */
    method DoWork(renewalStatus: int, pollStatus: int, body: Body, personalCode: Option<string>,
                  render: JsonValue -> string, hash: string -> int, cookies: SessionState.CookieJar)
      returns (r: Result<WorkResult, PollError>)
      modifies this, cookies
      ensures renewalStatus != StatusOk ==>
        requests == old(requests) + [ExtendSession] && r == Ok(Failure)
        && cookies.webViewCookies == {} && cookies.savedCookies == {}
      ensures renewalStatus == StatusOk ==>
        requests == old(requests) + [ExtendSession, PollTracker]
        && cookies.webViewCookies == old(cookies.webViewCookies) && cookies.savedCookies == old(cookies.savedCookies)
      ensures r == Ok(Success) <==>
        renewalStatus == StatusOk && pollStatus == StatusOk && KeptRecords(body, personalCode, render).Ok?
      ensures r.Err? <==>
        renewalStatus == StatusOk && pollStatus == StatusOk && KeptRecords(body, personalCode, render).Err?
      ensures r == Ok(Success) ==> enqueued == old(enqueued) + [NextWorkDelay]
      ensures r != Ok(Success) ==> enqueued == old(enqueued)
    {
      var renewed := ExtendJwtSession(renewalStatus, cookies);
      var success := false;
      if renewed {
        var polled := PollDataTracker(pollStatus, body, personalCode, render, hash);
        if polled.Err? {
          return Err(polled.error);
        }
        success := polled.value;
      }
      if success {
        ScheduleNextWork();
        return Ok(Success);
      }
      return Ok(Failure);
    }
  }
}
