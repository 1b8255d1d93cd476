/**
 * The per-group checkpoint store of the Sophos Central integration and its
 * `PullLogs` step: read the group's continuation key, fetch from the vendor,
 * store the new key on success, then forward the fetched logs.
 */
module Checkpoints {
  import opened Wrappers
  import opened ModuleTypes

  /** Nanoseconds in one second. */
  const Second: int := 1_000_000_000

  /**
   * `time.Time.Unix()` of an instant given in nanoseconds since the epoch:
   * the whole second that contains the instant (rounded down, also before 1970).
   */
  function UnixSeconds(ns: int): (sec: int)
    ensures sec * Second <= ns < (sec + 1) * Second
  {
    ns / Second
  }

  /** What the vendor is asked for: logs since `startUnix`, continuing after `prevKey`. */
  datatype FetchRequest = FetchRequest(startUnix: int, prevKey: string, group: ModuleGroup)

  /** The vendor's answer: logs and the next continuation key, or an error. */
  datatype FetchOutcome = Fetched(logs: seq<string>, nextKey: string) | FetchFailed(error: string)

  /** The error `PullLogs` returns. */
  datatype PullError = FetchError(message: string) | SendError(message: string)

  /** The vendor API, as a function of the request it receives. */
  type VendorApi = FetchRequest -> FetchOutcome

  /** The log forwarder: `None` when the batch was delivered, otherwise the error. */
  type Forwarder = seq<string> -> Option<string>

  /** Reading a Go map at a missing key gives the zero value, the empty string. */
  function Lookup(m: map<int, string>, id: int): (key: string)
    ensures id !in m ==> key == ""
    ensures id in m ==> key == m[id]
  {
    if id in m then m[id] else ""
  }

  /** The request `PullLogs` sends for `group` when the store holds `m`. */
  function RequestFor(m: map<int, string>, group: ModuleGroup, startUnix: int): FetchRequest {
    FetchRequest(startUnix, Lookup(m, group.moduleId), group)
  }

  /** The checkpoint map after one pull of `group`: the new key is stored only if the fetch succeeded. */
  function PullEffect(m: map<int, string>, group: ModuleGroup, startUnix: int, api: VendorApi): map<int, string> {
    match api(RequestFor(m, group, startUnix))
    case Fetched(_, key) => m[group.moduleId := key]
    case FetchFailed(_) => m
  }

  /** The batch one pull of `group` forwards when the store holds `m`: the fetched logs, or nothing after a failed fetch. */
  function PulledBatch(m: map<int, string>, group: ModuleGroup, startUnix: int, api: VendorApi): seq<seq<string>> {
    match api(RequestFor(m, group, startUnix))
    case Fetched(logs, _) => [logs]
    case FetchFailed(_) => []
  }

  /** A failed fetch leaves every checkpoint as it was. */
  lemma FailedFetchKeepsCheckpoints(m: map<int, string>, group: ModuleGroup, startUnix: int, api: VendorApi)
    requires api(RequestFor(m, group, startUnix)).FetchFailed?
    ensures PullEffect(m, group, startUnix, api) == m
  {
  }

  /**
   * A successful fetch stores the returned key for this group, and only for it:
   * every other group's checkpoint (present or absent) is as it was.
   */
  lemma SuccessfulFetchStoresKey(m: map<int, string>, group: ModuleGroup, startUnix: int, api: VendorApi, other: int)
    requires api(RequestFor(m, group, startUnix)).Fetched?
    ensures Lookup(PullEffect(m, group, startUnix, api), group.moduleId) == api(RequestFor(m, group, startUnix)).nextKey
    ensures other != group.moduleId ==>
              (other in PullEffect(m, group, startUnix, api) <==> other in m) &&
              Lookup(PullEffect(m, group, startUnix, api), other) == Lookup(m, other)
  {
  }

  /** The next pull of the same group continues from the key the previous successful pull stored. */
  lemma NextPullContinuesFromStoredKey(m: map<int, string>, group: ModuleGroup, start1: int, start2: int, api: VendorApi)
    requires api(RequestFor(m, group, start1)).Fetched?
    ensures RequestFor(PullEffect(m, group, start1, api), group, start2).prevKey == api(RequestFor(m, group, start1)).nextKey
  {
  }

  /**
   * A cursor-continued vendor whose first answer is `[e1, e2]` with key "p2", and
   * whose answer to "p2" is `[e3]` with key "p3": after two pulls of a group the
   * stored key is "p3", the second pull asked for "p2", and the forwarded batches
   * are `[e1, e2]` then `[e3]`.
   */
  lemma TwoPullsWithCursorVendor(group: ModuleGroup, start1: int, start2: int)
    ensures var api: VendorApi := (r: FetchRequest) =>
              if r.prevKey == "" then Fetched(["e1", "e2"], "p2")
              else if r.prevKey == "p2" then Fetched(["e3"], "p3")
              else Fetched([], r.prevKey);
            var m1 := PullEffect(map[], group, start1, api);
            && api(RequestFor(map[], group, start1)).logs == ["e1", "e2"]
            && RequestFor(m1, group, start2).prevKey == "p2"
            && api(RequestFor(m1, group, start2)).logs == ["e3"]
            && PulledBatch(map[], group, start1, api) + PulledBatch(m1, group, start2, api) == [["e1", "e2"], ["e3"]]
            && Lookup(PullEffect(m1, group, start2, api), group.moduleId) == "p3"
  {
  }

  /** The process-wide `nextKeys` map: module id to the vendor's continuation key. */
  class CheckpointStore {
    var nextKeys: map<int, string>
    /** The batches handed to the forwarder so far, in order. */
    ghost var forwarded: seq<seq<string>>

    /** The store starts empty: every group reads the empty key, and nothing has been forwarded. */
    constructor ()
      ensures nextKeys == map[] && forwarded == []
      ensures forall id :: Checkpoint(id) == ""
    {
      nextKeys := map[];
      forwarded := [];
    }

    /** The stored continuation key of a module id, or "" when none has been stored. */
    function Checkpoint(id: int): string
      reads this
    {
      Lookup(nextKeys, id)
    }

    /**
     * `PullLogs(group, startTime)`: the vendor is asked with the stored key and the
     * start of the window in Unix seconds; on a fetch error that error is returned and
     * no checkpoint changes; otherwise the new key is stored for this group before the
     * logs are forwarded, so a forwarding error is returned with the checkpoint already
     * advanced; when both succeed the result is nil. The fetched logs are forwarded
     * exactly once, and nothing is forwarded after a failed fetch.
     */
    method PullLogs(group: ModuleGroup, startTime: int, api: VendorApi, forward: Forwarder)
      returns (request: FetchRequest, sent: Option<seq<string>>, err: Option<PullError>)
      modifies this
      ensures request == FetchRequest(UnixSeconds(startTime), old(Checkpoint(group.moduleId)), group)
      ensures nextKeys == PullEffect(old(nextKeys), group, UnixSeconds(startTime), api)
      ensures sent == if api(request).Fetched? then Some(api(request).logs) else None
      ensures forwarded == old(forwarded) + PulledBatch(old(nextKeys), group, UnixSeconds(startTime), api)
      ensures api(request).FetchFailed? ==> err == Some(FetchError(api(request).error)) && nextKeys == old(nextKeys)
      ensures api(request).Fetched? ==>
                && nextKeys == old(nextKeys)[group.moduleId := api(request).nextKey]
                && err == (match forward(api(request).logs)
                           case Some(e) => Some(SendError(e))
                           case None => None)
    {
      var prevKey := Lookup(nextKeys, group.moduleId);
      request := FetchRequest(UnixSeconds(startTime), prevKey, group);
      var outcome := api(request);
      if outcome.FetchFailed? {
        return request, None, Some(FetchError(outcome.error));
      }
      nextKeys := nextKeys[group.moduleId := outcome.nextKey];
      var sendErr := forward(outcome.logs);
      sent := Some(outcome.logs);
      forwarded := forwarded + [outcome.logs];
      if sendErr.Some? {
        return request, sent, Some(SendError(sendErr.value));
      }
      err := None;
    }
  }
}
