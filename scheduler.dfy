/**
 * One tick of the poll loop of the Sophos Central and AWS integrations.
 * Each tick fixes the window's end at `now`, fetches the integration's
 * configuration (a failure skips the tick and keeps the window's start), pulls
 * every tenant group whose configuration values are all non-blank when the
 * integration is active, waits for all of them, and then moves the window's
 * start one nanosecond past its end. The groups' goroutines are run one after
 * the other in group order.
 */
module Scheduler {
  import opened Text
  import opened ModuleTypes
  import opened Checkpoints

  /** The smallest step of Go's `time.Time`, in the model's unit (nanoseconds). */
  const Nanosecond: int := 1
  const Minute: int := 60 * Second
  /** The ticker period, also the look-back of the first window (`delay`). */
  const Delay: int := 5 * Minute

  /** The two integrations sharing this loop; they differ only in the pull they call. */
  datatype Vendor = Sophos | Aws

  /** The result of the connectivity check at the start of a tick. */
  datatype ProbeOutcome = Reachable | Unreachable(reason: string)

  /** The result of `GetUTMConfig`. */
  datatype ConfigOutcome = ConfigLoaded(config: ModuleConfig) | ConfigError(message: string)

  /** The pull a group's goroutine makes: Sophos passes the window start, AWS the window and the group. */
  datatype PullCall =
    | SophosPull(group: ModuleGroup, startTime: int)
    | AwsPull(startTime: int, endTime: int, group: ModuleGroup)

  /** What became of one tenant group in a tick. */
  datatype GroupTask = Skipped(skipped: ModuleGroup) | Pulled(call: PullCall) {
    function Group(): ModuleGroup {
      match this
      case Skipped(g) => g
      case Pulled(c) => c.group
    }
  }

  /** The closed interval of nanoseconds `[start, end]` a tick covered. */
  datatype Window = Window(start: int, end: int)

  /** A group is configured when none of its configuration values is blank after trimming. */
  predicate Configured(g: ModuleGroup) {
    forall i :: 0 <= i < |g.configurations| ==> !AllSpace(g.configurations[i].confValue)
  }

  /**
   * The `skip` loop over a group's configurations: it stops at the first value that
   * trims to the empty string.
   */
  method NeedsSkip(group: ModuleGroup) returns (skip: bool)
    ensures skip <==> !Configured(group)
    ensures skip <==> exists i :: 0 <= i < |group.configurations| && TrimSpace(group.configurations[i].confValue) == ""
  {
    var configurations := group.configurations;
    skip := false;
    var i := 0;
    while i < |configurations|
      invariant 0 <= i <= |configurations|
      invariant !skip
      invariant forall j :: 0 <= j < i ==> !AllSpace(configurations[j].confValue)
      invariant forall j :: 0 <= j < i ==> TrimSpace(configurations[j].confValue) != ""
    {
      TrimSpaceEmptyIff(configurations[i].confValue);
      if TrimSpace(configurations[i].confValue) == "" {
        skip := true;
        break;
      }
      i := i + 1;
    }
  }

  /** What the goroutine of `g` does in a tick with window `[startTime, endTime]`. */
  function TaskFor(vendor: Vendor, startTime: int, endTime: int, g: ModuleGroup): GroupTask {
    if !Configured(g) then Skipped(g)
    else if vendor == Sophos then Pulled(SophosPull(g, startTime))
    else Pulled(AwsPull(startTime, endTime, g))
  }

  /**
   * The tasks of one active tick. Every group is accounted for once, in order; a
   * group is pulled exactly when it is configured (so a group with no configuration
   * entries is pulled); every pull receives this tick's start, and an AWS pull
   * receives this tick's exact window.
   */
  function Dispatch(vendor: Vendor, startTime: int, endTime: int, groups: seq<ModuleGroup>): (tasks: seq<GroupTask>)
    ensures |tasks| == |groups|
    ensures forall i :: 0 <= i < |groups| ==> tasks[i].Group() == groups[i]
    ensures forall i :: 0 <= i < |groups| ==> (tasks[i].Pulled? <==> Configured(groups[i]))
    ensures forall i :: 0 <= i < |groups| && tasks[i].Pulled? ==> tasks[i].call.startTime == startTime
    ensures forall i :: 0 <= i < |groups| && tasks[i].Pulled? ==>
              (vendor == Sophos <==> tasks[i].call.SophosPull?) &&
              (vendor == Aws ==> tasks[i].call.endTime == endTime)
  {
    if groups == [] then []
    else Dispatch(vendor, startTime, endTime, groups[..|groups| - 1]) + [TaskFor(vendor, startTime, endTime, groups[|groups| - 1])]
  }

  /** The groups a tick runs: all of them when the configuration loaded and the module is active, none otherwise. */
  function ActiveGroups(config: ConfigOutcome): (groups: seq<ModuleGroup>)
    ensures config.ConfigError? ==> groups == []
    ensures config.ConfigLoaded? && !config.config.moduleActive ==> groups == []
    ensures config.ConfigLoaded? && config.config.moduleActive ==> groups == config.config.configurationGroups
  {
    match config
    case ConfigLoaded(mc) => if mc.moduleActive then mc.configurationGroups else []
    case ConfigError(_) => []
  }

  /** A group's effect on the checkpoint store in a Sophos tick: only a configured group pulls. */
  function GroupEffect(m: map<int, string>, g: ModuleGroup, startUnix: int, api: VendorApi): map<int, string> {
    if Configured(g) then PullEffect(m, g, startUnix, api) else m
  }

  /** The checkpoint store after the groups' pulls, run in group order. */
  function StoreAfter(m: map<int, string>, groups: seq<ModuleGroup>, startUnix: int, api: VendorApi): map<int, string> {
    if groups == [] then m
    else GroupEffect(StoreAfter(m, groups[..|groups| - 1], startUnix, api), groups[|groups| - 1], startUnix, api)
  }

  /** The batch a group forwards in a Sophos tick against the store `m`: none when it is not configured. */
  function GroupForwarded(m: map<int, string>, g: ModuleGroup, startUnix: int, api: VendorApi): seq<seq<string>> {
    if Configured(g) then PulledBatch(m, g, startUnix, api) else []
  }

  /** The batches forwarded by the groups' pulls, run in group order, each against the store its predecessors left. */
  function ForwardedAfter(m: map<int, string>, groups: seq<ModuleGroup>, startUnix: int, api: VendorApi): seq<seq<string>> {
    if groups == [] then []
    else ForwardedAfter(m, groups[..|groups| - 1], startUnix, api)
         + GroupForwarded(StoreAfter(m, groups[..|groups| - 1], startUnix, api), groups[|groups| - 1], startUnix, api)
  }

  /** When every fetch of the tick fails, nothing is forwarded and no checkpoint moves. */
  lemma {:induction false} FailingVendorForwardsNothing(m: map<int, string>, groups: seq<ModuleGroup>, startUnix: int, api: VendorApi)
    requires forall r :: api(r).FetchFailed?
    ensures ForwardedAfter(m, groups, startUnix, api) == []
    ensures StoreAfter(m, groups, startUnix, api) == m
  {
    if groups != [] {
      FailingVendorForwardsNothing(m, groups[..|groups| - 1], startUnix, api);
    }
  }

  /** Dispatching one more group appends that group's task. */
  lemma DispatchStep(vendor: Vendor, startTime: int, endTime: int, groups: seq<ModuleGroup>, i: nat)
    requires i < |groups|
    ensures Dispatch(vendor, startTime, endTime, groups[..i + 1])
            == Dispatch(vendor, startTime, endTime, groups[..i]) + [TaskFor(vendor, startTime, endTime, groups[i])]
  {
    assert groups[..i + 1][..i] == groups[..i];
  }

  /**
   * Running one more group extends both folds by that group's own step, the
   * forwarded batches after whatever `sent` was forwarded before the tick.
   */
  lemma StepAfter(m: map<int, string>, sent: seq<seq<string>>, groups: seq<ModuleGroup>, i: nat, startUnix: int, api: VendorApi)
    requires i < |groups|
    ensures StoreAfter(m, groups[..i + 1], startUnix, api)
            == GroupEffect(StoreAfter(m, groups[..i], startUnix, api), groups[i], startUnix, api)
    ensures sent + ForwardedAfter(m, groups[..i + 1], startUnix, api)
            == sent + ForwardedAfter(m, groups[..i], startUnix, api)
               + GroupForwarded(StoreAfter(m, groups[..i], startUnix, api), groups[i], startUnix, api)
  {
    assert groups[..i + 1][..i] == groups[..i];
  }

  /** No two groups of the tick share a module id. */
  predicate DistinctIds(groups: seq<ModuleGroup>) {
    forall i, j :: 0 <= i < j < |groups| ==> groups[i].moduleId != groups[j].moduleId
  }

  /** A module id that belongs to no group of the tick keeps its checkpoint. */
  lemma {:induction false} StoreAfterKeepsOthers(m: map<int, string>, groups: seq<ModuleGroup>, startUnix: int, api: VendorApi, id: int)
    requires forall i :: 0 <= i < |groups| ==> groups[i].moduleId != id
    ensures id in StoreAfter(m, groups, startUnix, api) <==> id in m
    ensures Lookup(StoreAfter(m, groups, startUnix, api), id) == Lookup(m, id)
  {
    if groups != [] {
      StoreAfterKeepsOthers(m, groups[..|groups| - 1], startUnix, api, id);
    }
  }

  /**
   * Failure isolation: when the groups have distinct module ids, each group's
   * checkpoint after the tick is exactly what its own pull, on its own previous
   * key, made of it — a failing fetch keeps it, a successful one stores the new key —
   * whatever the other groups' pulls did.
   */
  lemma {:induction false} StoreAfterIsolatesGroups(m: map<int, string>, groups: seq<ModuleGroup>, startUnix: int, api: VendorApi, i: int)
    requires DistinctIds(groups) && 0 <= i < |groups|
    ensures Lookup(StoreAfter(m, groups, startUnix, api), groups[i].moduleId)
            == Lookup(GroupEffect(m, groups[i], startUnix, api), groups[i].moduleId)
  {
    var n := |groups| - 1;
    var prefix := groups[..n];
    if i == n {
      StoreAfterKeepsOthers(m, prefix, startUnix, api, groups[i].moduleId);
      var before := StoreAfter(m, prefix, startUnix, api);
      assert RequestFor(before, groups[i], startUnix) == RequestFor(m, groups[i], startUnix);
    } else {
      StoreAfterIsolatesGroups(m, prefix, startUnix, api, i);
      var before := StoreAfter(m, prefix, startUnix, api);
      var id := groups[i].moduleId;
      assert groups[n].moduleId != id;
      if Configured(groups[n]) {
        assert Lookup(PullEffect(before, groups[n], startUnix, api), id) == Lookup(before, id);
      }
    }
  }

  /** The processed windows follow each other with neither gap nor overlap. */
  ghost predicate Contiguous(ws: seq<Window>) {
    forall k :: 0 < k < |ws| ==> ws[k].start == ws[k - 1].end + 1
  }

  /** No window ends before the nanosecond preceding its start (the clock never ran backwards). */
  ghost predicate WellFormed(ws: seq<Window>) {
    forall k :: 0 <= k < |ws| ==> ws[k].start <= ws[k].end + 1
  }

  predicate Covers(w: Window, t: int) {
    w.start <= t <= w.end
  }

  /** Contiguous windows cover every nanosecond from the first start to the last end. */
  lemma {:induction false} WindowsCoverSpan(ws: seq<Window>, t: int)
    requires Contiguous(ws) && |ws| > 0 && ws[0].start <= t <= ws[|ws| - 1].end
    ensures exists k :: 0 <= k < |ws| && Covers(ws[k], t)
  {
    var n := |ws| - 1;
    if n > 0 {
      if t <= ws[n - 1].end {
        WindowsCoverSpan(ws[..n], t);
        var k :| 0 <= k < n && Covers(ws[..n][k], t);
        assert Covers(ws[k], t);
      } else {
        assert Covers(ws[n], t);
      }
    } else {
      assert Covers(ws[0], t);
    }
  }

  /** A later window starts after an earlier one ends. */
  lemma {:induction false} WindowsOrdered(ws: seq<Window>, k: int, l: int)
    requires Contiguous(ws) && WellFormed(ws) && 0 <= k < l < |ws|
    ensures ws[k].end < ws[l].start
  {
    if l > k + 1 {
      WindowsOrdered(ws, k, l - 1);
    }
  }

  /**
   * Window continuity: contiguous windows under a clock that does not run backwards
   * cover every nanosecond of `[first start, last end]` exactly once.
   */
  lemma WindowsPartitionSpan(ws: seq<Window>, t: int)
    requires Contiguous(ws) && WellFormed(ws) && |ws| > 0 && ws[0].start <= t <= ws[|ws| - 1].end
    ensures exists k :: 0 <= k < |ws| && Covers(ws[k], t)
    ensures forall k, l :: 0 <= k < |ws| && 0 <= l < |ws| && Covers(ws[k], t) && Covers(ws[l], t) ==> k == l
  {
    WindowsCoverSpan(ws, t);
    forall k, l | 0 <= k < |ws| && 0 <= l < |ws| && Covers(ws[k], t) && Covers(ws[l], t)
      ensures k == l
    {
      if k < l {
        WindowsOrdered(ws, k, l);
      } else if l < k {
        WindowsOrdered(ws, l, k);
      }
    }
  }

  /** The poll loop's state: the start of the next window. */
  class Poller {
    const vendor: Vendor
    var startTime: int
    /** The start of the first window, `delay` before the process started. */
    ghost const firstStart: int
    /** The windows of the ticks whose configuration loaded, in order. */
    ghost var windows: seq<Window>

    /** The next window starts right after the last processed one ended. */
    ghost predicate Valid()
      reads this
    {
      && Contiguous(windows)
      && (windows == [] ==> startTime == firstStart)
      && (windows != [] ==> windows[0].start == firstStart && startTime == windows[|windows| - 1].end + Nanosecond)
    }

    /** Process start at `now`: the first window starts five minutes earlier. */
    constructor (vendor: Vendor, now: int)
      ensures Valid()
      ensures this.vendor == vendor && startTime == now - Delay && windows == []
    {
      this.vendor := vendor;
      startTime := now - Delay;
      firstStart := now - Delay;
      windows := [];
    }

    /**
     * The goroutine of one group: the `skip` check, then, for a configured group, the
     * vendor's pull with this tick's window (for Sophos, against the checkpoint store).
     */
    method RunGroup(group: ModuleGroup, windowStart: int, endTime: int, store: CheckpointStore, api: VendorApi, forward: Forwarder)
      returns (task: GroupTask)
      modifies store
      ensures task == TaskFor(vendor, windowStart, endTime, group)
      ensures store.nextKeys == if vendor == Sophos
                                then GroupEffect(old(store.nextKeys), group, UnixSeconds(windowStart), api)
                                else old(store.nextKeys)
      ensures store.forwarded == if vendor == Sophos
                                 then old(store.forwarded) + GroupForwarded(old(store.nextKeys), group, UnixSeconds(windowStart), api)
                                 else old(store.forwarded)
    {
      var skip := NeedsSkip(group);
      if skip {
        return Skipped(group);
      }
      if vendor == Sophos {
        var _, _, _ := store.PullLogs(group, windowStart, api, forward);
        task := Pulled(SophosPull(group, windowStart));
      } else {
        task := Pulled(AwsPull(windowStart, endTime, group));
      }
    }

    /**
     * The goroutines of one active tick, run one after another in group order; the
     * tick waits for all of them before it ends.
     */
    method RunGroups(groups: seq<ModuleGroup>, windowStart: int, endTime: int, store: CheckpointStore, api: VendorApi, forward: Forwarder)
      returns (tasks: seq<GroupTask>)
      modifies store
      ensures tasks == Dispatch(vendor, windowStart, endTime, groups)
      ensures store.nextKeys == if vendor == Sophos
                                then StoreAfter(old(store.nextKeys), groups, UnixSeconds(windowStart), api)
                                else old(store.nextKeys)
      ensures store.forwarded == if vendor == Sophos
                                 then old(store.forwarded) + ForwardedAfter(old(store.nextKeys), groups, UnixSeconds(windowStart), api)
                                 else old(store.forwarded)
    {
      ghost var keys0, sent0, unix := store.nextKeys, store.forwarded, UnixSeconds(windowStart);
      tasks := [];
      var i := 0;
      while i < |groups|
        invariant 0 <= i <= |groups|
        invariant tasks == Dispatch(vendor, windowStart, endTime, groups[..i])
        invariant store.nextKeys == if vendor == Sophos then StoreAfter(keys0, groups[..i], unix, api) else keys0
        invariant store.forwarded == if vendor == Sophos then sent0 + ForwardedAfter(keys0, groups[..i], unix, api) else sent0
      {
        DispatchStep(vendor, windowStart, endTime, groups, i);
        StepAfter(keys0, sent0, groups, i, unix, api);
        var task := RunGroup(groups[i], windowStart, endTime, store, api, forward);
        tasks := tasks + [task];
        i := i + 1;
      }
      assert groups[..i] == groups;
    }

    /**
     * One tick at time `now`. The connectivity check's outcome changes nothing. A
     * configuration error ends the tick with no pull and the window's start unchanged,
     * so the next tick covers `[this start, its own now]`. Otherwise the tick runs
     * `Dispatch` over the active groups (none when the module is inactive), all with
     * this tick's start; for Sophos each pull updates the checkpoint store; only after
     * all groups are done does the start move to `now + 1ns`, active module or not.
     */
    method Cycle(now: int, probe: ProbeOutcome, config: ConfigOutcome, store: CheckpointStore, api: VendorApi, forward: Forwarder)
      returns (tasks: seq<GroupTask>)
      requires Valid()
      modifies this, store
      ensures Valid()
      ensures config.ConfigError? ==> startTime == old(startTime) && windows == old(windows)
      ensures config.ConfigLoaded? ==>
                startTime == now + Nanosecond && windows == old(windows) + [Window(old(startTime), now)]
      ensures config.ConfigLoaded? && config.config.moduleActive ==>
                tasks == Dispatch(vendor, old(startTime), now, config.config.configurationGroups)
      ensures !(config.ConfigLoaded? && config.config.moduleActive) ==> tasks == []
      ensures tasks == Dispatch(vendor, old(startTime), now, ActiveGroups(config))
      ensures store.nextKeys == if vendor == Sophos
                                then StoreAfter(old(store.nextKeys), ActiveGroups(config), UnixSeconds(old(startTime)), api)
                                else old(store.nextKeys)
      ensures store.forwarded == if vendor == Sophos
                                 then old(store.forwarded) + ForwardedAfter(old(store.nextKeys), ActiveGroups(config), UnixSeconds(old(startTime)), api)
                                 else old(store.forwarded)
    {
      var endTime := now;
      tasks := [];
      if config.ConfigError? {
        return;
      }
      var moduleConfig := config.config;
      if moduleConfig.moduleActive {
        tasks := RunGroups(moduleConfig.configurationGroups, startTime, endTime, store, api, forward);
      }
      windows := windows + [Window(startTime, endTime)];
      startTime := endTime + Nanosecond;
    }
  }
}
