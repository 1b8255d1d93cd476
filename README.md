# Incremental log-sync engine of the UTMStack integrations, in Dafny

This project models the part of UTMStack that pulls activity logs from third-party
platforms on a schedule and forwards them, together with a few small routines from
elsewhere in the repository:

- **Scheduler** (`scheduler.dfy`): one tick of the poll loop shared by the Sophos
  Central and AWS integrations. A `Poller` object holds `startTime` in integer
  nanoseconds. `Cycle(now, probe, config, …)` fixes the window end at `now`. A
  configuration error skips the tick. Otherwise the tick runs every tenant group whose
  configuration values are all non-blank, but only when the module is active, and then
  sets `startTime := now + 1ns`. The ghost history `windows` records the windows the
  ticks consumed. The class invariant says they are contiguous, and
  `WindowsPartitionSpan` proves that contiguous windows cover every nanosecond of
  their span exactly once. The two vendors differ only in the pull call:
  `SophosPull(group, start)` runs the checkpointed pull against the store, and
  `AwsPull(start, end, group)` is recorded.
- **Checkpoints** (`checkpoints.dfy`): the Sophos `nextKeys` store and `PullLogs`.
  A pull reads the group's key (`""` when unseen), asks the vendor with it and the
  window start in Unix seconds, stores the new key only on success, and then forwards
  the logs. The vendor API and the forwarder are function parameters.
- **Connector** (`connector.dfy`): the log-auth-proxy's constants and
  `ValidateConnectorType`.
- **ThreatIntel** (`threat_intel.dfy`): `Load` folds three IP list files, read in
  order, into the block list. The disk is an input map from path to lines, and an
  absent path is a file that cannot be opened.
- **AssetFilter** (`asset_filter.dfy`): the asset filter component's selection
  toggle, paging, search, response handling, reload and filter restore.

Supporting modules: `Wrappers` (Option), `Text` (Go's `strings.TrimSpace` with
`unicode.IsSpace`) and `ModuleTypes` (the configuration records).

In three places the code does something a reader may not expect, and the model follows it:

- The window advances even when the module is inactive (sophos/main.go:53-80).
- The error returned by `PullLogs` is discarded by the loop (sophos/main.go:70).
- The checkpoint write at sophos/processor/pull.go:28 takes no lock.

`selectValue` toggling the same value twice gives back the same list only when the
value was absent or was the last element. When the value was elsewhere, it comes back
at the end. `ToggleTwice` states both cases.

## Model

| member | source | states |
|---|---|---|
| Text.TrimSpace | sophos/main.go:62 | the result is the contiguous slice of the input starting at the first non-space character; every character dropped before and after it is white space, and a non-empty result neither starts nor ends with white space |
| Text.TrimSpaceEmptyIff | sophos/main.go:62 | a configuration value trims to "" exactly when every character is white space |
| Checkpoints.UnixSeconds | sophos/processor/pull.go:23 | `startTime.Unix()` is the whole second that contains the instant |
| Checkpoints.Lookup | sophos/processor/pull.go:18 | the checkpoint of a never-seen module id reads as "", and a stored one reads as stored |
| Checkpoints.FailedFetchKeepsCheckpoints | sophos/processor/pull.go:23-26 | a failed fetch leaves the checkpoint map unchanged |
| Checkpoints.SuccessfulFetchStoresKey | sophos/processor/pull.go:28 | a successful fetch stores the returned key for this module id, and every other id's entry and presence are unchanged |
| Checkpoints.NextPullContinuesFromStoredKey | sophos/processor/pull.go:17-28 | the next pull of the same group asks the vendor with the key the previous successful pull stored |
| Checkpoints.TwoPullsWithCursorVendor | sophos/processor/pull.go:16-35 | with a cursor vendor answering [e1,e2]/"p2" and then [e3]/"p3", the second pull asks for "p2", fetches [e3] and leaves "p3" stored; the two pulls forward [e1,e2] and then [e3] |
| Checkpoints.CheckpointStore.constructor | sophos/processor/pull.go:12 | the store starts empty, so every group reads "" |
| Checkpoints.CheckpointStore.PullLogs | sophos/processor/pull.go:16-36 | the vendor gets the stored key and the Unix-second start; a fetch error is returned with the map unchanged; otherwise only this group's key changes, to the returned key; a forwarding error is returned after the key has advanced; nil when both succeed; the batch handed to the forwarder is exactly the fetched logs (none on a fetch error), and the ghost log of forwarded batches grows by exactly that batch |
| Scheduler.NeedsSkip | sophos/main.go:59-67 | the skip flag is set exactly when some configuration value trims to "", that is, when the group is not configured |
| Scheduler.Dispatch | aws/main.go:52-73 | every group is accounted for once, in order; a group is pulled iff no value is blank, so a group with no configurations is pulled; each pull gets the tick's start, and an AWS pull gets the exact (start, end) pair |
| Scheduler.ActiveGroups | sophos/main.go:42-53 | a configuration error or an inactive module runs no group; an active module runs all of its configuration groups, in order |
| Scheduler.FailingVendorForwardsNothing | sophos/processor/pull.go:22-26 | when every fetch of a tick fails, the tick forwards no batch and leaves every checkpoint as it was |
| Scheduler.StoreAfterKeepsOthers | sophos/main.go:57-74 | a module id that belongs to no group of the tick keeps its checkpoint |
| Scheduler.StoreAfterIsolatesGroups | sophos/main.go:54-76 | with distinct module ids, each group's checkpoint after the tick is what its own pull made of its own previous key: a failed group keeps it, and a successful one gets the new key, whatever the others did |
| Scheduler.WindowsCoverSpan | sophos/main.go:36-80 | contiguous windows leave no nanosecond of their span uncovered |
| Scheduler.WindowsOrdered | aws/main.go:36-77 | when the clock does not run backwards, each window starts after every earlier window ends |
| Scheduler.WindowsPartitionSpan | sophos/main.go:31-81 | consecutive processed windows cover [first start, last end] with no gap and no overlap |
| Scheduler.Poller.constructor | sophos/main.go:25-29 | the first window starts five minutes before the process start |
| Scheduler.Poller.Cycle | sophos/main.go:31-81 | a configuration error keeps startTime, pulls nothing and makes the next window start at this start; otherwise startTime becomes now + 1ns, active or not; the tasks are Dispatch over the active groups with this tick's window, so nothing is pulled when inactive; Sophos pulls update the store as StoreAfter and append exactly ForwardedAfter to the forwarded log, so a configuration error or an inactive module forwards nothing; the probe outcome plays no part |
| Scheduler.Poller.RunGroup | sophos/main.go:58-73 | one group's goroutine: a group with a blank value is skipped and leaves the checkpoints and the forwarded log alone; otherwise a Sophos group's pull changes the checkpoints as its own pull effect and appends exactly its fetched batch (none on a fetch error) to the forwarded log, and an AWS group records its (start, end) pull and changes no store |
| Scheduler.Poller.RunGroups | sophos/main.go:54-76 | the groups run in order: the tasks are Dispatch over them, and for Sophos the checkpoints end as StoreAfter and the forwarded log grows by exactly ForwardedAfter; for AWS the store is untouched |
| Connector.ValidateConnectorType | log-auth-proxy/config/constants.go:90-97 | the function is total and always returns "collector" or "agent"; it returns "collector" for exactly the string "as_400" |
| Connector.OnlyAS400IsCollector | log-auth-proxy/config/constants.go:27-97 | among the declared log types only as_400 is a collector; syslog and beats_windows_agent are agents, and the variants "AS_400" and "as_400 " are agents |
| ThreatIntel.AddLinesEffect | correlation/ti/bases.go:38-47 | each non-empty line, kept verbatim, maps to the file's level; exactly-empty lines and unlisted keys keep their old entry |
| ThreatIntel.LoadFilesEffect | correlation/ti/bases.go:19-50 | an IP ends with the level of the last readable file that lists it; an unreadable file contributes nothing; IPs listed nowhere keep their old value |
| ThreatIntel.FileLevels | correlation/ti/bases.go:13-31 | the files are read in the order level1, level2, level3, with the levels Low, Medium, High |
| ThreatIntel.HighestFileWins | correlation/ti/bases.go:19-46 | an IP in a readable level-3 file ends as "High" |
| ThreatIntel.Feeds.Load | correlation/ti/bases.go:10-53 | the nested loops leave the block list equal to LoadFiles over the three files |
| AssetFilter.FirstIndexOf | frontend/src/app/assets-discover/shared/components/filters/asset-generic-filter/asset-generic-filter.component.ts:79 | the index holds the value and no earlier index does |
| AssetFilter.FindIndex | frontend/src/app/assets-discover/shared/components/filters/asset-generic-filter/asset-generic-filter.component.ts:79 | the result is -1 iff the value is absent, and otherwise it is the first index holding the value |
| AssetFilter.ToggleMultiset | frontend/src/app/assets-discover/shared/components/filters/asset-generic-filter/asset-generic-filter.component.ts:78-84 | an absent value is appended at the end, leaving the others in place; a present value loses exactly one occurrence |
| AssetFilter.ToggleKeepsNoDuplicates | frontend/src/app/assets-discover/shared/components/filters/asset-generic-filter/asset-generic-filter.component.ts:78-84 | toggling never introduces a duplicate, and on a duplicate-free list it flips membership |
| AssetFilter.ToggleTwice | frontend/src/app/assets-discover/shared/components/filters/asset-generic-filter/asset-generic-filter.component.ts:78-84 | toggling twice restores the same values; it restores the exact list iff the value was absent or last |
| AssetFilter.SelectionAfterNoMatch | frontend/src/app/assets-discover/shared/components/filters/asset-generic-filter/asset-generic-filter.component.ts:99-109 | a filter object without this component's key leaves the selection unchanged |
| AssetFilter.SelectionAfterLastMatch | frontend/src/app/assets-discover/shared/components/filters/asset-generic-filter/asset-generic-filter.component.ts:99-109 | otherwise the selection becomes the last matching entry's values, or [] when they are null |
| AssetFilter.AssetGenericFilter.constructor | frontend/src/app/assets-discover/shared/components/filters/asset-generic-filter/asset-generic-filter.component.ts:24-39 | the component starts on page 0 of its field with page size 6 and no values, loading, and one request sent |
| AssetFilter.AssetGenericFilter.OnResponse | frontend/src/app/assets-discover/shared/components/filters/asset-generic-filter/asset-generic-filter.component.ts:58-65 | a response appends its body to fieldValues and clears loading, searching and loadingMore |
| AssetFilter.AssetGenericFilter.OnSortValuesChange | frontend/src/app/assets-discover/shared/components/filters/asset-generic-filter/asset-generic-filter.component.ts:67-70 | the sort order is stored and the same parameters are requested again |
| AssetFilter.AssetGenericFilter.OnScroll | frontend/src/app/assets-discover/shared/components/filters/asset-generic-filter/asset-generic-filter.component.ts:72-76 | the page goes up by exactly 1, loadingMore is set, and a request is sent with the new page |
| AssetFilter.AssetGenericFilter.SelectValue | frontend/src/app/assets-discover/shared/components/filters/asset-generic-filter/asset-generic-filter.component.ts:78-89 | the selection becomes the toggled selection and is emitted; nothing else changes |
| AssetFilter.AssetGenericFilter.SearchInValues | frontend/src/app/assets-discover/shared/components/filters/asset-generic-filter/asset-generic-filter.component.ts:91-97 | value is set to the search text, the page to 0, fieldValues is cleared and searching is set |
| AssetFilter.AssetGenericFilter.OnReloadFilter | frontend/src/app/assets-discover/shared/components/filters/asset-generic-filter/asset-generic-filter.component.ts:48-55 | a non-empty change naming this field resets page and fieldValues, sets loading and requests again; any other change does nothing |
| AssetFilter.AssetGenericFilter.SetValueOfFilter | frontend/src/app/assets-discover/shared/components/filters/asset-generic-filter/asset-generic-filter.component.ts:99-109 | the loop over the filter keys leaves the selection equal to SelectionAfter |

## Left out

- Goroutines, `sync.WaitGroup` and `RWMutex`: a tick runs its groups one after another in group order. The two vendors' different placement of `wg.Done()` does not matter in that order. Group isolation is proved only for groups with distinct module ids.
- The unlocked write to `nextKeys` (sophos/processor/pull.go:28) races with concurrent reads in Go. The sequential model cannot show that race.
- `time.NewTicker`, `time.Now` and the endless loop: `now` is a parameter and each call is one tick. Instants are integer nanoseconds since the epoch, with no UTC conversion and no monotonic reading.
- Scheduler.WindowsPartitionSpan: it needs the clock not to run backwards (`WellFormed`). The loop does not check this, so `Cycle` does not require it.
- Startup: the fatal exit when the internal key or the panel host is missing (sophos/main.go:18-23), and building the configuration client.
- Logging, including the rate-limited `LogF` messages and the test for a configuration error containing "invalid character '<'". Both kinds of configuration error end the tick the same way.
- `ConnectionChecker`, `GetUTMConfig`, the Sophos vendor client (`getSophosCentralProcessor`, `getLogs`) and `SendToLogstash`: these are network calls. They become outcome and function parameters.
- The log-auth-proxy's endpoint formats, header names, environment-variable names and log separator (log-auth-proxy/config/constants.go:5-19): no modelled operation uses them.
- The AWS `processor.PullLogs` is not part of this model. A tick records only the call `AwsPull(start, end, group)`.
- `LogstashHost` (an environment read), and the opening, scanning and closing of the list files in bases.go. Line splitting, carriage-return stripping and the scanner's maximum line length are not modelled, because the files arrive as lists of lines.
- The `blockList` declaration lives in another file. Its contents before `Load` are the object's initial state.
- In the asset filter component: Angular's `EventEmitter` and subscription plumbing, the `UtmNetScanService` HTTP call, the `if (filters)` guard and `console.log`. Each response is applied when it arrives, and which request it answers is not tracked.
- AssetFilter.AssetGenericFilter.SelectValue: the `prop` of the emitted change comes from the `AssetFieldFilterEnum`/`CollectorFieldFilterEnum` lookups and is not modelled. Only the emitted values are.
- AssetFilter.AssetGenericFilter.SelectValue: the component emits the live `this.selected` array itself (asset-generic-filter.component.ts:86-87), so a later `push`/`splice` also changes what subscribers already received. The model emits a value copy of the selection and does not capture that aliasing.
- AssetFilter.AssetGenericFilter.SetValueOfFilter: the key match through `STATICS_FILTERS` and `AssetMapFilterFieldEnum` is an abstract predicate parameter. `selected` takes a copy of the filter's list, not the same array (JavaScript aliasing). An `undefined` value is not distinguished from a list.
