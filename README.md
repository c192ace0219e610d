# express-runtime analytics and supervisor, in Dafny

This project models the core of express-runtime. That runtime is a Node.js supervisor. It
forks an Express service as a child process, collects the telemetry packets the child sends
over IPC, rolls them up on a tick schedule into hourly and daily statistics, writes those
into per-day JSON log files, and reads the log files back into a history that answers
per-weekday and per-day questions.

The model covers four source files. Each class whose fields the source updates in place is a
Dafny `class` with the same fields. Each such class has a value snapshot (`Snap()` or
`Abs()`) and a pure specification function per operation. Every method is proved to move
the snapshot exactly as its specification function does. The properties the source
promises are then proved as lemmas about those functions.

- `statistics.dfy` (module `AnalyticsStatistics`): the `Statistics` reducer of
  `src/analytics/statistics.ts`. It covers `fromRequestBuffer`, `fromStatisticsBuffer`,
  `format` with the random draws as a parameter, and the in-memory document update of
  `export`.
- `wrapper.dfy` (module `StatisticsWrappers`): the engine's private `StatisticsWrapper`
  reducer and its `export`. It also proves that the wrapper computes exactly the projection
  of what `Statistics` computes on the same input.
- `engine.dfy` (module `Engine`): `AnalyticsEngine` with `onTick`, `onRequest`, `#on30sTick`,
  `#onHourTick` and `#onDayTick`. It also states the tick schedule, the invariant on the
  buffers and the request and error accounting across roll-ups.
- `logs.dfy` (module `Logs`): `LogHistory` with `generate` over an abstract directory
  listing, `mapByWeekday`, `requestsPerWeekday`, `requestsPerDay` and `averageTimings`.
  `log_names.dfy` (module `LogNames`) holds the file-name split `generate` applies.
- `process.dfy` (module `Supervisor`): `Process` with `spawnProcess`, `killProcess`,
  `#respawnProcess`, `#onClose`, the `#onreceiveData` routing and the defaults of
  `#resolveProcessInfo`.
- `basics.dfy`, `error_counts.dfy`, `json_object.dfy` and `packets.dfy` hold the shared
  vocabulary:
  - sums and means, and the two-decimal rounding of `toFixed(2)`;
  - error-code count maps;
  - JSON objects as ordered key/value lists, where assigning to an existing key keeps its
    place and a new key goes last;
  - the two packet types.

The code's revisions do not match, and the model handles that as follows:
- The `Statistics` constructor reads `engine.history`, which the `AnalyticsEngine` in this
  revision lacks. The three defaults are constructor parameters instead.
- `Process` passes an options object to an engine constructor that takes a console. The
  engine is built without a console.

Where the design text and the code disagree, the model follows the code:
- The synthetic noise of `format` draws `(random * 3 - 1) * 5%`. That lies in [-5%, +10%),
  not within the ±5% the design describes. `NoiseRange` proves the bound of the code as
  written, and `NoiseExceedsFivePercent` shows one draw beyond +5%.
- `requestsPerDay` compares `Date` objects by identity, not by calendar date. This is the
  subject of the finding below.
- The read views have no `normalize` flag in this revision of the code, so none is
  modelled.

## Model

| member | source | states |
|---|---|---|
| Basics.Fixed2Close | src/analytics/statistics.ts:180-189 | `+x.toFixed(2)` moves a value by at most half a hundredth |
| Basics.Fixed2Zero | src/analytics/statistics.ts:153 | a non-negative value rounds to 0 exactly when it is below 0.005 |
| Basics.MaxOfBounds | src/analytics/statistics.ts:63 | the running `max ?? -Infinity` update is at least every value and the start, is absent only with no values, and is attained |
| Basics.MinOfBounds | src/analytics/statistics.ts:64 | the running `min ?? Infinity` update is at most every value and the start, is absent only with no values, and is attained |
| ErrorCounts.AddCount | src/analytics/statistics.ts:68 | `errorMap[e] = (errorMap[e] ?? 0) + n` adds `n` under `e`, adds `e` to the keys, and leaves every other count |
| ErrorCounts.Merged | src/analytics/statistics.ts:112-114 | merging error maps gives the union of the keys and the pointwise sum of the counts |
| ErrorCounts.MapSumMerged | src/analytics/statistics.ts:112-114 | the total of a merged map is the sum of the two totals |
| ErrorCounts.MapSumAdd | src/analytics/statistics.ts:68 | counting one more error under a code raises the map's total by exactly that amount |
| ErrorCounts.AddErrorCounts | src/analytics/statistics.ts:112-114 | the `Object.keys(child.errorMap).forEach` loop computes exactly `Merged` of the two maps |
| JsonObject.PutLookup | src/analytics/statistics.ts:171-176 | after `o[k] = v`, `k` reads `v` and every other key reads what it read before |
| JsonObject.PutKeys | src/analytics/statistics.ts:171-176 | an assigned existing key keeps its place in `Object.keys`, and a new key is listed last |
| JsonObject.PutUnique | src/analytics/statistics.ts:171-176 | assignment keeps an object's keys unique |
| JsonObject.PutNew | src/analytics/logs.ts:94 | assigning a key the object lacks appends the pair |
| JsonObject.LookupKeys | src/analytics/logs.ts:106-107 | a key reads a value exactly when `Object.keys` lists it |
| JsonObject.LookupAt | src/analytics/logs.ts:106-107 | in an object with unique keys, each listed key reads its own value |
| LogNames.RemoveAll | src/analytics/logs.ts:32 | `replaceAll(pat, '')` never lengthens the name |
| LogNames.Split | src/analytics/logs.ts:32 | `split('-')` yields at least one piece, and no piece holds a hyphen |
| LogNames.SplitJoin | src/analytics/logs.ts:32 | joining the pieces of a split gives the name back |
| LogNames.JoinSplit | src/analytics/logs.ts:32 | splitting joined hyphen-free pieces gives the pieces back |
| LogNames.DailyNameParses | src/analytics/logs.ts:32-33 | `DD-MM-YYYY.json` destructures to `[DD, MM, YYYY]` and is dated `YYYY-MM-DD` |
| LogNames.OverviewNameParses | src/analytics/logs.ts:32 | `DD-MM-YYYY-overview.json` destructures to `[DD, MM, YYYY]` too |
| LogNames.DailyNameIsJson | src/analytics/logs.ts:29 | every `x.json` name passes the `.json` filter |
| Logs.WriteEntry | src/analytics/statistics.ts:171-176 | `data[label] ??= {}; data[label][key] = entry` stores the entry, keeps every other label and every other key of the label, appends a missing label last, and keeps keys unique |
| Logs.WeekdayNamesDistinct | src/analytics/logs.ts:80-88 | two weekdays share a name exactly when they are the same day |
| Logs.SectionRecords | src/analytics/logs.ts:41-68 | an `overview` section yields one record per key in key order, with `null` read as the all-zero record |
| Logs.GeneratedStep | src/analytics/logs.ts:30-74 | the history of a file list is the history of its prefix followed by the next file's records, so a file that is not `.json`, fails to parse or has no `overview` adds nothing and does not stop later files |
| Logs.LogHistory.constructor | src/analytics/logs.ts:26 | the history starts empty |
| Logs.LogHistory.AppendSection | src/analytics/logs.ts:41-68 | one section appends its records, in key order, all carrying the file's date |
| Logs.LogHistory.ReadFile | src/analytics/logs.ts:32-73 | one `.json` file gets a new `Date` built from the text `year-month-day`, and the history grows by exactly that file's records |
| Logs.LogHistory.Generate | src/analytics/logs.ts:28-77 | `generate` only appends; the appended entries are the records of the files in order; each file's entries carry one new `Date` of their own, built from its name |
| Logs.ByWeekdayLookup | src/analytics/logs.ts:92-97 | under each weekday's name is exactly the records of that weekday in history order, and an empty weekday has no key |
| Logs.FirstSeenBuckets | src/analytics/logs.ts:92-97 | a weekday is listed exactly when its bucket is non-empty |
| Logs.ByWeekdayKeys | src/analytics/logs.ts:92-97 | the keys are the weekday names in order of first appearance, each once |
| Logs.BucketsPartition | src/analytics/logs.ts:92-97 | every entry lands in exactly one bucket, so the bucket sizes sum to the history's length |
| Logs.LogHistory.MapByWeekday | src/analytics/logs.ts:79-100 | the loop builds exactly the weekday grouping |
| Logs.MeanRequestsLookup | src/analytics/logs.ts:106-115 | each key of the averaged object reads the mean `totalRequests` of its list |
| Logs.MeanRequestsStep | src/analytics/logs.ts:106-115 | averaging one more weekday appends its mean under its name |
| Logs.ByWeekdayNonEmpty | src/analytics/logs.ts:94-96 | no weekday list is empty, so no division by zero happens |
| Logs.RequestsPerWeekdayMeans | src/analytics/logs.ts:102-118 | `requestsPerWeekday` lists the present weekdays in first-seen order, and gives each the mean requests of its bucket; an absent weekday has no key |
| Logs.LogHistory.RequestsPerWeekday | src/analytics/logs.ts:102-118 | the nested loops compute exactly the per-weekday means |
| Logs.Find | src/analytics/logs.ts:124 | `find` returns an element with the entry's key, or none when no element has it |
| Logs.WithoutMembers | src/analytics/logs.ts:126 | the filter keeps exactly the elements under other keys |
| Logs.WithoutRequests | src/analytics/logs.ts:126 | in a list with distinct keys, filtering one key removes exactly that element's requests |
| Logs.FindLast | src/analytics/logs.ts:124 | in a list with distinct keys, `find` returns the last element exactly when its key matches, and otherwise searches the elements before it |
| Logs.AddDayFound | src/analytics/logs.ts:124-128 | merging into a found element keeps keys distinct and each element the total of its key, and puts the entry's date last |
| Logs.AddDayNew | src/analytics/logs.ts:130-133 | pushing an unseen date keeps keys distinct and each element the total of its key, and puts the entry's date last |
| Logs.PerDayTotals | src/analytics/logs.ts:120-137 | the result has one element per key of the history, the keys are distinct, each element holds the requests of all entries under its key, and the last entry's date is last |
| Logs.PerDayGrandTotal | src/analytics/logs.ts:120-137 | merging preserves the grand total of `totalRequests` |
| Logs.LogHistory.RequestsPerDay | src/analytics/logs.ts:120-137 | the loop with `find`, `filter` and `push` computes exactly the per-day list, with `Date` objects compared by identity |
| Logs.SameDayFiles | src/analytics/logs.ts:32-33 | the daily file and the rollup file of one day are given the same date text |
| Logs.SameDayListedTwice | src/analytics/logs.ts:124-126 | two `Date` objects for the same day are listed as two elements, where comparing the dates merges them into one |
| Logs.PerCalendarDayTotals | src/analytics/logs.ts:120-137 | comparing dates by value gives one element per calendar day with that day's total, and the grand total is kept |
| Logs.LogHistory.AverageTimings | src/analytics/logs.ts:139-157 | the three averages are the means of the records' timing averages, and there is no result for an empty history |
| AnalyticsStatistics.AddPacketConsistent | src/analytics/statistics.ts:59-90 | one packet keeps errors and multipart requests among the requests, and the error map summing to the errors |
| AnalyticsStatistics.AddPacketsConsistent | src/analytics/statistics.ts:59-90 | the whole `forEach` keeps the snapshot consistent |
| AnalyticsStatistics.AddPacketsCounts | src/analytics/statistics.ts:59-90 | the loop adds the batch size to the requests, the sum of total times to the running sum, and the number of multipart packets to their count |
| AnalyticsStatistics.AddPacketsErrors | src/analytics/statistics.ts:66-69 | the errors grow by the packets with a truthy code, and each code's count by the packets with that code |
| AnalyticsStatistics.AddPacketsTotalBounds | src/analytics/statistics.ts:63-64 | the total-time extremes are the max and min over the start and the batch |
| AnalyticsStatistics.AddPacketsMultipartBounds | src/analytics/statistics.ts:79-83 | the handle and processing extremes range over multipart packets only |
| AnalyticsStatistics.AddPacketsHandleSum | src/analytics/statistics.ts:85 | the handle sum stays as it was without multipart packets, and otherwise adds their handle times |
| AnalyticsStatistics.AddPacketsProcessSum | src/analytics/statistics.ts:86 | the processing sum stays as it was without multipart packets, and otherwise adds their processing times |
| AnalyticsStatistics.FreshPacketsTotals | src/analytics/statistics.ts:56-99 | on a fresh reducer: requests equal the batch size, the total average is the mean total time, errors equal the packets with a truthy code and the error map's sum, and the end time is set |
| AnalyticsStatistics.FreshPacketsTotalBounds | src/analytics/statistics.ts:63-64 | for a non-empty batch, every packet's total time lies between min and max, and both are attained |
| AnalyticsStatistics.FreshPacketsMultipartPresence | src/analytics/statistics.ts:71-94 | handle and processing averages, minima and maxima stay `null` exactly when the batch has no multipart packet |
| AnalyticsStatistics.FreshPacketsMultipartMeans | src/analytics/statistics.ts:85-94 | with multipart packets, the handle and processing averages are the means over those packets |
| AnalyticsStatistics.FreshPacketsMultipartBounds | src/analytics/statistics.ts:79-83 | every multipart handle and processing time lies between the recorded min and max |
| AnalyticsStatistics.AddChildrenSumPresence | src/analytics/statistics.ts:127-135 | the merged handle and processing sums exist exactly when the receiver had one or some child has a non-zero one |
| AnalyticsStatistics.AddChildrenDivisorPositive | src/analytics/statistics.ts:103-141 | a non-zero merged handle or processing sum implies some child had multipart requests, so `multipartCount` is not zero |
| AnalyticsStatistics.AddChildConsistent | src/analytics/statistics.ts:107-137 | merging one consistent child keeps the receiver consistent |
| AnalyticsStatistics.AddChildrenConsistent | src/analytics/statistics.ts:107-137 | the whole merge loop keeps consistency |
| AnalyticsStatistics.AddChildrenCounts | src/analytics/statistics.ts:108-116 | requests, errors, multipart requests and the total-time sum grow by the children's sums |
| AnalyticsStatistics.AddChildrenErrors | src/analytics/statistics.ts:112-114 | the merged error map has the union of the keys and the pointwise sum of the children's counts |
| AnalyticsStatistics.AddChildrenBounds | src/analytics/statistics.ts:118-125 | each merged max or min is the max or min of the receiver's and the children's non-null, non-zero values |
| AnalyticsStatistics.FromChildrenConsistent | src/analytics/statistics.ts:101-146 | `fromStatisticsBuffer` yields a consistent snapshot |
| AnalyticsStatistics.FreshChildrenTotals | src/analytics/statistics.ts:101-146 | on a fresh reducer, the merged counts and error map are the children's sums, the total average is the mean of the children's averages, the start timestamp is the first child's, and the end timestamp is the merge time |
| AnalyticsStatistics.FreshChildrenSumPresence | src/analytics/statistics.ts:127-135 | the merged handle and processing averages stay `null` unless some child had a non-zero one |
| AnalyticsStatistics.ChildrenBounds | src/analytics/statistics.ts:118-125 | the merged max is at least, and the merged min at most, every child's non-null, non-zero value |
| AnalyticsStatistics.NoiseRange | src/analytics/statistics.ts:148-150 | for a draw in [0, 1), the noise keeps a non-negative value between -5% and +10% of it, within the rounding |
| AnalyticsStatistics.NoiseExceedsFivePercent | src/analytics/statistics.ts:149 | the draw 0.9 puts 100 at 108.5, beyond +5% |
| AnalyticsStatistics.ErrorFractionRange | src/analytics/statistics.ts:153 | the error fraction lies in [0, 1] and rounds to 0 exactly when fewer than one request in two hundred failed |
| AnalyticsStatistics.ExportStores | src/analytics/statistics.ts:170-176 | `export` writes `null` exactly when there are no requests and otherwise exactly the reducer's record, and keeps every other label and every other key of the label |
| AnalyticsStatistics.ExportRecordContent | src/analytics/statistics.ts:176-193 | the record holds the counts, the bounds and the error map, and the error fraction and the total, handle and processing averages within rounding |
| AnalyticsStatistics.Statistics.constructor | src/analytics/statistics.ts:22-54 | a fresh reducer has no requests, `null` averages and bounds, an empty error map, and the given defaults |
| AnalyticsStatistics.Statistics.ObserveTotalTime | src/analytics/statistics.ts:60-64 | counts the request, adds its time and updates the total-time bounds |
| AnalyticsStatistics.Statistics.ObserveErrorCode | src/analytics/statistics.ts:66-69 | a truthy code is counted in total and under its code |
| AnalyticsStatistics.Statistics.ObserveMultipartTimes | src/analytics/statistics.ts:71-87 | a multipart packet updates its count, bounds and sums, and any other packet changes nothing |
| AnalyticsStatistics.Statistics.AddRequest | src/analytics/statistics.ts:59-90 | one `forEach` step |
| AnalyticsStatistics.Statistics.ComputeAverages | src/analytics/statistics.ts:92-96 | divides the total sum and any non-zero handle or processing sum, and sets the end time |
| AnalyticsStatistics.Statistics.FromRequestBuffer | src/analytics/statistics.ts:56-99 | the loop and the divisions compute exactly `FromPackets`, an empty buffer changes nothing, and the reducer stays consistent |
| AnalyticsStatistics.Statistics.MergeChildCounts | src/analytics/statistics.ts:108-116 | adds a child's counts, error map and total-time sum |
| AnalyticsStatistics.Statistics.MergeChildBounds | src/analytics/statistics.ts:118-125 | widens the bounds by the child's non-zero bounds |
| AnalyticsStatistics.Statistics.MergeChildSums | src/analytics/statistics.ts:127-135 | adds the child's non-zero handle and processing averages |
| AnalyticsStatistics.Statistics.AddChildStatistics | src/analytics/statistics.ts:107-137 | one `forEach` step of the merge |
| AnalyticsStatistics.Statistics.MergeChildren | src/analytics/statistics.ts:107-137 | the merge loop computes exactly `AddChildren` over the children's snapshots |
| AnalyticsStatistics.Statistics.FromStatisticsBuffer | src/analytics/statistics.ts:101-146 | computes exactly `FromChildren`, with divisions by the buffer length and the multipart-child count, and stays consistent |
| AnalyticsStatistics.Statistics.Format | src/analytics/statistics.ts:152-164 | real averages, bounds and error percentages are shown as they are; each missing one is noise around the default, and an error fraction that rounds to 0 is shown as noise too |
| StatisticsWrappers.WAddPacketsDivisors | src/analytics-engine.ts:83-105 | the wrapper's loop counts every packet and keeps the wrapper consistent |
| StatisticsWrappers.WAddChildrenDivisor | src/analytics-engine.ts:116-144 | a non-zero merged handle or processing sum implies a non-zero `multipartCount` |
| StatisticsWrappers.ProjectConsistent | src/analytics-engine.ts:67-78 | a wrapper is consistent exactly when the reducer it projects is |
| StatisticsWrappers.ProjectAddPackets | src/analytics-engine.ts:83-105 | the wrapper's packet loop is the reducer's loop without the bounds and end time |
| StatisticsWrappers.ProjectAddChildren | src/analytics-engine.ts:119-140 | the wrapper's merge loop is the reducer's merge loop without the bounds |
| StatisticsWrappers.ProjectFromPackets | src/analytics-engine.ts:80-112 | the wrapper's `fromRequestBuffer` is the projection of the reducer's |
| StatisticsWrappers.ProjectFromChildren | src/analytics-engine.ts:114-147 | the wrapper's `fromStatisticsBuffer` is the projection of the reducer's |
| StatisticsWrappers.WrapperPacketsTotals | src/analytics-engine.ts:80-112 | on a fresh wrapper, requests equal the batch size, errors equal the packets with a truthy code, each code counts its packets, and the total average is the mean |
| StatisticsWrappers.WrapperChildrenTotals | src/analytics-engine.ts:114-147 | on a fresh wrapper, requests, errors and each code's count are the children's sums, and the timestamp is the first child's |
| StatisticsWrappers.WrapperMergeConsistent | src/analytics-engine.ts:114-147 | merging consistent wrappers gives a consistent wrapper |
| StatisticsWrappers.WExportStores | src/analytics-engine.ts:150-178 | `export` writes `null` exactly when there are no requests and otherwise exactly the wrapper's record; a missing file starts from `overview` and `hourly`, and every other label is kept |
| StatisticsWrappers.WExportRecordContent | src/analytics-engine.ts:162-173 | the wrapper's record holds the counts, and the error fraction and the total, handle and processing averages within rounding, with no bounds and no error map |
| StatisticsWrappers.StatisticsWrapper.constructor | src/analytics-engine.ts:67-78 | a fresh wrapper has no requests and `null` handle and processing averages |
| StatisticsWrappers.StatisticsWrapper.AddRequest | src/analytics-engine.ts:83-105 | one `forEach` step, with the `if (!avg) avg = 0` reset |
| StatisticsWrappers.StatisticsWrapper.ComputeAverages | src/analytics-engine.ts:107-109 | divides the total sum and any non-zero handle or processing sum |
| StatisticsWrappers.StatisticsWrapper.FromRequestBuffer | src/analytics-engine.ts:80-112 | computes exactly `WFromPackets`, an empty buffer changes nothing, and the wrapper stays consistent |
| StatisticsWrappers.StatisticsWrapper.AddChildStatistics | src/analytics-engine.ts:119-140 | one merge step |
| StatisticsWrappers.StatisticsWrapper.MergeChildren | src/analytics-engine.ts:119-140 | the merge loop computes exactly `WAddChildren` |
| StatisticsWrappers.StatisticsWrapper.FromStatisticsBuffer | src/analytics-engine.ts:114-147 | computes exactly `WFromChildren` and stays consistent |
| StatisticsWrappers.CountMultipart | src/analytics-engine.ts:116 | the filter counts the children with multipart requests |
| Engine.TickedAfter30s | src/analytics-engine.ts:37-43 | `#on30sTick` pushes one wrapper holding the buffer's requests and errors, and advances the tick |
| Engine.HourRollupInvariant | src/analytics-engine.ts:45-51 | an hourly roll-up right after a tick restores the buffer invariant |
| Engine.TickPreservesInvariant | src/analytics-engine.ts:21-63 | every `onTick` keeps `tick < 13`, `latest.length == tick % 4` and `hourly.length == tick / 4` |
| Engine.RollupSizes | src/analytics-engine.ts:29-54 | an hourly roll-up merges exactly four wrappers and the daily one exactly three, so neither sees an empty buffer |
| Engine.TickSchedule | src/analytics-engine.ts:26-31 | the tick advances and wraps from 12 to 0, an `hourly` export happens exactly when the new tick is divisible by 4, `overview` exactly on tick 13, and the request buffer ends empty |
| Engine.TickAccounting | src/analytics-engine.ts:26-63 | a tick adds the buffered requests to the kept wrappers, an hourly export carries exactly the hour's requests, and the daily export carries exactly the hourly wrappers' requests, after which nothing is kept |
| Engine.TickErrorAccounting | src/analytics-engine.ts:26-63 | each export carries exactly the errors of its window |
| Engine.AnalyticsEngine.constructor | src/analytics-engine.ts:13-24 | the engine starts at tick 0 with empty buffers |
| Engine.AnalyticsEngine.OnRequest | src/analytics-engine.ts:33-35 | appends exactly the packet to the request buffer and changes nothing else |
| Engine.AnalyticsEngine.On30sTick | src/analytics-engine.ts:37-43 | pushes the wrapper of the buffer, empties the buffer and advances the tick |
| Engine.AnalyticsEngine.OnHourTick | src/analytics-engine.ts:45-51 | merges the latest wrappers, exports the result as `hourly`, keeps it, and empties the latest wrappers |
| Engine.AnalyticsEngine.OnDayTick | src/analytics-engine.ts:53-63 | merges the hourly wrappers, exports the result as `overview`, and resets both lists and the tick |
| Engine.AnalyticsEngine.OnTick | src/analytics-engine.ts:26-31 | computes exactly `Tick` and keeps the engine valid |
| Engine.Rollup | src/analytics-engine.ts:45-63 | `new StatisticsWrapper().fromStatisticsBuffer(list)` yields a new wrapper holding the merge of the list |
| Supervisor.ResolveProcessInfo | src/process.ts:65-74 | the path is `process_path`, and a missing `name` or `version` becomes `'unknown'` |
| Supervisor.Classify | src/process.ts:100-112 | a message is forwarded exactly when it has a type and that type is `MultipartNetworkRequest`, and it is forwarded unchanged |
| Supervisor.SpawnStarts | src/process.ts:45-74 | after a spawn with a readable `package.json` the handle is the forked child, the process is active and its info is resolved; when `package.json` cannot be read or parsed, the spawn throws before changing anything |
| Supervisor.KillIdempotent | src/process.ts:76-80 | a kill leaves no handle and nothing active, is a no-op apart from `active` without a handle, and a second kill changes nothing |
| Supervisor.CloseEffects | src/process.ts:114-125 | every exit code clears `active`; a crash with restarting configured kills the handle and schedules exactly one respawn after `restart_delay ?? 5000`; every other case schedules nothing |
| Supervisor.CrashRestartCycle | src/process.ts:82-125 | after a crash with restarting configured, the process stays inactive until its timer fires; the firing starts the new child when `package.json` can be read, and otherwise leaves the process inactive with no child and no respawn pending |
| Supervisor.Process.constructor | src/process.ts:22-42 | no child, no info, inactive, and a fresh engine |
| Supervisor.Process.SpawnProcess | src/process.ts:45-74 | sets the info, the handle and `active`, and returns the engine; an unreadable `package.json` throws, changes nothing and returns no engine |
| Supervisor.Process.KillProcess | src/process.ts:76-80 | kills the current handle if any, then clears it and `active` |
| Supervisor.Process.RespawnProcess | src/process.ts:82-89 | kills, then schedules one respawn after the restart delay |
| Supervisor.Process.OnClose | src/process.ts:114-125 | computes exactly `Closed` |
| Supervisor.Process.OnRestartTimer | src/process.ts:86-88 | the fired timer is removed and `spawnProcess` runs, throwing without effect when `package.json` cannot be read |
| Supervisor.Process.OnReceiveData | src/process.ts:100-112 | a multipart packet reaches the engine's buffer exactly once; anything else leaves the engine unchanged |

## Left out

- File I/O is not modelled: `readdirSync`, `readFileSync`, `existsSync` and `writeFileSync`. A directory listing is given as a list of entries; a parsed file is an optional document (`None` when `JSON.parse` throws); `export` is modelled as the document it would write.
- `Date` arithmetic and locale formatting are not modelled. Timestamps are opaque integers, and `getDay()` comes with each directory entry. The file name and time-range key of `export` are parameters.
- Timers (`setInterval`, `setTimeout`), `fork` and the child-process event wiring are not modelled. The events are method calls made by the environment, and a pending `setTimeout` is a recorded delay.
- Console output is not modelled: `ProcessConsole`, `suppress_console`, `#onLogData`, `#onLogError` and `#exportError` only print or write text files.
- Numbers are exact reals. `toFixed(2)` is rounding to the nearest hundredth, halves away from zero; binary floating point, `Infinity` and `NaN` are not modelled.
- Object keys that look like integers are listed first by `Object.keys` in JavaScript. The model lists keys in insertion order. Weekday names, labels and time-range keys are never integer-like, and error codes are kept in a map.
- A document whose `overview` is `null` or not an object cannot be represented. A missing `overview` is modelled and contributes nothing.
- The random draws of `format` are parameters.
- Engine.AnalyticsEngine.OnTick: assumes the existing log file is absent or parses. AnalyticsStatistics.Export and StatisticsWrappers.WExport call `JSON.parse` outside any `try`. A corrupt file would make `#onHourTick` or `#onDayTick` throw after the tick advanced, leaving the buffers out of step with the tick.
- Logs.LogHistory.Generate: assumes every `.json` entry can be read. `readFileSync` sits outside the `try`, so an unreadable entry aborts `generate` and keeps the records appended so far. Only parse failures are modelled.
- Only the two packet types of the dependency package that the code inspects are modelled. Any other packet type is represented by `NetworkRequest`.
- AnalyticsStatistics.Statistics.FromStatisticsBuffer: requires a non-empty buffer and, for a receiver that already holds a handle or processing sum, a child with multipart requests. On an empty buffer the source throws at `buffer[0]`; in the second case it divides by zero.
- AnalyticsStatistics.FromPackets: requires a consistent snapshot. Every reducer the class builds is consistent, and this rules out a division by a zero multipart count.
- Logs.LogHistory.AverageTimings: returns no result for an empty history, where the source divides by zero and returns `NaN`s.
- src/analytics-api-service.ts, src/process-console.ts and src/index.ts are not part of this model. They hold HTTP routing, console formatting and wiring.

## Findings

| source | as written | input that shows it | evidently intended | confidence | as-written member | corrected member |
|---|---|---|---|---|---|---|
| src/analytics/logs.ts:124-126 | `requestsPerDay` merges entries whose `Date` is the same object. `generate` builds one `Date` per file, so the daily file `DD-MM-YYYY.json` and the rollup file `DD-MM-YYYY-overview.json` of one day are listed as two separate days | two history entries from those two files: equal date text, different `Date` objects | entries of the same calendar day are merged into one total | not executed | Logs.SameDayListedTwice | Logs.PerCalendarDayTotals |
