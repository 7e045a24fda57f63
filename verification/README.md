# WinTune in Dafny

A Dafny model of the parts of WinTune that carry state, serialise data or make
decisions, with proofs of what those parts promise together. Everything in C that
updates fields, buffers or arrays is a class or a method with loops, proved against
a function of its inputs or of its old state; the promises are lemmas about those
functions. `dafny verify dfyconfig.toml` checks the whole project.

| file | what it models |
|---|---|
| `PdhCache.dfy` | the shared cache of performance queries and every client that opens and closes them |
| `Crc32.dfy`, `Division.dfy` | the CRC-32 table, the running update, and the polynomial division they stand for |
| `ZipFormat.dfy`, `ZipWriter.dfy` | the stored-member ZIP writer and a reader after PKWARE APPNOTE.TXT |
| `JsonText.dfy`, `JsonWriter.dfy`, `JsonLayout.dfy` | the streaming JSON writer, a reader after RFC 8259, and how the pretty text is laid out |
| `RollbackRecord.dfy`, `RecordIsJson.dfy` | the rollback record file, its substring-searching reader, and what a JSON reader makes of it |
| `WindowsSettings.dfy`, `SafeActions.dfy`, `ActionEffects.dfy` | the settings WinTune changes, the guarded actions, their dispatch, and what each action and each id does to the settings |
| `RollbackReplay.dfy`, `RollbackRestores.dfy` | replaying records, and what a whole run's replay restores |
| `ApplyPreview.dfy` | the read-only previews, and how far they predict |
| `StableSort.dfy`, `TopProcesses.dfy`, `GpuProcesses.dfy`, `NetAdapters.dfy` | bounded rankings kept while a stream goes by |
| `ShortLived.dfy`, `DiskLatency.dfy` | short-lived process detection, latency percentiles |
| `ScanMerge.dfy`, `Confidence.dfy`, `Alarms.dfy` | merging samples, scoring them, and the alarms that follow |
| `Recommendations.dfy`, `RecommendationList.dfy`, `Listings.dfy`, `KnownIds.dfy` | the rules, the list they share, when each id is given and what it says, and whether `apply` knows it |
| `DoctorPlan.dfy` | the guided plan: stable order and dependencies |
| `Strings.dfy` | numbers, tokens and delays as the C library reads and writes them |

## How the outside is modelled

- C doubles are `real`: rounding is left out. The CRC register is `bv32`; other
  fixed-width words are `nat` with the wrap-around or saturation written out.
- Calls into Windows are outcomes chosen by the caller of the model (`WindowsSettings.Os`,
  the events of `PdhCache.Run`, the samples of a scan) or nondeterministic choices.
- The query library never gives out a handle twice, and the generation counter does not
  wrap within a run; both are what the cache relies on.
- The samples of a scan are those the collectors deliver: a processor collector that succeeds
  has a reading that is available (src/metrics/cpu.c:162-190), and no percentage is negative
  (src/metrics/cpu.c:44-52, src/metrics/disk.c:195-198, src/metrics/memory.c:286-293).
- Text is a sequence of characters; conversion between UTF-16 and UTF-8 is left out, and
  texts are cut at their buffers' sizes where the code cuts them.

## Where the code differs from what one would expect

- A rollback record reads back a field only if no earlier value is the quoted key or ends
  in a quote and the key, and control characters other than line feed, carriage return and
  tab do not survive (`RollbackRecord.FieldRoundTrip` is the exact condition).
- A startup entry is not restored by its record if its name is empty, holds a bar or such a
  control character, or if its id holds quotes in a way that ends a search of the record; if
  it is restored, a delay it had is not (`RollbackRestores.StartupComesBack`). Undoing a
  startup delay enables the entry whatever it was, or another one
  (`RollbackRestores.StartupDelayComesBack`).
- A task delay with days in it, such as P1D, is listed as none (`Strings.ReadsInFull`). Undoing
  a task delay writes what was listed to every logon trigger, so it restores them exactly when
  each of them was what was listed (`RollbackRestores.TaskDelaysComeBack`,
  `RollbackRestores.OneDayIsLost`), and doing it twice can set a trigger that refused the
  first time (`RollbackReplay.ReplayTwice`).
- The previews of a task delay show values the record does not hold
  (`ApplyPreview.DelayValuesDiffer`), a previewed power change succeeds only if the plan
  is installed (`ApplyPreview.ChangeIsPredicted`), and a plan previewed as active already is
  set and recorded again if it cannot be read by then (`ApplyPreview.NoChangeIsKept`).
- Each GPU list is the top eight of totals clamped at 100, of the processes that got one of the
  1024 keys. By the totals themselves it is their top eight exactly when, of those that reached
  100, no later one used more than one of the first eight (`GpuProcesses.FollowsTotalsExactly`; `GpuProcesses.BusiestCanBeLeftOut`
  is a stream of nine samples for which it is not).
- A hot majority raises the disk alarm but not the processor's (`Alarms.CpuAlarmExactly`,
  `Alarms.MajoritiesDiffer`).
- WT-DISK-006, WT-AUDIO-001 and WT-SEARCH-001 are recommended but unknown to `apply`
  (`KnownIds.ShownIdsAreKnown`).

## Model

| member | source | states |
|---|---|---|
| PdhCache.Run | src/metrics/pdh_utils.c:30-226 | after any run of nested scopes and client calls, each failing or succeeding freely, at most eight queries are open and none outside a scope; closing and using demand an open query, so no run closes one twice or touches a closed one |
| PdhCache.Cache.Begin | src/metrics/pdh_utils.c:30-39 | opening a scope keeps the cache consistent; the outermost one starts a new generation |
| PdhCache.Cache.End | src/metrics/pdh_utils.c:41-63 | leaving the outermost scope closes every tracked query and retires all slots by a new generation; an inner end closes nothing |
| PdhCache.Cache.Track | src/metrics/pdh_utils.c:75-83 | a query is appended when a scope is running, the query is not NULL and there is room, and nothing changes otherwise |
| PdhCache.Cache.Forget | src/metrics/pdh_utils.c:85-103 | the swap-remove closes exactly the given query and leaves exactly the others tracked, each once |
| PdhCache.Cache.LiveIsOpen | src/metrics/pdh_utils.c:116-132 | a cache hit denotes an open query, and its counters belong to it |
| PdhCache.RoomForOneMore | src/metrics/pdh_utils.c:75-83 | with eight slots and eight places a client that misses never finds the tracked list full |
| PdhCache.Cache.Keep | src/metrics/pdh_utils.c:134-206 | a query a client offers is cached exactly when a scope is running, and is then found again in that slot only |
| PdhCache.Cache.CollectCpu | src/metrics/cpu.c:91-191 | keeps the cache consistent and other slots untouched; a hit opens nothing; success within a scope leaves a hit |
| PdhCache.Cache.CollectDisk | src/metrics/disk.c:319-526 | the same for the disk client, whose hit depends on the volumes asked for |
| PdhCache.LettersAreDrives | src/metrics/disk.c:286-317 | a cached disk query answers for the same drives in the same order, whatever the case of their letters |
| PdhCache.Cache.CollectGpu | src/metrics/gpu.c:503-657 | the same for the GPU client, which keeps its query even when the array cannot be read |
| PdhCache.Cache.CollectMemory | src/metrics/memory.c:125-221 | the same for the memory client, which caches only a query that got a counter, and within a scope always that one if it could be collected |
| PdhCache.Cache.FindSingle | src/metrics/pdh_utils.c:116-132 | finds a slot that answers for the path in this generation exactly when there is one |
| PdhCache.Cache.ReserveSingle | src/metrics/pdh_utils.c:134-149 | yields a free or stale single slot, and none only when all answer or no scope is running |
| PdhCache.Cache.SampleSingle | src/metrics/pdh_utils.c:151-226 | keeps the cache consistent and every query that is live for another path; a cached path opens nothing new; on success the path is cached if and only if it was, or a scope is running, it is shorter than 192 characters and a slot was free or stale |
| Crc32.Table.Init | src/common/zip_store.c:15-35 | the table built on first use holds the eight-fold division of every byte |
| Crc32.Table.Update | src/common/zip_store.c:37-47 | the table-driven update equals feeding the message bit by bit into the polynomial division, from any register |
| Crc32.TableIsBitwise | src/common/zip_store.c:23-44 | one table step is eight bit steps of the reference |
| Crc32.RegisterConcat | src/common/zip_store.c:37-47 | updating over two chunks in turn is one update over their concatenation |
| Crc32.ChecksumFile | src/fleet/fleet_pack.c:138-167 | over any chunking the pass yields the size and CRC of the whole file, and refuses exactly files over the limit |
| Crc32.RegisterInjective | src/common/zip_store.c:37-47 | two different registers stay different under any common continuation |
| Crc32.FourStepsInjective | src/common/zip_store.c:37-47 | four byte steps from one register tell all four bytes apart |
| Crc32.BurstsAreDetected | src/common/zip_store.c:37-52 | two messages of one length that differ only within four consecutive bytes never have the same CRC |
| Crc32.PolynomialIs | src/common/zip_store.c:15-35 | the constant has exactly the exponents of RFC 1952, reflected |
| Crc32.MagicNumber | src/common/zip_store.c:37-52 | any message followed by its CRC leaves the register of APPNOTE.TXT section 4.4.7, 0xdebb20e3 |
| ZipFormat.ReadsArchive | src/common/zip_store.c:119-338 | the reference reader, which refuses encrypted members, data descriptors, names not in UTF-8 and versions above 2.0, recovers every name, CRC, size and content through the stored offsets, below 2^32 bytes |
| ZipFormat.ArchivesDiffer | src/common/zip_store.c:119-338 | two different lists of members never make the same file |
| ZipWriter.Writer.Write | src/common/zip_store.c:54-85 | a write appends all its data or marks the writer failed for good |
| ZipWriter.PutU32 | src/common/zip_store.c:93-99 | four bytes are stored little-endian and only they |
| ZipWriter.Writer.AddLocal | src/common/zip_store.c:119-213 | success adds exactly the member asked for and needs a legal name and matching size; failure adds none |
| ZipWriter.Writer.AddBytes | src/common/zip_store.c:241-252 | the member added carries the CRC of its data |
| ZipWriter.Writer.AddPath | src/common/zip_store.c:254-259 | the member added is the first size bytes of the file under the CRC given |
| ZipWriter.Writer.Finish | src/common/zip_store.c:261-338 | a successful finish leaves the archive of the members added; a failed one leaves no file unless Windows refuses to delete it |
| ZipWriter.Pack | src/common/zip_store.c:215-358 | after any run of adds, some failing anywhere, a successful finish leaves exactly the archive of the accepted members; any other outcome leaves no file unless it could not be deleted |
| ZipWriter.PackedArchiveReads | src/fleet/fleet_pack.c:455-595 | given true sums and less than 4 GiB, what was packed reads back, every CRC being that of its content |
| JsonText.ReadsDocument | src/output/json.c:91-269 | the text of any value, compact or pretty, parses back to that value under RFC 8259 |
| JsonText.PrettyIsCompactSpaced | src/output/json.c:102-111 | the pretty text without the white space outside strings is the compact text |
| JsonLayout.PrettyIsLaidOut | src/output/json.c:102-128 | in the pretty text lines break after commas, after brackets that open something and before those that close it, and nowhere else, and start with two spaces a level |
| JsonText.ReadsQuoted | src/output/json.c:130-153 | every written string literal is read back whole, whatever it contains |
| JsonWriter.Writer.ValuePrefix | src/output/json.c:115-128 | the separator written is the one the place of the value calls for, and the level's count follows |
| JsonWriter.Writer.StringValue | src/output/json.c:221-225 | a string is placed as a value and written escaped |
| JsonWriter.Writer.Key | src/output/json.c:201-219 | a key is led by its separator, counted once, and makes the writer await a value |
| JsonWriter.Writer.Begin | src/output/json.c:155-186 | an opening bracket is placed as a value and opens an empty level, up to 32 |
| JsonWriter.Writer.End | src/output/json.c:165-199 | a closing bracket ends the innermost level, on its own line when it held something |
| JsonWriter.Emit | src/output/json.c:155-269 | the calls that describe a value tree write that tree's text wherever the writer stands |
| JsonWriter.WriteDocument | src/output/json.c:91-269 | for nesting at most 32 the finished document reads back as the value described |
| RollbackRecord.WriteRecord | src/actions/rollback.c:155-167 | the eight members are printed in their order as one JSON object |
| RecordIsJson.RecordIsDocument | src/actions/rollback.c:28-46 | a record file is a JSON document of its members in order, whatever their values hold |
| RollbackRecord.JsonGet | src/actions/rollback.c:61-98 | the pointer walk returns what the substring search, the unescaping and the cut define |
| RollbackRecord.ReadByKey | src/actions/rollback.c:61-98 | for every written file and key, reading finds the first field of that name unless an earlier value ends the search |
| RollbackRecord.SearchValue | src/actions/rollback.c:28-81 | the search stops inside an escaped value only at its end, and there only if the value is, or ends in a quote and, the key |
| RollbackRecord.StopsIsClash | src/actions/rollback.c:28-81 | the search stops at a value exactly when it clashes with the key |
| RollbackRecord.RereadIsOriginal | src/actions/rollback.c:28-46 | a value survives escaping and unescaping exactly when its control characters are line feed, carriage return and tab |
| RollbackRecord.FieldRoundTrip | src/actions/rollback.c:28-98 | the exact condition for a field to be read back: no earlier clash, legible, and fitting the buffer |
| Strings.DecimalIsRead | src/actions/rollback.c:403-406 | a printed number is read back whatever follows it |
| Strings.TokenFirst | src/actions/rollback.c:347-352 | splitting at bars yields a clean piece first and goes on after it |
| Strings.IsoReads | src/system/tasks.c:50-79 | a logon delay that is set is the delay that is listed |
| Strings.ReadsInFull | src/system/tasks.c:50-79 | the listing reads a duration of days, hours, minutes and seconds in full if and only if it is zero, or has no days and fits 32 bits |
| SafeActions.Machine.SetPowerPlan | src/actions/safe_actions.c:57-138 | the guards in order, three reads of the plan that may fail one by one, the change and its record, as the decision that the restore theorems are about |
| SafeActions.Machine.SetStartupEnabled | src/actions/safe_actions.c:427-542 | the same for enabling and disabling a startup entry |
| SafeActions.Machine.SetStartupDelay | src/actions/safe_actions.c:601-694 | the same for delaying a startup entry |
| SafeActions.Machine.SetEnabled | src/actions/safe_actions.c:696-769 | the same for enabling and disabling a task |
| SafeActions.Machine.SetDelay | src/actions/safe_actions.c:771-845 | the same for delaying a logon task |
| SafeActions.Machine.RestartService | src/actions/safe_actions.c:213-345 | the same for a restart, whose stop, wait, start and second wait fail one by one; it changes no setting and leaves an audit note only when all went well |
| SafeActions.Machine.WriteLogonDelay | src/system/tasks.c:727-823 | every logon trigger that can takes the delay and the others keep theirs; a task of which none takes it is refused |
| SafeActions.Machine.ApplyRequest | src/actions/action_map.c:89-185 | a request runs the one action its id and target stand for, with the default delay, or is refused unchanged |
| ActionEffects.PlanEffect | src/actions/safe_actions.c:57-138 | when a power change succeeds, and that the plan is then the one asked for and nothing else but the records differs |
| ActionEffects.PlanGuids | src/system/power.c:242-250 | the four plans by the GUIDs of Windows |
| ActionEffects.StartupEffect | src/actions/safe_actions.c:427-542 | when enabling or disabling an entry succeeds, and that the flag at its own place in the registry is then even or odd as asked and nothing else differs |
| ActionEffects.StartupDelayEffect | src/actions/safe_actions.c:601-694 | when a startup delay succeeds, and that the flag then delays by the seconds asked for and nothing else differs |
| ActionEffects.NoEntryNoEffect | src/actions/safe_actions.c:427-694 | an id of no entry changes nothing |
| ActionEffects.TaskEffect | src/actions/safe_actions.c:696-769 | when enabling or disabling a task succeeds, and that its flag is then the one asked for and nothing else differs |
| ActionEffects.TaskDelayEffect | src/actions/safe_actions.c:771-845 | when delaying a task succeeds, and that each trigger that takes it then waits the seconds asked for and nothing else differs |
| ActionEffects.OtherTaskIds | src/system/tasks.c:638-651 | an id that is not a task path changes nothing |
| ActionEffects.RestartEffect | src/actions/safe_actions.c:213-345 | when a restart succeeds, and that it changes no setting |
| ActionEffects.NewValueIsWayBack | src/actions/safe_actions.c:500-530 | the new value of a record is what the record of the way back would hold as its previous one |
| ActionEffects.PowerIds | src/actions/action_map.c:8-15 | WT-POWER-001 and WT-POWER-002, in any letter case, set High performance and Balanced by their GUIDs, and exactly when they succeed |
| ActionEffects.DisableStartupId | src/actions/action_map.c:8-15 | WT-STARTUP-DISABLE leaves the entry not starting, and exactly when it succeeds |
| ActionEffects.DelayStartupId | src/actions/action_map.c:8-15 | WT-STARTUP-DELAY delays the entry, thirty seconds by default, and exactly when it succeeds |
| ActionEffects.DisableTaskId | src/actions/action_map.c:8-15 | WT-TASK-DISABLE disables the task, and exactly when it succeeds |
| ActionEffects.DelayTaskId | src/actions/action_map.c:8-15 | WT-TASK-DELAY makes the triggers wait, thirty seconds by default, and exactly when it succeeds |
| ActionEffects.OtherIds | src/actions/action_map.c:89-185 | no other id changes anything, nor do these four without a target |
| RollbackReplay.RollbackApply | src/actions/rollback.c:292-460 | a replay splits the stored value by its kind and makes the change back, or refuses unchanged |
| RollbackReplay.ReplayTwice | src/actions/rollback.c:292-460 | replaying a record a second time changes nothing more, whatever it holds and Windows answers, except exactly when it sets the delay of a logon trigger that refused the first time |
| RollbackReplay.RecordReads | src/actions/rollback.c:292-311 | the kind of a saved record is read back as it was written; of its previous value what fits of the reading, which is the value itself if legible |
| RollbackRestores.UndoChange | src/actions/rollback.c:292-460 | replaying the record of one change, in any later world that shows what the change left, shows the settings from before it and leaves the store alone, provided its fields have no bars or odd control characters and fit their buffers, no search stops in its id, a delayed startup entry was enabled, and the replay is confirmed and not refused by Windows; startup delays and the durations of all triggers come back too if the entry had none and the triggers were what was listed |
| RollbackRestores.RollbackRestores | src/actions/rollback.c:292-460 | after any run of actions, refused, kept or made, replaying its records newest first restores plan, startup flags, task flags and listed task delays, or everything, startup delays and the duration of each trigger included, provided every change made was saved under a new id and meets the conditions of `UndoChange` for the one or the other |
| RollbackRestores.StartupComesBack | src/actions/rollback.c:338-364 | a startup change is undone if and only if the entry's name is not empty, has no bar and no control character but line feed, carriage return and tab, and no search of the record stops in its id; with its delay if and only if, besides, it had none |
| RollbackRestores.StartupDelayComesBack | src/actions/rollback.c:417-443 | exactly when a startup delay is undone completely: the entry was enabled, and undelayed if a record carries its name and no search stops in its id; if not, its delay was that one already and the flag replayed instead, if any, was enabled and undelayed |
| RollbackRestores.TaskDelaysComeBack | src/actions/rollback.c:390-414 | the listed delay of a task always comes back from a record that carries its path; the durations of its triggers do if and only if each of them is what was listed |
| RollbackRestores.OneDayIsLost | src/system/tasks.c:50-79 | a task whose one trigger waits P1D does not get its day back |
| ApplyPreview.FillRequest | src/actions/apply_preview.c:454-530 | the preview, filled field by field, is the one the prediction lemmas are about; nothing is changed |
| ActionEffects.PreviewNames | src/actions/apply_preview.c:454-530 | a preview names the id and the target it was asked for and says that the change can be rolled back |
| ApplyPreview.BlockedIsRefused | src/actions/apply_preview.c:109-530 | what a preview calls blocked is refused by apply without change, whatever Windows answers |
| ApplyPreview.NoChangeIsKept | src/actions/apply_preview.c:109-530 | a preview that announces no change means apply changes no setting, and writes a record exactly when it is for a power plan, the current one cannot be read by then and setting it again succeeds |
| ApplyPreview.ChangeIsPredicted | src/actions/apply_preview.c:109-530 | when the user agrees and Windows lists and reads what it did for the preview, and the plan after a power change, an announced change is made exactly when elevated if required, for power when the plan exists, for a task delay when some trigger takes it; the record then holds the announced kind, description and, but for task delays, values |
| ApplyPreview.DelayValuesDiffer | src/actions/apply_preview.c:433-445 | the announced values of a task delay match the record only for paths that leave no room for them |
| StableSort.SortIsStable | src/core/doctor_plan.c:196-204 | inserting one by one keeps the elements, orders them and never reorders a tie |
| StableSort.StableSortIsUnique | src/core/doctor_plan.c:196-204 | order and tie order leave only one outcome |
| StableSort.TakeInsert | src/metrics/process.c:349-385 | only the first n places of an ordered sequence decide the first n places after an insertion |
| TopProcesses.TopkInsert | src/metrics/process.c:349-385 | one bounded insertion in place keeps the head of the ordering after the candidate joined |
| TopProcesses.RankProcesses | src/metrics/process.c:1108-1380 | after any stream the array holds the head of the stable descending sort of the eligible processes |
| TopProcesses.RankingMeaning | src/metrics/process.c:258-385 | the ranking is ordered, keeps ties in arrival order, has min(limit, eligible) places, and nobody left out outranks anybody in it |
| TopProcesses.RankingByFields | src/metrics/process.c:258-385 | by the measured fields alone: everyone ranked takes part, is at least as busy as those after it and as anyone left out, and nobody who takes part is left out before the ranking is full |
| ShortLived.SeenNote | src/metrics/process.c:991-1020 | the table keeps telling, of every pid it holds, when and how it was first seen and where it still is |
| ShortLived.SampleWindow | src/metrics/process.c:1084-1106 | the sleeps add up to exactly the window and the table covers every poll that fits |
| ShortLived.SeenEmit | src/metrics/process.c:1044-1082 | born-and-died processes come first, then those that were there at the start, up to the cap |
| ShortLived.CollectShortLived | src/metrics/process.c:1287-1357 | the report of a whole collection, tied to everything its enumerations saw |
| ShortLived.ReportedWasShortLived | src/metrics/process.c:1044-1082 | a reported process was seen in the window and is absent from the closing enumeration |
| ShortLived.ReportedPidsDistinct | src/metrics/process.c:991-1082 | no pid is reported twice |
| ShortLived.ShortLivedIsReported | src/metrics/process.c:991-1082 | unless the table filled up, every eligible process is among the candidates of its pass |
| ShortLived.CollectionIsOneSample | src/metrics/process.c:1044-1082 | one collection reports at most sixteen processes of distinct pids |
| ShortLived.MergeScan | src/core/scan.c:366-383 | over the samples of a scan what remains are the first sixteen first reports: pids are distinct, all were reported, and none is missing while there is room |
| DiskLatency.LatencyPush | src/metrics/disk.c:140-162 | a window is stored while there is room and both figures are recomputed from what is stored |
| DiskLatency.ReportedFiguresAreThePercentiles | src/metrics/disk.c:124-162 | the two figures are the nearest-rank 50th and 95th percentiles of the stored samples, the first no greater |
| DiskLatency.PercentileIsUnique | src/metrics/disk.c:124-138 | there is only one nearest-rank percentile |
| DiskLatency.ScanLatency | src/core/scan.c:336-351 | over a whole scan no window that was read is dropped |
| GpuProcesses.PidAdd | src/metrics/gpu.c:96-118 | the table holds the first processes of the stream, as many as it has room for, each with its exact total |
| GpuProcesses.KeepProcess | src/metrics/gpu.c:120-156 | a new process takes its place in the ordered eight, a listed one only has its figure raised |
| GpuProcesses.AdapterListIsTopEight | src/metrics/gpu.c:612-637 | nobody who has a key and is left out of a list shows more than anybody in it, and nobody is left out before it is full |
| GpuProcesses.ListedFigureIsTrue | src/metrics/gpu.c:612-637 | every process shown carries its true total, shown as at most 100 |
| GpuProcesses.RawTotalsAgreeBelowHundred | src/metrics/gpu.c:120-156 | by unclamped totals a left-out process that has a key can only exceed a listed one that reached 100 |
| GpuProcesses.FollowsTotalsExactly | src/metrics/gpu.c:612-637 | by unclamped totals nobody with a key who is left out exceeds anybody listed if and only if, of the processes with a key that reached 100 in order of first use, none after the eighth exceeds any of the first eight |
| GpuProcesses.EightHotFollowTotals | src/metrics/gpu.c:612-637 | with at most eight processes with a key at 100 or more the list always follows the unclamped totals of those with a key |
| GpuProcesses.UsersAreTracked | src/metrics/gpu.c:96-118 | up to 1024 processes every one that used an adapter has a key |
| GpuProcesses.ProcessUses | src/metrics/gpu.c:556-637 | from the samples of one counter array to every adapter's list: ordered, true totals shown as at most 100, nobody with a key left out who shows more, and the exact condition under which this holds of the totals |
| GpuProcesses.BusiestCanBeLeftOut | src/metrics/gpu.c:120-156 | a stream of nine samples above 100 whose busiest process is not listed |
| NetAdapters.KeepBusiest | src/metrics/network.c:139-158 | a candidate joins while there is room, then replaces the first quietest if it is busier |
| NetAdapters.CollectAdapters | src/metrics/network.c:185-229 | kept and dropped partition the stream, nothing is dropped before the array is full, and nothing dropped has more octets, in and out together modulo 2^64, than anything kept |
| ScanMerge.Metric.Merge | src/core/scan.c:106-283 | after one more sample the value is the exact mean of those supplied, the counts are exact and the peak is theirs |
| ScanMerge.PeakIsMaximum | src/core/scan.c:200-204 | the kept peak is the greatest value |
| ScanMerge.TimeAdd | src/core/scan.c:66-78 | a collector's clock stays the true sum clipped at 2^32-1 |
| ScanMerge.MergeTimes | src/core/scan.c:393-402 | the clocks of two samples merge to the clipped sum of both |
| ScanMerge.RunScan | src/core/scan.c:584-629 | after all samples means, counts, peaks and clocks are those of the whole scan, the peaks being the maxima, the clocks the sums clipped at 2^32-1, and the memory sizes those of the last sample that has any |
| Confidence.Compute | src/core/confidence.c:103-180 | the adjustments, made one after another, add up to the score and stay within 40 and 95 |
| Confidence.ScoreGrows | src/core/confidence.c:103-180 | more samples over a longer time with less spread never lower the confidence, if neither the base nor the collector's own adjustment drops |
| Confidence.HighBaseEmits | src/core/confidence.c:182-216 | the bases the alarms use can never be voted below the threshold |
| Confidence.Steps | src/core/confidence.c:103-180 | where each adjustment changes and by how much |
| Alarms.DiskAlarmExactly | src/core/recommendations.c:359-442 | the disk alarm is raised if and only if the one good sample reached 95, or of two or more the mean or a strict majority reached 90 |
| Alarms.DiskAlarmIsSound | src/core/recommendations.c:359-442 | no alarm without a sample at 90 (95 if alone); always one for a strict hot majority of two or more |
| Alarms.AlarmIsListed | src/core/recommendations.c:412-500 | WT-DISK-001 is in the list if and only if the alarm is raised |
| Alarms.MemoryIsListed | src/core/recommendations.c:205-246 | WT-MEMORY-001 is in the list if and only if the memory alarm is raised |
| Alarms.Recommend | src/core/recommendations.c:1585-1613 | from samples through merging, scoring and the rules: WT-DISK-001, WT-MEMORY-001 and WT-CPU-001 appear exactly when the samples call for them |
| Alarms.CpuAlarmExactly | src/core/recommendations.c:925-977 | the processor alarm is raised if and only if the one good reading reached 95, or of two or more the mean reached 85; a hot majority is not enough |
| Alarms.MemoryAlarmExactly | src/core/recommendations.c:205-246 | the memory alarm is raised if and only if the last good sample has less than 10 percent available, or less than 20 and a strict majority of the good ones had |
| Alarms.CpuIsListed | src/core/recommendations.c:925-977 | WT-CPU-001 is in the list if and only if the processor alarm is raised |
| Alarms.ReadingsAre | src/core/scan.c:106-283 | what counts as hot: a disk at 90 percent, a processor at 85, less than a fifth of the memory available |
| Alarms.SpreadIsPeakLessMean | src/core/confidence.c:26-101 | the spread is the peak of the good samples less their mean, the window the time from the first sample to the last |
| Alarms.MajoritiesDiffer | src/core/recommendations.c:925-945 | three samples on which the disk alarm is raised and the processor's is not |
| Recommendations.AtMostThirty | src/core/recommendations.c:1585-1613 | no report and no collector outcome yields more than thirty recommendations |
| Recommendations.IdsAreDistinct | src/core/recommendations.c:1585-1613 | no id is given twice |
| RecommendationList.List.Add | src/core/recommendations.c:62-73 | an item is appended while there is room, and nothing is lost or moved otherwise |
| RecommendationList.CheckPower | src/core/recommendations.c:91-203 | the power rule appends exactly what it finds |
| RecommendationList.CheckDisk | src/core/recommendations.c:412-593 | the disk rule appends one activity finding at most, and the fullest volume |
| RecommendationList.CheckStorage | src/core/recommendations.c:595-711 | a failing disk is reported before a warning one, once |
| RecommendationList.CheckBoot | src/core/recommendations.c:979-1104 | the boot rule appends slow boots, degradation and the first slow component |
| RecommendationList.Generate | src/core/recommendations.c:1585-1613 | every append finds room: the list ends up holding all that the rules found, in order |
| Listings.PowerListed | src/core/recommendations.c:91-203 | when each power id is given, by the values read |
| Listings.MemoryListed | src/core/recommendations.c:205-357 | when each memory id is given |
| Listings.DiskListed | src/core/recommendations.c:412-711 | when each disk id is given |
| Listings.ReliabilityListed | src/core/recommendations.c:713-822 | when each reliability id is given |
| Listings.MaintenanceListed | src/core/recommendations.c:823-924 | when each maintenance id is given |
| Listings.ActivityListed | src/core/recommendations.c:925-1583 | when the processor, graphics, sound and search ids are given; never WT-GPU-001 from one sample |
| Listings.BootListed | src/core/recommendations.c:979-1104 | when the boot ids and WT-STARTUP-001 are given; never on a first boot |
| Listings.UpdateListed | src/core/recommendations.c:1106-1193 | when each update id is given |
| Listings.BlockerListed | src/core/recommendations.c:1194-1441 | when the blocker and uninstall ids are given |
| Listings.StartupListed | src/core/recommendations.c:1252-1326 | WT-STARTUP-002 is given if and only if some startup entry is enabled, not guarded and scores 65 at a confidence of 50 |
| Listings.TaskListed | src/core/recommendations.c:1327-1400 | WT-TASK-001 likewise, for tasks not delayed yet |
| Listings.StartupSays | src/core/recommendations.c:1252-1326 | the entry WT-STARTUP-002 offers to disable is always the first such one, never a guarded one |
| Listings.TaskSays | src/core/recommendations.c:1327-1400 | the task WT-TASK-001 offers to delay is always the first such one, never a guarded one |
| Listings.PowerSays | src/core/recommendations.c:91-203 | action, severity and confidence of each power id |
| Listings.MemorySays | src/core/recommendations.c:205-357 | the same of the memory ids |
| Listings.DiskSays | src/core/recommendations.c:412-711 | the same of the disk ids |
| Listings.ReliabilitySays | src/core/recommendations.c:713-822 | the same of the reliability ids |
| Listings.MaintenanceSays | src/core/recommendations.c:823-924 | the same of the maintenance ids |
| Listings.ActivitySays | src/core/recommendations.c:925-1583 | the same of the processor, graphics, sound and search ids |
| Listings.BootSays | src/core/recommendations.c:979-1104 | the same of the boot ids and WT-STARTUP-001, which tells of the first slow component |
| Listings.UpdateSays | src/core/recommendations.c:1106-1193 | the same of the update ids |
| Listings.BlockerSays | src/core/recommendations.c:1194-1441 | the same of the blocker and uninstall ids |
| Listings.ComesFromRule | src/core/recommendations.c:1585-1613 | every recommendation comes from the one rule that can give its id |
| KnownIds.ShownIdsAreKnown | src/actions/action_map.c:8-74 | every id that can be recommended is known to apply except WT-DISK-006, WT-AUDIO-001 and WT-SEARCH-001 |
| DoctorPlan.StepLessIsWeakOrder | src/core/doctor_plan.c:93-108 | the comparison of steps is a strict weak order |
| DoctorPlan.PlanIsStableSort | src/core/doctor_plan.c:167-212 | the plan is the stable sort of the recommendations, one step for each |
| DoctorPlan.PlanDependencies | src/core/doctor_plan.c:123-165 | steps are numbered in order, every dependency names an earlier step, and what is the last so far is the last of the whole plan |
| DoctorPlan.WaitsForWhom | src/core/doctor_plan.c:123-165 | by the ids alone: updates and power steps wait for a blocker that no later blocker follows; startup steps for the last power step that can be applied, else the blocker; task steps for the last startup step, else that power step; each for nothing if there is none, and no other step for anything |
| DoctorPlan.PlanOrder | src/core/doctor_plan.c:59-108 | blockers, updates, power, findings, boot, startup, uninstall, tasks and the rest come in that order; within a category no step is worse than one before it; of steps as bad those that can be applied come first, then by id |
| DoctorPlan.PlanCarries | src/core/doctor_plan.c:175-195 | every recommendation is a step with its id, command, severity, flags and confidence |
| DoctorPlan.WhatCanBeApplied | src/core/doctor_plan.c:39-57 | of all a scan can recommend exactly WT-POWER-001, WT-POWER-002, WT-STARTUP-002 and WT-TASK-001 can be applied |
| DoctorPlan.Doctor.Build | src/core/doctor_plan.c:167-212 | the array built in place holds the plan, and the two counts are those of the recommendations that can and cannot be applied |
| DoctorPlan.InsertionSort | src/core/doctor_plan.c:196-204 | shifting in place computes the stable sort |
| DoctorPlan.AssignDepends | src/core/doctor_plan.c:123-165 | each step's dependency is that of the steps before it, and nothing else changes |
| DoctorPlan.Guide | src/core/doctor_plan.c:167-212 | from what the collectors found to the finished plan of all recommendations |
| DoctorPlan.PlanOfScan | src/core/doctor_plan.c:175-195 | a plan has one step for every recommendation and no two of one name |

## Left out

- Windows, PDH, ETW, DXGI, registry, service-manager and COM calls themselves: outcomes or choices.
- Text, table, tray, launcher and TUI output, and the command wrappers: printing only.
- SHA-256, file globbing, temporary files, clock reads: inputs.
- Rounding of doubles and `%.1f` formatting: reals, and opaque number tokens in JSON.
- The document emitters of src/output/json.c: they are sequences of the writer's calls.
- JSON nesting beyond 32 levels, archives of 2^32 bytes or more, reuse of handle values.
- The `qsort` order of process lists and its network comparator: they disagree with the key of the bounded ranking.
- GUID parsing: a power plan is named by its canonical text, and any other text names none.
- What decides that a task is protected, and the impact scores of startup entries and tasks: attributes of the model's entities.
- Failures of the task scheduler before a task's triggers are reached: one outcome with the failure to register the task.
- A startup flag that cannot be read, which the code takes for enabled.
- Task delays with years, months, weeks or fractions: they stand for no number of seconds here.
- A service left stopped by a failed restart: services are not among the modelled settings.
- Throughput, queue length, DPC, interrupt, network and per-volume averages of a scan: weighted by sample index, not claimed to be means.
- Titles, reasons and prose advice of recommendations, titles, risks and notes of plan steps, summaries of previews.
- Listing rollback records, page bounds of process lists, adapter rates, TCP and UDP accounting: no property beyond their bodies.
- The manifest and checksum texts of a fleet package, and the choice of its files.
