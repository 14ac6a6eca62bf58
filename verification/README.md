# sACN: merging, receiving and tracking, verified

A Dafny model of the core of ETC's sACN library, a C implementation of ANSI E1.31 (streaming ACN) with
per-address priority (PAP), and proofs about it. Run `dafny verify dfyconfig.toml`.

The C code mutates records and buffers in place, so each of its stateful components appears here as a class
whose methods follow the C functions branch by branch. Next to each class there is a value model: what an
operation does to the abstract state, written without loops or patching. Every public method is proved to
take its object exactly to the state the value model gives, and the theorems about whole runs are proved on
the value model.

| files | component |
|---|---|
| `Common`, `Interfaces`, `Runs` | handles, ordered iteration, status codes, interface lists; runs of any machine |
| `MergeSpec`, `MergerModel`, `SentData`, `OwnerHistory`, `StoredPriorities`, `DmxMerger` | the DMX merger (`src/sacn/dmx_merger.c`) |
| `MergeReceiverModel`, `MergeReceiverProofs`, `Refusals`, `NotifiedData`, `MergedNotices`, `SourceInfos`, `MergeReceiver` | the merge receiver with its live and sampling mergers (`src/sacn/merge_receiver.c`): where its sources are, what a full merger refuses, when its outputs merge what was notified, and when they are handed over |
| `SourceTracking`, `SourceRuns`, `SourceHistory` | one tracked source: PAP wait, PAP loss, termination, tick classification (`src/sacn/receiver_state.c`) |
| `SamplingPeriod`, `StatusLists`, `SourceLoss`, `ReceiverModel`, `ReceiverRuns`, `PeriodInterfaces`, `TrackedSources`, `Receiver` | one receiver: packets, ticks, sampling periods, source loss, network and universe changes |
| `LossRuns`, `LossMarks`, `LossSets`, `LossOrigins`, `LossWaiting`, `SecondLoss`, `LimitNotices` | source loss over whole runs: who is reported, how and with whom, what a report waits for, and when a source limit is announced again |
| `MergedUniverse`, `MergedOutputs`, `Routing`, `LossCallbacks` | a receiver, its termination sets and the merge receiver on top of them, composed: which sources it knows, and what its outputs are, over whole runs |
| `NetintLists` | validation and application of per-universe and per-receiver interface lists (`src/sacn/source.c`, `src/sacn/receiver.c`) |
| `Pdu`, `SendBuffer`, `WireFormat` | packing, in-place editing and parsing of data packets, and their layout by the standard (`src/sacn/pdu.c`) |

The merge rule is that of `include/sacn/dmx_merger.h:46-52`: in each slot, the highest non-zero effective
priority wins, and among its sources the highest level (section 6.2.3 of ANSI E1.31-2018, refined by PAP).
The effective priority of a source in a slot is its stored PAP below its level count, and 0 beyond it.
Trees are finite maps iterated in handle order. Time is a number of milliseconds passed to each operation.

## Where code and documentation differ

The model follows the code. Each difference is a lemma with a concrete input, and where the documentation
or the standard makes a promise there is also the exact condition under which the code keeps it.

- `include/sacn/dmx_merger.h:160-162` says stored priorities beyond the level count are zeroed. The code keeps them,
  and only their effective priority is 0: `UniversePriorityIsNotZeroed` has a source with one level and a universe
  priority in two slots. They are zero exactly when the levels fill all slots, or when what was sent last does not
  reach beyond them: nothing yet, or PAP that ends before or is zero there, but no universe priority:
  `PrioritiesAreZeroedIff`.
- When a sampling period ends, `src/sacn/merge_receiver.c:913-918` copies PAP only up to the level count. PAP that
  came before any levels is lost: `PapBeforeLevelsIsLost` is a run of callbacks, `MigrationKeepsStoredPapIff` says
  exactly which PAP survives.
- `include/sacn/receiver.h:188-190` promises that PAP is notified before NULL start code data. A preview PAP
  packet that is filtered unlocks NULL start code data without being notified: `FilteredPapUnlocksDmx`,
  `PapNotifiesFirstIffPreviewIsShown`. Merge receivers always filter (`src/sacn/merge_receiver.c:128`).
- `include/sacn/receiver.h:185-186` promises that every valid packet is notified during sampling. A source still
  waiting for PAP when a network reset starts a new period goes on waiting, and a new source with another start
  code is ignored; so are interfaces pending for the next period and sources terminated by an interface change:
  `WaitingOutlastsANewPeriod`, `SamplingPeriodNotifiesIff`.
- `include/sacn/receiver.h:189-191` promises that, outside sampling, PAP and all other start codes but NULL always
  notify. A source first heard with another start code is ignored, and so are other interfaces, terminated sources
  and sources beyond the limit: `OtherStartCodeIsIgnored`, `OutsideSamplingNotifiesIff`.
- `docs/pages/per_address_priority.md:40` gives PAP 2.5 seconds before it counts as lost. A source first seen
  through PAP outside a sampling period loses it after 1.5 seconds (`src/sacn/mem/receiver/tracked_source.c:153-157`):
  `EarlyPapLoss`, `FullTimeoutIffNotFirstSeenByPap`; `LossIsReportedIff` says exactly when losses are reported.
- `include/sacn/receiver.h:289-291` promises a new limit-exceeded call when the number of sources drops below the
  limit and reaches it again. A waiting source that times out makes room silently: `ErasedSourceKeepsLimitQuiet`
  from a state that `IdleIsReached` reaches. The call never comes before the number drops, and then it comes exactly
  when the drop came with a report of lost sources or a universe change: `AnnouncedAfterDropIff`.
- `src/sacn/receiver.c:258-261` promises a sampling period with both notifications after a universe change. When a
  period is already running it simply goes on, and if it had been announced only its end is notified:
  `UniverseChangedMidPeriod`, `NewUniverseIsAnnouncedIff`. `src/sacn/receiver.c:417-418` promises the same for a network
  reset: `ResetMidPeriod`, `ResetIsAnnouncedIff`, and, for a reset inside an announced period,
  `ResetMidPeriodIsAnnouncedIff`.
- A sampling period whose end is noticed before its start was announced is announced as ended first:
  `LateTickEndsBeforeItStarts`, `NoticesAlternateIffPunctual`.
- `docs/pages/source_loss_behavior.md:29-32` has a report wait for the verification of all other tracked sources.
  It does not wait for sources that an earlier loss already waits for (`SecondLossDoesNotWait`), nor for sources
  still waiting for their PAP: `OpenedWaitsForAllIff` says exactly when the promise is kept, and
  `SilentIsLeftBehind` builds the run that breaks it otherwise. A source is sure to show up by a given time when
  its packet timer expires before then and DMX cannot restart it, unseen, within the PAP wait.
- `docs/pages/source_loss_behavior.md:33-35` has all sources found offline during the verification reported
  together. A source goes out exactly with a set that it joined when the set was opened, if it was not found
  online since: `ReportedIff`. In the run of `SecondLossDoesNotWait` one of two goes out alone.
- A network reset tells the interfaces to drop from a running sampling period by its list alone, without asking whether
  they can be used (`src/sacn/sockets.c:1572-1576`). One that is listed as unusable is used no longer, and stays in the
  period: `UnusableInterfaceStaysInThePeriod`, `PeriodsUseOnlyUsedInterfacesIff`.
- Owners, unlike levels and priorities, depend on the order in which tied sources arrived:
  `OwnersDependOnHistory`, `RecordsSettleOwnerIffNoTie`.
- Levels notified with a sampling flag that does not match the merger their source is in are dropped:
  `LevelsArriveIffRoutedToTheSource`. A network reset makes that happen to a live source:
  `LevelsFromTheOtherInterfaceAreDropped`. The merge receiver remembers all that was notified exactly when nothing is
  dropped in this way and no PAP is cut off at the end of a sampling period: `OutputsMergeTheNotifiedIff`. Without
  network resets only the latter can happen: `OnlyPapIsForgottenIff`.
- A receiver drops a source that times out while waiting for PAP without reporting it. If other data of the source
  was notified before, the merge receiver keeps it, and its place in the merger: `DroppedSourceKeepsItsPlace`,
  `MergeReceiverKnowsTheNotifiedIff`, `KnowsTheNotifiedIff`. It knows a source until the source is reported lost, or a
  universe change goes through: `KnownUntilLostIff`.
- `src/sacn/merge_receiver.c:759` and `:1010` assert that a lost source, and one that lost its PAP, is known. A source
  that was tracked but never notified is not: `UnnoticedSourceIsLost` is a possible run, from creation, in which the
  termination sets report such a source; `NamedSourcesAreFoundIff`.
- `src/sacn/merge_receiver.c:648` and `:907` ignore whether a merger had room. A newcomer stays tracked, but out of the
  merger, exactly when that is full: `NewcomerNeedsRoom`. It then stays out even when there is room again:
  `RefusedSourceStaysOut`. A sampling source is lost to the merge when the live merger is full at the end of the
  period: `SamplingSourceIsLostAtTheEnd`. All tracked sources end up live exactly when none was refused before and all
  fit: `EndOfSamplingMovesEverythingIff`. `OneLimitIsEnough` says when there always is room.
- `src/sacn/merge_receiver.c:306-309` has a failed universe change possibly leave an invalid state. It does exactly
  when a source is in neither merger: the receiver has moved then, the sources before that one are out of the mergers,
  and all are still tracked: `RefusedSourceStopsUniverseChange`, `UniverseChangeClearsEverythingIff`.
- A PAP-only source is online at its first tick although it never sent DMX: `PapOnlySourceStartsOnline`,
  `OnlineMeansDmxIffSeenByDmx`, `OnlineWithoutDmxIff`.
- Sequence numbers are compared by plain subtraction (`src/sacn/receiver_state.c:1236-1237`), not in the signed 8-bit
  arithmetic of section 6.7.2 of ANSI E1.31-2018. Packet 250 after packet 5 is taken for a new one:
  `LatePacketPassesForNew`, `SequenceFollowsStandardIff`.
- A wire property count of 0 is accepted and read as -1 slots; packing 65535 slots produces it:
  `SlotsSurviveIff`.

## Model

| member | source | states |
|---|---|---|
| MergeSpec.WinnerIsHighestPriorityThenLevel | include/sacn/dmx_merger.h:46-52 | An output is right exactly when its priority is the highest effective priority of any source, its level the highest at that priority and its owner one such source, and it is unsourced when that priority is 0 |
| MergeSpec.ScanFindsTheSuccessor | src/sacn/dmx_merger.c:984-1002 | A rescan of all other sources in handle order ends at a best bid, moving from the incumbent only for sources that beat it |
| MergeSpec.PriorityMergedSucceeds | src/sacn/dmx_merger.c:1134-1194 | Patching one slot for one changed priority, with the rescan when the owner fell, gives the right output again |
| MergeSpec.LevelMergedSucceeds | src/sacn/dmx_merger.c:957-1005 | Patching one slot for one changed level, with the rescan when the owner fell, gives the right output again |
| MergeSpec.SuccessorIsUnique | src/sacn/dmx_merger.c:957-1005 | A right output that moved only when beaten is unique, so every way of computing it agrees |
| MergeSpec.LoneSourceWins | src/sacn/dmx_merger.c:881-930 | With one source, its own bid is the right output of every slot |
| MergerModel.EveryHistoryIsMergedFromScratch | include/sacn/dmx_merger.h:46-52 | After any history of operations, every slot is the from-scratch merge of the stored records, and both aggregate outputs are right |
| MergerModel.HistoryIndependence | src/sacn/dmx_merger.c:937-1012 | Histories that end in the same records end in the same priorities, levels and aggregates; owners differ only among sources tied for the slot |
| MergerModel.RemovingANewcomerUndoesIt | src/sacn/dmx_merger.c:1498-1546 | Adding a source, any operations on it alone and removing it restore the records, all output levels and priorities and both aggregates, and it owns nothing |
| MergerModel.ShrinkThenRegrowRestores | src/sacn/dmx_merger.c:937-1012 | Shortening a source and sending its old levels again restores every output level and priority |
| MergerModel.OwnersMoveOnlyWhenBeaten | src/sacn/dmx_merger.c:957-1005 | In one operation a slot leaves an owner that is still in the merger only for a source whose bid beats it, or for nobody when the owner stops sourcing the slot |
| MergerModel.RepeatedLevelsChangeNothing | src/sacn/dmx_merger.c:776-786 | Sending the levels a source already has changes nothing, so skipping the merge is right |
| MergerModel.RepeatedPapOnlyActivates | src/sacn/dmx_merger.c:805-821 | Sending the PAP a source already has changes no stored priority and only marks PAP active |
| MergerModel.RepeatedUniversePriorityChangesNothing | src/sacn/dmx_merger.c:834-837 | Sending the universe priority a source already has changes nothing once it was initialised |
| MergerModel.LevelUpdateElects | src/sacn/dmx_merger.c:937-1012 | Merging new levels and then the slots gained or lost gives the election of the updated records |
| MergerModel.PriorityUpdateElects | src/sacn/dmx_merger.c:1124-1195 | Merging one source's new priorities over all slots gives the election of the updated records |
| MergerModel.LoneSourceIsElected | src/sacn/dmx_merger.c:881-1100 | Copying the only source to the outputs, owners included, is the election that the slot-by-slot merge would give |
| MergerModel.RemovalElects | src/sacn/dmx_merger.c:1506-1519 | Merging a source with all priorities zeroed gives the election without that source |
| MergerModel.MaxAfterUpdate | src/sacn/dmx_merger.c:863-870 | When the universe priority output may be overwritten with the new value, when it must be recalculated and when it stays |
| MergerModel.AggregatesAfterRemoval | src/sacn/dmx_merger.c:1521-1534 | The aggregates of the remaining sources after a removal, recalculated only when the source could have been the witness |
| MergerModel.RunKeepsConsistent | src/sacn/dmx_merger.c:768-1195 | Every run keeps every cached output equal to the from-scratch merge |
| SentData.WhatWasSentDecides | include/sacn/dmx_merger.h:46-52 | After any history, every slot is merged from what was sent alone: the last levels of each source, its last universe priority while that counts, and its PAP while that is in force, 0 where it was not sent; no stored record takes part in the statement |
| SentData.WhatWasSentDecidesAggregates | src/sacn/dmx_merger.c:1202-1247 | After any history, PAP is active exactly when some source has PAP in force, and the universe priority output is the largest one sent for a source still there |
| SentData.UniversePriorityZeroCountsAsOne | include/sacn/dmx_merger.h:88-91 | After any history, in a slot where no PAP is in force, the largest universe priority wins, 0 counting as 1; a source at 0 has the slot only if nobody there has more than 1 |
| SentData.ThereIffAdded | src/sacn/dmx_merger.c:692-761 | After any history, a source is in the merger exactly when it was added while there was room and not removed since |
| SentData.StatusTellsHistory | src/sacn/dmx_merger.c:692-872 | What each operation of a history returns, told by who was added and removed before it and the number of sources; a refused operation changes nothing |
| OwnerHistory.OwnersDependOnHistory | src/sacn/dmx_merger.c:1145-1150 | Two histories with the same final records and different owners |
| OwnerHistory.RecordsSettleOwnerIffNoTie | src/sacn/dmx_merger.c:1145-1150 | After any history, all histories that end in the same records leave a slot with the same owner exactly when no two sources share its best bid |
| StoredPriorities.PrioritiesAreZeroedIff | include/sacn/dmx_merger.h:160-162 | After any history, a source stores no priority beyond its level count exactly when its levels fill all slots, nothing but levels was sent since it was added, or the last to be stored was PAP that is zero beyond its levels; what was stored last is read off the operations alone |
| StoredPriorities.UniversePriorityIsNotZeroed | include/sacn/dmx_merger.h:160-162 | A history after which a source with one level stores its universe priority in two slots |
| DmxMerger.SourceState.StoreLevels | src/sacn/dmx_merger.c:886-925 | The stored levels become the new ones, zero beyond their count |
| DmxMerger.MergerState.constructor | src/sacn/dmx_merger.c:1300-1356 | A new merger is in the initial state: no sources, all slots unsourced |
| DmxMerger.MergerState.FindNewOwner | src/sacn/dmx_merger.c:1166-1192 | The rescan loop computes the scan of all other sources in handle order |
| DmxMerger.MergerState.FindLouderOwner | src/sacn/dmx_merger.c:984-1002 | The rescan loop for levels, which compares stored PAP only, computes the same scan |
| DmxMerger.MergerState.MergeNewPriorities | src/sacn/dmx_merger.c:1124-1195 | The loop over a range of slots patches exactly that range |
| DmxMerger.MergerState.UpdateLevelsMultiSource | src/sacn/dmx_merger.c:937-1012 | The outputs become the election of the updated records |
| DmxMerger.MergerState.UpdateLevelsSingleSource | src/sacn/dmx_merger.c:881-926 | The single-source path gives the same outputs, owners included, as the election of the updated records |
| DmxMerger.MergerState.UpdatePapSingleSource | src/sacn/dmx_merger.c:1020-1052 | Likewise for PAP |
| DmxMerger.MergerState.UpdateUniversePrioritySingleSource | src/sacn/dmx_merger.c:1087-1100 | Likewise for universe priority |
| DmxMerger.MergerState.MergeStoredPriority | src/sacn/dmx_merger.c:1060-1079 | The multi-source path for PAP gives the election of the updated records |
| DmxMerger.MergerState.RecalculatePapActive | src/sacn/dmx_merger.c:1202-1221 | The output holds exactly when some source has PAP active |
| DmxMerger.MergerState.RecalculateUniversePriority | src/sacn/dmx_merger.c:1228-1247 | The output is the highest universe priority, 0 without sources |
| DmxMerger.MergerState.AddSource | src/sacn/dmx_merger.c:692-761 | Status and new state for every case: invalid handle, no room, duplicate, success |
| DmxMerger.MergerState.RemoveSource | src/sacn/dmx_merger.c:1498-1546 | Status and new state, including the aggregates |
| DmxMerger.MergerState.UpdateLevels | src/sacn/dmx_merger.c:768-787 | Status and new state: the from-scratch merge of the updated records |
| DmxMerger.MergerState.UpdatePap | src/sacn/dmx_merger.c:794-822 | Status and new state: the from-scratch merge of the updated records |
| DmxMerger.MergerState.UpdateUniversePriority | src/sacn/dmx_merger.c:829-872 | Status and new state: the from-scratch merge of the updated records |
| DmxMerger.MergerState.RemovePap | src/sacn/dmx_merger.c:1645-1680 | Status and new state: the source reverts to its converted universe priority |
| MergeReceiverProofs.EndOfSamplingMovesEverything | src/sacn/merge_receiver.c:887-925 | With any source limit that the tracked sources keep to, ending the sampling period moves every sampling source into the live merger with its levels and effective priorities; the live outputs become the from-scratch merge of old and moved sources; the sampling merger is empty with all slots unsourced |
| MergeReceiverProofs.EndOfSamplingMovesWhoeverFits | src/sacn/merge_receiver.c:887-925 | Whatever the limit and whoever was refused before: as many sampling sources as find room, in handle order, move into the live merger with their levels and effective priorities; live sources are untouched; the live outputs become the from-scratch merge of both; the sampling merger is empty with all slots unsourced |
| MergeReceiverProofs.EndOfSamplingMovesEverythingIff | src/sacn/merge_receiver.c:907 | Every tracked source ends up in the live merger exactly when each was in a merger before and their number is within the limit |
| Refusals.NobodyIsMisplaced | src/sacn/merge_receiver.c:632-672 | In every run, whatever the limit, only tracked sources not flagged sampling are in the live merger and only tracked sources flagged sampling in the sampling merger; every live owner is a tracked, non-sampling source |
| Refusals.SamplingSourceIsLostAtTheEnd | src/sacn/merge_receiver.c:907 | A run in which every source is in its merger, and the end of the sampling period takes one out of both |
| Refusals.RefusedSourceStaysOut | src/sacn/merge_receiver.c:907 | A run in which all tracked sources are within the limit, and yet the end of the sampling period leaves one, refused earlier, out of the live merger |
| MergeReceiverProofs.EverySourceIsWhereItsFlagSays | src/sacn/merge_receiver.c:632-672 | In every run in which newcomers arrive below the source limit, if there is one, the live merger holds exactly the tracked sources not flagged sampling and the sampling merger the others; every live owner is a tracked, non-sampling source |
| MergeReceiverProofs.UniverseChangeClearsEverythingIff | src/sacn/merge_receiver.c:320-369 | A universe change succeeds exactly when the universe is valid, the receiver accepts it and every tracked source is in a merger, and then both mergers are empty with all slots unsourced and nothing is tracked; it fails up front, leaving everything as it was, or at the first source in neither merger, with the sources before it removed from the mergers and all still tracked |
| Refusals.RefusedSourceStopsUniverseChange | src/sacn/merge_receiver.c:339-358 | A run in which a merger refused a source, after which a universe change that the receiver accepted empties the live merger and then fails |
| NotifiedData.MergedFromTheNotifiedIff | src/sacn/merge_receiver.c:632-672 | All along a run of callbacks, each tracked source is in its merger with a record of exactly the last levels, priority and PAP notified, if and only if newcomers and migrations found room, data came marked for the merger of their source or repeated the last, and no PAP reached beyond its source's levels at the end of a sampling period; and then each live slot is the from-scratch merge of what was notified of the non-sampling sources |
| NotifiedData.CopyRemembersIff | src/sacn/merge_receiver.c:907-918 | The copy made at the end of a sampling period still stores exactly what was notified if and only if no PAP lies beyond the levels |
| MergeReceiverProofs.MigrationKeepsInput | src/sacn/merge_receiver.c:907-918 | Rebuilding a record from its levels, universe priority and PAP keeps its levels and the effective priority of every slot |
| MergeReceiverProofs.MigrationKeepsStoredPapIff | src/sacn/merge_receiver.c:913-918 | The stored PAP itself survives exactly when none of it lies beyond the level count |
| MergeReceiverProofs.PapBeforeLevelsIsLost | src/sacn/merge_receiver.c:913-918 | A run of callbacks in which PAP received in a sampling period before any levels is lost at its end, so that the source's level is not merged; outside sampling the same packets merge it at that PAP |
| MergeReceiverProofs.NewcomerNeedsRoom | src/sacn/merge_receiver.c:648-653 | With a source limit, a newcomer ends up in the merger its flag says exactly when that merger has room |
| MergeReceiverProofs.LevelsArriveIffRoutedToTheSource | src/sacn/merge_receiver.c:635-665 | Levels reach the record of a tracked source exactly when the packet's sampling flag names the merger the source is in; otherwise neither merger changes |
| MergeReceiverProofs.RunKeepsSound | src/sacn/merge_receiver.c:606-1080 | Every callback keeps both mergers right and within the limit, and every source in exactly one of them, as long as newcomers arrive below the limit |
| MergedUniverse.MergeReceiverKnowsTheNotifiedIff | src/sacn/receiver_state.c:1558-1588 | All along a run of receiver and merge receiver together, the merge receiver knows exactly the sources that data was notified of and that are still tracked, if and only if no tick has dropped such a source without a report |
| MergedUniverse.NotifiedAreKnown | src/sacn/merge_receiver.c:606-700 | In every run, the merge receiver knows at least the notified sources that are still tracked |
| MergedUniverse.OneLimitIsEnough | src/sacn/merge_receiver.c:121-175 | As long as no tick has dropped a notified source silently, one limit for receiver and mergers keeps everything sound: no newcomer is turned away by a merger, and the two mergers hold exactly the notified sources |
| MergedUniverse.DroppedSourceKeepsItsPlace | src/sacn/receiver_state.c:1489-1492 | A run in which a waiting source is dropped silently, the merge receiver keeps it, and with one source allowed the next source is tracked but never merged |
| MergedUniverse.NamedSourcesAreFoundIff | src/sacn/merge_receiver.c:755-760 | As long as no notified source was dropped silently, the callbacks for lost sources and lost PAP find every source they name exactly when data of each one had been notified and none is named twice |
| MergedOutputs.OutputsMergeTheNotifiedIff | src/sacn/merge_receiver.c:632-672 | Over runs of receiver and merge receiver, across sampling periods: as long as no notified source was dropped silently, the merge receiver remembers exactly what was notified if and only if nothing was lost on the way into the mergers, and then each live slot is the from-scratch merge of what was last notified of the non-sampling sources |
| Routing.OnlyPapIsForgottenIff | src/sacn/receiver_state.c:883-892 | In such runs without network resets and with packets on the receiver's own interfaces, that is so if and only if no sampling period ended with a source in it whose PAP reached beyond its levels |
| LossCallbacks.KnowsTheNotifiedIff | src/sacn/receiver_state.c:1442-1469 | With the lost sources as the receiver's termination sets report them: the merge receiver knows exactly the notified sources still tracked, all along a run, if and only if no tick erased a notified source |
| LossCallbacks.KnownUntilLostIff | src/sacn/merge_receiver.c:752-796 | In every run of receiver, termination sets and merge receiver, a source is known exactly when its data was notified and, since then, the termination sets have not reported it and no universe change with every known source in a merger came |
| LossCallbacks.NamedSourcesAreFoundIff | src/sacn/merge_receiver.c:755-760 | In every possible run in which no notified source was erased, the callbacks find every source they name exactly when data of each of the sources reported lost, or without PAP, had been notified |
| LossCallbacks.OutputsMergeTheNotifiedIff | src/sacn/merge_receiver.c:632-672 | In every possible run in which no notified source was erased, the merge receiver remembers exactly what was notified if and only if nothing was lost on the way into the mergers, and then each live slot is the merge of it |
| LossCallbacks.OnlyPapIsForgottenIff | src/sacn/receiver_state.c:883-892 | Without network resets and foreign packets, if and only if no sampling period ended with PAP beyond the levels of a source in it |
| LossCallbacks.UnnoticedSourceIsLost | src/sacn/merge_receiver.c:759 | A possible run from creation in which the termination sets report a source that only sent filtered preview PAP, and the merge receiver does not know it |
| MergedUniverse.LevelsFromTheOtherInterfaceAreDropped | src/sacn/receiver_state.c:883-892 | A run in which a network reset makes a live source's levels arrive as sampling data, and neither merger changes |
| MergedUniverse.SettledIsReached | src/sacn/receiver_state.c:1351-1385 | The state in which these runs start is reached from creation |
| MergeReceiver.MergeReceiver.UniverseData | src/sacn/merge_receiver.c:630-694 | New state, and the merged data handed to the application: when they are is stated in `MergedNotices` |
| MergeReceiver.MergeReceiver.ListActiveSources | src/sacn/mem/merge_receiver/merged_data.c:84-108 | The loop collects the active sources in handle order |
| MergedNotices.ChangesAreHandedOver | include/sacn/merge_receiver.h:105-113 | For every callback but a universe change, from every reachable state: if any of the first 512 live outputs changes, merged data are handed over, and what is handed over always shows the new live outputs and lists exactly the sources outside sampling that sent levels, in order |
| MergedNotices.LiveSourcesAreHandedOver | include/sacn/merge_receiver.h:105-113 | Levels, and PAP if it is used, of up to 512 slots from a source outside sampling are handed over at once, changed or not; so are its loss, the loss of its PAP, and the end of a sampling period |
| MergedNotices.SamplingSourcesAreSilent | include/sacn/merge_receiver.h:107-109 | Sampling data, the loss of sampling sources or of their PAP, other start codes, the start of a period and a universe change hand over nothing, and only the last one changes a live output |
| MergedNotices.SilentEndMeansNoData | include/sacn/merge_receiver.h:199-201 | A sampling period that ends without merged data handed over leaves no source known and every live slot unsourced |
| MergedNotices.ShownIsCurrentIff | include/sacn/merge_receiver.h:105-113 | At the end of a run without a universe change, what the application was handed last are the live outputs exactly when something was handed over in the run, or it had been shown them before |
| MergedNotices.LastHandedOverIsCurrent | include/sacn/merge_receiver.h:105-113 | At the end of every run from creation without a universe change, the application has been shown the live outputs |
| MergedNotices.LastHandedOverMergesTheNotified | include/sacn/merge_receiver.h:105-113 | In such runs in which nothing notified is lost on its way into the mergers, what the application was handed last is, slot by slot and across sampling periods, the merge of the data last notified of the sources outside sampling |
| MergedNotices.UniverseChangeIsNotHandedOver | src/sacn/merge_receiver.c:320-369 | A universe change empties all live slots without handing that over |
| SourceInfos.InfoIsNotedIff | src/sacn/mem/merge_receiver/merge_receiver_source.c:155-175 | Over every run, what is noted of a source: active PAP, active levels, universe priority and sampling flag, each with the exact history of callbacks that makes it so |
| SourceInfos.PeriodIsNotedIff | src/sacn/merge_receiver.c:851-890 | Over every run, no sampling period is noted exactly when the last notice was of an end |
| SourceInfos.OwnersAreActive | include/sacn/merge_receiver.h:84-99 | In every run, the owner of every slot handed over is among the active sources handed over with it |
| MergeReceiver.MergeReceiver.SourcesLost | src/sacn/merge_receiver.c:752-796 | New state, and the merged data handed to the application exactly when a non-sampling source was lost |
| MergeReceiver.MergeReceiver.SamplingPeriodStarted | src/sacn/merge_receiver.c:843-865 | New state |
| MergeReceiver.MergeReceiver.SamplingPeriodEnded | src/sacn/merge_receiver.c:887-946 | New state, and the merged data handed to the application exactly when there are sources |
| MergeReceiver.MergeReceiver.SourcePapLost | src/sacn/merge_receiver.c:1001-1030 | New state, and the merged data handed to the application exactly when the source is live |
| MergeReceiver.MergeReceiver.ChangeUniverse | src/sacn/merge_receiver.c:320-369 | Status and new state |
| SourceTracking.TrackedSource.constructor | src/sacn/mem/receiver/tracked_source.c:130-160 | The receive state and timers of a new source, in and outside a sampling period |
| SourceTracking.TrackedSource.MarkTerminated | src/sacn/receiver_state.c:1029-1036 | The source is terminated and its packet timer expired |
| SourceTracking.TrackedSource.ProcessNullStartCode | src/sacn/receiver_state.c:1047-1118 | New state, notification and PAP loss |
| SourceTracking.TrackedSource.ProcessPap | src/sacn/receiver_state.c:1128-1151 | New state and notification |
| SourceTracking.TrackedSource.ReceivePacket | src/sacn/receiver_state.c:881-952 | New state and what the application sees, with every early drop |
| SourceTracking.TrackedSource.CheckTimeouts | src/sacn/receiver_state.c:1480-1555 | The classification of a source, and its effect on the DMX flag |
| SourceTracking.SequenceFollowsStandardIff | src/sacn/receiver_state.c:1228-1239 | The sequence check agrees with section 6.7.2 of ANSI E1.31-2018 exactly when the new number is less than 237 above the old one |
| SourceTracking.LatePacketPassesForNew | src/sacn/receiver_state.c:1228-1239 | 250 after 5: accepted, although the standard drops it |
| SourceHistory.PacketIsTakenInIff | src/sacn/receiver_state.c:878-926 | In every run of a new source, a packet is taken in exactly when it comes in a sampling period or from the interface the source was heard on last, nothing ended the source, and it is ahead of the packet taken in last or at least 20 behind |
| SourceHistory.LossIsReportedIff | src/sacn/receiver_state.c:1070-1150 | In every run, the loss of PAP is reported exactly with a DMX packet taken in, not the first one of the source, after the latest PAP since the last loss has been silent for 2.5 seconds; 1.5 up to the first loss of a source first seen by PAP outside sampling |
| SourceHistory.DeadPapIsReported | docs/pages/per_address_priority.md:40 | PAP that stops is noticed: 2.5 seconds after the last of it, the loss is reported at the latest by the next DMX taken in, if there was DMX before |
| SourceHistory.TwoDmxPacketsAreEnough | docs/pages/per_address_priority.md:40 | Two DMX packets after those 2.5 seconds are enough for any source, also one first seen by PAP |
| SourceHistory.DeadPapIsReportedOnce | src/sacn/receiver_state.c:1092-1112 | One stream of PAP is not lost twice |
| SourceHistory.DataAreNotifiedIff | include/sacn/receiver.h:188-191 | In every timed run, data are notified exactly when they are taken in and not filtered as preview data; NULL data only once the source was first seen in a sampling period, its PAP was taken in before, or 1.5 seconds have passed |
| SourceHistory.TickFindsIff | src/sacn/receiver_state.c:1480-1555 | In every run, a tick finds a source offline exactly when it is past its PAP wait and has ended, or has sent no DMX for 2.5 seconds; as terminated exactly when it has ended; a waiting source that is gone is erased |
| SourceRuns.NullWaitsForPapOrTimeout | src/sacn/receiver_state.c:1070-1116 | In every timed run no NULL start code packet of a waiting source is notified before PAP was accepted or its wait expired |
| SourceRuns.FilteredPapUnlocksDmx | src/sacn/receiver_state.c:951-952 | A run in which NULL start code data is notified first because the PAP packet was a filtered preview |
| SourceRuns.PapNotifiesFirstIffPreviewIsShown | include/sacn/receiver.h:188-190 | PAP is notified first in every run exactly when preview data is not filtered |
| SourceRuns.LossesNeverRepeat | src/sacn/receiver_state.c:1092-1112 | Every PAP loss is preceded by PAP accepted since the previous loss |
| SourceRuns.EarlyPapLoss | src/sacn/mem/receiver/tracked_source.c:153-157 | A source first seen through PAP outside a sampling period loses it after 1.5 seconds |
| SourceRuns.FullTimeoutIffNotFirstSeenByPap | docs/pages/per_address_priority.md:40 | PAP is lost only after the full 2.5 seconds in every run exactly when the source was not first seen by PAP outside a sampling period |
| SourceRuns.TerminatedForGood | src/sacn/receiver_state.c:906-912 | A terminated source stays terminated and expired, is never notified, and every tick finds it offline-terminated or erases it |
| SourceRuns.NothingAfterTermination | src/sacn/receiver_state.c:901-912 | After a termination by packet or interface removal, no packet is notified and every tick finds the source offline-terminated or erases it |
| SourceRuns.FlagMeansNewDmx | src/sacn/receiver_state.c:1531-1542 | In any run from any state, the flag behind the online list is set exactly when DMX was accepted since the last tick that used it up, or it was set at the start and no tick has used it up yet |
| SourceRuns.PapOnlySourceStartsOnline | src/sacn/mem/receiver/tracked_source.c:132-135 | A source first seen by PAP is online at its first tick without any DMX |
| SourceRuns.OnlineMeansDmxIffSeenByDmx | src/sacn/mem/receiver/tracked_source.c:132-135 | Being found online means DMX since the last time, in every run of a new source, exactly when the source was first seen through DMX |
| SourceRuns.OnlineWithoutDmxIff | src/sacn/receiver_state.c:1531-1542 | When a new source that has sent no further DMX is found online: exactly at its first tick past the PAP wait and before its timeout |
| SamplingPeriod.EndingStartsThePendingPeriod | src/sacn/receiver_state.c:1595-1617 | Ending a period leaves no interface marked future, keeps exactly those that were, and starts a new period exactly when there were any |
| SamplingPeriod.NoticesAlternateIffPunctual | src/sacn/receiver_state.c:1354-1385 | The notices alternate started, ended, started, ... exactly when no tick ends a period that was not announced yet |
| SamplingPeriod.FrequentTicksAlternate | src/sacn/receiver_state.c:424-435 | They alternate in every run with at most a sampling time between ticks |
| SamplingPeriod.LateTickEndsBeforeItStarts | src/sacn/receiver_state.c:1352-1385 | A first tick after the sampling time announces the end before the start |
| StatusLists.EverySourceIsListedOnce | src/sacn/receiver_state.c:1422-1440 | Every tracked source is on exactly one of the four lists or still waiting; none is dropped or listed twice |
| StatusLists.OnlineExactly | src/sacn/receiver_state.c:1513-1555 | The online list is exactly the non-waiting, non-expired sources that sent DMX since their last tick; likewise offline and to-erase |
| SourceLoss.JudgedExactly | src/sacn/source_loss.c:104-262 | After a tick no online source is in a termination set, exactly the offline ones are held offline, and no source is in two sets |
| SourceLoss.ReportedTogether | src/sacn/source_loss.c:272-339 | All sources of a termination set are reported lost together or not at all, exactly when its wait is over and all are verified offline |
| SourceLoss.NobodyReportedTwice | src/sacn/source_loss.c:272-339 | No source is reported twice in one notification |
| SourceLoss.UnsettledExactly | src/sacn/source_loss.c:272-339 | What is reported was held offline and is in no set any more; nobody else leaves |
| SourceLoss.TermSetList.MarkSourcesOnline | src/sacn/source_loss.c:104-139 | Every online source leaves its set, and emptied sets are unlinked |
| SourceLoss.TermSetList.MarkSourcesOffline | src/sacn/source_loss.c:154-262 | Offline sources are marked in their set or open a new one |
| SourceLoss.TermSetList.GetExpiredSources | src/sacn/source_loss.c:272-339 | With its rollback, the loop reports exactly the settled sets and unlinks them |
| LossRuns.LostSourcesWereTracked | src/sacn/receiver_state.c:1442-1469 | In every run, a source reported lost is tracked until then, named once, and forgotten with the report |
| LossRuns.LostMeansFoundOffline | src/sacn/receiver_state.c:1442-1452 | A source is reported lost only after a tick found it offline, with no tick since then finding it online |
| LossRuns.HeldMeansFoundOffline | src/sacn/source_loss.c:104-262 | A source is held offline exactly when a tick found it offline and it was neither found online, reported, nor dropped by a universe change since |
| LossRuns.LostWaited | docs/pages/source_loss_behavior.md:40-46 | A source is reported only once the notification wait is over that began with the tick that put it into its set |
| LossMarks.ReportedAsFirstFound | src/sacn/source_loss.c:154-182 | In every possible run, a source is reported as terminated exactly when the tick that first found it offline, since it was last found online, reported or left behind, saw it so |
| LossSets.ReportWaitsForItsSet | docs/pages/source_loss_behavior.md:29-32 | Before a report, every source that was unverified and in no set when the reported set was opened has been found online or offline by a tick |
| LossOrigins.ReportedIff | docs/pages/source_loss_behavior.md:33-35 | In every run from an empty list of sets, a source is reported at a tick exactly when that tick reports a set that the source joined at its opening, and no tick in between found it online |
| LossSets.SettledIff | src/sacn/source_loss.c:272-339 | A set is settled exactly when its wait is over and every member has been found offline, or found online and so has left |
| SecondLoss.SecondLossDoesNotWait | src/sacn/source_loss.c:224-235 | A possible run of one receiver, from its creation, in which the second of two lost sources is reported alone while the first still waits for an unverified one |
| LossOrigins.EveryReportIsOfASet | src/sacn/source_loss.c:272-339 | Every source reported lost is reported with a set that some tick opened, that it joined then, and was not found online since |
| LossWaiting.OpenedWaitsForAllIff | docs/pages/source_loss_behavior.md:29-32 | In every reachable state, the report of a set just opened waits for the verification of all other tracked sources, however the run goes on, exactly when every unverified source outside the set is sure to show up before the earliest report |
| LossWaiting.SilentIsLeftBehind | docs/pages/source_loss_behavior.md:29-32 | For any source that is not sure to, a run is built in which the set is reported first |
| LossWaiting.NobodyWaitingIsEnough | docs/pages/source_loss_behavior.md:29-32 | The promise is kept when no source is waiting for PAP and no unverified source is in an earlier set |
| Receiver.SacnReceiver.constructor | src/sacn/mem/receiver/receiver.c:120-211 | A new receiver, in its first sampling period with all usable interfaces |
| Receiver.SacnReceiver.HandleDataPacket | src/sacn/receiver_state.c:866-974 | New state and report for every packet: future interface, tracked source, new source, no room |
| Receiver.SacnReceiver.ProcessNewSourceData | src/sacn/receiver_state.c:1167-1225 | New state and report for a packet from an untracked source |
| Receiver.SacnReceiver.Tick | src/sacn/receiver_state.c:1351-1385 | New state, notices, status lists and sources lost of one tick |
| Receiver.SacnReceiver.ProcessReceiverSources | src/sacn/receiver_state.c:1404-1471 | The status lists, who is reported lost, and the sources that stay |
| Receiver.SacnReceiver.CheckSources | src/sacn/receiver_state.c:1422-1440 | The loop over the sources sorts every one of them into the right list |
| Receiver.SacnReceiver.JudgeSources | src/sacn/receiver_state.c:1442-1452 | The termination sets after a tick, and the sources it reports lost |
| Receiver.SacnReceiver.EndCurrentSamplingPeriod | src/sacn/receiver_state.c:1595-1617 | The current interfaces leave one by one, the future ones become current, and a new period starts if there are any |
| Receiver.SacnReceiver.RemoveCurrentNetints | src/sacn/mem/receiver/sampling_period_netint.c:117-147 | The repeat-until-none loop removes exactly the interfaces not marked future |
| Receiver.SacnReceiver.UpdateSamplingNetints | src/sacn/sockets.c:1530-1589 | Which interfaces join a sampling period, now or next, and which leave a running one |
| Receiver.SacnReceiver.TerminateSourcesOnRemovedNetints | src/sacn/receiver_state.c:538-556 | Exactly the sources heard on an interface no longer used are terminated |
| Receiver.SacnReceiver.ResetNetworking | src/sacn/receiver.c:384-394 | Status and new state of a network reset |
| Receiver.SacnReceiver.ChangeUniverse | src/sacn/receiver.c:656-695 | New state of a universe change |
| Interfaces.CollectUsable | src/sacn/sockets.c:1741-1824 | The usable interfaces of a list, in order |
| Interfaces.UsableExactly | src/sacn/sockets.c:1741-1824 | They are exactly those listed as usable, each once |
| PeriodInterfaces.PeriodsUseOnlyUsedInterfacesIff | src/sacn/sockets.c:1530-1589 | Over every run from creation, every interface of a sampling period, pending or not, is one the receiver uses, exactly as long as no reset lists an interface of the running period as unusable |
| PeriodInterfaces.UsableListsDropInterfaces | src/sacn/sockets.c:1567-1584 | With lists of usable interfaces only, an interface that a reset drops is in no period any more |
| PeriodInterfaces.NextPeriodNeedsAUsedInterface | src/sacn/receiver_state.c:1604-1617 | And no period is started for it |
| PeriodInterfaces.UnusableInterfaceStaysInThePeriod | src/sacn/sockets.c:1572-1576 | A reset after which an interface is used no longer and still in the period |
| PeriodInterfaces.PendingIff | src/sacn/sockets.c:1548-1565 | Over every run, an interface is pending for the next period exactly when a reset brought it in during the period still running, and none has dropped it since |
| PeriodInterfaces.CurrentIff | src/sacn/receiver_state.c:1595-1617 | Over every run, an interface takes part in the running period exactly when it joined it, at a reset outside periods, as a pending one or with a universe change, or was usable at creation, and did not leave since |
| PeriodInterfaces.UsedIff | src/sacn/sockets.c:1741-1824 | Over every run, a receiver uses exactly the usable interfaces of the list it was given last |
| ReceiverRuns.NeverMoreThanTheLimit | src/sacn/mem/receiver/tracked_source.c:99-117 | In every run a receiver tracks no more sources than its limit |
| TrackedSources.TrackedIff | src/sacn/receiver_state.c:878-948 | Over every run, a source is tracked exactly when it brought DMX or PAP, not in a terminating packet and not from a pending interface, while there was room, and was not lost, erased or left behind since |
| TrackedSources.FirstPacketIsNotifiedIff | src/sacn/receiver_state.c:1190-1201 | The first packet of a source is notified exactly when the source becomes tracked with it, it is not filtered as preview data, and it brings PAP or comes in a sampling period |
| TrackedSources.LimitAnnouncedIff | src/sacn/receiver_state.c:1207-1224 | Over every run, the limit is announced exactly with the first packet turned away since creation, since sources were last reported lost or since the universe changed |
| ReceiverRuns.AnnouncedAgainIff | src/sacn/receiver_state.c:1212-1224 | After the limit was announced, the next packet turned away is announced exactly when sources were lost or the universe changed in between |
| LimitNotices.AnnouncedAfterDropIff | include/sacn/receiver.h:289-291 | In every run, the limit is announced again only after the number of sources was below it, and then exactly when sources were reported lost or the universe changed |
| ReceiverRuns.ErasedSourceKeepsLimitQuiet | include/sacn/receiver.h:289-291 | A run in which the limit is left and reached again without a second announcement |
| ReceiverRuns.IdleIsReached | src/sacn/receiver_state.c:1351-1385 | The state in which that run starts is reached from creation |
| ReceiverRuns.SamplingDataOnlyInItsPeriod | src/sacn/receiver_state.c:866-875 | In every run, notified data are marked as sampling data exactly inside a period and from an interface taking part in it, and no interface of a future period is heard |
| ReceiverRuns.SamplingPeriodNotifiesIff | include/sacn/receiver.h:185-186 | During sampling a valid packet is notified exactly when its interface is not pending for the next period, its source is not terminated and not still waiting for PAP, and a new source brings a tracked start code and finds room |
| ReceiverRuns.OutsideSamplingNotifiesIff | include/sacn/receiver.h:188-191 | Outside sampling a valid packet is notified exactly when it comes from its source's interface, the source is not terminated, NULL data no longer waits for PAP, and a new source is first seen through PAP and finds room |
| ReceiverRuns.OtherStartCodeIsIgnored | include/sacn/receiver.h:191 | A packet with another start code from an untracked source, neither notified nor tracked |
| ReceiverRuns.WaitingOutlastsANewPeriod | include/sacn/receiver.h:185-186 | A run in which a valid packet inside a sampling period is not notified |
| ReceiverRuns.NoticesAlternate | src/sacn/receiver_state.c:1354-1385 | Whatever else happens to a receiver, ticks at most a sampling time apart make its sampling notices alternate |
| ReceiverRuns.NewUniverseIsAnnouncedIff | src/sacn/receiver.c:258-261 | Over the rest of a run that outlasts the period, a universe change is followed by a started and then an ended notice exactly when no announced period was running and a tick comes in time; otherwise the end comes first |
| ReceiverRuns.UniverseChangedMidPeriod | src/sacn/receiver.c:258-261 | A run in which a universe change inside an announced period is followed by an ended notice only |
| ReceiverRuns.ResetIsAnnouncedIff | src/sacn/receiver.c:417-418 | Over the rest of a run that outlasts the period, a network reset is followed by a started and then an ended notice exactly when no announced period was running and a tick comes in time; otherwise the end comes first |
| ReceiverRuns.ResetMidPeriodIsAnnouncedIff | src/sacn/receiver.c:417-418 | After a reset inside an announced period, a started notice still follows exactly when the reset left an interface pending for the next period |
| ReceiverRuns.ResetMidPeriod | src/sacn/receiver.c:417-418 | A run in which a reset inside an announced period is followed by an ended notice only |
| SamplingPeriod.PeriodIsAnnouncedIff | src/sacn/receiver_state.c:1354-1385 | A running period is announced as started and then ended exactly when its start is still to be announced and a tick comes in time |
| SamplingPeriod.PeriodRunsIff | src/sacn/receiver_state.c:424-435 | Over every run, a sampling period is running exactly when one began and no tick has come more than 1.5 seconds later |
| ReceiverRuns.EachSourceRunsAlone | src/sacn/receiver_state.c:878-948 | While a source stays tracked, it is always in the state it would have on its own, whatever other sources and events do |
| ReceiverRuns.EachSourceIsSeenAlone | src/sacn/receiver_state.c:949-971 | And each of its packets is reported as it would be on its own |
| ReceiverRuns.NullDataWaitsForPap | include/sacn/receiver.h:188-190 | At the receiver: unless preview data is filtered, no NULL start code data of a waiting source is notified before its PAP was, or its wait expired |
| NetintLists.CoversIffListsArePermutation | src/sacn/source.c:1138-1168 | Finding every key and comparing counts accepts exactly the permutations of the existing, non-removing (source, universe) keys |
| NetintLists.EveryListIsTaken | src/sacn/source.c:1173-1207 | Once accepted, every list goes to a universe |
| NetintLists.NoListIsTakenTwice | src/sacn/source.c:1173-1207 | And to no more than one |
| NetintLists.FindIndex | src/sacn/source.c:1256-1280 | The first list with the key, or not found |
| NetintLists.ValidateUniverseLists | src/sacn/source.c:1138-1168 | Accepted exactly when there are lists, as many as universes, and one for every universe |
| NetintLists.SacnSource.ResetNetints | src/sacn/source.c:1176-1204 | Every universe gets the interfaces of its list, removing ones keep theirs, and the source counts each interface once for every universe using it |
| NetintLists.SacnSource.AddNetint | src/sacn/mem/source/source_netint.c:44-70 | The reference count of one interface goes up by one |
| NetintLists.ResetPerUniverse | src/sacn/source.c:1123-1218 | Refused exactly when the lists are not a non-empty permutation of the keys, and then nothing changes; successful exactly when, besides, every universe's own list resets it successfully, and then every source and universe is reset as above |
| NetintLists.UniversesHaveTheirLists | src/sacn/source.c:1173-1207 | After a successful reset every universe has exactly the usable interfaces of the list with its key, each once, or none if that asks for none; removing universes keep theirs |
| NetintLists.CountsAreUsers | src/sacn/mem/source/source_netint.c:44-70 | And the count of each interface is the number of universes that use it |
| NetintLists.ValidateReceiverLists | src/sacn/receiver.c:455-482 | Accepted exactly when the lists are a non-empty permutation of the receiver handles |
| Pdu.RoundTrip | src/sacn/pdu.c:38-85 | A packed packet, whatever follows it in the buffer, parses to its fields, its name cut to 63 characters, sync universe 0, and exactly its slots |
| Pdu.SlotsSurviveIff | src/sacn/pdu.c:226-256 | Every packed packet parses; its slots survive exactly when there are fewer than 65535, and at 65535 the count reads -1 |
| Pdu.NameSurvivesIff | src/sacn/pdu.c:202-204 | The name survives exactly when it has at most 63 characters |
| Pdu.TruncatedPacketIsRefused | src/sacn/pdu.c:68-73 | A packet that lost its end is refused |
| Pdu.ParseDataPacket | src/sacn/pdu.c:38-85 | Accepted exactly when long enough with the right fixed values and slot count, and then every field |
| Pdu.PackRootLayer | src/sacn/pdu.c:145-170 | The buffer starts with the root layer, preamble included, and is otherwise unchanged |
| Pdu.PackDataFramingLayer | src/sacn/pdu.c:172-224 | The buffer holds the framing layer at the given place and is otherwise unchanged |
| Pdu.PackDmpLayerHeader | src/sacn/pdu.c:226-256 | The buffer holds the DMP layer header at the given place and is otherwise unchanged |
| SendBuffer.DataSendBuffer.constructor | src/sacn/pdu.c:340-360 | A prepared buffer carries a packet without slots |
| SendBuffer.DataSendBuffer.UpdateData | src/sacn/pdu.c:362-380 | The buffer carries the same packet with new slots, its three lengths and its count adjusted |
| SendBuffer.DataSendBuffer.SetSequence | src/sacn/private/pdu.h:67 | The buffer carries the same packet with a new sequence number |
| SendBuffer.DataSendBuffer.SetPriority | src/sacn/private/pdu.h:93 | The buffer carries the same packet with a new priority |
| SendBuffer.DataSendBuffer.SetPreview | src/sacn/private/pdu.h:85-92 | The buffer carries the same packet with the preview option set or cleared |
| SendBuffer.DataSendBuffer.SetTerminated | src/sacn/private/pdu.h:76-83 | The buffer carries the same packet with the terminated option set or cleared |
| SendBuffer.DataSendBuffer.Transmit | src/sacn/sockets.c:337-342 | After any edits, what is sent, as long as its root layer says, is exactly the datagram of the packet they describe, and parses to it from the framing layer on |
| WireFormat.DatagramFollowsStandard | src/sacn/pdu.c:145-256 | At which byte a datagram carries each field, in plain numbers: preamble, identifier, the vectors of the root, framing and DMP layers by which it is dispatched, the three lengths, every field and the slots, and nothing after them |
| WireFormat.EveryPacketIsRead | src/sacn/pdu.c:38-85 | A packet of any sender, laid out by the standard, with any synchronization address and options and whatever follows it, is read field by field |
| WireFormat.AcceptedIff | src/sacn/pdu.c:50-73 | Accepted is exactly what is long enough for its header and its slots and has the fixed values in bytes 2 to 5 and 79 to 84 |

## Left out

- Sockets, threads, polling, multicast subscription, interface discovery, logging, the callbacks that only copy structures, and allocation failures: input and output, or calls into EtcPal, which is not part of this model. Locks: each callback and each API call is one atomic step.
- Merger handles and the tree of mergers, receivers by universe, remote source handles: handles are parameters, and a duplicate insert fails without changing state.
- Timers are a start and an interval in unbounded milliseconds; 32-bit wrap-around belongs to EtcPal. The PAP timer of a source first seen by DMX during sampling is uninitialised in C until it is first used; here it starts as an expired timer.
- The stored levels and priorities of a source are sequences replaced as a whole, not arrays, because they are inline in its record; the output buffers are arrays written slot by slot. Termination sets, tracked universes and interface lists, linked lists and arrays in C, are sequences held in the fields of classes.
- Source names, addresses and component identifiers in tracking; footprints and synchronization addresses, which the code leaves unimplemented.
- The build without PAP, the one without the sampling merger, and static memory limits.
- The transmission side of sources (timing, keep-alive, universe discovery) beyond the contents of data packets; parsing of the root layer, which EtcPal does; universe discovery parsing.
- Library initialisation and network reference counting in src/sacn/common.c.
- DmxMerger.MergerState.UpdateLevels: does not model the null-pointer check of the level buffer, because a sequence is never null; likewise the other merger operations.
- NetintLists.ValidateReceiverLists: the loop that then resets each receiver in list order is modelled one receiver at a time, by Receiver.SacnReceiver.ResetNetworking.
- NetintLists.ResetPerUniverse: does not state what a reset that failed on an unusable list leaves behind, because the documentation declares the sources invalid then.
