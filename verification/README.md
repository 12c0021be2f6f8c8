# Verified model of the Wi-Fi driver's protocols

A Dafny model of the parts of this Realtek Linux Wi-Fi driver that are protocols,
state machines and data structures of their own, with machine-checked proofs of
what they keep.  `dafny verify dfyconfig.toml` checks the whole project.

Where the driver changes things in place, a class with the driver's fields carries
methods that follow the driver's branches; each method is proved to have the effect
of a function on plain values, and the theorems are about every run of those
functions.  Everything the driver takes from elsewhere (channel tables, the plan
database, the hardware's answers, the clock) is an arbitrary parameter.

| part | files | main results |
|---|---|---|
| Shared types | `Basics` | byte order |
| Command queue and submit-context handshake | `CommandProtocol`, `CommandInvariant`, `CommandTheorems`, `CommandOutcomes`, `CommandProgress`, `CommandObjects`, `CommandDriver` | `HandshakeIsSafe`, `OutcomeIsTheHandlers`, `NobodyIsForgotten`, `AcceptanceOrder`, `OwnershipIsExact`, `ShutdownLeavesNothing`, `WaiterCanReturn` |
| Radar detection and channel availability | `DfsChannels`, `RadarDetection`, `RadarSafety`, `RadarListening`, `RadarDriver` | `AvailabilityCheckIsReal`, `HearingIsDetecting`, `ReportIsActedOn`, `ResetTestIsRightExactly`, `ShippedPlansAreOffEnds` |
| Non-occupancy watchdog | `NonOcpWatchdog`, `FinishGroups` | `PassIsRight`, `ReportedAtWidest`, `CheckNonOcpFinish` |
| Channel choice | `ChannelSearch` | `ChooseShortestWaiting`, `ChoiceWaitsLeast` |
| NAT2.5 bridge database | `BridgeTable`, `BridgeDatabase` | `HitIsLastInsert`, `RunIsSound`, `ExpiredEntryDies`, the methods of `Nat25` |
| PPPoE relay tags | `PppoeTags`, `PppoeRelay` | `ClientComesBack`, `RelayRoundTrip`, `InsertRelay`, `LookupRelay` |
| DHCP broadcast flag | `DhcpChecksum` | `StillVerifiesExactly`, `RequestOnTheWire` |
| Beacon elements | `BeaconElements`, `BeaconBuffer` | `AddIsExact`, `RemoveUndoesAdd`, `AddBcnIe`, `RemoveBcnIe` |
| Channel switch countdown | `CsaCountdown` | `CountdownRunsOut`, `StartExactly`, `SwitchHappensExactly` |
| Traffic indication map | `TimElement` | `StationReadsBitmap`, `ElementIsShortest` |
| BSS capability counters | `BssCapabilities`, `BssDriver` | `BeaconTellsTheTruth`, `BarkerAfterJoinExactly` |
| Regulatory precedence | `RegulatoryPrecedence`, `RegulatoryDriver` | `PrecedenceHolds`, `OverridesFollow`, `ChoiceIsHighestExactly`, `ShippedChoiceIsHighest` |
| Channel-set cache | `ChannelSetCache` | `CacheAgrees` |
| Sounding scheduler | `SoundingScheduler`, `SoundingTheorems`, `SoundingDriver` | `SoundingsAreOrdered`, `FinishedPeriodIsComplete`, `NextPicks`, `DownRecords` |

## Where the code falls short of what one would expect

Each of these is a result about the code as it is, with the exact condition or a
concrete input.

- Setting the broadcast flag adds the whole new flags word to the checksum, so it
  stays valid exactly when the old flags were zero (`StillVerifiesExactly`); a
  datagram that used no checksum gets one (`UnusedChecksumBecomesUsed`), and a checksum
  that was used comes out as "none" exactly when it equals the new flags word
  (`UsedChecksumBecomesUnusedExactly`).
- The room for a relay tag is computed from the length in network order, so the tag
  is inserted correctly exactly on big-endian hosts (`RoomIsRightExactly`); otherwise
  the request fails with the old tag already taken out, or grows by over 2000 bytes
  (`InsertRelay` states both).
- The Barker preamble bit is only rewritten along with the protection bit.  A right
  bit is right after a join or leave exactly when the element is rewritten or the
  existence of a station without short preamble has not changed
  (`BarkerAfterJoinExactly`, `BarkerAfterLeaveExactly`); a first join can leave it wrong
  (`BarkerBitIsStale`).  A station that joins again with 40 MHz is still counted as a
  20 MHz one (`RejoinKeepsOldWidth`).
- Applying a regulatory setting ends every running non-occupancy period
  (`RegulatoryEndsPeriods`), so the 30 minutes count from the last detection since then.
- A channel switch that is to end in joining a network issues the join exactly if an
  adapter is linking at the last update; otherwise no later update issues it or ends the
  switch (`JoinNeedsLinkingThen`).
- An enqueue that lands after the drain stays on the queue (`LateEnqueueIsStranded`),
  and a command object is kept exactly when, outside the drain, its callback is that of
  a disassociation that failed (`RetireKeepsObjectExactly`).

The following need inputs that the driver's own tables and callers do not supply; they
delimit what its functions rely on.

- The reset test compares range ends with strict inequalities.  It is right unless
  the only unwatched DFS channels lie exactly on an end of the current range
  (`ResetTestIsRightExactly`).  No shipped plan has a DFS channel on an end of any of
  the driver's tunings (`ShippedPlansAreOffEnds`); a plan that marked channel 231 as a
  DFS channel would (`Channel231IsMissed`).
- Country records are compared again only when an entry changes.  The record in effect
  has the highest score after every run exactly when there is one interface, or every
  country has a regulation in some band or an override (`ChoiceIsHighestExactly`); every
  country of the shipped tables has one (`ShippedChoiceIsHighest`).
- A country is put in effect before its plan is looked at, so the setting in force is
  the chosen record's exactly when that plan is valid (`ReselectIsRightfulExactly`), and
  applying an invalid plan opens every channel of the set (`InvalidPlanOpensSet`).  The
  shipped countries all have valid plans.
- A channel switch happens exactly when some nonempty element stands directly in
  front of the announcement's place; otherwise the count runs to 0, nothing is ever
  announced or issued, and new requests are refused (`SwitchHappensExactly`).  The
  beacons that the driver builds have such an element; one that consists of a later
  element alone has not (`LostSwitch`).
- An element added empty can not be removed again (`EmptyElementStays`); no caller adds
  an empty one.
- `rtw_set_tim_ie` returns its length in eight bits: 251 bitmap octets, which AID 2007
  needs, come back as length 0 (`LengthWraps`).  With the driver's limit of 32 stations
  the bitmap has at most 5 octets, far inside the exact range (`LengthIsExactUpTo250`).

## Model

| member | source | states |
|---|---|---|
| CommandTheorems.HandshakeIsSafe | core/rtw_cmd.c:957-970 | in every interleaving of callers, timeouts, thread and drain: the thread never completes a context whose caller has returned, no caller writes into a freed object, each context is completed at most once, with the outcome recorded for its command |
| CommandOutcomes.OutcomeIsTheHandlers | core/rtw_cmd.c:599-682 | in every run the handler of a command runs at most once, and a status that a caller reads is success exactly if it ran and returned success |
| CommandOutcomes.ProcessOutcome | core/rtw_cmd.c:599-669 | the command in hand is settled with what its handler returned, settled as failed if it is too long, unknown or filtered out, or put back to the head while the adapter sleeps |
| CommandOutcomes.FilterExactly | core/rtw_cmd.c:446-474 | admitted exactly if it is not too long and leaves set mode, or the thread runs and the hardware is up, or it is a channel plan or needs no I/O |
| CommandOutcomes.DrainOutcome | core/rtw_cmd.c:718-736 | a drained command is settled as failed |
| CommandProgress.NobodyIsForgotten | core/rtw_cmd.c:671-702 | in every run an acknowledged command that is through has completed its caller's context with the handler's outcome, unless that caller had given up |
| CommandProgress.PreparedIsFresh | core/rtw_cmd.c:935-956 | a prepared command has a context of its own exactly if it is to be acknowledged, and disturbs no other |
| CommandProgress.EnqueuedAtTail | core/rtw_cmd.c:247-306 | an admitted command goes to the tail, and its caller waits exactly if it wants an acknowledgement |
| CommandProgress.WokenExactly | core/rtw_xmit.c:6830-6850 | a waiter is woken by a completion of its own context, or by the clock |
| CommandProgress.HeldKeepsOut | core/rtw_cmd.c:963-970 | while the mutex is held neither a caller nor the thread gets in |
| CommandProgress.LeavesDetached | core/rtw_cmd.c:963-969 | a caller leaves the mutex with its context detached, by itself or by the thread that completed it, and with its status kept |
| CommandProgress.RunningMeans | core/rtw_cmd.c:555-720 | in every run the running mark is set exactly while the thread is in its loop |
| CommandProgress.HeadIsSettled | core/rtw_cmd.c:559-669 | with work on the queue, three steps of the thread settle the command at the head, with the handler's result unless it is turned down |
| CommandProgress.OutcomeIsDelivered | core/rtw_cmd.c:671-702 | with the mutex free the thread writes the outcome to the context if it is still there, completes it once, detaches it and moves on |
| CommandProgress.StopsWhenTold | core/rtw_cmd.c:559-590 | told to stop, the thread leaves its loop from either waiting point and clears the running mark |
| CommandProgress.DrainGoesOn | core/rtw_cmd.c:718-745 | the final loop takes the head while there is one and ends only on an empty queue |
| CommandProgress.RestsOnEmpty | core/rtw_cmd.c:575-597 | with an empty queue the thread goes back to sleep and stays asleep |
| CommandProgress.QueuedIsWhole | core/rtw_cmd.c:247-366 | in every run nothing on the queue has been freed or completed |
| CommandTheorems.AcceptanceOrder | core/rtw_cmd.c:671-702 | outcomes are settled in the order of acceptance, also when a command goes back to the head: accepted = processed, then in hand, then queued |
| CommandTheorems.OwnershipIsExact | core/rtw_cmd.c:594-659 | no object or pbuf is freed twice; a rejected or settled command's owned pbuf has been freed exactly once, whichever way it went |
| CommandTheorems.ShutdownLeavesNothing | core/rtw_cmd.c:718-745 | after shutdown the queue holds exactly the commands accepted after the drain; all others are released, except the object of a failed disassociation |
| CommandTheorems.WaiterCanReturn | core/rtw_cmd.c:963-970 | from every reachable state a sleeping or woken caller can return once the present holder of the mutex leaves its critical section |
| CommandTheorems.LateEnqueueIsStranded | core/rtw_cmd.c:446-485 | a producer caught between filter and queue leaves its command behind after the drain |
| CommandTheorems.RetireKeepsObjectExactly | core/rtw_cmd.c:691-702 | retiring a command keeps its object exactly outside the drain, for the callback of a disassociation (lines 5156-5178) that failed; any other object is freed, once |
| CommandInvariant.StepKeeps | core/rtw_cmd.c:534-752 | every single step of any caller or of the thread keeps the protocol's invariant |
| CommandInvariant.FilterKeeps | core/rtw_cmd.c:446-474 | passing or rejecting a command keeps the invariant; rejecting releases its object and its pbuf once |
| CommandInvariant.EnqueueKeeps | core/rtw_cmd.c:247-306 | appending keeps queue, history and ownership consistent |
| CommandInvariant.CallerDecideKeeps | core/rtw_cmd.c:966-968 | a caller that timed out detaches its context, and never from a freed object |
| CommandInvariant.ThreadProcessKeeps | core/rtw_cmd.c:599-663 | each outcome, including re-insertion at the head, keeps order and ownership |
| CommandInvariant.ThreadCompleteKeeps | core/rtw_xmit.c:6866-6883 | completing a context happens to a live context, and the pointer to it is cleared while the object lives |
| CommandInvariant.DrainTakeKeeps | core/rtw_cmd.c:718-736 | draining keeps order and frees each owned pbuf once |
| CommandDriver.CmdPriv.Prepare | core/rtw_cmd.c:935-956 | a new command object, with a context of its own and a pointer to it exactly if the command is to be waited for |
| CommandDriver.CmdPriv.AdmitOrReject | core/rtw_cmd.c:446-474 | the filter on the object: through its pointers, exactly its own pbuf and object are released on a rejection, and nothing else in the heap changes |
| CommandDriver.CmdPriv.EnqueueTail | core/rtw_cmd.c:247-306 | the list grows at its tail by the object |
| CommandDriver.CmdPriv.DetachContext | core/rtw_cmd.c:963-969 | the caller tests its own context and clears the pointer to it; in every reachable state this raises no fault and an object that is written has not been freed |
| CommandDriver.CmdPriv.TakeNext | core/rtw_cmd.c:308-366 | the head object leaves the list for the thread's hand, unless the thread must stop or the list is empty |
| CommandDriver.CmdPriv.Process | core/rtw_cmd.c:599-669 | the thread's checks, filter, re-insertion of the object at the head, and handler: the heap afterwards is the one of the protocol's step |
| CommandDriver.CmdPriv.CompleteContext | core/rtw_cmd.c:671-682 | status, completion and clearing go through the pointer to the caller's context, and the undisturbed section is the run of its single steps |
| CommandDriver.CmdPriv.Retire | core/rtw_cmd.c:691-702 | callback or release of that object, after which the thread turns to the next command |
| CommandDriver.CmdPriv.DropHead | core/rtw_cmd.c:718-736 | one drained command, from the head of the list to the release of its object, is a run of the protocol |
| CommandDriver.CmdPriv.DrainAll | core/rtw_cmd.c:718-745 | left undisturbed, the drain loop terminates with an empty queue and is a run of the protocol |
| DfsChannels.ScanDfsRange | core/rtw_dfs.c:19-34 | finds a DFS channel in the range exactly when there is one |
| DfsChannels.NewIsBeyond | core/rtw_dfs.c:448-475 | a new channel off the ends of the current range lies strictly beyond one of them |
| DfsChannels.OverlapCases | core/rtw_dfs.c:455-475 | where the ranges overlap the four cases ask one question: is there a DFS channel beyond an end |
| DfsChannels.ResetTestIsRightExactly | core/rtw_dfs.c:433-486 | the reset test is right for every request with a DFS channel exactly unless the only new channels lie on an end of the current range |
| DfsChannels.ResetTestIsRight | core/rtw_dfs.c:433-486 | with range ends between channels: reset exactly when radar was detected, no range is current or a new DFS channel is requested |
| DfsChannels.NoResetNothingNew | core/rtw_dfs.c:433-486 | a request that asks for no reset has no new DFS channel |
| DfsChannels.FrequenciesAre | core/rtw_rf.c:1128-1185 | channel numbers and frequencies are inverse, from channel 36 at 5180 MHz up in steps of 5 MHz |
| DfsChannels.Channel231IsMissed | core/rtw_rf.c:84-114 | for a hypothetical plan that marked it, a channel of the table for which the reset would be missed |
| DfsChannels.ShippedPlansAreOffEnds | core/rtw_regdb_rtk.c:375-403 | no DFS channel of a shipped plan lies on an end of any tuning of the centre-channel tables |
| RadarDetection.NonOcpMsBounds | core/rtw_dfs.c:220-256 | the waiting time is the largest remaining non-occupancy time in the range, and some channel has it |
| RadarDetection.ObserverIsPassive | core/rtw_dfs.c:547-636 | recording listening and detections does not change what the machine does |
| RadarDetection.ReportIsActedOn | core/rtw_dfs.c:555-590 | a report in service, after the check, or once the check has begun: every channel in its reach, and no other, is closed for 30 minutes, and the decision on the switch is in force |
| RadarDetection.DecisionTakesEffect | core/rtw_dfs.c:677-753 | an enable leaves detection on for exactly its tuning, without a check after a bypass; a disable leaves it off |
| RadarDetection.ReportIsIgnored | core/rtw_dfs.c:555-583 | before the start of a running window, or with detection off, a poll changes nothing, report or not |
| RadarDetection.QuietPoll | core/rtw_dfs.c:592-602 | without a report a poll only ends a check whose window has passed |
| RadarDetection.ResetAsksForTheCheck | core/rtw_dfs.c:379-431 | outside the range in use a reset starts when the last closed channel opens and lasts for two seconds of setting up, less the waiting, and the check: none without a DFS channel, ten minutes exactly for an ETSI range touching 5600 to 5650 MHz, else one minute |
| RadarDetection.MovingInsideKeepsTheCheck | core/rtw_dfs.c:433-447 | a tuning inside the range in use keeps a running check, unless radar was detected, and waits only for the rest of it |
| RadarDetection.LeavingRestarts | core/rtw_dfs.c:449-453 | a tuning that does not overlap the range in use always starts a check |
| RadarDetection.WaitsForTheLast | core/rtw_dfs.c:220-256 | the waiting time is zero exactly when no channel in reach is closed, and after it none is |
| RadarDetection.WatchdogOpensNothing | core/rtw_dfs.c:314-353 | stopping a mark never changes whether a channel is closed, now or later, and happens exactly to the named channels whose period is over |
| RadarDetection.PeriodsEndNow | core/rtw_chplan.c:269-277 | a regulatory apply ends running periods at once and leaves stopped marks stopped |
| RadarDetection.LongTunings | core/rtw_rf.c:2518-2543 | the driver's tunings that ask for ten minutes are exactly 120, 124, 128, 118/40, 126/40, 122/80 and 114/160 in the ETSI domain |
| RadarDetection.LongChannels | core/rtw_rf.c:2518-2543 | the channels whose check takes ten minutes are exactly ETSI channels 120 to 130 |
| RadarSafety.ChannelAfterReset | core/rtw_dfs.c:488-515 | after a reset the availability window of every channel covers its non-occupancy period and a full check |
| RadarSafety.EnableKeeps | core/rtw_dfs.c:677-717 | enabling detection keeps the invariant, with or without bypass |
| RadarSafety.HitEnableKeeps | core/rtw_dfs.c:547-636 | a detection followed by a switch keeps the invariant |
| RadarSafety.DisableKeeps | core/rtw_dfs.c:719-753 | disabling keeps the invariant |
| RadarSafety.RunKeeps | core/rtw_dfs.c:379-515 | every run of enable, disable, poll, watchdog, regulatory apply and time keeps it |
| RadarSafety.RegulatoryEndsPeriods | core/rtw_chplan.c:272-278 | one tick after a regulatory apply no non-occupancy period is running, so the account of detections starts anew |
| RadarSafety.AvailabilityCheckIsComplete | core/rtw_dfs.c:379-431 | whenever detection is enabled and the channel is not waiting, each DFS channel in range was inherited by bypass, or carries a listening mark at least 60 s old (10 min for an ETSI channel at 5600 to 5650 MHz), set 30 min or more after the last detection there since a regulatory apply |
| RadarListening.ListeningIsReal | core/rtw_dfs.c:547-636 | a mark set at q means that at every time after q of the run a poll with any report on the channel would have closed it and carried the decision out, or the check had been restarted at that tick |
| RadarListening.HearingIsDetecting | core/rtw_dfs.c:555-590 | in every state in which a channel is listened to, a poll with a report in whose reach it lies closes it for 30 minutes and carries the decision out |
| RadarListening.AvailabilityCheckIsReal | core/rtw_dfs.c:379-431 | both together: uninterrupted detection, as a poll would act, for at least 60 s, or 10 min where ETSI asks for it, on every DFS channel in range, from 30 min after the last detection there since a regulatory apply, unless inherited by bypass |
| RadarListening.ShippedPlansFit | core/rtw_regdb_rtk.c:151-206 | with a shipped plan every run of the driver's tunings, watchdog passes and applies of settings with the same DFS channels meets the conditions |
| RadarDriver.RfCtl.GetNonOcpMs | core/rtw_dfs.c:220-256 | the loop computes that maximum |
| RadarDriver.RfCtl.UpdateNonOcp | core/rtw_dfs.c:262-292 | exactly the touched channels get a new end time, never the stopped mark |
| RadarDriver.RfCtl.GetChWaitingMs | core/rtw_dfs.c:379-431 | non-occupancy and availability times of a tuning |
| RadarDriver.RfCtl.IsCacResetNeeded | core/rtw_dfs.c:433-486 | the test in place is the specified one |
| RadarDriver.RfCtl.DoResetCac | core/rtw_dfs.c:488-515 | the window and range are programmed as specified |
| RadarDriver.RfCtl.DoEnable | core/rtw_dfs.c:677-717 | the new state of an enable |
| RadarDriver.RfCtl.DoDisable | core/rtw_dfs.c:719-753 | the new state of a disable |
| RadarDriver.RfCtl.DoPoll | core/rtw_dfs.c:547-636 | the new state of a poll, with a report acted on or ignored |
| NonOcpWatchdog.CheckNonOcpFinish | core/rtw_dfs.c:355-377 | one pass in place is the specified one: it stops exactly the expired channels its reports name, every addressable one among them; each report is the tables' group of a channel of the set at its bandwidth, widest first, disjoint, and every wholly expired group meets a report at least as wide |
| NonOcpWatchdog.PassIsRight | core/rtw_dfs.c:355-377 | the same of the specification, for every set of channels and every table: each report is a group of the tables, and a channel whose group, whatever offset is carried over, had expired as a whole is met by a report at least as wide |
| NonOcpWatchdog.UngroupedStays | core/rtw_dfs.c:314-353 | a channel in no group of any width is left unchanged |
| NonOcpWatchdog.AddressableIsStopped | core/rtw_dfs.c:355-377 | a channel that is its own 20 MHz group is stopped when it has expired |
| NonOcpWatchdog.NamedAtWidest | core/rtw_dfs.c:355-377 | with nested groups each expired channel is named at the widest bandwidth at which its group has wholly expired, and at no other |
| FinishGroups.ShippedTablesNest | core/rtw_rf.c:115-210 | the groups of the driver's 5 GHz tables are nested |
| FinishGroups.ReportedAtWidest | core/rtw_dfs.c:355-377 | so with the driver's tables every expired channel is reported exactly at that bandwidth |
| NonOcpWatchdog.PassIsWatchdog | core/rtw_dfs.c:355-377 | a pass is the watchdog event of the radar runs: some of the expired channels are stopped |
| NonOcpWatchdog.Sweep | core/rtw_dfs.c:360-372 | a sweep at one bandwidth in place is the specified one, visit by visit |
| NonOcpWatchdog.FinishGroup | core/rtw_dfs.c:314-353 | a group is stopped as a whole or not at all |
| NonOcpWatchdog.GroupExpired | core/rtw_dfs.c:326-338 | a group passes exactly when all its channels are in the set and have expired |
| NonOcpWatchdog.StopGroup | core/rtw_dfs.c:340-350 | stopping changes exactly the group's channels |
| NonOcpWatchdog.ProgressGroup | core/rtw_dfs.c:314-353 | reporting an expired group keeps reports disjoint and complete |
| ChannelSearch.ChooseShortestWaiting | core/rtw_dfs.c:965-1108 | finds nothing exactly when no (channel, bandwidth) pair is eligible, and otherwise the first optimal pair in scan order |
| ChannelSearch.ChoiceWaitsLeast | core/rtw_dfs.c:999-1092 | the choice is a channel that is not disabled and passes the caller's limits, and no eligible pair can be used earlier |
| ChannelSearch.EligibleMeans | core/rtw_dfs.c:999-1068 | what makes a pair eligible, condition by condition |
| ChannelSearch.BetterIsStrictTotal | core/rtw_dfs.c:1070-1083 | the order (waiting, interference, wider, closer) is strict, transitive and total on scores |
| ChannelSearch.ReplacesIsBetter | core/rtw_dfs.c:1070-1083 | the chain of conditions in the loop is exactly that order |
| ChannelSearch.OneMore | core/rtw_dfs.c:999-1092 | one more pair: the running best stays the first optimal one, or that pair becomes it |
| BridgeTable.RunIsSound | core/rtw_br_ext.c:384-526 | after any operations every entry has a positive use count and the shortcut names an entry that exists |
| BridgeTable.HitIsLastInsert | core/rtw_br_ext.c:417-526 | over any operations, a look-up that hits gives the MAC of the last insert that was stored for that very address, not cleaned up since, used at most 300 s ago |
| BridgeTable.InsertIsFound | core/rtw_br_ext.c:491-526 | an insert into a known entry, or with memory, is found with its own MAC for 300 s |
| BridgeTable.InsertElsewhere | core/rtw_br_ext.c:491-526 | and changes nothing for any other address |
| BridgeTable.LookupCounts | core/rtw_br_ext.c:417-488 | a hit renews the entry and counts one use more, a miss changes nothing |
| BridgeTable.UsesAreCounted | core/rtw_br_ext.c:384-526 | an entry's count is one for its insert and one for each use since |
| BridgeTable.FreshSurvives | core/rtw_br_ext.c:645-730 | an entry used in the last 300 s survives every expiry pass unchanged |
| BridgeTable.ShortcutRenews | core/rtw_br_ext.c:1565-1588 | a use through the shortcut renews that entry and counts as one |
| BridgeTable.CleanupForgets | core/rtw_br_ext.c:616-643 | after a cleanup nothing is found |
| BridgeTable.OneOp | core/rtw_br_ext.c:645-730 | an operation without a refresh leaves an expired entry alone, or is a pass that takes one use, or the last |
| BridgeTable.ExpiredEntryDies | core/rtw_br_ext.c:645-730 | an expired entry that nobody refreshes is gone after exactly as many passes as it had uses |
| BridgeTable.ExpireNext | core/rtw_br_ext.c:645-730 | the pass, entry by entry, is the simultaneous one |
| BridgeDatabase.PushImage | core/rtw_br_ext.c:384-399 | linking at the head keeps all chains well formed, with unique keys in their buckets |
| BridgeDatabase.RemoveImage | core/rtw_br_ext.c:401-415 | unlinking through `pprev` keeps all chains well formed |
| BridgeDatabase.Nat25.Link | core/rtw_br_ext.c:384-399 | the heap fields after linking |
| BridgeDatabase.Nat25.Unlink | core/rtw_br_ext.c:401-415 | the heap fields after unlinking |
| BridgeDatabase.Nat25.Find | core/rtw_br_ext.c:421-431 | finds the entry of an address exactly when the table has it |
| BridgeDatabase.Nat25.LookupAndReplace | core/rtw_br_ext.c:417-488 | look-up agrees with the table: found MAC, refreshed use |
| BridgeDatabase.Nat25.DbInsert | core/rtw_br_ext.c:491-526 | insert or refresh agrees with the table |
| BridgeDatabase.Nat25.DbExpire | core/rtw_br_ext.c:645-730 | an expiry pass agrees with the table and drops a shortcut to a freed entry |
| BridgeDatabase.Nat25.DbCleanup | core/rtw_br_ext.c:616-643 | cleanup empties the table and clears the shortcut |
| BridgeDatabase.Nat25.FindShortcut | core/rtw_br_ext.c:1565-1588 | the shortcut is a linked entry of that address or nothing |
| BridgeDatabase.Nat25.UseShortcut | core/rtw_xmit.c:4642-4690 | a use of the shortcut refreshes an entry that is still linked |
| BridgeDatabase.NewDatabase | core/rtw_br_ext.c:330-382 | an empty database is well formed, with the driver's own hash |
| PppoeTags.RelayRoundTrip | core/rtw_br_ext.c:1208-1248 | for any reply that echoes the relay tag with no other in front: the client's address comes back, nonempty old data is restored, otherwise the tag is dropped, all other tags stay |
| PppoeTags.RelayOnTheWire | core/rtw_br_ext.c:1163-1174 | the relay tag octet by octet: magic code, client address, old data |
| PppoeTags.RelayableMeans | core/rtw_br_ext.c:1136-1162 | which tag lists can be relayed |
| PppoeRelay.StrippedBytesAre | core/rtw_br_ext.c:1145-1162 | taking the old tag out shortens the tags by exactly its header and data |
| PppoeTags.StrippedKeepsOthers | core/rtw_br_ext.c:1146-1161 | only the first relay tag leaves the request |
| PppoeTags.RoomIsRightExactly | core/rtw_br_ext.c:105-122 | the computed room is the tag's size exactly on a big-endian host |
| PppoeTags.FindKind | core/rtw_br_ext.c:87-103 | the first tag of a kind |
| PppoeRelay.Skb.FindTag | core/rtw_br_ext.c:87-103 | the scan finds the first tag of a kind, and where it starts |
| PppoeRelay.Skb.PullAndMerge | core/rtw_br_ext.c:124-143 | takes bytes out and closes the gap, refused exactly beyond the end |
| PppoeRelay.Skb.AddTag | core/rtw_br_ext.c:105-122 | puts the tag's memory in front of the tags with an exact length, refused exactly without tailroom |
| PppoeRelay.Skb.TakeOld | core/rtw_br_ext.c:1145-1162 | takes the old relay tag out, or refuses one over the buffer's 40 bytes and changes nothing |
| PppoeRelay.Skb.InsertRelay | core/rtw_br_ext.c:1136-1173 | PADI and PADR in place, for both byte orders: refused unchanged, refused with the old tag gone, or done |
| PppoeRelay.BigEndianInserts | core/rtw_br_ext.c:1163-1174 | on a big-endian host the frame then holds exactly the new tag in front of the others |
| PppoeRelay.ClientComesBack | core/rtw_br_ext.c:1163-1174 | a request relayed from a client and any reply that echoes its tag: the reply's destination afterwards is the request's source address |
| PppoeRelay.ReplyGoesToClient | core/rtw_br_ext.c:1208-1248 | the same over the two frames in memory, octets 6 to 11 of the request and 0 to 5 of the reply |
| PppoeRelay.Skb.CheckRelay | core/rtw_br_ext.c:1215-1237 | accepts exactly a relay tag with magic code and address |
| PppoeRelay.Skb.LookupRelay | core/rtw_br_ext.c:1208-1248 | PADO and PADS in place: refused unchanged, or the recovered address and tags with exact length |
| DhcpChecksum.Fold | core/rtw_br_ext.c:1551-1553 | the fold loop terminates and keeps the value modulo 65535 |
| DhcpChecksum.FoldKeepsModulo | core/rtw_br_ext.c:1551-1553 | folding keeps the value modulo 65535 and is 0 only for 0 |
| DhcpChecksum.VerifiesMeans | core/rtw_br_ext.c:1549-1554 | the receiver's test in terms of the plain sum |
| DhcpChecksum.SetBroadcastShifts | core/rtw_br_ext.c:1545-1554 | the sum afterwards is the old sum less the old flags |
| DhcpChecksum.StillVerifiesExactly | core/rtw_br_ext.c:1545-1554 | a verifying datagram of any length still verifies exactly when its old flags were zero, or the flag was already set |
| DhcpChecksum.RequestOnTheWire | core/rtw_br_ext.c:1524-1544 | what counts as a DHCP request, octet by octet: UDP, ports 68 to 67, operation 1, the magic cookie |
| DhcpChecksum.SetBroadcastPlaces | core/rtw_br_ext.c:1545-1554 | only the flags and checksum words are written, and the flags gain just the flag |
| DhcpChecksum.FlagSetOnTheWire | core/rtw_br_ext.c:1545-1548 | setting the flag sets the top bit of octet 10 of the message and no other octet but the checksum's |
| DhcpChecksum.UnusedChecksumBecomesUsed | core/rtw_br_ext.c:1549-1554 | what an unused checksum turns into |
| DhcpChecksum.UnusedChecksumIsWrong | core/rtw_br_ext.c:1549-1554 | and when that one verifies |
| DhcpChecksum.UsedChecksumBecomesUnusedExactly | core/rtw_br_ext.c:1549-1554 | a checksum in use comes out as 0 exactly when it equals the new flags word |
| DhcpChecksum.DhcpFlagBcast | core/rtw_br_ext.c:1524-1562 | exactly DHCP requests without the flag are changed, in flags and checksum only |
| BeaconElements.AddIsExact | core/rtw_ap.c:174-239 | on a sorted list of nonempty elements whose first id is not above the given one: the element is replaced or put in its place, all others stay in order, the list stays sorted |
| BeaconElements.AddWorksExactly | core/rtw_ap.c:203-220 | adding an absent element has an effect exactly when a nonempty element stands in front of its place |
| BeaconElements.GrowthIsExact | core/rtw_ap.c:203-239 | the encoding grows by exactly what the method's capacity condition reckons with |
| BeaconElements.RemoveUndoesAdd | core/rtw_ap.c:241-274 | removing undoes adding a nonempty element that was absent |
| BeaconElements.EmptyElementStays | core/rtw_ap.c:247-248 | an element added empty stays |
| BeaconElements.EncodeConcat | core/rtw_ap.c:184-201 | encoding is compositional |
| BeaconBuffer.MemCopy | core/rtw_ap.c:224-232 | copies exactly the bytes |
| BeaconBuffer.Network.GetIe | core/rtw_ieee80211.c:360-384 | the scan finds the first element with the id, where it starts and how long it is |
| BeaconBuffer.Network.ScanForPlace | core/rtw_ap.c:182-201 | the scan finds the matching element or the last one in front of the place |
| BeaconBuffer.Network.Splice | core/rtw_ap.c:216-238 | backup, overwrite and append keep head and remainder byte by byte with exact length |
| BeaconBuffer.Network.AddBcnIe | core/rtw_ap.c:174-239 | the buffer afterwards is exactly the fixed fields and the encoding of the new list, longer by exactly what the list grew |
| BeaconBuffer.Network.RemoveBcnIe | core/rtw_ap.c:241-274 | likewise for removal |
| BeaconBuffer.Network.PokeData | core/rtw_ap.c:3421-3421 | overwriting one data byte changes that byte of that element only |
| CsaCountdown.UpdatesAre | core/rtw_ap.c:3583-3603 | the state after any number of updates |
| CsaCountdown.CountdownRunsOut | core/rtw_ap.c:3398-3444 | updates announce the requested channel, switch mode 0 and N down to 1, the next one restores the element list and issues exactly one change, to that channel, later ones do nothing |
| CsaCountdown.SwitchHappensExactly | core/rtw_ap.c:3418-3440 | a started switch is ever announced or issued exactly when its element has a place; else it blocks new requests |
| CsaCountdown.LostSwitch | core/rtw_ap.c:3422-3426 | a beacon on which it is lost |
| CsaCountdown.StartIsStarting | os_dep/linux/ioctl_cfg80211.c:10957-11012 | a request that sets anything starts the countdown with the last announcement's channel and count and leaves the beacon alone |
| CsaCountdown.StartExactly | os_dep/linux/ioctl_cfg80211.c:10957-11012 | exactly which requests are refused, and exactly which of the others start a countdown |
| CsaCountdown.LastCsaIs | os_dep/linux/ioctl_cfg80211.c:10975-10990 | it is the channel and count octet of the last announcement in the new beacon |
| CsaCountdown.JoinNeedsLinkingThen | core/rtw_ap.c:3383-3394 | a switch that ends in a join: the announcement is taken out, and the join is issued exactly if an adapter is linking; otherwise no later update issues it, and requests stay refused |
| CsaCountdown.UpdateGrowthIsExact | core/rtw_ap.c:3398-3444 | by how many bytes an update lengthens the beacon, at most 5 |
| CsaCountdown.AccessPoint.ParseTail | os_dep/linux/ioctl_cfg80211.c:10975-10990 | the loop over the new beacon's bytes finds the last announcement's channel and count |
| CsaCountdown.AccessPoint.RequestSwitch | os_dep/linux/ioctl_cfg80211.c:10957-11012 | which requests are refused, which succeed and set nothing, and what the others set |
| CsaCountdown.AccessPoint.Process | core/rtw_ap.c:3358-3396 | the command issued at the end of the countdown |
| CsaCountdown.AccessPoint.UpdateCsaIe | core/rtw_ap.c:3398-3444 | which of the branches is taken and what the beacon holds then |
| CsaCountdown.AccessPoint.UpdateBeacon | core/rtw_ap.c:3583-3603 | one update in place is the specified one, and the beacon is sent again in every case |
| TimElement.ChooseOctets | core/rtw_ap.c:56-75 | the octets between offset and end: even offset, nothing nonzero outside |
| TimElement.SetTimIe | core/rtw_ap.c:49-86 | the bytes written, and nothing else changed |
| TimElement.StationReadsBitmap | core/rtw_ap.c:77-86 | the element is well formed exactly up to 252 octets, and a station reads back the bit of every AID and the group bit |
| TimElement.ElementIsShortest | core/rtw_ap.c:59-71 | the offset is the largest even number not beyond the first nonzero octet, and no even offset and length covering all of them is shorter |
| TimElement.LengthIsExactUpTo250 | core/rtw_ap.c:85-85 | the eight-bit return value is exact exactly up to 250 octets |
| TimElement.LengthWraps | core/rtw_ap.c:85-85 | AIDs 1 and 2007 together return length 0 |
| BssCapabilities.BeaconTellsTheTruth | core/rtw_ap.c:3144-3176 | after every run of joins, re-joins, leaves and reports: counters count, Use_Protection is set exactly when some member is non-ERP, the HT mode is MIXED exactly when some member is not HT |
| BssCapabilities.JoinKeeps | core/rtw_ap.c:3850-4043 | a join keeps the counters; the station's flags follow its capabilities, except that marks for no greenfield, 20 MHz and 40 MHz intolerance are only ever set |
| BssCapabilities.LeaveKeeps | core/rtw_ap.c:4046-4135 | a leave keeps the counters and clears the station's flags |
| BssCapabilities.HtModeFollows | core/rtw_ap.c:3747-3816 | after an HT update the marks and the mode follow from the stations' flags |
| BssCapabilities.ReportIsRemembered | core/rtw_ap.c:3639-3704 | a coexistence report marks its station intolerant exactly if it says so, and remembers a mere width request and reported channels |
| BssCapabilities.BarkerAfterJoinExactly | core/rtw_ap.c:3144-3176 | with the Barker bit right before a join it is right after it exactly when the element is rewritten or the existence of a station without short preamble has not changed |
| BssCapabilities.BarkerAfterLeaveExactly | core/rtw_ap.c:4046-4135 | the same for a leave |
| BssCapabilities.BarkerAfterReport | core/rtw_ap.c:3639-3704 | a coexistence report changes neither the bit nor what it should be |
| BssCapabilities.BarkerBitIsStale | core/rtw_ap.c:3167-3170 | a run, one first join, after which the bit is wrong |
| BssCapabilities.RejoinKeepsOldWidth | core/rtw_ap.c:3960-3990 | a re-join keeps the 20 MHz flag |
| BssDriver.MlmePriv.UpdateBcnErp | core/rtw_ap.c:3144-3176 | the ERP bits in place |
| BssDriver.MlmePriv.HtUpdate | core/rtw_ap.c:3747-3816 | the HT mode in place, and a positive count exactly for a change |
| BssDriver.MlmePriv.StaJoin | core/rtw_ap.c:3850-4043 | a join in place is the specified one |
| BssDriver.MlmePriv.StaLeave | core/rtw_ap.c:4046-4135 | a leave in place is the specified one |
| BssDriver.MlmePriv.CoexReport | core/rtw_ap.c:3639-3704 | a report in place, and an update asked for exactly on a change |
| RegulatoryPrecedence.PrecedenceHolds | core/rtw_chplan.c:1601-1781 | after every run of user and country-element requests: none is in effect exactly when every record is NOCOUNTRY; in force is the effected record's setting, else the user's, else the initial one; with any doubtful record the world-wide plan |
| RegulatoryPrecedence.OverridesFollow | core/rtw_chplan.c:1865-1934 | after every run the overrides in force are those of the request in force: the effected record's entry, the user's country or the world-wide ones |
| RegulatoryPrecedence.ShippedModes | core/rtw_chplan.c:423-440 | the EDCCA modes by the shipped tables: carrier sense for the Japanese plan, adaptive for the European and the world-wide one, normal for the American one |
| RegulatoryPrecedence.ChooseIsFirstBest | core/rtw_chplan.c:1672-1696 | the selection loop picks the first record of the highest score, preferring the country in effect |
| RegulatoryPrecedence.ElementKeeps | core/rtw_chplan.c:1633-1711 | a country-element request keeps the invariant, whichever early exit it takes |
| RegulatoryPrecedence.RestoreIsRightful | core/rtw_chplan.c:1715-1751 | restoring brings back exactly the recorded setting |
| RegulatoryPrecedence.UserKeeps | core/rtw_chplan.c:1625-1636 | a user request keeps the invariant |
| RegulatoryPrecedence.UserSettingIsRecorded | core/rtw_chplan.c:1880-1893 | a user's plan is recorded in any case, and applied exactly when no record is in effect |
| RegulatoryPrecedence.UserCountryIsRecorded | core/rtw_chplan.c:2081-2111 | so is a user's country |
| RegulatoryPrecedence.FailsExactly | core/rtw_chplan.c:1842-1880 | a user's request fails exactly for an invalid plan, and a failed request sets nothing in force |
| RegulatoryPrecedence.Modes | core/rtw_chplan.c:935-949 | the computed EDCCA modes stay at the default in both bands exactly for a country without overrides whose plan has no regulation in either |
| RegulatoryPrecedence.MadeRecordsAreOk | core/rtw_chplan.c:995-1068 | what every record made from a country element satisfies: an unknown country has exactly the world-wide entry, a country without its channel that entry with the modes computed for the country |
| RegulatoryPrecedence.MadeStatusExactly | core/rtw_chplan.c:995-1068 | the record keeps code, band and channel; its status is exactly: no country, unknown, channel not in the plan, or applicable |
| RegulatoryPrecedence.ChoiceStaysHighestExactly | core/rtw_chplan.c:1655-1670 | one request: the record in effect keeps the highest score exactly when the entry changed, or another interface's new status scores no more than it, or its own scores no less than the others |
| RegulatoryPrecedence.ChoiceIsHighestExactly | core/rtw_chplan.c:1655-1696 | after every run the record in effect has the highest score, exactly when there is one interface or every country has a regulation in some band or an override |
| RegulatoryPrecedence.ShippedIsRegulated | core/rtw_regdb_rtk.c:227-339 | every country of the shipped tables has a plan with a 2.4 GHz regulation |
| RegulatoryPrecedence.ShippedChoiceIsHighest | core/rtw_chplan.c:1592-1599 | so with the shipped tables the record in effect has the highest score after every run |
| RegulatoryPrecedence.ReselectIsRightfulExactly | core/rtw_chplan.c:1865-1873 | after a request that selects again the setting in force is the chosen record's exactly when that record's plan is valid |
| RegulatoryDriver.RfCtl.Select | core/rtw_chplan.c:1681-1696 | the loop computes the choice |
| RegulatoryDriver.RfCtl.PrehdlCountryIe | core/rtw_chplan.c:1601-1781 | records and choice in place, every exit |
| RegulatoryDriver.RfCtl.SetChplanHdl | core/rtw_chplan.c:1842-1934 | the handler in place is the specified one |
| ChannelSetCache.CacheAgrees | core/rtw_chplan.c:123-168 | right after applying a valid plan, the set accepts a request exactly when the plan does, the set has its channels and the database restricts none of them further |
| ChannelSetCache.PlainDatabaseAgrees | core/rtw_chplan.c:176-222 | with a database without extra limits and a set with all channels, both accept the same requests |
| ChannelSetCache.ChannelAgrees | core/rtw_chset.c:107-153 | the same for one channel |
| ChannelSetCache.AppliedMeans | core/rtw_chplan.c:176-302 | one channel after an apply: disabled exactly if it is excluded, 6 GHz or not in a valid plan, else with just the plan's limits |
| ChannelSetCache.PassiveMatters | core/rtw_chplan.c:145-158 | a channel without initiated radiation is refused exactly if other channels may not be passive, or it is the primary one and that may not |
| ChannelSetCache.WidthLimits | core/rtw_chset.c:124-150 | which width limits refuse which requests |
| ChannelSetCache.EnabledCounts | core/rtw_chplan.c:280-302 | the count is the number of channels that are not disabled |
| ChannelSetCache.InvalidPlanOpensSet | core/rtw_chplan.c:196-204 | with an invalid plan the set accepts channels unseen by the database |
| ChannelSetCache.ExcludedMeans | core/rtw_chplan.c:44-55 | the exclusion list counts up to its first 0 |
| ChannelSetCache.IsPlanBchbwValid | core/rtw_chplan.c:123-168 | accepts exactly when every channel is in the plan, not excluded and passively allowed |
| ChannelSetCache.ChSet.SearchBch | core/rtw_chset.c:90-105 | the first matching channel or -1 |
| ChannelSetCache.ChSet.IsBchbwValid | core/rtw_chset.c:117-163 | accepts exactly when every channel's cached flags allow it |
| ChannelSetCache.ChSet.ApplyFromPlan | core/rtw_chplan.c:176-222 | every channel's flags afterwards |
| ChannelSetCache.ChSet.ApplyRegulatory | core/rtw_chplan.c:243-302 | reset, apply, end running non-occupancy periods, count enabled channels |
| SoundingTheorems.SoundingsAreOrdered | core/rtw_beamforming.c:783-930 | in every run: each listed single-user peer at most once per period and no other, the multi-user sounding at most once and after all of them, and no event leaves a half-ended sounding |
| SoundingTheorems.FinishedPeriodIsComplete | core/rtw_beamforming.c:854-930 | a period that ends by itself has given every listed peer its turn |
| SoundingTheorems.OneCallIsBounded | core/rtw_beamforming.c:873-877 | one call acts at most once per listed peer left, and once for the multi-user ones |
| SoundingTheorems.NextPicks | core/rtw_beamforming.c:854-930 | every choice: peers to be deleted are struck on the way to the first one to be sounded; without one the multi-user candidates are sounded together; without these the period ends |
| SoundingTheorems.DownRecords | core/rtw_beamforming.c:1565-1624 | the end of a sounding resets or counts up its peer's failures, or takes off its deletion mark, and then the next peer is chosen |
| SoundingTheorems.DownPicks | core/rtw_beamforming.c:1565-1624 | after the multi-user sounding nothing is recorded and the period goes on or ends |
| SoundingTheorems.UntimelyIsIgnored | core/rtw_beamforming.c:954-1028 | timeouts, reports and start commands at other times, and ticks within a period, change nothing |
| SoundingTheorems.TimedOutIsSkipped | core/rtw_beamforming.c:998-1028 | a timeout counts neither as success nor as failure, the next start command goes on with the others, and a late report changes nothing |
| SoundingTheorems.PeriodBegins | core/rtw_beamforming.c:803-852 | a period goes ahead exactly if a peer is listed and no survey runs; with nobody listed the scheduler goes idle, but for a peer that is not ready only after five more tries |
| SoundingScheduler.CountsAre | core/rtw_beamforming.c:696-781 | counts run down by one per period; a listed peer is due again after its own period in units of the least one, one to be deleted stays due |
| SoundingScheduler.TrafficIsJudged | core/rtw_beamforming.c:2042-2075 | a peer is sounded exactly if worth it; a change makes it due at once, and marks it for deletion if it is not worth it any more; only a change wakes an idle scheduler |
| SoundingTheorems.NextKeeps | core/rtw_beamforming.c:854-930 | the choice of the next peer keeps the account of the period |
| SoundingTheorems.DownKeeps | core/rtw_beamforming.c:1565-1624 | so does the end of a sounding, which always moves on |
| SoundingScheduler.Next | core/rtw_beamforming.c:854-930 | terminates by the number of listed single-user peers not yet sounded, and keeps lists and indices well formed |
| SoundingScheduler.Down | core/rtw_beamforming.c:1565-1624 | terminates with it |
| SoundingScheduler.LeftDrops | core/rtw_beamforming.c:862-869 | that number drops by one with each peer marked |
| SoundingScheduler.ListsAreDistinct | core/rtw_beamforming.c:696-781 | peers are listed once, in one list, within the limits |
| SoundingScheduler.SuListIsRight | core/rtw_beamforming.c:753-767 | which peers are listed for single-user sounding |
| SoundingScheduler.MuListIsRight | core/rtw_beamforming.c:736-751 | which peers are listed for multi-user sounding |
| SoundingDriver.BeamformingInfo.ResetVars | core/rtw_beamforming.c:664-687 | the reset in place |
| SoundingDriver.BeamformingInfo.GetList | core/rtw_beamforming.c:696-781 | lists, counts and return code |
| SoundingDriver.BeamformingInfo.BeginPeriod | core/rtw_beamforming.c:803-852 | the start of a period in place, every early return |
| SoundingDriver.BeamformingInfo.NextPeer | core/rtw_beamforming.c:854-930 | in place, with termination through the mutual recursion |
| SoundingDriver.BeamformingInfo.SoundingDown | core/rtw_beamforming.c:1565-1624 | in place, with termination through the mutual recursion |
| SoundingDriver.BeamformingInfo.SoundingHandler | core/rtw_beamforming.c:783-930 | in place, from every state |
| SoundingDriver.BeamformingInfo.SoundingTimeout | core/rtw_beamforming.c:998-1028 | in place |
| SoundingDriver.BeamformingInfo.PeriodTimer | core/rtw_beamforming.c:954-990 | in place, short of a forced stop |
| SoundingDriver.BeamformingInfo.JudgeTraffic | core/rtw_beamforming.c:2042-2075 | in place, given which peers are worth sounding |

## Left out

- Registers, firmware, netlink, log text, power saving and debug dumps: effects without
  visible meaning here.
- Semaphore counts: the command thread may wake at any time; commands that are run
  directly, without the queue; the `bHWPwrPindetect` exception of the filter.
- Freed bridge entries stay in the model's ghost set of objects, unlinked; memory reuse
  is not modelled.  Memory allocation succeeds while an element buffer is edited.
- Time is an unbounded integer in milliseconds with one tick per millisecond: no
  wrap-around; it does not advance within one function.
- Forced CAC stop, the fake-radar switches and the forced stop of a sounding: they
  bypass what is proved.
- One radio band, one link per interface, no 6 GHz: the guards for more are always true.
- NonOcpWatchdog.CheckNonOcpFinish: channels that the offset table does not know at
  20 MHz (231, 235 and 251 in this table) are not promised to be stopped.
- RadarListening.ShippedPlansFit: a regulatory setting that changes which channels are
  DFS channels is not among the events of a run.
- RadarSafety.AvailabilityCheckIsComplete: assumes tunings with no DFS channel on a range
  end, because of the exception that `ResetTestIsRightExactly` delimits; `ShippedPlansFit`
  shows that the shipped plans meet this for every tuning of the driver.
- RadarListening.AvailabilityCheckIsReal: the tick at which a check is restarted counts
  as heard, and listening means that a report would be acted on, not that the hardware
  makes one.
- ChannelSearch.ChooseShortestWaiting: the offset variable starts with any value, as it
  does in the code, where 2.4 GHz channels 5 to 9 take over the previous pair's offset.
- BeaconBuffer.Network.AddBcnIe: the caller leaves room for what the list grows by, which
  the code does not check.
- `update_BCNTIM` beyond the element itself, the other `update_bcn_*` functions and the
  vendor elements: splicing by the same means.
- CsaCountdown.AccessPoint.RequestSwitch: the channel check is a parameter, the adapter
  is in AP mode, the mode field of the announcement is not passed on, as in the code, and
  announcements in the new beacon have their three data octets, which the code does not
  check.
- CommandDriver.CmdPriv.EnqueueTail: the list's own links are a sequence of objects; the
  pointers of each object are real.
- The extended announcement (`CONFIG_ECSA`) is not configured.
- BssDriver.MlmePriv.StaJoin: whether the beacon is sent again and other stations are
  updated, mesh elements and the traffic map bit of a leaving station.
- The reset of `num_sta_no_ht` when the beacon is checked, `start_bss_network` and
  `rtw_ap_chbw_decision`.
- PppoeRelay.Skb.InsertRelay: frames whose length field disagrees with their tags; the
  mode without relay tags, which only remembers one client's address.
- DhcpChecksum.DhcpFlagBcast: frames too short for the fields that are read.
- IPX, AppleTalk and IPv6 rewriting: the same database with other headers.
- RegulatoryPrecedence.PrecedenceHolds: records are compared by field, not by padding
  bytes; requests of the OS source and the choice of the initial setting.
- RegulatoryPrecedence.ShippedChoiceIsHighest: a customized country table, which this
  driver can be built with.
- Beacon hints, and flags that change after the plan was applied.
- SoundingTheorems.SoundingsAreOrdered: peers that enter or leave within a period, and
  the leave command issued after 31 failures.
- Country and plan tables, `rtw_btcoex`, SDIO and EEPROM code: data and plumbing.
