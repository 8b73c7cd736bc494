# Verified core of the ICSW cluster services

A Dafny model of seven parts of the cluster software that keep state over many steps, and proofs of
what they guarantee over whole runs. `dafny verify dfyconfig.toml` checks the whole project.

| part | files | the code it models |
|---|---|---|
| discovery dispatcher | `ListSort`, `Calendar`, `DispatchPlan`, `DispatchSchedule` | planning, presorting and delaying of runs |
| asset-scan dispatcher | `Alignment`, `AssetSchedule`, `AssetRuns`, `AssetService` | calendar alignment, table of future scans, life cycle of runs, both together |
| config server | `ConfigServer`, `ConfigProtocol`, `ConfigAnswers`, `ConfigProcess` | requests and builds between the main and the build process |
| SNMP scans | `SnmpBatches` | two-phase batches, routing of results, device lock |
| sensor thresholds | `Hysteresis` | the trigger with two bounds |
| text protocols | `Text`, `WmiRows`, `RrdReply` | rows with embedded newlines, replies in chunks |
| config tree, aggregation | `ConfigTree`, `ConfigNodes`, `HostMatch`, `Aggregation` | tree of generated files, sums over groups and the cluster |
| shared by several | `Enumeration`, `Options` | lists without repetition, optional values |

Every part has the same shape: functions on values say what one step does, a class or a loop does it
in the form of the code and is proved to compute exactly that, and lemmas prove what holds for every
input or after every sequence of steps. Where the code keeps no history, the model's state has
additional sequences (replies sent, runs ended, locks closed) so that "exactly once" can be said.

## How the model reads the code

- Time is a whole number of seconds; in `Hysteresis` values and times are reals without rounding.
- Python dictionaries and sets that are iterated over are walked through in an arbitrary order, chosen by the
  model (`:|`) or given by a parameter, so the results hold for every order.
- A look-up that would raise `KeyError` in a protocol handler is counted in `faults`; the invariants prove
  that it stays 0. Other exceptions are results: `ValueError`, `Raised`, `TypeClash`, `NotADirectory`.
- Adding a `relativedelta` of months keeps the day of the month or takes the last one of a shorter month; dividing one by ten
  cuts off years, months, days, hours and minutes one by one, as dateutil does.
- `weekday()` counts from Monday, whereas the comment at the model field says that 0 is Sunday; the model follows the code.
- In Python 2 `!=` between content objects without `__ne__` compares identities; contents have an id for this.

## What turned out to be false, and when it holds

Each of these has its exact condition, over all inputs or runs of the kind that the row names, and an input at which it fails.

| expected | holds exactly if | fails at |
|---|---|---|
| `num_running` of a batch is the number of its running runs | the batch has an address, or none of its runs was canceled yet: canceling a run that never started counts down, too (`AssetRuns.NumRunningExact`) | ten runs canceled for want of an address count to -10 (`AssetRuns.CountsBelowZero`) |
| an aligned time is the earliest aligned one after now | no loop starts at a time that is right already: the loops for minute and hour step before they look (`Alignment.EarliestExact`, for all five baselines) | `Alignment.HourSkipped`, `Alignment.DaySkipped` |
| the two flags of a threshold are never both set (bounds as saving leaves them) | no manual trigger meets the flag of the opposite kind (`Hysteresis.BothAfterStep` for one step, `Hysteresis.NeverBothExact` over runs) | `Hysteresis.ManualSetsBoth` |
| every SNMP batch is removed in the end | the device was not locked when the scan was requested (`SnmpBatches.LeftBehindExactly`) | `SnmpBatches.LockedScanStays` |
| patched rows with the number of fields of their header decode to the header and rows that were sent | there is no carriage return and no newline mark in them, no later row has a newline in its first field, the first row does not begin with one, and with a single column there is at most one row (`WmiRows.RoundTripExact`); what comes back in general is `WmiRows.DecodedReceived` | `WmiRows.CarriageReturnLost`, `WmiRows.LeadingNewlineLost`, `WmiRows.LaterNewlineMoves` |
| matching a host by full name, if no uuid reads like it, finds a device of that name | the name has a domain or the device added last under this short name bears it (`HostMatch.FullNameExact`) | `HostMatch.FullNameTaken` for the table, `HostMatch.HostInOtherGroup` for the group that the host is summed up in |
| the cluster-wide value of a key in sum aggregates, whose entries share one factor, is the sum over the hosts | the key belongs to one aggregate only or the sum is 0; in general it is that sum times the number of its aggregates (`Aggregation.ClusterExact`) | `Aggregation.DoubleCounted` |
| a sum aggregate keeps value times factor, whatever the factors of its entries | the factor of the entry that is fed first divides the total (`Aggregation.ProductKept`) | `Aggregation.ProductLost` |
| the loop that reads a well-formed reply of rrdcached in chunks ends | the whole reply has come: empty chunks, as a closed connection gives without end, change nothing (`RrdReply.EmptyChunks`, `RrdReply.EndsExactly`) | every proper beginning of a well-formed reply, in `RrdReply.EndsExactly` |

## Model

| member | source | states |
|---|---|---|
| ListSort.SortFacts | initat/discovery_server/dispatcher.py:112-115 | Python's sort: ordered by key, and a permutation of the list |
| ListSort.FilterSort | initat/discovery_server/dispatcher.py:112-115 | stability: for every predicate, selecting from the sorted list is sorting the selection |
| ListSort.SortedSelectionIsPrefix | initat/discovery_server/dispatcher.py:112-115 | if the predicate is closed towards smaller keys, the sorted selection is a prefix of the sorted list and nothing selected is behind it |
| DispatchPlan.GetNextPlannedRunTimes | initat/discovery_server/dispatcher.py:57-95 | the nested loops return the planned runs of all settings, setting by setting, or ValueError if the end lies before the start |
| DispatchPlan.NaiveRunsOf | initat/discovery_server/dispatcher.py:66-93 | what each setting adds: its first run is at the earliest time from start on at which the whole interval since a success, or a tenth of it since a failure, has passed, at start without history or with run_now; it is repeated after each interval up to the end |
| DispatchPlan.NaiveMayRun | initat/discovery_server/dispatcher.py:66-93 | no run is planned before that |
| Calendar.MonthStep | initat/cluster/backbone/models/dispatch.py:179-205 | the closed form for the first day of a month is right: months follow each other with their Gregorian lengths |
| Calendar.AddMonthsExact | initat/cluster/backbone/models/dispatch.py:204-205 | adding n months leads n calendar months further, at the same time of the day, to the same day of the month or the last one |
| Calendar.AddMonthsAscends | initat/cluster/backbone/models/dispatch.py:204-205 | adding more months leads to a later time |
| Calendar.AddMonthsNotMonotone | initat/cluster/backbone/models/dispatch.py:204-205 | but adding a month to a later time may lead to an earlier one |
| DispatchPlan.RetryEarlier | initat/discovery_server/dispatcher.py:76-81 | for every unit, a tenth of the interval after a failure is earlier than the whole one and not before the failed run |
| DispatchPlan.TenthBounds | initat/discovery_server/dispatcher.py:76-79 | for every unit ten times the tenth is the interval, up to nine of each field that are cut off |
| DispatchPlan.PlannedRunsExact | initat/discovery_server/dispatcher.py:83-93 | for every duration unit: the planned runs start with the first date, each following one is the interval later, all lie before the end and the one after the last does not; none if first >= end |
| DispatchPlan.PlannedRunsSeconds | initat/discovery_server/dispatcher.py:83-93 | without months run k is planned at first + k * interval, and there are (end - first) / interval runs rounded up |
| DispatchPlan.PlannedRunsMonths | initat/discovery_server/dispatcher.py:83-93 | with months run k lies in the calendar month k intervals after that of the first, at the same time of the day; the day of the month never grows |
| DispatchPlan.PresortList | initat/discovery_server/dispatcher.py:97-115 | the loop with the set of seen settings puts the first run of each run_now setting in front; both parts are stably sorted by date and device |
| DispatchPlan.PresortPermutes | initat/discovery_server/dispatcher.py:97-115 | presorting loses and invents nothing |
| DispatchPlan.RunNowFirst | initat/discovery_server/dispatcher.py:97-115 | the presorted list begins with exactly the first run of every run_now setting, one for each; both parts are ordered by date, then by device |
| DispatchPlan.PresortedHorizon | initat/discovery_server/dispatcher.py:57-115 | the presorted list of a shorter horizon is a prefix of that of a longer one, and everything behind it is planned at or after the shorter end |
| DispatchSchedule.ScheduleInfo.AddItem | initat/discovery_server/dispatcher.py:181-205 | the three dictionaries keep holding exactly the placed items of each device, source and setting, sorted by finish date |
| DispatchSchedule.ExpectedDates | initat/discovery_server/dispatcher.py:122-148 | reading the dictionaries gives the run date and finish date of the greedy placement |
| DispatchSchedule.HandleConstraints | initat/discovery_server/dispatcher.py:117-154 | the whole stage: items are placed one after the other in presorted order, cut off at the end and sorted by run date |
| DispatchSchedule.Calculate | initat/discovery_server/dispatcher.py:31-55 | the three stages together, or ValueError |
| DispatchSchedule.RunDateExact | initat/discovery_server/dispatcher.py:123-143 | a time is admissible for a run (planned date, source limit, free device, interval, stated without sorted lists) exactly from its computed run date on |
| DispatchSchedule.GreedyExact | initat/discovery_server/dispatcher.py:117-150 | the same for every run of the complete placement against the runs placed before it: each run date is the least admissible one, and the run takes its average duration, one minute without history |
| DispatchSchedule.SettingDateExact | initat/discovery_server/dispatcher.py:137-143 | because runs on a device never overlap, looking at the run of a setting that finishes last decides the interval to all of them, also for months, whose addition is not monotone |
| DispatchSchedule.SourceCapacity | initat/discovery_server/dispatcher.py:117-150 | at no instant are more runs of a source active than its limit, although only the n-th largest finish date is consulted and items are not placed in time order |
| DispatchSchedule.ScheduleCompatible | initat/discovery_server/dispatcher.py:132-150 | any two runs of the schedule on one device do not overlap, and any two of one setting are at least its interval apart |
| DispatchSchedule.ScheduleRespectsHistory | initat/discovery_server/dispatcher.py:57-154 | no run of the schedule starts before the interval since the last success, or a tenth of it since a failure, has passed; run_now settings aside |
| DispatchSchedule.NothingLost | initat/discovery_server/dispatcher.py:57-154 | the result is the run-date-ordered permutation of exactly the planned runs that start before the end; none starts before the beginning or its planned date |
| DispatchSchedule.HorizonConsistency | initat/discovery_server/dispatcher.py:31-154 | calculate(start, end1) is the prefix of calculate(start, end2) with the run dates before end1, for all start <= end1 <= end2 |
| Alignment.AlignSecond | initat/discovery_server/ext_com_scan.py:498-504 | the loop ends at the next time, at most 60 s later, with the requested second |
| Alignment.AlignMinute | initat/discovery_server/ext_com_scan.py:507-513 | the loop ends at most 60 minutes later with the requested minute and keeps the second |
| Alignment.AlignHour | initat/discovery_server/ext_com_scan.py:516-521 | the loop ends at most 24 hours later with the requested hour and keeps minute and second |
| Alignment.AlignDay | initat/discovery_server/ext_com_scan.py:524-529 | the loop ends at most 6 days later with the requested weekday and keeps hour, minute and second |
| Alignment.AlignTimeToBaseline | initat/discovery_server/ext_com_scan.py:548-564 | the chain of loops computes the aligned time of the baseline |
| Alignment.AlignmentExact | initat/discovery_server/ext_com_scan.py:548-564 | all requested fields are right at once, the time lies strictly after now (except for baseline second) and within the sum of the bounds |
| Alignment.IncrementKeepsAlignment | initat/discovery_server/ext_com_scan.py:584-600 | one increment later all fields are right again |
| Alignment.IncrementExact | initat/discovery_server/ext_com_scan.py:584-600 | the aligned times are exactly those a number of periods away, and an increment is mult periods |
| Alignment.EarliestExact | initat/discovery_server/ext_com_scan.py:498-564 | for each of the five baselines the result is the earliest aligned time after now exactly if no loop goes past one |
| Alignment.HourSkipped | initat/discovery_server/ext_com_scan.py:551-553 | an hourly setting whose slot in one second is skipped |
| Alignment.DaySkipped | initat/discovery_server/ext_com_scan.py:555-558 | a daily setting whose slot in one second is skipped for a day |
| AssetSchedule.ScheduleTable.Schedule | initat/discovery_server/ext_com_scan.py:790-867 | the loops over links and items complete every link to two items and then remove the orphans |
| AssetSchedule.ScheduleTable.ScheduleLink | initat/discovery_server/ext_com_scan.py:799-845 | counting and finding the latest item of one link adds the aligned first date and the following one where they are missing |
| AssetSchedule.ScheduleTable.Dispatch | initat/discovery_server/ext_com_scan.py:890-926 | exactly the items that are due leave the table, and they are what is handed on to be scanned |
| AssetSchedule.ScheduleCallComplete | initat/discovery_server/ext_com_scan.py:790-867 | after schedule_call each link has exactly two aligned items one increment apart, old items are kept, and no unlinked item remains unless it runs at once |
| AssetSchedule.ScheduleKeeps | initat/discovery_server/ext_com_scan.py:790-867 | schedule_call keeps, in order, exactly the items that run at once or belong to a link, and puts new items of links behind them |
| AssetSchedule.InvOverRuns | initat/discovery_server/ext_com_scan.py:790-926 | every interleaving of schedule_call and dispatch_call keeps each link's items a progression of at most two aligned dates |
| AssetSchedule.ItemsConserved | initat/discovery_server/ext_com_scan.py:790-926 | over every interleaving the items at the beginning and those created are exactly those still in the table, those dispatched and those removed as orphans |
| AssetSchedule.SlotOnce | initat/discovery_server/ext_com_scan.py:790-926 | with a clock that does not run backwards all items dispatched for a link have different dates, before everything that is still planned for it: no slot is scanned twice |
| AssetService.Dispatcher.DispatchCall | initat/discovery_server/ext_com_scan.py:869-997 | a tick of both halves: the due items leave the table, and exactly those of allowed and capable devices become batches, in order; the correspondence between dispatched items and batches is kept |
| AssetService.Dispatcher.ScheduleCall | initat/discovery_server/ext_com_scan.py:790-867 | planning keeps that correspondence |
| AssetService.Dispatcher.GotResult | initat/discovery_server/ext_com_scan.py:999-1004 | a reply keeps that correspondence |
| AssetService.Dispatcher.OneBatchPerItem | initat/discovery_server/ext_com_scan.py:890-926 | over every interleaving there are at most as many batches as dispatched items |
| AssetService.BatchesCounted | initat/discovery_server/ext_com_scan.py:890-926 | the batches ever created are as many as the additions in the history |
| AssetRuns.StepInv | initat/discovery_server/ext_com_scan.py:644-770 | every step (new batch, start, cancel, completion, timeout, reply, sweep) keeps the invariant of runs, counters and lookup tables |
| AssetRuns.Reachable | initat/discovery_server/ext_com_scan.py:928-1014 | the invariant holds after every possible interleaving |
| AssetRuns.EndsOnce | initat/discovery_server/ext_com_scan.py:701-707 | a planned run is in the table or has ended, and it ends exactly once |
| AssetRuns.OutcomeExact | initat/discovery_server/ext_com_scan.py:701-758 | a run has ended with an outcome exactly if some event ended it so: a reply that was waited for stores its result, timeouts and cancellations cancel, a command ends as it reports |
| AssetRuns.ConnectionOutcome | initat/discovery_server/ext_com_scan.py:984-1004 | a run over 0MQ waits until the first reply or timeout for its index; its result is stored if that is a reply, and it is canceled if it is a timeout |
| AssetRuns.InOneTable | initat/discovery_server/ext_com_scan.py:928-953 | a run is running exactly if one lookup table has it, the one of its kind, under its own run_idx |
| AssetRuns.DroppedWhenEmpty | initat/discovery_server/ext_com_scan.py:765-770 | a dropped batch has no run left, and the delete flag is set exactly when none is left |
| AssetRuns.NumRunningExact | initat/discovery_server/ext_com_scan.py:746-770 | num_running is the number of running runs exactly if the batch has an address or none of its runs was canceled yet |
| AssetRuns.CountsBelowZero | initat/discovery_server/ext_com_scan.py:746-770 | a possible run after which num_running is -10 and no run is running |
| AssetRuns.LateReplyIgnored | initat/discovery_server/ext_com_scan.py:999-1004 | once a run index left the connection table it never returns, whatever happens, so late and repeated replies change nothing |
| AssetRuns.SweepInv | initat/discovery_server/ext_com_scan.py:1006-1014 | the sweep drops exactly the batches that have no run left |
| AssetRuns.AssetDispatcher.AddPlanned | initat/discovery_server/ext_com_scan.py:1016-1087 | a batch with one planned run per command: ten over 0MQ, seven in the background |
| AssetRuns.AssetDispatcher.Launch | initat/discovery_server/ext_com_scan.py:644-654 | starting sets the flags, takes the next run index, counts up and enters the run in the table of its kind |
| AssetRuns.AssetDispatcher.StopRun | initat/discovery_server/ext_com_scan.py:705-770 | stopping counts down, removes the run from its batch and marks the batch if nothing is left |
| AssetRuns.AssetDispatcher.CancelBatch | initat/discovery_server/ext_com_scan.py:746-758 | the loop over a copy of the list cancels every run of a batch without address and marks it |
| AssetRuns.AssetDispatcher.CheckBackground | initat/discovery_server/ext_com_scan.py:956-982 | exactly the entries that are not busy leave the table, with their runs; finished commands are recorded once with their result stored, timed out ones as canceled, in the order of the walk; busy commands stay as they are; deleting the entries after the loop is equivalent to deleting them at once |
| AssetRuns.AssetDispatcher.CheckConnections | initat/discovery_server/ext_com_scan.py:984-995 | exactly the timed out connections leave the table and are recorded as canceled, with their runs; the others stay as they are |
| AssetRuns.AddsEffect | initat/discovery_server/ext_com_scan.py:890-926 | due scans: every one of a capable device becomes a new batch with all its planned runs, in order, and nothing else changes |
| AssetRuns.AssetDispatcher.InitCommands | initat/discovery_server/ext_com_scan.py:928-953 | every planned run of a batch with address is started and keeps its batch and kind, batches without address are canceled and marked, running runs are untouched |
| AssetRuns.AssetDispatcher.DispatchCall | initat/discovery_server/ext_com_scan.py:869-997 | the events of a tick, in order: a new batch per capable due scan, the starts and cancellations, the ends of exactly the commands that are not busy and the connections that timed out, the sweep. A run that was running stays, unchanged, exactly if it is busy or not timed out; afterwards every batch has an address and a run, and every run is running |
| AssetRuns.AssetDispatcher.GotResult | initat/discovery_server/ext_com_scan.py:999-1004 | a reply stores the result of its run and ends it if it is still waited for, and records nothing otherwise; afterwards the index is not in the table |
| ConfigProtocol.StepInv | initat/cluster_config_server/server.py:222-333 | node request, web command, build and delivery each keep the invariant over queues, commands, pending and done tables |
| ConfigProtocol.Reachable | initat/cluster_config_server/server.py:222-333 | it holds after every sequence of events, and no look-up of a run index, queue id or pending device ever fails |
| ConfigProtocol.Conservation | initat/cluster_config_server/server.py:258-283 | the device entries that are not done are as many as the generate_config and client_update messages under way |
| ConfigProtocol.AnsweredByLastDevice | initat/cluster_config_server/server.py:258-330 | an update finds its unanswered command; the command is answered and removed exactly if the update makes its last device done |
| ConfigProtocol.AnsweredExactly | initat/cluster_config_server/server.py:222-333 | over all events: a command is answered by the update that completes it, or at once if it names no device, and no other event answers anything |
| ConfigProtocol.BuildOutcome | initat/cluster_config_server/simple_request.py:222-231 | the outcome stored for the device is what the build process reported, under the queue id of the request that started the build |
| ConfigAnswers.RequestEffect | initat/cluster_config_server/config_control.py:100-198 | every node request in every state: the one reply and its text, the outcome that is handed over and counted as delivered, the build or delayed request that begins, and nothing else |
| ConfigAnswers.DelayedAnswer | initat/cluster_config_server/simple_request.py:207-220 | the result of a delayed request is told to the node that asked, with the text of its kind and success, and its queue entry is removed |
| ConfigAnswers.BuildEffect | initat/cluster_config_server/simple_request.py:222-231 | the build process takes the first message and sends its report |
| ConfigAnswers.AckTellsReport | initat/cluster_config_server/config_control.py:177-182 | the acknowledgement of a finished build is answered "ok config built" exactly if the build process reported success for the queue id that is delivered |
| ConfigAnswers.ReportedOnce | initat/cluster_config_server/simple_request.py:222-231 | a build request that is still to be handled has no report yet, so each has at most one |
| ConfigProtocol.PendingExactly | initat/cluster_config_server/config_control.py:177-198 | a device is pending exactly if there is a queued build request for it and a command carrying that queue id; both are unique and the device is not done |
| ConfigProtocol.DeliveredOnce | initat/cluster_config_server/config_control.py:177-182 | each build outcome is delivered by at most one acknowledgement and queue ids are not reused |
| ConfigProtocol.AtMostOneReply | initat/cluster_config_server/config_control.py:100-142 | every node request has one reply, to the id that asked, or waits for exactly one result |
| ConfigProtocol.BuildSendsNoReply | initat/cluster_config_server/simple_request.py:222-231 | the completion of a build sends no reply and leaves the replies as they are |
| ConfigProtocol.Quiescent | initat/cluster_config_server/server.py:258-333 | when no message is under way nothing is pending or queued and every request has been replied to exactly once |
| ConfigProtocol.Drains | initat/cluster_config_server/server.py:258-333 | from every reachable state, handling the messages under way ends with none left and creates no new request or command |
| ConfigProcess.MainProcess.ComplexResult | initat/cluster_config_server/config_control.py:527-531 | the handler with its three result functions does the step of the model |
| ConfigProcess.MainProcess.StartDevices | initat/cluster_config_server/server.py:258-271 | the loop sends one generate_config per new device and counts 0 pending exactly if all are done |
| ConfigProcess.MainProcess.HandleCommand | initat/cluster_config_server/server.py:258-277 | a command is started or, with nothing pending, answered and removed |
| ConfigProcess.MainProcess.SendReturn | initat/cluster_config_server/server.py:279-283 | the answer goes to the external sender or to the queue of config_control |
| ConfigProcess.MainProcess.HandleClientUpdate | initat/cluster_config_server/server.py:290-325 | the device entry is updated and the command handled again |
| ConfigProcess.MainProcess.Receive | initat/cluster_config_server/server.py:290-333 | a message from the build process is handled; the invariant is kept |
| ConfigProcess.MainProcess.HandleNodeinfo | initat/cluster_config_server/config_control.py:114-142 | a node request is handled, replied to at once or later; the invariant is kept |
| ConfigProcess.MainProcess.Call | initat/cluster_config_server/config_control.py:177-198 | create_config and ack_config decide by the pending and done tables; delayed commands return nothing |
| SnmpBatches.ResultInv | initat/discovery_server/snmp_functions.py:136-164 | a result under way finds its live batch, and handling it keeps the invariant |
| SnmpBatches.Reachable | initat/discovery_server/snmp_functions.py:242-275 | the invariant holds in every reachable state |
| SnmpBatches.RoutingExact | initat/discovery_server/snmp_functions.py:242-260 | the run ids mapped to a batch are exactly its unanswered runs, the batch is live, and they are exactly the results under way; no look-up fails |
| SnmpBatches.FinishesOnce | initat/discovery_server/snmp_functions.py:197-237 | a batch has at most two phases, finishes at most once and closes its lock at most once, with no run unanswered |
| SnmpBatches.ScanEffect | initat/discovery_server/snmp_functions.py:33-98 | a requested scan: finished at once if invalid or unknown, registered without lock or run if the device is locked, and otherwise holding the lock with one new run under way; other batches are untouched |
| SnmpBatches.ResultEffect | initat/discovery_server/snmp_functions.py:136-231 | a result is stored; the last one of a basic scan that found schemes starts exactly one new run for each of them, any other last one finishes the batch |
| SnmpBatches.LocksExact | initat/discovery_server/snmp_functions.py:70-77 | in every reachable state the batches that were given a lock are exactly those that hold it and those that closed it, and no batch is both |
| SnmpBatches.LockClosedExactly | initat/discovery_server/snmp_functions.py:233-237 | whatever happens before and later, once no result is under way the lock of a scan was closed exactly once, with no run unanswered, if the device was free, and never otherwise |
| SnmpBatches.Quiescent | initat/discovery_server/snmp_functions.py:197-237 | with no result under way every batch that got the lock has finished |
| SnmpBatches.RefusedStays | initat/discovery_server/snmp_functions.py:70-77 | a batch without lock stays registered and unchanged, whatever happens later |
| SnmpBatches.LeftBehindExactly | initat/discovery_server/snmp_functions.py:33-98 | whatever happens before and later, once no result is under way the batch of a requested scan is still registered exactly if the device was locked |
| SnmpBatches.LockedScanStays | initat/discovery_server/snmp_functions.py:70-77 | the scan of a locked device after which nothing is under way and its batch is registered |
| SnmpBatches.SnmpServer.StartRun | initat/discovery_server/snmp_functions.py:114-130 | a run gets a new id that is mapped to its batch and has no result yet |
| SnmpBatches.SnmpServer.FinishBatch | initat/discovery_server/snmp_functions.py:233-237 | the lock is closed if there is one, and the batch is removed |
| SnmpBatches.SnmpServer.Feed | initat/discovery_server/snmp_functions.py:136-231 | the result is stored; with the last one a second phase begins or the batch finishes |
| SnmpBatches.SnmpServer.StartScan | initat/discovery_server/snmp_functions.py:33-98 | a new batch is refused, finished at once or started |
| SnmpBatches.SnmpServer.GlobFeed | initat/discovery_server/snmp_functions.py:242-245 | a result finds its batch and is fed; the table entry is removed last; the invariant is kept |
| Hysteresis.Sensor.FeedValue | initat/collectd/sensor_threshold.py:138-166 | the method does one measurement as the model says, with the window of 20 values |
| Hysteresis.Sensor.UpdateBounds | initat/collectd/sensor_threshold.py:68-77 | changed bounds reset the flags, equal ones do not |
| Hysteresis.Alternation | initat/collectd/sensor_threshold.py:138-166 | over every value sequence, whatever bounds are saved and changed, events alternate, each flag tells whether the last event since the last reset was of its kind, so never both |
| Hysteresis.FiresExactly | initat/collectd/sensor_threshold.py:138-164 | an event happens exactly if a bound is crossed from the previous value and the last event was not of this kind; values more than 1200 s apart reset |
| Hysteresis.AlternationExact | initat/cluster/backbone/models/graph.py:325-332 | why saving orders the bounds: without it, events alternate for all value sequences exactly if lower <= upper |
| Hysteresis.CrossedRepeats | initat/cluster/backbone/models/graph.py:325-332 | for all bounds with lower > upper, values after which the same event has happened twice in a row |
| Hysteresis.CrossedSetsBoth | initat/cluster/backbone/models/graph.py:325-332 | crossed bounds and values that set both flags without a manual trigger |
| Hysteresis.BothAfterStep | initat/collectd/sensor_threshold.py:138-169 | with bounds in order both flags are set after a step exactly if a manual trigger met the opposite flag, or both were set and the step keeps them |
| Hysteresis.NeverBothExact | initat/collectd/sensor_threshold.py:138-169 | over every run of values, triggers and changes of bounds, whatever bounds are saved, the flags are never both set exactly if no manual trigger meets the opposite flag |
| Hysteresis.ManualSetsBoth | initat/collectd/sensor_threshold.py:168-169 | two manual triggers of different kinds set both flags, whatever the bounds |
| Hysteresis.WindowIrrelevant | initat/collectd/sensor_threshold.py:165-166 | storing any other positive number of values leads to the same events and flags |
| Text.SplitJoin | initat/discovery_server/wmi_struct.py:127-127 | splitting a joined text gives the pieces of all parts |
| Text.JoinSplit | initat/discovery_server/wmi_struct.py:172-174 | joining the pieces with another character replaces the separator |
| WmiRows.PatchNewlines | initat/discovery_server/wmi_struct.py:122-170 | the loop over pairs of lines computes the patched section |
| WmiRows.ReadRow | initat/discovery_server/wmi_struct.py:132-160 | reading the lines of a row from any point, the row comes out whole exactly at its last line |
| WmiRows.PatchedExactly | initat/discovery_server/wmi_struct.py:122-170 | for all rows with the right number of fields the result is the header and one line per row, with carriage returns removed and inner newlines marked, of the rows as they are received: what precedes the last newline of a later first field belongs to the row before, and leading newlines are lost |
| WmiRows.LongLineDropped | initat/discovery_server/wmi_struct.py:154-158 | a line with more delimiters than the header is dropped |
| WmiRows.DecodedReceived | initat/discovery_server/wmi_struct.py:122-174 | for two or more columns, decoding the patched lines gives exactly the received rows, one line each, without carriage returns and with newlines for the marks |
| WmiRows.OneColumn | initat/discovery_server/wmi_struct.py:122-174 | with a single column all rows are received as one |
| WmiRows.RoundTripExact | initat/discovery_server/wmi_struct.py:122-174 | for all rows with the number of fields of their header: header and every field come back exactly if there is no carriage return and no mark in them, no later row has a newline in its first field, the first row does not begin with one, and a single column has at most one row |
| WmiRows.CarriageReturnLost | initat/discovery_server/wmi_struct.py:127-127 | a section with one row that loses a carriage return, although its newlines are harmless |
| WmiRows.LeadingNewlineLost | initat/discovery_server/wmi_struct.py:129-160 | a section with one row whose leading newline is lost |
| WmiRows.LaterNewlineMoves | initat/discovery_server/wmi_struct.py:140-153 | a section whose second row loses the beginning of its first field to the row before |
| RrdReply.HandleLine | initat/collectd/server.py:846-880 | what one line does to the counters and reports, including the exceptions |
| RrdReply.ReadReply | initat/collectd/server.py:827-881 | the receive loop handles complete lines when a chunk ends with a newline, and stops as the model says |
| RrdReply.NumberRead | initat/collectd/server.py:853-868 | a number printed at the beginning of a line is read back |
| RrdReply.ErrorLineExact | initat/collectd/server.py:850-861 | an error line is paired with the cache line of its number, number 0 with the last one, and a number that is too large raises an exception |
| RrdReply.ComErrorExact | initat/collectd/server.py:838-841 | a communication error is noted exactly if one was met while the loop was going, and it ends the loop |
| RrdReply.ChunkIndependence | initat/collectd/server.py:827-881 | however a well-formed reply is cut, the loop ends after the last chunk and not before, with the error count and each error line paired with its cache line |
| RrdReply.EmptyChunks | initat/collectd/server.py:834-846 | whatever was received, empty chunks change nothing |
| RrdReply.EndsExactly | initat/collectd/server.py:834-881 | for chunks of any size, also empty ones, of the beginning of a well-formed reply: the loop is still waiting exactly if something is missing, and otherwise it ended with the right count and reports |
| ConfigTree.OutcomeOf | initat/cluster_config_server/build_container.py:76-127 | the outcome of get_node told by what the tree contains; a call that fails changes nothing |
| ConfigTree.OutcomeExact | initat/cluster_config_server/build_container.py:76-127 | the four outcomes spelled out: a file on the way, the wrong type, another content that is neither used nor overwritten, success |
| ConfigTree.EntryExact | initat/cluster_config_server/build_container.py:80-101 | the requested entry after a success: the content of the request if there was none, otherwise the old object, whose lines are dropped exactly if another content overwrites it; type, link and intermediate flags |
| ConfigTree.ParentExact | initat/cluster_config_server/build_container.py:109-118 | a missing parent becomes an intermediate directory without content |
| ConfigTree.ContentSurvives | initat/cluster_config_server/build_container.py:76-127 | over every sequence of calls the content of a file, with its lines, survives all later calls at any path until one overwrites it with another content |
| ConfigTree.LookupAfter | initat/cluster_config_server/build_container.py:76-127 | after a success the requested path is touched, missing parents are directories, every other path is as before |
| ConfigTree.StepRefines | initat/cluster_config_server/build_container.py:76-127 | a call on the tree is the call on the flat table: same outcome, same entry at every path |
| ConfigTree.TreeRefinesTable | initat/cluster_config_server/build_container.py:76-127 | the same after every sequence of calls |
| ConfigTree.WellPlaced | initat/cluster_config_server/build_container.py:40-127 | after every sequence of calls all proper prefixes of a path are directories, and an entry is intermediate exactly if its path was never requested with success |
| ConfigTree.PathRoundTrip | initat/cluster_config_server/build_container.py:70-74 | get_path has no slash in front, and with one it leads back to the node |
| ConfigNodes.TreeNode.GetNode | initat/cluster_config_server/build_container.py:76-127 | the recursion over objects changes the tree in place as the function says, and keeps it a tree |
| ConfigNodes.TreeNode.TouchFields | initat/cluster_config_server/build_container.py:80-101 | the fields of a found node are changed or an error is returned |
| ConfigNodes.TreeNode.WriteNode | initat/cluster_config_server/build_container.py:154-185 | with children in any order, every node below gets one row, after the row of its parent |
| ConfigNodes.TreeNode.WriteTree | initat/cluster_config_server/build_container.py:154-185 | following the saved names and parent links, the rows hold every path of the tree once, with its entry, and nothing else |
| ConfigNodes.RowsDetermineTree | initat/cluster_config_server/build_container.py:154-185 | two trees stored by the same rows have the same entry at every path |
| ConfigNodes.GeneratedTree.GetNode | initat/cluster_config_server/build_container.py:76-80 | for a normalized absolute path, outcome and new tree are those of the flat table |
| HostMatch.AgStruct.AddDevice | initat/collectd/aggregate.py:75-92 | the name sets and the table are those of the devices added so far |
| HostMatch.SharedExact | initat/collectd/aggregate.py:80-91 | a short name is marked problematic exactly if two added devices have it |
| HostMatch.FullNameExact | initat/collectd/aggregate.py:75-112 | a full-name match finds a device of that name exactly if the name has a domain or the last device under the short name bears it |
| HostMatch.FullNameTaken | initat/collectd/aggregate.py:75-112 | an input where the full-name match finds another device |
| HostMatch.HostInOtherGroup | initat/collectd/aggregate.py:94-142 | in the groups: any call of match with that input puts the host into the list of the other device's group |
| HostMatch.ShortNameSafe | initat/collectd/aggregate.py:113-124 | a short name that is not problematic leads to the only device that has it |
| HostMatch.AgStruct.MatchNames | initat/collectd/aggregate.py:104-124 | one round of matching by name: the chosen hosts are matched and get the device of the name |
| HostMatch.AgStruct.Match | initat/collectd/aggregate.py:94-142 | only known hosts are matched, and with unique names all of them, to the device of uuid, full or short name; matched hosts keep their device; the live matched hosts are divided among the groups |
| HostMatch.PartitionExact | initat/collectd/aggregate.py:131-142 | every live matched host is in exactly one group list, and there once |
| HostMatch.KeepsDevice | initat/collectd/aggregate.py:94-130 | over any number of calls a matched host keeps its device and group |
| Aggregation.FeedEntry | initat/collectd/aggregate.py:328-366 | an entry is fed into all its aggregates; a target key renames it for those that follow |
| Aggregation.CreateAggregates | initat/collectd/aggregate.py:600-624 | the loops return the vector of the fed sinks, in one order or another |
| Aggregation.BuildVectors | initat/collectd/aggregate.py:626-638 | one vector per group, and the cluster vector made of those |
| Aggregation.LevelValues | initat/collectd/aggregate.py:328-395 | whatever the factors, a key without target keys yields for each entry the meta data and factor of the entry fed first; a sum aggregate yields the total of the products divided by that factor, a mean aggregate the total divided by their number times the factor |
| Aggregation.MeanExact | initat/collectd/aggregate.py:387-391 | that quotient is rounded down, whatever the sign of the factor |
| Aggregation.FloorDivExact | initat/collectd/aggregate.py:384-391 | the integer division rounds towards minus infinity |
| Aggregation.TargetCollects | initat/collectd/aggregate.py:328-366 | an aggregate with a target key collects everything it wants under that key, in order, whoever renamed it before, and has no other key |
| Aggregation.ProductKept | initat/collectd/aggregate.py:328-395 | for sum aggregates value times factor is the total of the sources exactly if the first factor divides it |
| Aggregation.ProductLost | initat/collectd/aggregate.py:328-395 | two hosts with factors 2 and 3 whose total of 5 becomes 4 |
| Aggregation.LevelExact | initat/collectd/aggregate.py:600-624 | for a key in sum aggregates with one factor each of them yields the sum over the sources, with that factor, exactly if some source has the key |
| Aggregation.ClusterValue | initat/collectd/aggregate.py:626-638 | the cluster-wide value of a key is the sum over all live matched hosts with a vector, times the number of its aggregates |
| Aggregation.ClusterExact | initat/collectd/aggregate.py:626-638 | it is that sum exactly if the key belongs to at most one aggregate or the sum is 0 |
| Aggregation.DoubleCounted | initat/collectd/aggregate.py:626-638 | one host with value 1 and a key in two aggregates: the cluster has 2 |

## Left out

- Alignment.AlignTimeToBaseline: has no month and year baselines; their day-by-day loops do not keep the weekday set before, and a
  week number of 4 or more is accepted but never found.
- Closing of batches by age and the arithmetic of timeouts: `.seconds` ignores whole days, so a timeout is a free step.
- Asset generation and the database states of runs and batches beyond planned, running and ended.
- Exceptions in handlers of the config server, devices named twice in one command, and the contents of built configurations.
- The XML, ZeroMQ, memcache, e-mail and Django layers, logging and subprocesses; their inputs are parameters.
- WmiRows.RoundTripExact: decodes fields directly; the csv reader, its quoting and the guessing of types are not part of the model.
- Bytes of the replies are characters; the socket's own buffering is the sequence of chunks.
- ConfigNodes.GeneratedTree.GetNode: takes paths that os.path.normpath leaves alone; "/" and paths with two leading slashes create a
  nameless node that takes itself for a root and then raise an error.
- Owner, mode, used configurations and the error flag of tree nodes, and a content object shared by two nodes.
- HostMatch: the `collectd_uuid` and last-update fields of a device, which nothing in the aggregation reads.
- Aggregation.ClusterValue: is about integer values; floating point sums are rounded. Keys with several factors are stated level by level (`LevelValues`, `ProductKept`).
- Aggregation.TargetCollects: is about one level; sums over both levels are stated for keys without target key.
- The regular expressions that assign keys to aggregates are an arbitrary function; fetching of values with its cache is not part of the model.
- SNMPJob and BackgroundJob, ThresholdContainer, the generators of configuration files, command-line tools and installers: easier variants or string output.
