# A verified model of NVMain's memory system

NVMain simulates main memory cycle by cycle. This project models the four parts of it that interlock, and two
utilities that stand apart, and proves what they are for. `dafny verify dfyconfig.toml` checks everything.

## What is modelled

**Memory controller.** It remembers of every bank which row will be open once the bank's command queue has
drained, turns transactions into commands by that record, and interposes refreshes. `BankShadow.dfy` has the record
of one bank, the commands queued for a transaction or a refresh, and the replay of a queue on the rows a device has
open. `Controller.dfy` puts all banks, queues and refresh counters together; `ControllerRuns.dfy` has runs of
arbitrary length and what they keep, `Conservation.dfy` that every chosen transaction is carried out once,
`ServingRuns.dfy` what is queued for a transaction and which transactions are chosen, `RefreshRuns.dfy` what becomes of
refreshes that wait, `PageRuns.dfy` which rows are left open, and `DeviceRuns.dfy` the controller together with a timed
device for every subarray.
`CommandQueues.dfy` has the issue discipline, `QueueIds.dfy` the numbering of queues and groups, `Refresh.dfy` and
`RefreshTimer.dfy` counting, fairness and timing of refreshes. `MemoryController.dfy` is the controller as a class
that updates its queues and tables in place, including the mutual recursion of `NextIssuable`, `HandleRefresh` and
`ScheduleCommandWake`.

**Subarray device.** `SubArrayTiming.dfy` has the timing registers and the four states with their delayed
completions, `WritePausing.dfy` pausing and cancelling writes, `PauseRuns.dfy` when and how often that happens,
`WriteTime.dfy` and `BitCount.dfy` the time of a write
from its data, and `SubArray.dfy` the device as a class with the source's registers.

**Event queues.** `EventQueue.dfy` has one queue, ticking and skipping ahead; `EventOrder.dfy` compares it, over
whole runs, with a plain line for every cycle and priority. `Clocks.dfy` and `GlobalEventQueue.dfy` have several
queues with clocks of their own, `GlobalRuns.dfy` their runs with clients that insert and remove events,
`ClockDivider.dfy` the execution-driven divider.

**Address mapping.** `TranslationMethod.dfy` has the mapping schemes, `AddressTranslator.dfy` encoding and
decoding, `Powers.dfy` shifts and the logarithm. `Arithmetic.dfy` has facts about products and remainders.

**Utilities.** `ReorderBuffer.dfy` is the bounded reorder buffer of the pipeline viewer, `Copyrights.dfy` the printer
and parser of year ranges.

In each part, functions on values say what an operation does, lemmas prove what those functions keep over all runs,
and the methods of a class, which update fields as the source does, are proved equal to the functions.

## What the model assumes

- Recipients of events only insert and remove events of later cycles of their own queue. What they do is a function of
  what that queue has dispatched so far.
- Between two calls of the global event queue, clients insert events at or after the local time of their queue.
- Frequencies are exact fractions, and the global clock is at least as fast as every local one.
- The unsigned differences in the timing rules do not wrap around (`tAL <= tRCD`, `tCCD <= tAL+tBURST+tRTP`,
  `tCWD <= tCAS+tBURST+tRTRS`), and `tRP >= 1`. Times are unbounded, except that the remaining time of an interrupted
  write wraps at 64 bits as in the source.
- The controller runs event-driven with per-bank queues, schedule scheme 1 or 2, `UsePrecharge`,
  `BANKS % BanksPerRefresh == 0` and `DelayedRefreshThreshold >= 1`. Whether the device accepts a command, and when it
  will, is arbitrary in every cycle. Tables indexed by rank and bank are kept as sequences in the order of the queues.
- Encoder and endurance latencies, and the random pulse count before it is clamped, are arbitrary.
- Mapping schemes are shorter than the buffer the source copies them into.

## Where the code does not do what its words say

- `Loop(n)` processes cycles `now` to `now+n`, which are `n+1` single cycles. With an event pending in the past the
  two differ: ticking never dispatches anything again, skipping turns the clock back.
- The `InsertEvent` overloads order by a priority they do not store, and what they store is zero. Order is kept iff no
  pending priority lies between the two; the memory controller's own priorities 20, 30 and 40 break it.
- Slower queues run behind the global clock. An event inserted at such a queue's current cycle can belong to a global
  cycle before the last dispatch; the next round then dispatches out of order.
- A read with automatic precharge never consults `tRAS`, so two activations can be closer than `tRAS+tRP`.
- A pause is meant to save the work done; with encoder or endurance latency it can set a write back instead, and one
  write can be paused any number of times. Without it the number of interruptions is bounded.
- Pausing is written for reads and activations alike, but a read can only interrupt a write that is over, and with
  `UsePrecharge` so can an activation.
- The assertion that the four cell counts add up fails for word sizes that leave two or more bits over 32.
- `HandleRefresh` queues a refresh even if one of the same group still waits. `ResetRefreshQueued` asserts a flag that
  the second of the two finds cleared; it holds iff each refresh is queued while none waits.
- On a row miss the mark of the last transaction is ignored, so the new row stays open.
- `curQueue` runs through one value more than there are queues, which gives queue 0 two turns.
- No command is issued in cycle 0, as the cycle of the last issue starts out as 0.
- A field that is 64 bits wide is translated as if shifting by 64 gave zero; the source's shift is undefined then.
- The comment on the reorder buffer asks for instructions to be at most `min_threshold` places out of order. Coming
  early does no harm; only coming late does, and the exact condition is weaker still.
- Year ranges are only read back between four-digit years, and a longer second year is cut short.

## Model

| member | source | states |
|---|---|---|
| `ControllerRuns.Reachable` | nvmain-test/src/MemoryController.cpp:1562-1676 | after any run of choosing and serving transactions, pulses, refreshes, issues and cycles: replaying a bank's queue on the rows its device has open meets no illegal command and ends in the recorded rows; the bank counts as active iff a subarray is; it needs a refresh iff the counter has reached the threshold; the counter is pulses minus refreshes queued; with ClosePage 2 it is not active |
| `ControllerRuns.RunKeeps` | nvmain-test/src/MemoryController.cpp:681-771 | every step of every run keeps that invariant for all banks |
| `RefreshRuns.AssertsHoldIff` | nvmain-test/src/MemoryController.cpp:643-653 | in every run that leaves no refresh of a group waiting: the assertion holds at each issue of a refresh of the group iff each was queued while none waited, iff the group was flagged all the time that one waited |
| `RefreshRuns.SecondUnflagged` | nvmain-test/src/MemoryController.cpp:681-771 | with a threshold of one, for every configuration, a run of two pulses, each followed by HandleRefresh, after which the second refresh is issued with its group not flagged |
| `RefreshRuns.RefreshesAreIsolated` | nvmain-test/src/MemoryController.cpp:1145-1186 | if refreshes of a group are only queued when none waits: from queueing to issuing, no transaction is chosen for any bank of the group, and the assertion holds at the issue |
| `RefreshRuns.TakeTurns` | nvmain-test/src/MemoryController.cpp:741-747 | every step of every run changes the number of waiting refreshes and the flags of a group just as it queues or issues one for it; refreshes wait in queues of group heads only and the flags of a group agree |
| `PageRuns.LastLeavesOpenIff` | nvmain-test/src/MemoryController.cpp:1602-1630 | in every run, a chosen transaction marked as the last for its row leaves the device with that row open, once the queue has drained, iff its bank was active and it was not a row hit |
| `PageRuns.RowMissStaysOpen` | nvmain-test/src/MemoryController.cpp:1602-1630 | with ClosePage 1, a run in which the last transaction for its row is served by a row miss and the row is left open |
| `DeviceRuns.DevicesReachable` | nvmain-test/src/SubArray.cpp:1313-1417 | in every run of the controller with a timed device for each subarray, commands being issued when the devices accept them: replaying a bank's queue on the rows its devices really have open meets no illegal command and ends in the recorded rows |
| `DeviceRuns.MovedAgrees` | nvmain-test/src/SubArray.cpp:1470-1549 | every command, completion and cycle keeps devices and controller in agreement on open rows |
| `ServingRuns.QueuedFor` | nvmain-test/src/MemoryController.cpp:1562-1676 | in every run, the commands queued for a transaction, from the rows the device will have open: an access if its row is; nothing if commands still wait; ACTIVATE and access if the bank has no row open; otherwise those behind a PRECHARGE if the subarray has another row open, the access never closing |
| `ServingRuns.SelectsIff` | nvmain-test/src/MemoryController.cpp:1136-1500 | in every run, what each selector takes of transactions for banks with an empty queue and no refresh owed or queued, that did not arrive in this cycle: row hits those that find their row; starved ones those that do not, in a bank with a row open, once as many accesses as the threshold have followed the first since the subarray was activated; the oldest ready one in a bank with a row open; the others in a bank with none |
| `ServingRuns.HitsCounted` | nvmain-test/src/MemoryController.cpp:1574-1632 | in every run, for every subarray: starvationCounter, and one if it was ever activated, is the number of accesses queued for it since its last queued activation |
| `ServingRuns.StarvedAfterHits` | nvmain-test/src/MemoryController.cpp:1145-1186 | so after that many hits a request for another row can be taken as starved |
| `ServingRuns.PartIsOpeners` | nvmain-test/src/MemoryController.cpp:1574-1626 | in every run, of every active subarray: effectiveRow and effectiveMuxedRow are the row and the column divided by RBSize of the transaction that queued its last activation |
| `ServingRuns.QueuedForRefresh` | nvmain-test/src/MemoryController.cpp:694-740 | in every run, a refresh queues PRECHARGE_ALL for just the banks of its group with a row open, and a REFRESH behind that for the head of the group |
| `ControllerRuns.TransactIdle` | nvmain-test/src/MemoryController.cpp:1639-1643 | with the last-request mark and UsePrecharge, no bank is left active and the row-hit branch, with its assertion that ClosePage is not 2, is not taken |
| `Conservation.CarriedOutOnce` | nvmain-test/src/MemoryController.cpp:1562-1676 | in every run, the accesses for a transaction in a queue, issued or waiting, are as many as the times it was chosen for that bank; everything ever queued is what was issued, in order, followed by what waits; no two commands are issued in one cycle |
| `BankShadows.ServedCoherent` | nvmain-test/src/MemoryController.cpp:1562-1669 | serving a transaction in each of the three branches keeps record, queue and device coherent |
| `BankShadows.ServedConsistent` | nvmain-test/src/MemoryController.cpp:1562-1669 | activateQueued stays true iff a subarray is active, and effectiveRow is ROWS iff its subarray is inactive |
| `BankShadows.PrechargedCoherent` | nvmain-test/src/MemoryController.cpp:708-731 | the PRECHARGE_ALL in front of a refresh closes the bank in the record as on the device |
| `BankShadows.RefreshCoherent` | nvmain-test/src/MemoryController.cpp:735-739 | a REFRESH queued behind everything else finds its bank closed |
| `BankShadows.IssuedCoherent` | nvmain-test/src/MemoryController.cpp:1711-1733 | the head of a coherent queue is legal for the device, and the rest stays coherent |
| `BankShadows.ChosenIsServed` | nvmain-test/src/MemoryController.cpp:1145-1186 | a transaction that a selector returns is never refused: exactly one access is queued for it, as the last command, and none for another transaction |
| `BankShadows.ClosedPageStaysClosed` | nvmain-test/src/MemoryController.cpp:1583-1594 | an inactive bank that serves a last request is inactive again |
| `BankShadows.LeftOpenIff` | nvmain-test/src/MemoryController.cpp:1602-1630 | a transaction marked as the last for its row leaves it recorded as open iff its bank was active and it was not a row hit |
| `BankShadows.DeviceAgrees` | nvmain-test/src/SubArray.cpp:1313-1417 | one command that a subarray device accepts is what the replay calls legal, with the same effect on the open row |
| `QueueIds.BankOfQueue` | nvmain-test/src/MemoryController.cpp:1809-1841 | GetCommandQueueId is one-to-one into the queues, for per-rank, per-bank (schemes 1 and 2) and per-subarray queues |
| `QueueIds.QueueOfBank` | nvmain-test/src/MemoryController.cpp:1809-1841 | and onto them |
| `QueueIds.QueueCountIs` | nvmain-test/src/MemoryController.cpp:427-452 | the number of queues is the product of ranks, banks and subarrays they are for |
| `QueueIds.QueueIdIs` | nvmain-test/src/MemoryController.cpp:1809-1841 | the numbers in full: rank, bank * RANKS + rank with scheme 1, rank * BANKS + bank with scheme 2, and (rank * BANKS + bank) * subarrays + subarray |
| `QueueIds.GetCommandQueueId` | nvmain-test/src/MemoryController.cpp:1809-1841 | computes the number with the source's products; it is below the number of queues, as asserted |
| `CommandQueues.TakeDisciplined` | nvmain-test/src/MemoryController.cpp:1711-1771 | every push, issue cycle and clean-up keeps: only one head is flagged, and only in the cycle it was issued in; one issue per cycle; each queue is first in, first out and loses nothing |
| `CommandQueues.TickDisciplined` | nvmain-test/src/MemoryController.cpp:322-334 | removing flagged commands in the next cycle leaves exactly the commands not issued yet |
| `CommandQueues.RunCleanup` | nvmain-test/src/MemoryController.cpp:1737-1752 | in every run, removal is scheduled iff an issued command is still at the head of a queue |
| `CommandQueues.ServedSoon` | nvmain-test/src/MemoryController.cpp:1921-1932 | a queue whose head stays issuable is served within one more issue than there are queues, although curQueue runs up to their number |
| `CommandQueues.CycleCloser` | nvmain-test/src/MemoryController.cpp:1711-1771 | each issue serves the waiting queue or brings the scan position one closer to it |
| `CommandQueues.TwoTurns` | nvmain-test/src/MemoryController.cpp:1921-1932 | of the positions that curQueue runs through, queue 0 comes first in two, every other queue in one |
| `CommandQueues.NothingAtZero` | nvmain-test/src/MemoryController.cpp:1711-1740 | nothing is issued in cycle 0, as the cycle of the last issue is never ahead |
| `CommandQueues.EffectivelyEmptyIff` | nvmain-test/src/MemoryController.cpp:1908-1916 | a queue is effectively empty iff nothing in it is still to be issued |
| `Refreshes.SearchIff` | nvmain-test/src/MemoryController.cpp:683-692 | the modular search of HandleRefresh finds a group iff one needs a refresh, and then such a group |
| `Refreshes.SearchNearest` | nvmain-test/src/MemoryController.cpp:683-692 | the group found is in the first rank from nextRefreshRank on with one that needs a refresh, and the first there from nextRefreshBank on |
| `Refreshes.Fair` | nvmain-test/src/MemoryController.cpp:749-757 | a group that keeps needing a refresh is served within RANKS times m_refreshBankNum refreshes, although the position moves on from its old place |
| `Refreshes.RunAccounted` | nvmain-test/src/MemoryController.cpp:658-675 | in every run each counter is pulses minus refreshes queued |
| `Refreshes.ServeLowers` | nvmain-test/src/MemoryController.cpp:748-748 | a queued refresh lowers the sum of all counters by one, the measure of the mutual recursion |
| `RefreshTimers.PulsesOnTime` | nvmain-test/src/MemoryController.cpp:777-794 | in every run of the timers, in which each pulse inserts the next one m_tREFI later, pulse n of a group comes n intervals after its first, and none due is missing |
| `RefreshTimers.EveryWindowPulsed` | nvmain-test/src/MemoryController.cpp:544-579 | so in every run, in every window of tREFW cycles that is over and begins less than one interval before the group's first pulse or later, each group has had ROWS / RefreshRows pulses |
| `RefreshTimers.EnoughPulses` | nvmain-test/src/MemoryController.cpp:544-579 | the times of the pulses: ROWS / RefreshRows of them lie in every window of tREFW cycles that begins less than one interval before the group's first pulse or later |
| `RefreshTimers.StaggeredIff` | nvmain-test/src/MemoryController.cpp:547-566 | of the pulse times, no two groups ever share one iff the slice is at least one cycle (or there is one group) |
| `RefreshTimers.FirstPulses` | nvmain-test/src/MemoryController.cpp:541-578 | the first pulse of each group, computed in the nested loop |
| `RefreshTimers.PulseAtIs` | nvmain-test/src/MemoryController.cpp:544-572 | the pulse times in full: now + m_tREFI + (rank * m_refreshBankNum + j) * m_refreshSlice and every m_tREFI from there, with tREFW / (ROWS / RefreshRows) as m_tREFI and a slice of it for each group |
| `MemoryControllers.MemoryController.QueueTransaction` | nvmain-test/src/MemoryController.cpp:1562-1676 | the state becomes the one specified for serving the transaction; the result says whether it was accepted |
| `MemoryControllers.MemoryController.IssueMemoryCommands` | nvmain-test/src/MemoryController.cpp:1515-1685 | the same, followed by the refreshes that scheduling the wakeup queues; afterwards every queue head has a wakeup in time |
| `MemoryControllers.MemoryController.Find` | nvmain-test/src/MemoryController.cpp:1136-1186 | takes the first transaction of the list that can be chosen out of it and marks it if it is the last one for its row; finds nothing iff none can be chosen |
| `MemoryControllers.MemoryController.IsLastRequest` | nvmain-test/src/MemoryController.cpp:1095-1126 | never with ClosePage 0, iff no waiting transaction has the same rank, bank, row and subarray with 1, always with 2 or more |
| `MemoryControllers.MemoryController.ServeNext` | nvmain-test/src/MemoryController.cpp:1136-1186 | a transaction that was found is accepted, for each of the four selectors |
| `MemoryControllers.MemoryController.HandleRefresh` | nvmain-test/src/MemoryController.cpp:681-771 | returns true iff some group needs a refresh; then one or more refreshes are queued, each for the group its search finds first |
| `MemoryControllers.MemoryController.ScheduleCommandWake` | nvmain-test/src/MemoryController.cpp:245-266 | terminates; afterwards every nonempty queue has a wakeup scheduled no later than its head can be issued, or in the next cycle |
| `MemoryControllers.MemoryController.NextIssuable` | nvmain-test/src/MemoryController.cpp:1843-1882 | terminates; if nothing was issued in this cycle, afterwards no group both needs a refresh and has all its queues effectively empty; the result is in the future, is the next cycle or the time some queue head can be issued (or the largest number), and no queue head is forgotten; if no refresh was queued on the way, it is no later than any head can be issued, or the next cycle |
| `MemoryControllers.PathKeeps` | nvmain-test/src/MemoryController.cpp:681-771 | the refreshes queued along the way are steps of a run and keep its invariant |
| `MemoryControllers.MemoryController.ProcessRefreshPulse` | nvmain-test/src/MemoryController.cpp:777-794 | counts a pulse, marks the group once the threshold is reached, and inserts the next pulse m_tREFI later |
| `MemoryControllers.MemoryController.RefreshGroup` | nvmain-test/src/MemoryController.cpp:694-757 | closes the group, queues the refresh, sets flags, counter and position as specified |
| `MemoryControllers.MemoryController.CycleCommandQueues` | nvmain-test/src/MemoryController.cpp:1687-1800 | issues from the first queue in the scan whose head the device accepts, or nothing; reports the failed assertion of a refresh whose group is not flagged |
| `MemoryControllers.MemoryController.ResetRefreshQueued` | nvmain-test/src/MemoryController.cpp:643-653 | clears the flags of the group iff all were set, as asserted, and says so |
| `MemoryControllers.MemoryController.CleanupCallback` | nvmain-test/src/MemoryController.cpp:322-334 | removes exactly the flagged commands of every queue |
| `MemoryControllers.MemoryController.MoveCurrentQueue` | nvmain-test/src/MemoryController.cpp:1921-1932 | the position may reach the number of queues before it wraps |
| `MemoryControllers.MemoryController.IsRefreshBankQueueEmpty` | nvmain-test/src/MemoryController.cpp:800-815 | true iff all queues of the group are effectively empty |
| `SubArrayTiming.Reachable` | nvmain-test/src/SubArray.cpp:1313-1417 | in every reachable state, with UsePrecharge on: the life cycle below, every pair of commands so far spaced by its minimum gap, and every activation finds the row closed |
| `SubArrayTiming.TakeLifeCycle` | nvmain-test/src/SubArray.cpp:1511-1536 | a precharging or refreshing subarray has exactly one pending completion, an open one at most one implicit precharge; all registers lie beyond it |
| `SubArrayTiming.BusyRejects` | nvmain-test/src/SubArray.cpp:404-423 | nothing is accepted between an automatic precharge and its close |
| `SubArrayTiming.AcceptWaits` | nvmain-test/src/SubArray.cpp:306-321 | after a command every later command waits for at least their minimum gap (ACT to access tRCD-tAL, ACT to PRE max(tRCD,tRAS), PRE to ACT max(1,tRP), REF to ACT tRFC, and so on), and no register is lowered |
| `SubArrayTiming.AcceptExact` | nvmain-test/src/SubArray.cpp:632-673 | and no longer: it is ready as soon as the registers before and that gap allow |
| `SubArrayTiming.MinGapIs` | nvmain-test/src/SubArray.cpp:306-321 | the minimum gaps in full, for every pair of commands |
| `SubArrayTiming.AcceptedIff` | nvmain-test/src/SubArray.cpp:1313-1417 | a command is accepted iff nothing is under way, its time has come, and the row is as it needs it |
| `SubArrayTiming.UnderWay` | nvmain-test/src/SubArray.cpp:404-423 | when what each command leaves under way is due |
| `SubArrayTiming.PowerDownIs` | nvmain-test/src/SubArray.cpp:442-446 | how each command moves the earliest power-down |
| `SubArrayTiming.RowCycle` | nvmain-test/src/SubArray.cpp:771-800 | between two activations a command closes the row; through a PRECHARGE they are max(tRCD,tRAS)+max(1,tRP) apart, through READ_PRECHARGE tRCD+tRTP+tRP |
| `SubArrayTiming.RowCycleKeptIff` | nvmain-test/src/SubArray.cpp:404-414 | the path through READ_PRECHARGE keeps tRAS+tRP in all runs iff tRAS <= tRCD+tRTP, as it never consults tRAS |
| `SubArrayTiming.FastestRowCycle` | nvmain-test/src/SubArray.cpp:404-423 | a run that reaches the bound on that path exactly |
| `SubArrayTiming.TakeRow` | nvmain-test/src/SubArray.cpp:844-849 | an accepted command is legal for the open row it finds and changes it as its type says; nothing else does |
| `PauseRuns.BoundedIff` | nvmain-test/src/SubArray.cpp:577-621 | with the same latency added to all writes, in optimal mode with UsePrecharge off: the number of interruptions of a write is bounded over all runs iff that latency is zero |
| `PauseRuns.SetBack` | nvmain-test/src/SubArray.cpp:893-981 | a run in which a write, paused after fewer cycles than were added to it, needs more than its whole time |
| `PauseRuns.PausedIff` | nvmain-test/src/SubArray.cpp:893-965 | in every run, in both modes: a write interrupted before it is over is paused, needing what is left from the point where it resumes (now, or the latest iteration start), iff the part done there exceeds the threshold; otherwise it is cancelled and counted, and forced through once the count reaches MaxCancellations |
| `PauseRuns.SentAgain` | nvmain-test/src/SubArray.cpp:577-621 | an interrupted write that is sent again, after whatever else, takes what it still needed if it was paused, and all its time if it was cancelled |
| `PauseRuns.SentFirst` | nvmain-test/src/SubArray.cpp:577-625 | a new write takes its programming time and the added latency, and reports tCWD and its bursts later |
| `PauseRuns.RollsBack` | nvmain-test/src/SubArray.cpp:967-979 | the command that interrupts a write finds all five earliest times as they were before the write was sent, whatever came in between |
| `PauseRuns.RunOneReport` | nvmain-test/src/SubArray.cpp:893-965 | in every run no request is reported on twice, and a write not interrupted has its own report to come |
| `PauseRuns.EndsWithOwnReport` | nvmain-test/src/SubArray.cpp:1470-1510 | a write in progress ends with its own report and with nothing else, until another one is sent |
| `PauseRuns.AcceptedWhileWriting` | nvmain-test/src/SubArray.cpp:1326-1360 | while a write is in progress, a forced one keeps out reads and activations, and activations need priority; everything else is accepted as without it |
| `PauseRuns.PauseGainsIff` | nvmain-test/src/SubArray.cpp:909-947 | in every run that adds the same latency to all writes, a pause that resumes within the write brings it forward iff more of it has run than was added |
| `PauseRuns.OnlyActivationsInterrupt` | nvmain-test/src/SubArray.cpp:1345-1350 | in every run, an interruption before the end of a write is by a priority ACTIVATE with UsePrecharge off; a READ comes tCWD+tBURST after the end at the earliest |
| `PauseRuns.CancelledWithin` | nvmain-test/src/SubArray.cpp:948-965 | in every run, whatever latency is added, no write is cancelled more often than MaxCancellations (or once) |
| `WritePausing.FinitelyInterrupted` | nvmain-test/src/SubArray.cpp:893-981 | in every run in which no latency is added to writes, none is interrupted more often than a fixed bound |
| `WritePausing.PauseShrinks` | nvmain-test/src/SubArray.cpp:932-947 | a pause leaves strictly fewer cycles than the write had, and is always flagged |
| `WritePausing.InterruptRollsBack` | nvmain-test/src/SubArray.cpp:967-979 | the interrupting command takes effect on the registers as they were just before the write, and no forced write is interrupted |
| `WritePausing.NextOk` | nvmain-test/src/SubArray.cpp:893-981 | every command, completion and report keeps: an interrupted write reports back in the next cycle, saved registers are not ahead, cancellations are within the limit |
| `SubArrays.SubArray.IsIssuable` | nvmain-test/src/SubArray.cpp:1313-1417 | accepts exactly what the timing rules and the pausing policy allow |
| `SubArrays.SubArray.IssueCommand` | nvmain-test/src/SubArray.cpp:1422-1468 | the whole state after the command, or none of it if rejected; a write whose time cannot be computed fails |
| `SubArrays.SubArray.CheckWritePausing` | nvmain-test/src/SubArray.cpp:893-981 | pauses or cancels the write in progress, reports it back and restores the registers |
| `SubArrays.SubArray.Activate` | nvmain-test/src/SubArray.cpp:282-365 | the whole state after an accepted ACTIVATE, including an interruption |
| `SubArrays.SubArray.Read` | nvmain-test/src/SubArray.cpp:370-517 | the whole state after an accepted READ or READ_PRECHARGE, including an interruption |
| `SubArrays.SubArray.Write` | nvmain-test/src/SubArray.cpp:522-746 | the whole state after an accepted WRITE or WRITE_PRECHARGE, restarted if it was paused |
| `SubArrays.SubArray.Precharge` | nvmain-test/src/SubArray.cpp:751-828 | the whole state after an accepted PRECHARGE |
| `SubArrays.SubArray.Refresh` | nvmain-test/src/SubArray.cpp:834-891 | the whole state after an accepted REFRESH |
| `SubArrays.SubArray.RequestComplete` | nvmain-test/src/SubArray.cpp:1470-1549 | a completion closes the subarray or begins its implicit precharge; the report of the write in progress ends it |
| `WriteTimes.WriteCellData` | nvmain-test/src/SubArray.cpp:995-1146 | the write time and the iteration starts, for uniform writes, no data, one-bit and two-bit cells |
| `WriteTimes.MixedTime` | nvmain-test/src/SubArray.cpp:1067-1140 | with a 01 or 10 cell: one tWP0 pulse and n of tWP1 for single reset and multiple sets, the other way round otherwise; n is the drawn number moved to within the variance of the largest count of a value present; iterations start now and after each pulse but the last |
| `WriteTimes.ExtremeTime` | nvmain-test/src/SubArray.cpp:1110-1123 | with cells of one extreme only, one pulse of its kind |
| `WriteTimes.UniformTime` | nvmain-test/src/SubArray.cpp:999-1013 | uniform writes take tWP, in averageWriteIterations equal iterations if cells hold several bits |
| `WriteTimes.FixedTime` | nvmain-test/src/SubArray.cpp:1014-1052 | tWP with a flat energy model and write-through, tWP0 without data, tWP with one bit per cell, no time for other numbers of levels |
| `WriteTimes.StartsWithin` | nvmain-test/src/SubArray.cpp:999-1010 | iterations start in ascending order, all of them while the write lasts |
| `WriteTimes.AbortedIff` | nvmain-test/src/SubArray.cpp:1067-1123 | the time cannot be computed iff two-bit cells are looked at and either 32 leaves two or more bits over, or the data has no 01 or 10 cell and 00 iff 11 |
| `WriteTimes.ResumePoint` | nvmain-test/src/SubArray.cpp:909-926 | an interrupted write resumes at the latest iteration start not in the future |
| `BitCount.SwarCounts` | nvmain-test/src/SubArray.cpp:1719-1731 | the masks, shifts and the multiplication count the one bits of every word |
| `BitCount.CellsFound` | nvmain-test/src/SubArray.cpp:1680-1703 | flipping and pairing bits leaves as many one bits as there are cells with the value |
| `BitCount.Count32MLC1` | nvmain-test/src/SubArray.cpp:1719-1731 | the number of one bits |
| `BitCount.Count32MLC2` | nvmain-test/src/SubArray.cpp:1680-1703 | the number of two-bit cells holding the value |
| `BitCount.CountBitsMLC1` | nvmain-test/src/SubArray.cpp:1734-1746 | one bits of an array, or zero bits as the rest of 32 per word |
| `BitCount.CountBitsMLC2` | nvmain-test/src/SubArray.cpp:1706-1716 | cells of an array that hold the value |
| `BitCount.CellsAddUp` | nvmain-test/src/SubArray.cpp:1054-1060 | the four cell counts of any array add up to 16 per word |
| `BitCount.CellAssertionIff` | nvmain-test/src/SubArray.cpp:1059-1060 | the assertion that they add up to half the word size holds iff that leaves at most one bit over 32 |
| `EventQueues.SkipRefinesTicks` | nvmain-test/src/EventQueue.cpp:327-355 | skipping n cycles gives the same trace and state as n+1 single cycles, one cycle behind |
| `EventQueues.SkipSplits` | nvmain-test/src/EventQueue.cpp:327-355 | Loop(a) then Loop(b) is Loop(a+b), in trace and state |
| `EventQueues.AgreeIffNothingLate` | nvmain-test/src/EventQueue.cpp:312-355 | the two loops agree iff no event is pending in the past |
| `EventQueues.ProcessedNext` | nvmain-test/src/EventQueue.cpp:358-418 | processing hands over exactly the events of the earliest cycle, in order, and the next cycle is strictly later |
| `EventQueues.OnlyThreeKinds` | nvmain-test/src/EventQueue.cpp:368-398 | cycles, responses and callbacks reach their recipients, other events are dropped |
| `EventQueues.ProcessedElapsed` | nvmain-test/src/EventQueue.cpp:370-372 | all events of a batch are told how many cycles have gone by since the last dispatch |
| `EventQueues.RunLast` | nvmain-test/src/EventQueue.cpp:406-417 | in every run lastEventCycle is the cycle of the last dispatch |
| `EventQueues.RunIntegrity` | nvmain-test/src/EventQueue.cpp:137-238 | in every run of insertions, removals, skips and single cycles: nextEventCycle is the least pending cycle; of every event's insertions at a cycle each was dispatched at that cycle, was removed, or is pending there; lists are in priority order if priorities are inserted as stored |
| `EventOrder.RunFirstInFirstOut` | nvmain-test/src/EventQueue.cpp:358-418 | in every run in which priorities are inserted as stored, for every cycle and priority: what was dispatched and what is pending, in order, are what has left and what still stands in a plain line that joins at the back and leaves at the front |
| `EventOrder.RunKeepsArrivalOrder` | nvmain-test/src/EventQueue.cpp:137-179 | so if no event comes twice, the dispatched ones followed by the pending ones are the insertions in arrival order without those removed |
| `EventOrder.LineIsArrivals` | nvmain-test/src/EventQueue.cpp:198-238 | leaving at the front and removing from the middle of the line never change the order of arrival |
| `EventQueues.PlaceSortedIff` | nvmain-test/src/EventQueue.cpp:137-179 | a list stays in priority order iff no stored priority lies between the event's own and the one it is inserted with |
| `EventQueues.ZeroSortedIff` | nvmain-test/src/EventQueue.cpp:123-135 | an event built by the overloads stores priority zero: its list stays in order iff no pending priority p has 0 < p <= priority or priority < p < 0 |
| `EventQueues.WakeupUnsorts` | nvmain-test/src/MemoryController.cpp:161-161 | with a refresh at 20 and the command queues at 40 pending, the wakeup of the transaction queues, inserted with 30, makes the list 20, 0, 40 |
| `EventQueues.SameCycleInsertion` | nvmain-test/src/EventQueue.cpp:366-402 | an event inserted into the cycle being processed is still dispatched iff nothing handled so far, the running event included, has a larger priority |
| `EventQueues.LateQueue` | nvmain-test/src/EventQueue.cpp:327-355 | a queue with an event in the past is reachable, and there the two loops dispatch differently |
| `EventQueues.PlaceFifo` | nvmain-test/src/EventQueue.cpp:137-179 | inserted with its stored priority, an event goes behind all of that priority, and the others keep their order |
| `EventQueues.EventQueue.InsertEvent` | nvmain-test/src/EventQueue.cpp:137-179 | inserts in place as specified |
| `EventQueues.EventQueue.InsertRequest` | nvmain-test/src/EventQueue.cpp:123-135 | builds an event that stores priority zero and inserts it with the given one |
| `EventQueues.EventQueue.InsertCallback` | nvmain-test/src/EventQueue.cpp:182-195 | stores the priority it inserts with, so order is kept |
| `EventQueues.EventQueue.RemoveEvent` | nvmain-test/src/EventQueue.cpp:198-238 | removes one occurrence, and says whether there was one |
| `EventQueues.EventQueue.FindEvent` | nvmain-test/src/EventQueue.cpp:263-283 | the first event of the cycle that matches, if any |
| `EventQueues.EventQueue.Process` | nvmain-test/src/EventQueue.cpp:358-418 | dispatches in place as specified |
| `EventQueues.EventQueue.Loop` | nvmain-test/src/EventQueue.cpp:312-324 | one cycle as specified |
| `EventQueues.EventQueue.LoopSteps` | nvmain-test/src/EventQueue.cpp:327-355 | the skip-ahead loop as specified; it terminates as the next cycle rises towards the target |
| `GlobalRuns.RunOrdered` | nvmain-test/src/EventQueue.cpp:499-530 | in every run of client operations and Cycle(n): the clocks are in step (floor(global/m) <= local, floor(local*m) <= global) and the log is exactly an interleaving of the queues' traces; if no insertion was late, the log is in global order and nothing pending belongs before its end |
| `GlobalRuns.RunOfQueue` | nvmain-test/src/EventQueue.cpp:499-530 | each queue of such a run goes through a run of its own, made of its clients' operations and skips |
| `GlobalRuns.RunConserves` | nvmain-test/src/EventQueue.cpp:499-530 | so in every run every queue loses no event and dispatches none twice, and is first in, first out within a cycle and priority |
| `GlobalRuns.LateInsertion` | nvmain-test/src/MemoryController.cpp:209-215 | with a queue at half speed, an event inserted at its current cycle after the fast queue's first dispatch is late; it comes first, in global cycle 0, and whatever the next round dispatches breaks the order |
| `GlobalRuns.InsertInto` | nvmain-test/src/EventQueue.cpp:137-179 | what a client's insertion does to the whole system |
| `GlobalEventQueues.RoundKeeps` | nvmain-test/src/EventQueue.cpp:505-529 | a round dispatches something, and only events of the earliest global cycle; every queue skips ahead or stays, the log grows by what they dispatch, clocks stay in step and order is not lost |
| `GlobalEventQueues.IdleKeeps` | nvmain-test/src/EventQueue.cpp:514-520 | advancing over a stretch without events dispatches nothing and moves every clock |
| `GlobalEventQueues.InsertKeepsOrderIff` | nvmain-test/src/EventQueue.cpp:137-179 | after an insertion from outside, the next round dispatches in global order iff the event does not belong before the last dispatch |
| `GlobalEventQueues.GlobalEventQueue.Cycle` | nvmain-test/src/EventQueue.cpp:499-530 | terminates having advanced exactly n cycles: every queue is what skipping ahead makes of it, the log has grown by just what they dispatched, clocks are in step, order is not lost, and nothing due before the new present is left |
| `GlobalEventQueues.GlobalEventQueue.GetNextEvent` | nvmain-test/src/EventQueue.cpp:543-572 | the earliest global cycle of any queue, and a queue that has it |
| `GlobalEventQueues.GlobalEventQueue.Sync` | nvmain-test/src/EventQueue.cpp:579-593 | brings every queue up to the present |
| `ClockDivider.CyclesExact` | nvmain-test/NVM/nvmain.cpp:522-535 | n calls make exactly floor(n * CLK / CPUFreq) memory cycles for CLK <= CPUFreq, and n otherwise |
| `ClockDivider.SchemesAgree` | nvmain-test/NVM/nvmain.cpp:522-535 | after any run of the global event queue each of its queues is at most one memory cycle ahead of a divider called once per global cycle, and never behind |
| `ClockDivider.MemorySystem.Cycle` | nvmain-test/NVM/nvmain.cpp:512-542 | accumulates, and loops the event queue only when a memory cycle is due |
| `AddressTranslators.DecodeEncode` | nvmain-test/src/AddressTranslator.cpp:76-153 | decoding what was encoded gives the six fields back, for every permutation and widths that fit in 64 bits with the offset |
| `AddressTranslators.EncodeDecode` | nvmain-test/src/AddressTranslator.cpp:189-231 | encoding what was decoded gives the address with the bits within the burst cleared, below capacity |
| `AddressTranslators.SameFieldsIff` | nvmain-test/src/AddressTranslator.cpp:189-231 | two addresses have the same fields iff they lie in the same burst |
| `AddressTranslators.FieldIs` | nvmain-test/src/AddressTranslator.cpp:189-231 | each field is the slice of the address above the burst and above the widths of all fields with lower places |
| `AddressTranslators.AddressTranslator.OffsetIs` | nvmain-test/src/AddressTranslator.cpp:76-110 | if a burst has 2^k bytes, for any bus width and burst length, the lowest k bits lie within it |
| `AddressTranslators.AddressTranslator.Translate` | nvmain-test/src/AddressTranslator.cpp:189-231 | the six fields, by repeated remainder and division |
| `AddressTranslators.AddressTranslator.ReverseTranslate` | nvmain-test/src/AddressTranslator.cpp:76-153 | the address, by repeated multiplication of the unit |
| `AddressTranslators.AddressTranslator.FindOrder` | nvmain-test/src/AddressTranslator.cpp:391-417 | the field at a place of the order |
| `AddressTranslators.AddressTranslator.Modulo` | nvmain-test/src/AddressTranslator.cpp:358-386 | the low bits of the field's width |
| `TranslationMethods.SchemeIsPermutationIff` | nvmain-test/src/TranslationMethod.cpp:135-189 | a scheme, even a partial one, gives a permutation iff its first six tokens are distinct and recognised and the rest are not recognised |
| `TranslationMethods.NamedPlaces` | nvmain-test/src/TranslationMethod.cpp:147-171 | in such a scheme, the field that token i names (R row, C column, BK bank, RK rank, CH channel, SA subarray) gets place 5 - i |
| `TranslationMethods.OtherPlaces` | nvmain-test/src/TranslationMethod.cpp:173-181 | the fields not named get the places left, downwards as subarray, channel, rank, bank, row, column |
| `TranslationMethods.TokensJoined` | nvmain-test/src/TranslationMethod.cpp:147-148 | tokens are what stands between colons |
| `TranslationMethods.Onto` | nvmain-test/src/AddressTranslator.cpp:391-417 | so every place of the order is found |
| `TranslationMethods.TranslationMethod.SetAddressMappingScheme` | nvmain-test/src/TranslationMethod.cpp:135-189 | parses the scheme into the order, missing fields taking the remaining places |
| `TranslationMethods.TranslationMethod.SetOrder` | nvmain-test/src/TranslationMethod.cpp:69-86 | stores the order counted from zero |
| `TranslationMethods.TranslationMethod.SetBitWidths` | nvmain-test/src/TranslationMethod.cpp:58-67 | stores the six widths |
| `Powers.MLog2` | nvmain-test/include/NVMHelpers.cpp:38-53 | the position of the highest one bit, zero below two |
| `ReorderBuffers.OrderedIff` | gem5-cache/util/o3-pipeview.py:159-173 | distinct instructions come out in increasing sequence order iff none comes after more instructions were taken out than should go before it |
| `ReorderBuffers.NotTooLate` | gem5-cache/util/o3-pipeview.py:47-52 | that is so, for any thresholds, if none comes more than min_threshold places after its place; the output is a permutation of the input |
| `ReorderBuffers.OutputPermutes` | gem5-cache/util/o3-pipeview.py:159-173 | every instruction is taken out exactly once |
| `ReorderBuffers.HeldExact` | gem5-cache/util/o3-pipeview.py:159-164 | how many instructions are held after n have come: all until max_threshold is exceeded, then from min_threshold up again |
| `ReorderBuffers.SelectIs` | gem5-cache/util/o3-pipeview.py:174-187 | printed are just the instructions within the bounds on sequence numbers and ticks, and only completed ones if so asked |
| `ReorderBuffers.SelectInOrder` | gem5-cache/util/o3-pipeview.py:167-189 | in the order in which they are taken out |
| `ReorderBuffers.ReorderBuffer.QueueInst` | gem5-cache/util/o3-pipeview.py:159-164 | the buffer after an arrival, sorted and printed down to min_threshold once it exceeds max_threshold |
| `ReorderBuffers.ReorderBuffer.PrintInsts` | gem5-cache/util/o3-pipeview.py:167-189 | sorts, takes out all but the given number, and prints those that pass the five filters |
| `ReorderBuffers.ReorderBuffer.ProcessTrace` | gem5-cache/util/o3-pipeview.py:124-150 | a trace run to its end prints the filtered output |
| `Copyrights.RoundTripIff` | gem5-cache/util/find_copyrights.py:98-116 | reading a printed set of years gives it back iff every run of more than one year is between four-digit years |
| `Copyrights.FourDigitYears` | gem5-cache/util/find_copyrights.py:175-199 | so it does for every non-empty set of four-digit years |
| `Copyrights.RunsAre` | gem5-cache/util/find_copyrights.py:183-196 | the printed ranges are ascending, disjoint and never adjacent, and cover just the years |
| `Copyrights.Writes` | gem5-cache/util/find_copyrights.py:180-184 | a single year is written as a number, a range as two with a dash |
| `Copyrights.JoinsThree` | gem5-cache/util/find_copyrights.py:199-199 | ranges are separated by commas |
| `Copyrights.SplitJoin` | gem5-cache/util/find_copyrights.py:98-99 | splitting at commas undoes joining with commas |
| `Copyrights.ReadsRange` | gem5-cache/util/find_copyrights.py:97-107 | blanks around a range of four-digit years and its dash do not matter, nor does anything behind its second year |
| `Copyrights.ReadsNumber` | gem5-cache/util/find_copyrights.py:108-114 | a number may have a sign and blanks around it |
| `Copyrights.DateStr` | gem5-cache/util/find_copyrights.py:175-199 | the text for a set of years given in any order |
| `Copyrights.ProcessDates` | gem5-cache/util/find_copyrights.py:98-116 | the years a text stands for |

## Left out

- RefreshRuns.RefreshesAreIsolated: requires that a refresh of the group is only queued when none waits, which the code does not ensure; `RefreshRuns.AssertsHoldIff` says that nothing less will do, `RefreshRuns.SecondUnflagged` what happens otherwise.
- ControllerRuns.Reachable: the replay covers the queue's own bank; that a multi-bank REFRESH also finds the other banks of its group closed is left to the rank, whose source is not modelled.
- CommandQueues.ServedSoon: no refresh is queued in place of an issue, as execution-driven simulation would do.
- EventOrder.RunKeepsArrivalOrder: events that come twice for a cycle, which the source never inserts, as every insertion makes a new event; `EventOrder.RunFirstInFirstOut` covers them.
- GlobalRuns.RunOrdered: an event inserted before its queue's local time, which turns the local clock back; `EventQueues.AgreeIffNothingLate` says what one queue does with it.
- GlobalRuns.RunOfQueue: recipients that act on the queue of another clock while they handle an event, as a cache in front of a second memory system does.
- SubArrayTiming.Reachable: write pausing is off; with it on, `WritePausing.NextOk` and `SubArrays.SubArray.IssueCommand` say what is kept.
- WritePausing.FinitelyInterrupted: the encoder and the endurance model add no latency; `PauseRuns.BoundedIff` says that there is no bound if they do.
- BankShadows.DeviceAgrees: one subarray and one command; `DeviceRuns.DevicesReachable` is for whole runs.
- DeviceRuns.DevicesReachable: devices without write pausing; a REFRESH reaches the subarrays of its queue's bank.
- RefreshTimers.StaggeredIff: about the pulse times, which `RefreshTimers.PulsesOnTime` derives from re-insertion.
- MemoryControllers.MemoryController.IssueMemoryCommands: the cached-request path, which is never taken here.
- SubArrays.SubArray.IsIssuable: power commands, and the test of `nextCommand`, which nothing in the source sets.
- SubArrays.SubArray.IssueCommand: power commands.
- SubArrays.SubArray.CheckWritePausing: the percentage done is an exact fraction, not a floating-point number.
- SubArrays.SubArray.Write: write-back mode.
- SubArrays.SubArray.Precharge: write-back mode.
- ClockDivider.MemorySystem.Cycle: the calls of the memory controllers' own `Cycle` in each memory cycle.
- ReorderBuffers.ReorderBuffer.ProcessTrace: skipping to a start tick, and the early exit at a stop tick or number.
- MemoryControllers.MemoryController.CycleCommandQueues: the deadlock timer, which ends the simulation, and the wakeup of the transaction scheduler.
- Execution-driven order of refreshing before issuing: runs allow any order.
- The cached-request path and reads that stall writes, which ask devices that are not modelled: both are never taken.
- Low-power states, which depend on rank timing that is not modelled.
- Concrete schedulers, ranks, banks, interconnects, caches, encoders and endurance models.
- Per-bank queues with schedule scheme 0, groups that do not divide the banks, a refresh threshold of 0, and refresh with per-subarray queues: the source does not support them consistently.
- Write-back mode of the subarray, and the variant of the write time that is not called.
- `FindCallback`, hooks, checkpoints, configuration and trace files.
- Energy, averages and histograms.
- Memory ownership: requests are identifiers, and the map of queues ordered by pointers is a sequence.
- Python's built-in sort is modelled by insertion sort, the order in which a Python set is listed is arbitrary.
- Drawing of timelines.
- Finding copyright blocks in source files, and the option handling around it.
- `gem5-cache/util/protolib.py`, and the remaining gem5 scripts.
