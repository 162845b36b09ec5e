# GPU sharing, verified

A Dafny model of nvshare, which lets several processes share a GPU: the scheduler with its
lists, memory ledger and compute quotas; the lock protocol between the scheduler and its
clients; the client's flow control and allocation ledger; and three self-contained parts,
the linked-list sort, the C99 formatter and the device choice of the Kubernetes plugin.

`dafny verify dfyconfig.toml` checks everything.

How the files fit together:

- `GpuModel.dfy` states what each handler of the scheduler does to the state of one GPU, as
  a function on a value. `GpuScheduler.dfy` is the scheduler itself, a class whose methods
  change lists and records in place with the loops of the original; each method is proved
  to compute the function of the same step. `Timer.dfy` adds the computation of the sleep,
  `Quotas.dfy` how limits share a window.
- `GpuInvariants.dfy` proves what every handler keeps; `Billing.dfy` and `Relimits.dfy` what
  keeps charges within wall time. `Scheduling.dfy`, `Admission.dfy` and `Waiting.dfy` are
  about scheduling rounds, `Departures.dfy` about disconnects.
- `LockProtocol.dfy` adds the clients, with a FIFO channel in both directions for each, and
  `System.dfy` the step relation over clients, scheduler, timer, annotation watcher and
  clock. Its theorems are about every reachable state; `Charges.dfy`, `BillingRuns.dfy`,
  `Enforcement.dfy`, `Answers.dfy`, `Recovery.dfy`, `Overload.dfy` and `SerialFifo.dfy` are
  about whole runs too. `Witnesses.dfy` holds runs
  that reach the states in which a claim fails.
- `ClientProcess.dfy` is the client process as a class, proved against `LockProtocol.dfy`.
- `FlowControl.dfy` and `Allocations.dfy` model the interposed CUDA calls, the latter on the
  linked lists of `UtList.dfy`, which also holds the merge sort.
- `FormatSpec.dfy` says what a format prints, `Snprintf.dfy` is the formatter that writes to
  a buffer; `FormatLaws.dfy`, `FormatSpelling.dfy`, `FormatStandard.dfy` and
  `FormatConversions.dfy` prove what the text means.
- `DevicePlugin.dfy` models the preferred allocation. `Lists.dfy`, `Sums.dfy` and `Arith.dfy`
  hold what several of these need.

Records of history that the original does not keep are marked as such in the datatypes (the
number of grants and of timer drops, the number a message carries, what was charged, consumed
and forgiven); no handler reads them.

What the proofs found about the code:

- `remove_req` admits waiting clients before it deletes the entries of the client that
  leaves. A queued client that disconnects while nobody runs may be admitted by its own
  departure, and then it stays on the running list after it is gone. `Witnesses.ClientLingers`
  is a run that leads there, `Departures.LingersExactly` says exactly when it happens.
- A core limit that changes while its client runs can bill time twice.
  `Witnesses.RelimitOverbills` is a run in which it does. `BillingRuns.ChangeIsSafeExactly`
  says exactly when a change is safe: settling everyone, at the shares rounded down, can be
  paid from the unbilled wall time at each of the next n ms, n being the number of limited
  runners after the change. `Relimits.RelimitAlwaysSafe` is the form of it that needs no
  history; a test of the present alone is sufficient (`Relimits.SufficesIsSafe`), but refuses
  some safe changes (`Relimits.TestIsStricter`).
- A memory limit that is raised after the first allocation is reported as free but cannot be
  allocated (`Allocations.RaisedLimitIsNotUsable`; `Allocations.AgreesWithLimit` says exactly
  when the report is right).
- `fmtint` counts separators twice when the precision adds zeros, so the field can come out
  narrower than its width (`FormatLaws.QuotedFieldIsNarrow`, exactly when:
  `FormatLaws.IntegerWidth`).
- It also prints "0" for a value of 0 with a precision of 0, where section 7.19.6.1 of
  ISO/IEC 9899:1999 asks for nothing (`FormatStandard.ZeroAtZeroPrints`); every other
  integer without the quote flag is as the standard says (`FormatStandard.IntegerIsStandard`).
- `%c` ignores its width, so its text is the standard's if and only if the width is at most 1
  (`FormatStandard.CharIsStandard`, `FormatStandard.NarrowChar`); `%s` is always as the
  standard says (`FormatStandard.StringIsStandard`).

## Model

| member | source | states |
|---|---|---|
| `System.LockSafety` | src/scheduler.c:1004-1077 | In every reachable state, whatever the interleaving of any number of clients on FIFO channels: a client that owns the lock, or has a LOCK_OK on its way, is on the running list; nobody is on two of the three lists or twice on one; in serial mode at most one client owns the lock |
| `System.GrantsMatchReleases` | src/client.c:391-437 | In every reachable state LOCK_OK messages received minus LOCK_RELEASED messages sent is 1 for an owner and 0 for anyone else, and the timer has sent at most one DROP_LOCK since the last grant |
| `System.NoRequestIsLost` | src/client.c:97-129 | In every reachable state a client that needs the lock has exactly one of a REQ_LOCK on its way to the scheduler, a place in the queues, and a LOCK_OK on its way to it |
| `System.StaleDropIsIgnored` | src/client.c:576-650 | A DROP_LOCK that reaches an owner was sent for the grant it owns; one that crossed an early release changes nothing, so it never cancels a later grant |
| `System.LedgerHolds` | src/scheduler.c:431-440 | In every reachable state the running memory is the sum over the running list, `lock_held` holds exactly when that list is not empty, `is_running` matches membership, and the running total covers each runner, so the accounting-mismatch branch is unreachable |
| `System.MemorySafety` | src/scheduler.c:548-607 | In every reachable state, until overload is flagged, the runners' memory is within the safe limit or a single runner holds all of it |
| `System.DebtConservation` | src/scheduler.c:936-960 | In every reachable state all that a client was ever charged equals what closed windows took, min(usage, quota) each, plus what was forgiven plus the current balance; at 100% carryover nothing is forgiven |
| `Overload.OverloadFallsBackToSerial` | src/scheduler.c:554-561 | From a flagged state with at most k >= 1 runners, every run stays flagged with at most k runners; so once the list has emptied, at most one client ever runs |
| `Answers.OverloadIsAnswered` | src/scheduler.c:524-545 | After any step that flags overload, over every run in which it stays connected: each client that ran then still has a DROP_LOCK for that grant to read or has given the grant up, and while it still runs on that grant the DROP_LOCK or its LOCK_RELEASED is on its way |
| `Answers.TimerIsAnswered` | src/scheduler.c:1226-1288 | After the timer found a runner out of quota or told it to make room, over every run in which it stays connected: it still has a DROP_LOCK for that grant to read or has given the grant up, and while it still runs on that grant the DROP_LOCK or its LOCK_RELEASED is on its way |
| `Answers.DropIsAnswered` | src/client.c:391-437 | Over every run without its disconnect: once a DROP_LOCK for a grant is on its way to a client, it is still to be read or the number of LOCK_RELEASED messages sent has reached the number of that grant |
| `Answers.AnswerIsOnItsWay` | src/client.c:391-437 | In every state: a client that runs on a grant it was told to drop has the DROP_LOCK to read, or its LOCK_RELEASED is on its way to the scheduler |
| `SerialFifo.SerialIsFifo` | src/scheduler.c:1004-1077 | In serial mode with unlimited clients, over every run: wait queue followed by requests is the arrival order, nothing waits while nothing runs, and the holder and the queue are those of a single FIFO lock served with the messages the scheduler read |
| `SerialFifo.RequestRefines` | src/scheduler.c:1532-1539 | REQ_LOCK acts on the lists as an arrival at a FIFO lock |
| `SerialFifo.YieldRefines` | src/scheduler.c:1546-1562 | LOCK_RELEASED acts as a release of, or a departure from, a FIFO lock, although it promotes and prepends |
| `SerialFifo.BusyRound` | src/scheduler.c:1023-1031 | While someone runs, a round moves requests to the wait queue and keeps the arrival order |
| `Scheduling.TryScheduleKeepsEveryone` | src/scheduler.c:1010-1076 | A scheduling round keeps the multiset of clients across the three lists |
| `Scheduling.TryScheduleQuiesces` | src/scheduler.c:1010-1076 | Outside serial mode a round ends with no request pending and nobody in the wait queue whom `can_run` would accept then |
| `Waiting.RoundNotices` | src/scheduler.c:609-656 | In every mode and from every state, exactly what a scheduling round sends each client: LOCK_OK to a requester that is admitted, MEM_AVAILABLE and LOCK_OK to a waiter that is admitted, WAIT_FOR_MEM to a requester that has to wait unless it is throttled, and nothing to anybody else |
| `Waiting.WaitsForMemory` | src/scheduler.c:548-607 | Outside serial mode, whoever waits after a round although its quota would let it run: after overload somebody runs, and before it the runners use memory and their total with the client's own is more than what the reserve leaves |
| `Waiting.AdmissibleExactly` | src/scheduler.c:971-996 | With a sound ledger a client may run if and only if it is unlimited, or not throttled and below its quota; and nobody runs (serial mode, overload), or the runners use no memory or leave room for the client's within the reserve |
| `GpuModel.Pass` | src/scheduler.c:1010-1076 | One turn of the goto loop; unless it ends the loop, the number of queued clients falls, or stays while the requests get fewer, so the loop terminates |
| `GpuModel.TrySchedule` | src/scheduler.c:1004-1077 | The whole loop keeps the lists disjoint and free of duplicates, and the set of clients |
| `GpuModel.PromotedIsAdmissible` | src/scheduler.c:635-656 | A client that was promoted passes the admission check that follows, so promotion and grant go together |
| `GpuModel.ResetWindowIdempotent` | src/scheduler.c:922-968 | A second window check at the same time changes nothing |
| `GpuInvariants.TryScheduleKeepsInv` | src/scheduler.c:1004-1077 | A scheduling round keeps the scheduler invariant: the ledger (running memory, lock_held, is_running), memory safety, serial exclusion, the drop counters, the accounts and the order of times |
| `GpuInvariants.RemoveReqKeepsInv` | src/scheduler.c:424-518 | Removing a client keeps the scheduler invariant |
| `GpuInvariants.OnReqLockKeepsInv` | src/scheduler.c:1521-1544 | REQ_LOCK keeps the scheduler invariant |
| `GpuInvariants.OnLockReleasedKeepsInv` | src/scheduler.c:1546-1562 | LOCK_RELEASED keeps the scheduler invariant |
| `GpuInvariants.MemUpdateKeepsInv` | src/scheduler.c:1564-1609 | MEM_UPDATE, with the forced preemption it may cause, keeps the scheduler invariant |
| `Enforcement.OverloadTells` | src/scheduler.c:1564-1609 | MEM_UPDATE flags overload if and only if its sender runs, overload is not flagged, and 100 times the runners' memory is more than total * (100 - reserve); then every runner is sent one DROP_LOCK, which is noted, and otherwise nobody is sent anything |
| `GpuInvariants.TimerWindowKeepsInv` | src/scheduler.c:1127-1141 | The timer's window check and round keep the scheduler invariant |
| `GpuInvariants.TimerWakeKeepsInv` | src/scheduler.c:1226-1288 | The timer's throttling and rotation keep the scheduler invariant |
| `GpuInvariants.ResetKeepsInv` | src/scheduler.c:922-968 | A window reset keeps the scheduler invariant |
| `Charges.AccrueSettles` | src/scheduler.c:882-901 | Settling charges each limited runner with no drop pending exactly its open segment divided by the number of limited runners, adds that to its usage, starts a new segment, and leaves everyone else as they were |
| `Charges.ResetSettles` | src/scheduler.c:929-934 | A due window reset charges each limited runner with no drop pending exactly its open segment divided by the number of limited runners, and nobody else |
| `Charges.GrantSettles` | src/scheduler.c:1045-1062 | A grant charges each limited runner with no drop pending exactly its open segment divided by the number of limited runners before it, and nobody else |
| `Charges.ReleaseSettles` | src/scheduler.c:443-468 | A runner that leaves makes every other limited runner with no drop pending pay exactly its open segment divided by the number of limited runners |
| `Charges.LeaverIsCharged` | src/scheduler.c:443-468 | The leaver pays its open segment divided by the number of limited runners; if it was told to drop the lock it pays instead the tail percentage of its share of the time since, divided by the number of limited runners at that time, rounded down each time |
| `Charges.WindowCloses` | src/scheduler.c:922-968 | A due reset leaves of every client's usage nothing if it is unlimited or within its quota, else the carryover percentage of the excess, rounded down; that is its debt, its throttle is lifted, and the next window starts now |
| `Charges.WindowLasts` | src/scheduler.c:922-928 | Before the window has lasted its time a reset changes nothing, but for starting the first window |
| `Billing.AccrueConserves` | src/scheduler.c:882-901 | Settling the runners of a solvent state leaves no more billed than the wall time that passed, and every segment starts anew |
| `Billing.GrantConserves` | src/scheduler.c:1045-1062 | A grant, which opens a segment that starts with everyone else's, keeps the state solvent and the start shared |
| `Billing.ReleaseConserves` | src/scheduler.c:443-468 | A client that leaves is billed its share while the others start a new segment; the state stays solvent |
| `Billing.ResetConserves` | src/scheduler.c:929-934 | A window reset, which settles all runners at the boundary, keeps the state solvent |
| `Billing.ThrottleConserves` | src/scheduler.c:1231-1257 | Throttling bills a runner once and takes it out of the shared segment; the state stays solvent |
| `Billing.RotateConserves` | src/scheduler.c:1268-1286 | Rotation, which only marks drops, keeps the state solvent |
| `LockProtocol.RequestIsFresh` | src/client.c:110-124 | A client whose REQ_LOCK is read next is on none of the lists, so the duplicate checks of the list moves never matter |
| `LockProtocol.TryScheduleKeepsProtocol` | src/scheduler.c:1004-1077 | A round keeps every client in a phase of the protocol, with exactly the messages in flight that the phase allows |
| `LockProtocol.RemoveReqKeepsProtocol` | src/scheduler.c:424-518 | Removing a client after its LOCK_RELEASED keeps the phases, also when its next REQ_LOCK is already on its way |
| `LockProtocol.TimerWakeKeepsProtocol` | src/scheduler.c:1226-1288 | Drops sent by the timer keep the phases |
| `LockProtocol.MemUpdateKeepsProtocol` | src/scheduler.c:1564-1609 | Drops sent for overload keep the phases |
| `LockProtocol.ReceiveOk` | src/client.c:372-437 | A client's reaction to a message keeps the phases, and a DROP_LOCK for an owner carries the number of its grant |
| `LockProtocol.SurrenderOk` | src/client.c:645-650 | Giving the lock up, from either of the two threads that do it, keeps the phases |
| `LockProtocol.AskOk` | src/client.c:110-124 | Asking for the lock, once per application, keeps the phases |
| `Quotas.QuotasShareTheWindow` | src/scheduler.c:904-919 | The effective quotas of any number of limited clients sum to at most the window, and to at least window * min(total, 100) / 100 less 2 ms for each |
| `Quotas.QuotaKeepsOrder` | src/scheduler.c:904-919 | Scaling keeps the order of the configured limits |
| `Quotas.NewcomerRaisesNoQuota` | src/scheduler.c:851-861 | Nobody's effective quota grows when a client is added |
| `Quotas.NewcomerGetsItsShare` | src/scheduler.c:711-721 | A client that registers with a limit gets that share of the window, scaled by the sum of all limits if it is more than 100, short of less than 2 ms |
| `Timer.SleepEndsWithWindow` | src/scheduler.c:1154-1165 | The sleep never passes the window boundary |
| `Timer.OverrunIsBounded` | src/scheduler.c:1168-1210 | With an unchanged running set and a timer that wakes on time, a runner with quota left when the sleep began is at most 9 ms over it on waking |
| `Enforcement.QuotaIsEnforced` | src/scheduler.c:1168-1263 | Over every run in which the timer computes its sleep, sleeps undisturbed and wakes on time: a limited runner that had quota left and was not told to stop is either below its quota on waking, or throttled, charged up to at most 9 ms over its quota, and sent one DROP_LOCK |
| `Enforcement.TimerTells` | src/scheduler.c:1226-1288 | In every state, exactly whom the timer tells what: a limited runner whose billed usage and share of the open segment reach its quota is charged, throttled and sent one DROP_LOCK; with a full quantum and somebody queued every runner neither throttled nor sent a drop before is sent one DROP_LOCK and marked; nothing happens to anybody else |
| `Enforcement.NobodyStaysOver` | src/scheduler.c:1230-1263 | After the timer woke no limited runner is at or over its quota unless it is throttled or was told to drop the lock |
| `Timer.SleepIsEarliest` | src/scheduler.c:1143-1210 | The sleep lasts exactly to the earliest of the switch time, the end of the window, the sampling interval if a runner is limited, and the wall time for which each limited runner has quota; less than 10 ms become 10 ms, but not in the last 10 ms of a window |
| `Timer.SwitchTimeIs` | src/scheduler.c:1079-1093 | The switch time is the configured one, or the multiplier times the runners' memory in whole GiB, 1 at least, but not below 10 s and not above 300 s |
| `Timer.FullQuantumExactly` | src/scheduler.c:1268-1270 | With a switch time of a second or more the timer sleeps for all of it if and only if nothing wakes it and no other deadline is earlier |
| `Timer.RotationFitsWindow` | src/scheduler.c:1268-1270 | A rotation happens only if the switch time fits in the rest of the window; a computed switch time needs a window of 10 s at least |
| `GpuScheduler.Scheduler.constructor` | src/scheduler.c:313-347 | A GPU starts with empty lists and no memory in use |
| `GpuScheduler.Scheduler.CalculateTotalQuota` | src/scheduler.c:851-861 | The loop computes the sum of the limits, 100 if there are none |
| `GpuScheduler.Scheduler.CountRunningClients` | src/scheduler.c:867-876 | The loop computes the number of limited runners, 1 if there are none |
| `GpuScheduler.Scheduler.GetEffectiveQuota` | src/scheduler.c:904-919 | The scaled quota |
| `GpuScheduler.Scheduler.AccrueRunningUsage` | src/scheduler.c:882-901 | Updating the records one after the other, while the count is read from them, settles all runners as of one state |
| `GpuScheduler.Scheduler.CheckAndResetWindow` | src/scheduler.c:922-968 | The reset in place is the reset of the value, although quotas are read while records change |
| `GpuScheduler.Scheduler.CanRun` | src/scheduler.c:971-996 | The verdict is the admission predicate on the freshened window, and the state is the freshened window |
| `GpuScheduler.Scheduler.CanRunWithMemory` | src/scheduler.c:548-607 | The verdict of the mode and memory check |
| `GpuScheduler.Scheduler.MoveHeadToWaitQueue` | src/scheduler.c:609-633 | The head of the requests goes to the end of the wait queue, with WAIT_FOR_MEM unless it is throttled |
| `GpuScheduler.Scheduler.PromoteWaiting` | src/scheduler.c:635-656 | The first admissible waiting client, and no other, goes to the front of the requests |
| `GpuScheduler.Scheduler.GrantHead` | src/scheduler.c:1033-1064 | Runners are settled, then the head of the requests joins the running list with LOCK_OK and its memory is counted |
| `GpuScheduler.Scheduler.Schedule` | src/scheduler.c:1004-1077 | The goto loop, in place, ends in the state of the scheduling round |
| `GpuScheduler.Scheduler.BillLeaver` | src/scheduler.c:443-468 | The leaver's charge, with the drop tail's share |
| `GpuScheduler.Scheduler.ReleaseEntry` | src/scheduler.c:430-488 | An entry leaves the running list, billed and uncounted |
| `GpuScheduler.Scheduler.RemoveRequest` | src/scheduler.c:424-518 | The state after `remove_req`, admission before the deletion of the leaver's own entries included |
| `GpuScheduler.Scheduler.OnRequest` | src/scheduler.c:1521-1544 | The state after REQ_LOCK |
| `GpuScheduler.Scheduler.OnReleased` | src/scheduler.c:1546-1562 | The state after LOCK_RELEASED |
| `GpuScheduler.Scheduler.PreemptAll` | src/scheduler.c:524-545 | Every runner is sent DROP_LOCK |
| `GpuScheduler.Scheduler.OnMemory` | src/scheduler.c:1564-1609 | The state after MEM_UPDATE, with the overload latch |
| `GpuScheduler.Scheduler.TimerReset` | src/scheduler.c:1127-1141 | The state after the timer's window check |
| `GpuScheduler.Scheduler.CalculateSwitchTime` | src/scheduler.c:1079-1093 | The switch time, fixed or 10 to 300 s by memory |
| `GpuScheduler.Scheduler.CalculateSleep` | src/scheduler.c:1143-1210 | The sleep computed by the loop over the runners |
| `GpuScheduler.Scheduler.ThrottleOverrun` | src/scheduler.c:1230-1263 | Every runner over its quota is charged, throttled and sent DROP_LOCK, once |
| `GpuScheduler.Scheduler.RotateRunners` | src/scheduler.c:1268-1286 | Every runner without a drop pending is sent DROP_LOCK |
| `GpuScheduler.Scheduler.TimerEnforce` | src/scheduler.c:1226-1288 | The state after the timer woke |
| `GpuScheduler.Scheduler.RegisterClient` | src/scheduler.c:711-721 | A client is added with a fresh account |
| `GpuScheduler.Scheduler.DeleteClient` | src/scheduler.c:377-399 | The state after a disconnect, and whether the client is off every list by then |
| `ClientProcess.Process.ContinueWithLock` | src/client.c:97-129 | One round of the wait loop asks for the lock at most once per application and lets work pass only while the lock is owned |
| `ClientProcess.Process.HandleMessage` | src/client.c:372-437 | The message thread's new state; LOCK_OK restarts the early-release interval |
| `ClientProcess.Process.EarlyReleaseWake` | src/client.c:568-660 | The lock is given up if and only if it is owned, the interval passed without work, and the GPU is idle by NVML or by a synchronization under 100 ms |
| `FlowControl.WindowMax` | src/hook.c:64-80 | The cap is 16 to 2048, and at most 32 below a core limit of 100 |
| `FlowControl.KernelWindowMax` | src/hook.c:64-80 | The clamps in place compute the cap of the launch window |
| `FlowControl.Launcher.LaunchKernel` | src/hook.c:1005-1083 | The counters after a launch, with the synchronization it may lead to |
| `FlowControl.Launcher.SyncContext` | src/client.c:84-92 | A synchronization that the lock protocol asks for sets the window to 1 |
| `FlowControl.WindowStaysBounded` | src/hook.c:1005-1083 | Over any series of launches and context synchronizations the window stays in 1..2048 and the launches since the last synchronization below 2048 |
| `FlowControl.TimelySyncsDouble` | src/hook.c:1071-1078 | After k >= 1 synchronizations in a row that are timely or in the warm-up, at one core limit, the window is exactly min(2^k * w0, cap) |
| `FlowControl.FillsTheWindow` | src/hook.c:1005-1006 | Exactly the launch that makes the count reach the window synchronizes |
| `FlowControl.ContextSyncRestarts` | src/client.c:84-92 | After a synchronization that the lock protocol asks for the very next launch synchronizes again, and if that is timely the window opens to 2 |
| `FlowControl.AbuseForcesSync` | src/hook.c:1043-1058 | Critical synchronizations in a row, more than three, force the window to 1 for as long as they last |
| `FlowControl.CriticalSyncsHalve` | src/hook.c:1043-1058 | After k >= 1 critical synchronizations in a row, up to the third, the window is exactly max(floor, w0 / 2^k) |
| `FlowControl.MildSyncShrinks` | src/hook.c:1059-1070 | A synchronization of a second or more that is not critical cuts the window to four fifths, rounded down, or to the floor; every one that is not critical resets the timeout count, a critical one adds to it except in the warm-up |
| `FlowControl.MildSyncsReachFloor` | src/hook.c:1059-1070 | k synchronizations in a row of a second or more, not critical and after the warm-up, bring the window to at most max(floor, w0 - k), and never below the floor |
| `Allocations.Tracker.InsertAllocation` | src/hook.c:349-366 | The linked list, the sum and the report after an insertion |
| `Allocations.Tracker.RemoveAllocation` | src/hook.c:368-382 | Walking and unlinking in place removes exactly the entries that start at the pointer and takes their sizes off the sum |
| `Allocations.Tracker.MemAlloc` | src/hook.c:845-880 | Which requests pass, what the first one remembers, and the ledger after it |
| `Allocations.Tracker.MemFree` | src/hook.c:884-892 | The ledger after a free |
| `Allocations.Tracker.MemGetInfo` | src/hook.c:894-951 | The free and total amounts reported, with the limit and without |
| `Allocations.Tracker.UpdateMemoryLimit` | src/hook.c:126-130 | Only the limit changes |
| `Allocations.SumIsTotal` | src/hook.c:349-382 | Over every series of allocations, frees and limit changes the sum is the total of the listed sizes and what was reported last |
| `Allocations.LimitHolds` | src/hook.c:845-865 | A limit set at the start and unchanged is never exceeded, and is what the first allocation remembers |
| `Allocations.AllocMatchesInfo` | src/hook.c:907-915 | Under a limit set at the start and unchanged an allocation passes its checks exactly for sizes up to the reported free amount, over every run |
| `Allocations.RaisedLimitIsNotUsable` | src/hook.c:126-130 | A concrete run in which a raised limit reports 19 bytes free and 10 cannot be had |
| `Allocations.FreeUndoesAlloc` | src/hook.c:884-892 | Freeing a fresh pointer restores the ledger |
| `Allocations.FreeMeans` | src/hook.c:907-951 | With a limit the reported free amount is what the limit leaves or 0; without one it is the device total less 1536 MiB, as a 64-bit number that wraps around on a smaller device |
| `Allocations.AllocEnters` | src/hook.c:845-880 | An allocation is entered if and only if the driver grants it, the limit, if any, leaves room for it, and so does what the first allocation found free, unless oversubscription is on |
| `Allocations.FreeRemoves` | src/hook.c:368-382 | A free that the driver grants takes off exactly the entries at the pointer; any other changes nothing |
| `UtList.Prepend` | src/utlist.h:400-404 | The list becomes the node followed by the old list |
| `UtList.Append` | src/utlist.h:424-437 | The list becomes the old list followed by the node |
| `UtList.Delete` | src/utlist.h:472-486 | The list loses its first occurrence of the node, and stays as it was if there is none |
| `UtList.Sort` | src/utlist.h:134-210 | For every list and every total preorder the merge sort terminates in a null-terminated list of the same nodes, sorted and stable |
| `UtList.MergePass` | src/utlist.h:146-199 | A pass over the heap yields the neighbouring runs merged in pairs, and counts the merges |
| `UtList.MergeRuns` | src/utlist.h:163-194 | The relinking loop yields the merge of two runs that takes from the first on a tie, and leaves the rest of the input intact |
| `UtList.SplitRun` | src/utlist.h:154-161 | The walk over the first run stops after `insize` nodes or at the end |
| `UtList.PassDoublesRuns` | src/utlist.h:146-195 | A pass turns sorted, stable runs of one size into runs of twice the size |
| `UtList.PassPermutes` | src/utlist.h:146-195 | A pass keeps the nodes |
| `UtList.OneMerge` | src/utlist.h:201-203 | A pass makes at most one merge if and only if the list is a single run afterwards |
| `UtList.ListIsUnique` | src/utlist.h:134-210 | A head pointer determines the list |
| `Snprintf.Printer.OutChar` | src/snprintf.c:504-508 | Every character counts, and is stored only while it leaves room for the NUL |
| `Snprintf.Printer.FmtStr` | src/snprintf.c:905-934 | A string's text: up to a NUL or the precision, aligned in the field |
| `Snprintf.Printer.FmtInt` | src/snprintf.c:936-1028 | An integer's text under every flag mix |
| `Snprintf.Convert` | src/snprintf.c:1350-1362 | The digits in reverse, all of them |
| `Snprintf.FewDigits` | src/snprintf.c:1350-1362 | A 64-bit value has at most 22 digits in base 8 or more, so the buffer of 43 never cuts it short |
| `Snprintf.Printer.OutConv` | src/snprintf.c:684-886 | The text of each conversion |
| `Snprintf.Vsnprintf` | src/snprintf.c:523-903 | The state machine terminates; for every format, every arguments and every size the buffer holds the first size - 1 characters of one text that does not depend on the size, then a NUL, and is untouched elsewhere; the return value is the text's length, or -1 on overflow |
| `Snprintf.Vasprintf` | src/snprintf.c:1418-1428 | The allocated buffer is exactly the whole text and its NUL |
| `FormatSpelling.FormatPrintsItsPieces` | src/snprintf.c:556-902 | A format that spells a list of literals and directives prints what the list means, piece by piece; a width or precision above INT_MAX stops it |
| `FormatSpelling.DirectiveRead` | src/snprintf.c:565-683 | Flags, width, precision, length and conversion are read as they were spelled |
| `FormatSpelling.UnfinishedPrintsNothing` | src/snprintf.c:556-593 | A format that ends after "%" and any flags prints nothing for them |
| `FormatLaws.IntegerReadsBack` | src/snprintf.c:936-1028 | Whatever the base, flags, width and precision, a reader like strtol gets the value back, unless separators are printed |
| `FormatLaws.PlainIntegerWidth` | src/snprintf.c:984-1001 | Without the quote flag the length is max(width, max(precision, digits) + sign + prefix), with the precision raised for '#' in base 8 |
| `FormatLaws.IntegerWidth` | src/snprintf.c:979-993 | With separators the corresponding length is met if and only if there are none, or the precision adds no zeros, or the width asks for no padding |
| `FormatLaws.QuotedFieldIsNarrow` | src/snprintf.c:979-993 | 1000 in a field of 10 with precision 5 and separators comes out 9 long |
| `FormatLaws.GroupedLength` | src/snprintf.c:1319-1332 | The counted separators are the printed ones |
| `FormatLaws.GroupsOfThree` | src/snprintf.c:1020-1024 | Separators stand between groups of three digits, counted from the right |
| `FormatLaws.ShownIsPrefix` | src/snprintf.c:914-917 | What is printed of a string is its longest prefix without a NUL within the precision |
| `FormatLaws.StringWidth` | src/snprintf.c:919-933 | A string takes up max(width, characters shown) |
| `DevicePlugin.MadeIdentifier` | kubernetes/device-plugin/server.go:317-323 | An identifier of a GPU name and an ordinal without underscores names that GPU |
| `DevicePlugin.Group` | kubernetes/device-plugin/server.go:313-326 | Each GPU's group is its well-formed available identifiers, in order |
| `DevicePlugin.SortLoads` | kubernetes/device-plugin/server.go:353-361 | The selection sort in place sorts and permutes |
| `DevicePlugin.GreedyIsPreferred` | kubernetes/device-plugin/server.go:363-379 | Taking from the groups in load order gives only available well-formed identifiers, min(requested, available) of them, and uses a GPU only if every available device of every less loaded GPU is taken |
| `DevicePlugin.PreferredMeans` | kubernetes/device-plugin/server.go:353-379 | A good choice has the size asked for or takes all there are, and takes a device of a GPU in use only if it takes all devices of every GPU with more devices available |
| `DevicePlugin.ChoiceIsDistinct` | kubernetes/device-plugin/server.go:363-379 | From distinct identifiers the choice is distinct |
| `DevicePlugin.ConcatHoldsAll` | kubernetes/device-plugin/server.go:345-352 | Whatever the order in which the map is walked, the groups hold every well-formed identifier as often as it is available |
| `DevicePlugin.Plugin.SyncCounts` | kubernetes/device-plugin/server.go:328-341 | Each counter becomes max(0, total - available), for any iteration order |
| `DevicePlugin.Plugin.Pick` | kubernetes/device-plugin/server.go:363-379 | The nested loops take the start of the groups in order and count each device on its GPU |
| `DevicePlugin.Plugin.PreferredAllocation` | kubernetes/device-plugin/server.go:309-383 | For every pair of iteration orders: a good choice, and each counter ends as max(0, total - available) + selected |
| `System.NextKeepsSysInv` | src/scheduler.c:1443-1620 | Each step of a client, the scheduler, the timer, the annotation watcher or time keeps the scheduler invariant and the protocol invariant together; core limits may change at any time |
| `System.RunKeepsSysInv` | src/scheduler.c:1443-1620 | Every run of steps, of any length, keeps the scheduler invariant and the protocol invariant together |
| `System.InitReachable` | src/scheduler.c:313-347 | The initial state is reachable |
| `System.NextReachable` | src/scheduler.c:1443-1620 | What a step leads to from a reachable state is reachable |
| `Charges.BilledIsCharged` | src/scheduler.c:882-901 | Over every run the counter of billed time grows by exactly the sum, step by step, of what was added to the records of the limited runners that had no drop pending, a disconnecting client's last record included |
| `Charges.StepBills` | src/scheduler.c:443-468 | In every single step, of whatever kind, the counter grows by exactly what was charged in that step to the limited runners that had no drop pending when it began |
| `BillingRuns.StaysWithinExactly` | src/scheduler.c:882-901 | From every state: every run without changes of core limits keeps what was billed before and what the run charges to limited runners with no drop pending, added up from their records, within the elapsed wall time if and only if the state is solvent, that is, settling everyone at any later time could be paid from the unbilled wall time; and that is if and only if it can be paid at each of the next n ms, n being the number of limited runners |
| `BillingRuns.ChangeIsSafeExactly` | src/scheduler.c:1410-1424 | A change of a core limit is safe, in that no run after it overbills before limits change again, if and only if the unbilled wall time is at least what the changed state needs within the next n ms |
| `BillingRuns.ConservationExactly` | src/scheduler.c:882-901 | Over every run from the start: at no point can the run go on to overbill without further changes of limits if and only if every change of a core limit in it is afforded: the unbilled wall time is then at least what the changed state needs |
| `BillingRuns.BillingConservation` | src/scheduler.c:882-901 | Over any run from the start in which every change of a core limit is afforded, the charges made to the records of limited runners with no drop pending, summed over the steps of the run, total at most the elapsed wall time |
| `BillingRuns.SolventRunExactly` | src/scheduler.c:882-901 | Over any run from a solvent state, every state is solvent if and only if every change of a core limit is afforded at its time |
| `BillingRuns.NextSolvent` | src/scheduler.c:1410-1424 | From a solvent state any step leads to a solvent state if and only if it is no change of a limit or an afforded one |
| `BillingRuns.DisconnectBills` | src/scheduler.c:443-468 | A runner that disconnects, at any time, leaves cleanly and makes the scheduler bill at least what settling everyone then costs |
| `BillingRuns.SegmentsStartTogether` | src/scheduler.c:929-934 | Over any run in which no running client gains or loses its limit, every change is afforded and all limited runners without a pending drop share one segment start |
| `Relimits.SolventExactly` | src/scheduler.c:882-901 | With shares rounded down as the code does, settling everyone can be paid at every later time if and only if it can be paid at each of the next n ms, n being the number of limited runners |
| `Relimits.RelimitSafe` | src/scheduler.c:1410-1424 | For every client, every old and new limit and every history: the state after a change of a core limit is solvent if and only if the unbilled wall time is at least what the changed state needs; a change that makes no runner gain or lose its limit needs nothing more than before |
| `Relimits.RelimitAlwaysSafe` | src/scheduler.c:1410-1424 | What the scheduler can check without a history: a change keeps every solvent history solvent if and only if the changed state needs no more unbilled time than the present one |
| `Relimits.RaiseIsSafe` | src/scheduler.c:1410-1424 | Taking the limit away from an active runner is always safe while the segments started together |
| `Relimits.SufficesIsSafe` | src/scheduler.c:1410-1424 | A change is safe if wall time covers the open segments, shared out without rounding over the limited runners there are after it; a sufficient test that looks at the present only |
| `Relimits.TestIsStricter` | src/scheduler.c:1410-1424 | A state with three runners in which that sufficient test refuses a change that is safe, because shares are rounded down |
| `Relimits.RelimitSharesStart` | src/scheduler.c:1410-1424 | A change keeps the shared start if and only if the runner that becomes active, if any, opened its segment with the active ones |
| `Witnesses.RelimitOverbills` | src/scheduler.c:1410-1424 | A run from the start in which a running client is given a limit and 200 ms are charged for 100 ms that passed |
| `Witnesses.ClientLingers` | src/scheduler.c:494-517 | A run from the start (a limited client is throttled, releases, asks again and waits) after which the client, disconnecting once the window has passed, stays on the running list |
| `Admission.RoundIsGreedy` | src/scheduler.c:1010-1076 | In every mode and from every state, the clients that the loop of moves, promotions and grants admits are exactly those that one greedy walk along requests and wait queue takes |
| `Admission.UnfitIsNotGranted` | src/scheduler.c:976-987 | A client that fails the quota check gets no grant from a scheduling round, however many passes it takes |
| `Departures.OnDisconnect` | src/scheduler.c:377-399 | The lists stay sound; either exactly the client that left is gone, or it is still on the running list |
| `Departures.LingersExactly` | src/scheduler.c:494-517 | In every mode, with any queues: a client that disconnects stays on the running list if and only if nobody runs and the greedy walk along the queues takes it |
| `Departures.FirstFitLingers` | src/scheduler.c:494-517 | In serial mode and after overload a client that disconnects while nobody runs stays on the running list if and only if it is the first client in line that passes the quota check; in every mode that client stays |
| `Departures.RemovalAdmits` | src/scheduler.c:494-500 | Who runs after `remove_req` found or left nobody running: the greedy walk's clients, the first fit client in line alone where clients run one by one |
| `Departures.LeavesCleanly` | src/scheduler.c:494-517 | In every mode a client leaves cleanly while someone runs, while it is not queued, or while it fails the quota check |
| `Departures.DisconnectQuiesces` | src/scheduler.c:377-399 | Outside serial mode a clean disconnect that leaves nobody running ends with no request pending and nobody waiting whom `can_run` would accept; with a runner left it only deletes the client |
| `SerialFifo.AnyoneLeaves` | src/scheduler.c:494-517 | In serial mode with unlimited clients a disconnect is clean at any time |
| `Scheduling.RequestQuiesces` | src/scheduler.c:1532-1539 | Outside serial mode a REQ_LOCK leaves no request pending and nobody waiting whom `can_run` would accept |
| `Scheduling.TimerQuiesces` | src/scheduler.c:1127-1141 | Outside serial mode a timer that finds the window due leaves no request pending and nobody waiting whom `can_run` would accept |
| `Scheduling.ReleaseQuiesces` | src/scheduler.c:495-500 | Outside serial mode a LOCK_RELEASED that empties the running list leaves no request pending and nobody waiting whom `can_run` would accept; with another runner left it makes no round and whoever waited keeps waiting |
| `Recovery.ThrottledWaitsForReset` | src/scheduler.c:1243-1255 | Over every run that neither relimits nor removes it and meets no window due for a reset, a throttled client off the running list stays throttled and off the running list |
| `Recovery.IdleUsage` | src/scheduler.c:936-960 | Over every run in which a client does not run and its quota stays the same, its usage goes through one window boundary for each window reset and through nothing else |
| `Recovery.IdleClientRecovers` | src/scheduler.c:936-960 | Over every run in which a client does not run and its quota stays the same, at least 1 ms, with max(1, usage / quota) resets at any carryover the client passes the quota check at the end |
| `Recovery.RecoveryIsExact` | src/scheduler.c:936-960 | Over every run in which a client does not run and its quota stays the same, at 100% carryover, it passes the quota check at the end if and only if there were usage / quota resets, and one if it was throttled |
| `Recovery.DebtShrinks` | src/scheduler.c:936-960 | After n boundaries an idle client's usage is at most usage - n * quota, and exactly that at 100% carryover |
| `Recovery.IdleClientAtReset` | src/scheduler.c:936-960 | A window reset of the GPU does to a client that does not run exactly one boundary step |
| `Allocations.AgreesWithLimit` | src/hook.c:852-865 | In any state with a limit an allocation passes its checks exactly for sizes up to the reported free amount if and only if the limit is not below the sum and not above what the first allocation saw, or sees now, or oversubscription is on |
| `Allocations.AgreesWithoutLimit` | src/hook.c:944-945 | In any state without a limit an allocation passes its checks exactly for sizes up to the reported free amount if and only if oversubscription is off and the sum makes up the difference to the amount seen first |
| `FormatStandard.IntegerIsStandard` | src/snprintf.c:936-1028 | For every value, base, flag mix without the quote flag, width and precision the printed integer is the text that section 7.19.6.1 of ISO/IEC 9899:1999 asks for if and only if it is not zero at precision zero (save octal with '#') |
| `FormatStandard.ZeroAtZeroPrints` | src/snprintf.c:1350-1362 | 0 with precision 0: the standard asks for nothing, the formatter prints one digit |
| `FormatStandard.StringIsStandard` | src/snprintf.c:905-934 | For every string, width, precision and flags the text of "%s" is the one that section 7.19.6.1 of ISO/IEC 9899:1999 asks for |
| `FormatStandard.CharIsStandard` | src/snprintf.c:804-807 | The text of "%c" is the one that section 7.19.6.1 asks for if and only if the width is at most 1; it is always one character, where the section asks for max(width, 1) |
| `FormatStandard.NarrowChar` | src/snprintf.c:804-807 | "%2c": the standard asks for a space and the character, the formatter prints the character alone |
| `FormatConversions.SignedIsStandard` | src/snprintf.c:687-716 | "%d" and "%i" print the standard's text, in base 10, of the argument as a signed integer of its length modifier (8, 16, 32 or 64 bits), if and only if it is not zero at precision zero |
| `FormatConversions.UnsignedIsStandard` | src/snprintf.c:717-757 | "%u", "%o", "%x" and "%X" print the standard's text of the argument as an unsigned integer of its length modifier in base 10, 8, 16 with small and 16 with capital letters, if and only if it is not zero at precision zero (save "%#o") |
| `FormatConversions.PointerText` | src/snprintf.c:812-837 | "%p" prints an address as "%#lx" does and the null pointer as "(nil)" in its field |
| `FormatConversions.NullString` | src/snprintf.c:905-917 | "%s" prints a null pointer as it prints the string "(null)" |
| `FormatConversions.DigitsShown` | src/snprintf.c:1350-1362 | The digits of "%x" are among 0-9a-f and those of "%X" among 0-9A-F |
| `FormatConversions.OtherText` | src/snprintf.c:838-884 | "%%" prints a percent sign; "%n" and characters that are no conversion print nothing |
| `FormatConversions.ArgumentsTaken` | src/snprintf.c:604-645 | Exactly the conversions diouxXaAeEfFgGcspn take an argument; "*" takes an int, a negative width stands for the '-' flag and its absolute value, a negative precision for none |
| `FormatConversions.FlagsMean` | src/snprintf.c:564-593 | Each of the flag characters - + space # 0 ' sets its flag, in any order and any number |

## Left out

Assumptions of the model:

- The scheduler stays on. SCHED_OFF clears the requests and `lock_held` but not the running
  list and the wait queue (src/scheduler.c:1482-1500), so nothing is claimed for runs with toggling.
- Handlers are atomic and read one clock value each, positive and never running backwards;
  the original reads its monotonic clock several times in some of them.
- Messages are whole and sends succeed. The path taken when LOCK_OK cannot be sent
  (src/scheduler.c:1040-1043) is not modelled. A disconnect means that the client is gone.
- A run ends where a client that disconnects stays on the running list: the original frees its
  record, and what it does from then on is not defined. `Departures.LingersExactly` says when.
- `memory_allocated` and `is_running` start at 0; the original does not set them
  (src/scheduler.c:711-721, src/scheduler.c:1800-1804).
- The reserve percentage is in 0..100, sizes and times do not overflow, one GPU is modelled
  at a time, and clients are registered.
- Ownership means the `own_lock` flag. The launch that follows `continue_with_lock` happens
  after the mutex is released (src/client.c:128-129) and is not covered.
- The lists of the scheduler are sequences that its methods reassign; their linked form is
  covered by `UtList` alone.
- GpuScheduler.Scheduler.DeleteClient: stops with the client still on the running list where the original frees it.
- GpuScheduler.Scheduler.OnRequest: requires that the client is neither waiting nor running,
  which `LockProtocol.RequestIsFresh` proves of every REQ_LOCK that is read; what the
  scheduler does with a client that is on a list twice is not modelled.
- GpuInvariants.OnReqLockKeepsInv: requires, like that method, that the client is neither waiting nor running.
- FlowControl.Launcher.LaunchKernel: `(int)(w * 0.8)` is modelled as 4 * w / 5, and the floor of the
  window is in 1..2048 for the bounds.
- Allocations.Tracker.MemAlloc: the sum of sizes is unbounded, where `size_t` wraps around.
- UtList.Sort: `insize` is unbounded, where an `int` overflows beyond 2^30 nodes.
- Snprintf.Printer.FmtInt: the `int` arithmetic on width and precision is unbounded, and so is
  the negation of the most negative value.
- Snprintf.Vsnprintf: the text of floating-point conversions is a parameter, an arbitrary function that may
  also refuse; `%n` consumes its argument and stores nothing; an argument that is missing or
  of another kind than its conversion reads as null, as 0 or as "(null)".
- DevicePlugin.Plugin.PreferredAllocation: one container of a request; the loop over containers repeats it.

Not modelled:

- Sockets, epoll, threads and condition variables; `must_reset_timer`, peak memory, metrics
  and logging.
- SET_TQ, whose value the timer never reads, and `bcast_status`.
- Other GPU contexts, and reconnection of a client under a new identity.
- CUDA, NVML and the interposition of symbols: a synchronization is a duration, an
  allocation a pointer.
- Prefetching of allocations on a context switch.
- The annotation watcher's polling of the Kubernetes API, and the API client; the core-limit
  changes that the watcher makes are steps of the model.
- `fmtflt` and what it calls.
- The option parser, the command line tool and the helpers of src/common.c, which would only
  add easy members.
- The rest of the device plugin.
