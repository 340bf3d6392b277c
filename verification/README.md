# Verified models of the base system services

A Dafny project about six components of the Redox base system: the process manager, Unix stream
sockets with their message framing, the initfs image builder and reader, init's unit loader and
scheduler, the pty line discipline, and the readiness-based request loop.  `dafny verify
dfyconfig.toml` checks all of it.

Each stateful component appears twice: as total functions on values, about which the theorems are
stated, and as a class or a method with loops in the source's own form, proved to compute exactly
those functions.  What a step takes from outside is an argument, so every theorem holds for all of
it: thread ids, the order in which a hash map is walked, what a signal page says, where a tree
search by group id ends up, what a scheme replies, which files a directory holds.

In the classes the straight-line handlers (`Fork`, `NewThread`, `SetPgid`, `OnSetpgid`, `OnCancel`,
`HandleBind`, `HandleConnect`, `HandleWrite`) follow the step functions statement by statement; what
they add is that nothing else of the object changes.  The weight is in the methods with loops
(`DrainAwoken`, `ReparentChildren`, `RouseNewOrphans`, `HandleAccept`, `HandleListen`, `ReadInner`,
`FillTable`, `LoadUnits`, `Step`).  `PtyDevice` follows `PtyModel` branch by branch.

## Components

**Process manager** (`Proc*.dfy`, `WaitpidKeys.dfy`).  `ProcModel` has the tables and all steps;
`ProcRuns` the runs from the moment init is claimed; `ProcFrame` what signalling and reparenting
leave alone.  The theorems: `ProcExits` (an exit never sticks), `ProcDrain` (the wake loop ends, and
the last thread's death completes the exit), `ProcOrphans` (newly orphaned groups are roused),
`ProcWaiters` (no waiter is lost), `ProcListings` (which steps lose one), `ProcTree` (parents form a
tree rooted at init), `ProcGroups` (the group index agrees with the table), `ProcFates` (exit status
is frozen), `ProcPids` (pids are not reused), `ProcRecords` (who holds which waitpid record),
`ProcTerminations` (what becomes of termination records), `ProcZombies` (whether exited processes
are on record with their parents), `ProcSessions` (groups and sessions), `ProcExitWords` (which
status word a termination is reported with), `ProcWaitAnswers` (what waitpid answers and consumes),
`ProcAnswers` (what the other calls answer), `WaitpidKeys` (the ordering question).
`ProcCounterexamples` and `ProcMissedGroups` have concrete runs; `ProcManager` is the class.

**Unix stream sockets** (`Stream*.dfy`).  `StreamModel` has the connect and accept state machine
with parked bytes, partial reads and closing; `StreamPeers` the agreement of peers and queues;
`StreamHistory` the integrity of the byte stream over all runs; `StreamReads` and `StreamQueue` the
exactness of reads; `StreamAnswers` what every call answers; `StreamScheme` the class.  `Framing`
and `MsgWriting` are the message format.

**initfs** (`Initfs*.dfy`).  `InitfsTypes` the records, `InitfsImage` what it means that a tree is
stored in an image and which writes keep it stored, `InitfsBuilder` the builder, `InitfsReader` the
reader, `InitfsRoundTrip` the round trip, `InitfsOpen` path lookup.

**init** (`Units.dfy`, `UnitFiles.dfy`, `Scheduling.dfy`).  `Units` is the loading loop over any way
to read a unit, `UnitFiles` the name rule, the directories, instance templates and the class.
**pty** (`Pty*.dfy`).  `PtyModel` is the line discipline, `PtyConservation` raw mode over all
interleavings, `PtyLines` line editing, the timer and output; `PtyDevice` the class.  **Readiness
loop** (`Readiness*.dfy`).  `Readiness` counts answers, `ReadinessAnswers` says which.  `Bytes`,
`Results` and `Prelude` are shared vocabulary.

## What turned out not to hold

Where a law one might expect fails, the code is kept as it is, a concrete input shows the failure,
and a lemma states exactly when the law does hold.

- A waitpid call that asked for neither stops nor continues can consume such a record and then
  sleep where nothing wakes it (`WaiterIsLost`).  `ListedIff` says for every step, and
  `EveryWaiterListedIff` for every run, that exactly the steps that swallow news they were not asked
  for do this.
- A termination record can be overwritten by a stop record: an exit hands init the records filed
  with each child rather than those filed with the exiting process (`TerminationIsOverwritten`).
  Of all steps and all holders, it happens exactly to a record of init's when a completed exit hands
  over a child that holds an older record of that pid (`TerminationRecordSurvivesIff`).
- A waitpid for a group can sleep beside a record of that group, because the map is ordered by pid
  (`GroupWaiterSleeps`); `SearchSucceedsIff` says exactly which key sequences are safe whatever the
  shape of the tree, and `NoLostWaiter` that safe searches suffice.
- A waitpid for the caller's own group can sleep beside a record of that group, if the caller joins
  the group of an exited child while it waits (`OwnGroupWaiterSleeps`); `OwnGroupsAttendedIff` says
  exactly which steps do this.
- An exited process need not be on record with its parent, so that waiting for any child misses it
  (`ZombieIsForgotten`): the exit of its parent, or of its parent's parent, separates it from its
  record.  `ZombieKnownIff` says for every step, and `EveryZombieKnownIff` for every run, exactly
  when.
- setpgid accepts a group of another session (`SetpgidCrossesSessions`); `SessionsUniformIff` and
  `RunsUniformIff` say exactly when, in terms of the conditions under which the call is granted
  (`GrantedIff`).
- A client that turns to a second listener before the first accepts it is marked accepted without
  a peer (`TurningClient`).  `OneRoleIsExact` shows the one-role hypothesis to be exact for the
  agreement of peers; that agreement includes that only listeners can be named in connect, so a
  listener that connects away breaks it without harming any stream yet.
- Loading units need not end: one template file whose requirement lengthens the instance makes
  unboundedly many unit ids, as `t@.service` requiring `t@$INSTANCEx.service` does
  (`EndlessNeverTerminates`).  `LoadTerminatesIff` says exactly when it ends;
  `UnparameterisedTerminates` that it does whenever no template passes its instance on.
- The scheduler loops forever on cyclic requirements (`MutualNeverDrains`, `KnotNeverEnds`), and
  exactly then (`StepTerminatesIff`).
- In a path, `..` removes the last component instead of the one before it (`DotDotDropsLast`);
  `DotDotRightIff` says exactly when that comes to the same.
- Reusing a request id while it is pending loses an answer (`ReusedIdLosesAnswer`), and exactly
  then (`HandleBalancesIff`).
- If its limit allows, the builder returns an image of 4 GiB or more, which the reader refuses
  (`OversizedIsBuilt`); `BuildAndRead` says exactly which inputs are built and which images are
  accepted.

## Model

| member | source | states |
|---|---|---|
| `ProcExits.ExitNeverSticks` | bootstrap/src/procmgr.rs:1650-1816 | In every run whose request ids are unique while pending, whenever both wake queues are empty each process still exiting has a thread and a pending awaiting-threads request registered with it, cancellations included |
| `ProcExits.CancelKeeps` | bootstrap/src/procmgr.rs:269-299 | Cancelling any pending request, an exit included, keeps every exiting process tended: the cancelled exit request is replaced by an internal one on the wake queue |
| `ProcDrain.LastDeathCompletesExit` | bootstrap/src/procmgr.rs:171-193 | When the last thread of an exiting process dies and the wake loop has emptied the queues, the process has exited or been reaped, whatever was queued before |
| `ProcOrphans.OrphanedGroupsAreRoused` | bootstrap/src/procmgr.rs:1706-1789 | In every run in which init lives, a step that can complete an exit leaves no stopped member in any group of the whole table that was not orphaned before it and is orphaned after it |
| `ProcOrphans.OrphanedIsPosix` | bootstrap/src/procmgr.rs:2467-2497 | The loop over a group's member list decides exactly the POSIX definition of an orphaned process group |
| `ProcOrphans.OnlyChildrensGroupsChange` | bootstrap/src/procmgr.rs:1717-1738 | Handing over children changes the orphan state of no group outside the sampled ones |
| `ProcOrphans.NextStops` | bootstrap/src/procmgr.rs:2065-2136 | Every step keeps: a stopped process has its signal page mapped, so SIGCONT reaches it |
| `ProcOrphans.RouseAllWorks` | bootstrap/src/procmgr.rs:1744-1787 | After SIGCONT and SIGHUP to each member in turn, no member is stopped and nobody was newly stopped |
| `ProcDrain.WakeProgress` | bootstrap/src/procmgr.rs:82-105 | Each turn of the wake loop, from any state, lowers the pair (exiting processes, queued ids) lexicographically |
| `ProcDrain.Settle` | bootstrap/src/procmgr.rs:82-105 | The wake loop as a total function, for any outside choices: it ends with the queue empty |
| `ProcDrain.DrainTerminates` | bootstrap/src/procmgr.rs:82-105 | From every state, whatever the iteration orders, finitely many turns empty the queue and reach the state the total function gives |
| `ProcWaiters.NoLostWaiter` | bootstrap/src/procmgr.rs:1383-1532 | In every run, with the queues empty, a suspended waitpid call that asked for stops and continues is listed with its living waiter, and nothing it could report is at hand: no record of the child it names, no zombie of that pid, no record at all if it waits for any child; if no search by group id in the run missed, no record of the group it names; and if besides nobody strayed, no record of the waiter's own group |
| `ProcWaiters.OwnGroupsAttendedIff` | bootstrap/src/procmgr.rs:1263-1298 | From a state in which every such call is attended to, those for the waiter's own group included, a step with a sharp search leads to such a state if and only if it does not move a process, by a setpgid or setsid that will be granted, into a group it holds a record of while a call of that process for its own group is suspended, not queued, and not listed with the parent whose waiters are woken |
| `ProcMissedGroups.OwnGroupWaiterSleeps` | bootstrap/src/procmgr.rs:1263-1298 | A concrete run: a process waits for its own group, joins the group of its exited child, and sleeps on beside the child's record |
| `ProcListings.ListedIff` | bootstrap/src/procmgr.rs:1383-1532 | From a state in which every suspended waitpid call of a living waiter, whatever its flags, is queued or listed with its waiter, every step leads to such a state if and only if it does not examine a call that is not refused, whose picked news is a stop or continue it did not ask for, and whose id is neither queued again nor listed |
| `ProcListings.EveryWaiterListedIff` | bootstrap/src/procmgr.rs:1383-1532 | Over whole runs: every suspended call is queued or listed at every moment if and only if no step of the run swallows news in that sense; and then, with the queue empty, each is in its waiter's list |
| `ProcListings.LookedAtListed` | bootstrap/src/procmgr.rs:1421-1436 | Helper of `ListedIff`, read off one step: the call a step examines is left suspended and in neither place exactly if it swallows news |
| `ProcCounterexamples.WaiterIsLost` | bootstrap/src/procmgr.rs:1421-1436 | A concrete run without WUNTRACED in which a suspended waiter is listed nowhere while the termination it waits for is on record |
| `ProcTree.ParentsFormTree` | bootstrap/src/procmgr.rs:1709-1738 | If init never exits and no exited process is forked, in every reachable state each other process has a smaller-numbered parent in the table and following parents reaches init |
| `ProcTree.ChildlessAfterExit` | bootstrap/src/procmgr.rs:1727-1738 | After an exit no process is a child of the one that exited |
| `ProcTree.Ancestors` | bootstrap/src/procmgr.rs:1620-1639 | In a tree state the chain of parents stays in the table, descends in pid and ends at init |
| `ProcGroups.GroupIndexAgrees` | bootstrap/src/procmgr.rs:651-657 | After any events in any order, each process is exactly once in the group its pgid names, groups hold nothing else, and no group is empty |
| `ProcGroups.SetPgidKeeps` | bootstrap/src/procmgr.rs:1263-1298 | Moving a process between groups keeps the group index in agreement with the process table |
| `ProcGroups.SetsidKeeps` | bootstrap/src/procmgr.rs:1129-1167 | A new session keeps the group index in agreement with the process table |
| `ProcGroups.ReapKeeps` | bootstrap/src/procmgr.rs:1534-1565 | Reaping removes the process from its group and the group when it becomes empty, keeping the agreement |
| `ProcSessions.GrantedIff` | bootstrap/src/procmgr.rs:1199-1262 | Where the group index agrees with the table, setpgid succeeds if and only if the caller and the target are in the table, the target is the caller or its child, its parent exists, it leads no session, it is in the caller's session, the group is the target's own pid or has a member, and a child has not disabled the call |
| `ProcSessions.SessionsUniformIff` | bootstrap/src/procmgr.rs:1199-1262 | From a state in which every group lies within one session and the index agrees, a step keeps it so if and only if it is not a setpgid that these conditions allow into another group some member of which is in another session |
| `ProcSessions.RunsUniformIff` | bootstrap/src/procmgr.rs:1199-1262 | Over whole runs: groups lie within their sessions at every moment if and only if no setpgid of the run crosses in that sense |
| `ProcSessions.SetpgidKeepsIff` | bootstrap/src/procmgr.rs:1199-1262 | The same for one setpgid call, in terms of what the caller could look up before it: the conditions, the current group and the sessions of the new group's members |
| `ProcSessions.SetpgidCrossesSessions` | bootstrap/src/procmgr.rs:1238-1242 | A concrete sequence of forks, one setsid and a granted setpgid that puts processes of two sessions into one group |
| `ProcFates.ExitStatusFrozen` | bootstrap/src/procmgr.rs:1318-1358 | Once a process is ending, it keeps that signal and status in every later state, every termination record of it in any waitpid map carries them, and so does every termination any waitpid call reports |
| `ProcFates.StatusOnlyAdvances` | bootstrap/src/procmgr.rs:464-476 | In every run each step only moves a status between runnable and stopped or on to exiting and exited, and only an exited process leaves the table |
| `ProcFates.WordRoundTrip` | bootstrap/src/procmgr.rs:1437-1443 | The status word handed to waitpid's caller decodes back to the record it was made from |
| `ProcExitWords.ExitWordReported` | bootstrap/src/procmgr.rs:1299-1382 | In every run, once a process calls exit or loses its last thread with a meaningful status, every termination of it that any later waitpid reports carries that exit code in the upper byte, or that signal in the lower |
| `ProcExitWords.MeaninglessIsRefused` | bootstrap/src/procmgr.rs:1299-1382 | A status above 255 whose upper byte is no signal number changes no process's status, and a caller is told EINVAL |
| `ProcExitWords.ExitAnswers` | bootstrap/src/procmgr.rs:1299-1382 | Which error an exit call gets in which case, that it succeeds at once exactly when no thread is left, and otherwise stays pending |
| `ProcExitWords.CompletionAnswers` | bootstrap/src/procmgr.rs:1650-1816 | An awoken exit request is answered exactly if it has a caller and no thread is left or the process is gone, with success exactly if the process is exiting or exited |
| `ProcWaitAnswers.WaitpidAnswers` | bootstrap/src/procmgr.rs:1383-1532 | Whenever a waitpid call is examined: an error exactly if there is nobody to wait for; else the news of a suitable child, of the lowest pid for any child, consumed, and reported unless of a kind not asked for; without news, zero at once under WNOHANG and no answer otherwise |
| `ProcWaitAnswers.ExaminedRestlessIff` | bootstrap/src/procmgr.rs:1383-1532 | A call with WNOHANG that is examined stays suspended exactly if it consumed news of a kind it had not asked for |
| `ProcWaitAnswers.NohangNeverSleeps` | bootstrap/src/procmgr.rs:1383-1532 | In every run, a call with WNOHANG is suspended only if it has at some step consumed news it had not asked for |
| `ProcAnswers.SignalEffect` | bootstrap/src/procmgr.rs:2065-2136 | A signal changes the tables exactly if it reaches a process that it stops or continues: SIGSTOP always stops, a terminal stop signal only with its default action and a member of the group whose parent is in the same session but another group; then status and parent's record say so |
| `ProcAnswers.SignalAnswer` | bootstrap/src/procmgr.rs:1973-2136 | Which error the sender of a signal gets in which case, by number, existence, ownership and signal page, in that order |
| `ProcAnswers.SetpgidAnswer` | bootstrap/src/procmgr.rs:1199-1262 | ESRCH, EPERM or EACCES in exactly which cases, with the tables unchanged, and otherwise the target is in the new group |
| `ProcAnswers.SetsidAnswer` | bootstrap/src/procmgr.rs:1129-1167 | EPERM or ESRCH in exactly which cases, with the tables unchanged, and otherwise the caller leads a new group and session |
| `ProcAnswers.ForkInherits` | bootstrap/src/procmgr.rs:668-742 | A child is runnable with one thread in its parent's group and session, with its user ids, and holds no records; nobody else changes |
| `ProcAnswers.SettersSet` | bootstrap/src/procmgr.rs:2412-2425 | Adding a thread, mapping the signal page (which needs a thread), forbidding setpgid and setting user ids change that of that process and nothing else |
| `ProcAnswers.CancelAnswers` | bootstrap/src/procmgr.rs:269-299 | A cancelled wait is told ECANCELED and forgotten; a cancelled exit goes on under an internal id on the wake queue |
| `ProcPids.PidsAreNeverReused` | bootstrap/src/procmgr.rs:594-598 | A pid that is below the counter and not in the table never comes back |
| `ProcPids.OnlyForkAdds` | bootstrap/src/procmgr.rs:668-742 | No step other than fork adds a process, and fork adds only the next pid |
| `ProcRecords.NewsStaysUnique` | bootstrap/src/procmgr.rs:1792-1800 | In every reachable state at most one process besides init holds a record of a given pid |
| `ProcRecords.ReparentOrderIrrelevant` | bootstrap/src/procmgr.rs:1727-1738 | The children may be handed to init in any hash-map order: the resulting table is the same |
| `ProcTerminations.TerminationRecordSurvivesIff` | bootstrap/src/procmgr.rs:1446-1565 | In every reachable state, for every step and every holder of the news that a process has terminated: the news is afterwards with that holder, or with init if the holder is a child of the process whose exit the step completes, or was taken by the holder's own waitpid, or went with the holder, if and only if it is not init's while the completed exit hands over a child with an older record of the same pid |
| `ProcTerminations.TerminationNewsStays` | bootstrap/src/procmgr.rs:1792-1803 | Over any number of steps in which no holder consumes it, leaves the table or has it overwritten, the news reaches the last heir unchanged |
| `ProcTerminations.CompleteRecord` | bootstrap/src/procmgr.rs:1709-1738 | Completing an exit passes the termination news of every holder on to its heir, unless it destroys init's: decided by whether a child handed over holds an older record |
| `ProcTerminations.LookRecord` | bootstrap/src/procmgr.rs:1446-1565 | A waitpid call leaves termination news where it is, takes it for its own caller, or removes its holder |
| `ProcZombies.ZombieKnownIff` | bootstrap/src/procmgr.rs:1683-1804 | From a reachable state in which every exited process is on record with its present parent, a step leads to such a state if and only if it completes no exit of a process that has an exited child or an exited grandchild, or whose child holds an older record of an exited child of init, and takes no termination of a process that still has a thread |
| `ProcZombies.EveryZombieKnownIff` | bootstrap/src/procmgr.rs:1683-1804 | Over whole runs: every exited process is on record with its parent at every moment if and only if no step of the run forgets in that sense |
| `ProcZombies.CompletePasses` | bootstrap/src/procmgr.rs:1709-1803 | What completing an exit does to every parent, every exited status and every holder's knowledge of every termination, in terms of the state before |
| `ProcZombies.LookZombies` | bootstrap/src/procmgr.rs:1446-1565 | A waitpid call loses track of an exited process exactly if it takes the termination of one that stays in the table |
| `ProcCounterexamples.ZombieIsForgotten` | bootstrap/src/procmgr.rs:1727-1738 | A concrete run: a grandchild of init exits before its parent does; init's second wait for any child then sleeps although the grandchild has exited and is its child |
| `ProcCounterexamples.TerminationIsOverwritten` | bootstrap/src/procmgr.rs:1727-1738 | A concrete run in which a zombie's old stop record replaces the termination init already knew of |
| `WaitpidKeys.NotTransitive` | bootstrap/src/procmgr.rs:411-449 | The key comparison is not transitive on all keys |
| `WaitpidKeys.TotalOnStored` | bootstrap/src/procmgr.rs:411-449 | On keys that have both fields it is a total order by pid |
| `WaitpidKeys.SearchSucceedsIff` | bootstrap/src/procmgr.rs:1478-1488 | A probe succeeds in every search tree over a key sequence, whatever its shape, if and only if no stretch between a smaller and a greater key, as the probe sees them, is free of matches |
| `WaitpidKeys.SearchSound` | bootstrap/src/procmgr.rs:1451-1454 | What a search returns is stored and compares equal to the probe |
| `WaitpidKeys.PidProbeExact` | bootstrap/src/procmgr.rs:1517-1522 | In any tree in pid order a pid-only probe finds that child's record and nothing else, and fails only if there is none |
| `WaitpidKeys.PgidProbe` | bootstrap/src/procmgr.rs:1478-1488 | A pgid-only probe returns only records of that group, and finds one whenever there is one if pgids ascend with pids |
| `ProcMissedGroups.GroupWaiterSleeps` | bootstrap/src/procmgr.rs:1478-1488 | A concrete run: two children exchange groups while a third keeps one of the groups alive, both exit, and init's waitpid for that group is suspended with the wake queue empty although a record of the group is filed, because the search in the tree of init's records misses it |
| `WaitpidKeys.SelectIsSearch` | bootstrap/src/procmgr.rs:1446-1532 | The record the waitpid model selects is the one the tree search returns, for all four kinds of target |
| `ProcManager.ProcScheme.constructor` | bootstrap/src/procmgr.rs:599-666 | The table after init has been claimed |
| `ProcManager.ProcScheme.Fork` | bootstrap/src/procmgr.rs:668-742 | The table becomes what the fork step specifies; None for an unknown parent |
| `ProcManager.ProcScheme.NewThread` | bootstrap/src/procmgr.rs:743-779 | The thread joins its process, if there is one |
| `ProcManager.ProcScheme.WakeWaiters` | bootstrap/src/procmgr.rs:1276-1280 | All waiters of a process move to the wake queue |
| `ProcManager.ProcScheme.FileRecord` | bootstrap/src/procmgr.rs:1792-1803 | A record is filed under the child's pid, an existing entry keeping its key, and the waiters are woken |
| `ProcManager.ProcScheme.PgrpIsOrphaned` | bootstrap/src/procmgr.rs:2467-2497 | Decides whether a group has no member with a parent in another group of its session; None for an unknown group |
| `ProcManager.ProcScheme.SendSig` | bootstrap/src/procmgr.rs:1973-2373 | The table and the error are what the signal step specifies |
| `ProcManager.ProcScheme.Notify` | bootstrap/src/procmgr.rs:2297-2369 | The parent gets the stop or continue record, its waiters wake and it is sent SIGCHLD |
| `ProcManager.ProcScheme.ReparentChildren` | bootstrap/src/procmgr.rs:1709-1738 | Every child of the exiting process is handed to init, in some order that covers them all |
| `ProcManager.ProcScheme.SampleGroups` | bootstrap/src/procmgr.rs:1716-1725 | Samples the orphan state of exactly the groups of the exiting process and its children |
| `ProcManager.ProcScheme.RouseMembers` | bootstrap/src/procmgr.rs:1749-1786 | Sends SIGCONT and SIGHUP to each stopped member in list order |
| `ProcManager.ProcScheme.RouseNewOrphans` | bootstrap/src/procmgr.rs:1741-1788 | Rouses the members of every sampled group that was not orphaned and now is, in some order that covers them all |
| `ProcManager.ProcScheme.Disown` | bootstrap/src/procmgr.rs:1706-1789 | Wakes init's waiters, hands over the children and rouses newly orphaned groups |
| `ProcManager.ProcScheme.Complete` | bootstrap/src/procmgr.rs:1683-1804 | An exit with no threads left completes: status, SIGCHLD, reparenting, rousing and the termination record |
| `ProcManager.ProcScheme.Reap` | bootstrap/src/procmgr.rs:1534-1565 | The process leaves the table and its group |
| `ProcManager.ProcScheme.OnWaitpid` | bootstrap/src/procmgr.rs:1383-1532 | Table and reply are those of the waitpid step, for every target, flag combination and tree probe |
| `ProcManager.ProcScheme.Refusal` | bootstrap/src/procmgr.rs:1389-1418 | Decides why a waitpid call fails at once, if it does |
| `ProcManager.ProcScheme.WorkOn` | bootstrap/src/procmgr.rs:1640-1850 | Table and reply are those of the step for the suspended request |
| `ProcManager.ProcScheme.SetPgid` | bootstrap/src/procmgr.rs:1263-1298 | The process changes group in the table and in both group lists, and its parent's waiters wake |
| `ProcManager.ProcScheme.OnSetpgid` | bootstrap/src/procmgr.rs:1199-1262 | Table and error are those of the setpgid step, with its checks in the same order |
| `ProcManager.ProcScheme.OnSetsid` | bootstrap/src/procmgr.rs:1129-1167 | Table and error are those of the setsid step |
| `ProcManager.ProcScheme.OnExitStart` | bootstrap/src/procmgr.rs:1299-1382 | Table and reply are those of the exit step: refusals, the decoded status, and the request that waits for the threads |
| `ProcManager.ProcScheme.OnThreadDeath` | bootstrap/src/procmgr.rs:142-193 | A thread's death wakes the exit requests, starts an exit on behalf of a process without threads, or only removes the thread |
| `ProcManager.ProcScheme.OnCancel` | bootstrap/src/procmgr.rs:269-299 | Table and reply are those of the cancellation step |
| `ProcManager.ProcScheme.Turn` | bootstrap/src/procmgr.rs:82-90 | One queued id is taken off and worked on |
| `ProcManager.ProcScheme.DrainFirst` | bootstrap/src/procmgr.rs:82-90 | The inner loop works off the first queue and leaves fewer exiting processes, or as many and a shorter queue |
| `ProcManager.ProcScheme.DrainAwoken` | bootstrap/src/procmgr.rs:82-105 | The two-queue loop ends with both queues empty, after exactly the turns and replies of a run of the model in which every walk covers all children and groups |
| `StreamHistory.StreamIntegrity` | ipcd/src/uds/stream.rs:264-313 | Under the one-role hypothesis, for every interleaving, the bytes a connected socket's peer has written, before and after it was accepted, are the bytes this socket has read followed by the bytes queued for it, in order |
| `StreamHistory.HonestEof` | ipcd/src/uds/stream.rs:1167-1229 | Under the same hypothesis a read or receive into a non-empty buffer on a connected socket reports end of file if and only if the peer is gone and all its bytes have been read |
| `StreamHistory.PeerAgreement` | ipcd/src/uds/stream.rs:240-313 | Under the same hypothesis a connected socket's live peer points back, a vanished peer and only such a one is noticed, and a queued client waits for that queue's owner, once, in one queue |
| `StreamPeers.OneRoleIsExact` | ipcd/src/uds/stream.rs:289-313 | From an agreeing state a step keeps the agreement, which includes that only listeners can be named in connect, if and only if it respects the one-role hypothesis, which speaks of the state before the step only |
| `StreamPeers.AcceptedIffWaitingHere` | ipcd/src/uds/stream.rs:264-287 | Accepting marks any connecting client accepted, and leaves it properly connected if and only if it was waiting for this listener |
| `StreamHistory.TurningClient` | ipcd/src/uds/stream.rs:264-287 | A run from the empty scheme: a client that turns from one listener to another before being accepted ends up accepted with the second listener as its peer, whose accept then fails while the client's connect reports success |
| `StreamPeers.AcceptKeeps` | ipcd/src/uds/stream.rs:872-928 | Accepting passes over vanished clients, keeps the agreement, and fails only by blocking |
| `StreamPeers.CloseListenerKeeps` | ipcd/src/uds/stream.rs:1178-1198 | A closing listener closes everybody who waits for it and keeps the agreement |
| `StreamPeers.CloseOtherKeeps` | ipcd/src/uds/stream.rs:1200-1229 | Any other close notifies the peer and keeps the agreement |
| `StreamHistory.AcceptOneIntact` | ipcd/src/uds/stream.rs:264-287 | The bytes a client parked before it was accepted become the first bytes the accepted socket will read |
| `StreamHistory.DeliverIntact` | ipcd/src/uds/stream.rs:1028-1063 | A write adds its bytes behind everything written before, with the peer or parked with the sender |
| `StreamReads.ReadsAreExact` | ipcd/src/uds/stream.rs:1132-1165 | In every run, whatever roles the sockets play, no queued packet is empty, and a read or receive on a connected socket delivers exactly the first min(room, queued) bytes and leaves exactly the rest |
| `StreamQueue.TakeExact` | ipcd/src/uds/stream.rs:1136-1165 | Taking from a queue without empty packets yields exactly a prefix of the flattened queue and leaves the exact suffix, again without empty packets |
| `StreamQueue.NeverStuck` | ipcd/src/uds/stream.rs:1145-1149 | Helper of `ReadInner` and `CollectPayload`: in a queue without empty packets every turn of the copy loop copies at least one byte and leaves such a queue, so the early exit is never taken |
| `StreamQueue.ReadInner` | ipcd/src/uds/stream.rs:1132-1165 | The copy loop fills the buffer with what the queue gives up, leaves the rest of the buffer alone and returns the remaining queue; from a queue without empty packets it stops only with the buffer full or the queue empty |
| `StreamScheme.CollectPayload` | ipcd/src/uds/stream.rs:72-108 | The receive loop collects the same bytes and leaves the same queue as the read loop; from a queue without empty packets it stops only with the room used up or the queue empty |
| `StreamAnswers.AcceptAnswers` | ipcd/src/uds/stream.rs:872-928 | Accepting hands out a handle that was in no use, and the new socket and the first queued client still open are each other's peers, the new one with the bytes that client had parked; with no such client the answer is to wait |
| `StreamAnswers.ListenAnswers` | ipcd/src/uds/stream.rs:953-969 | Listening hands out a socket exactly if the socket may listen and some queued client is still open, and then joins it with the first such client |
| `StreamAnswers.BindAnswers` | ipcd/src/uds/stream.rs:533-565 | Succeeds exactly for an unbound socket, which then listens and can be named in connect |
| `StreamAnswers.OpenAnswers` | ipcd/src/uds/stream.rs:467-481 | A new socket gets a handle in no use, unbound and unconnected, and no other socket changes |
| `StreamAnswers.ConnectAnswers` | ipcd/src/uds/stream.rs:591-645 | Which error in which case; success exactly for a client that a listener has accepted; otherwise the client waits, once, at the end of the named listener's queue |
| `StreamAnswers.PairAnswers` | ipcd/src/uds/stream.rs:971-1010 | The handle of a socket pair's second end is new and waits at the end of the first end's queue |
| `StreamAnswers.WriteAnswers` | ipcd/src/uds/stream.rs:1028-1063 | The bytes are added behind what a live peer holds, or parked while no listener has accepted, or the error of a peer that is gone or was never there |
| `StreamAnswers.SendMsgAnswers` | ipcd/src/uds/stream.rs:718-757 | The same for messages, in terms of where the bytes end up |
| `StreamAnswers.ReadAnswers` | ipcd/src/uds/stream.rs:1341-1360 | The first bytes of the queue if there are any, end of file exactly once the peer is gone, and otherwise wait |
| `StreamAnswers.RecvMsgAnswers` | ipcd/src/uds/stream.rs:760-793 | The same for messages, with the socket's own non-blocking flag |
| `StreamAnswers.CloseAnswers` | ipcd/src/uds/stream.rs:1178-1229 | A connected peer is told of the shutdown and keeps its bytes, clients queued at a listener are closed, and every other socket is as it was |
| `StreamScheme.UdsStreamScheme.HandleUnnamedSocket` | ipcd/src/uds/stream.rs:467-482 | A fresh unbound socket under the next id |
| `StreamScheme.UdsStreamScheme.HandleBind` | ipcd/src/uds/stream.rs:533-565 | Binding an unbound socket makes it listen and gives it a token; the errors otherwise |
| `StreamScheme.UdsStreamScheme.HandleConnect` | ipcd/src/uds/stream.rs:591-645 | State and outcome are those of the connect step, phase by phase |
| `StreamScheme.UdsStreamScheme.HandleConnectSocketpair` | ipcd/src/uds/stream.rs:971-1010 | A new socket connects halfway to the base socket |
| `StreamScheme.UdsStreamScheme.EstablishClient` | ipcd/src/uds/stream.rs:264-287 | The client's half of an accept, marked accepted before the peer is compared |
| `StreamScheme.UdsStreamScheme.AcceptConnection` | ipcd/src/uds/stream.rs:872-897 | One client is accepted under the next id, is gone, or is refused |
| `StreamScheme.UdsStreamScheme.HandleAccept` | ipcd/src/uds/stream.rs:899-928 | Takes clients off the queue until one is accepted or gone, with the outcome of the accept step |
| `StreamScheme.UdsStreamScheme.HandleListen` | ipcd/src/uds/stream.rs:953-969 | Starts listening if need be and goes on past clients that are gone; ends with the outcome of the listen step |
| `StreamScheme.UdsStreamScheme.GetConnectedPeer` | ipcd/src/uds/stream.rs:447-465 | The live peer, or the error that says why there is none |
| `StreamScheme.UdsStreamScheme.HandleWrite` | ipcd/src/uds/stream.rs:1028-1063 | Bytes go to the peer, or are parked with the sender while the peer is still listening |
| `StreamScheme.UdsStreamScheme.HandleSendMsg` | ipcd/src/uds/stream.rs:718-757 | A non-empty payload is queued with the connected peer; an empty one changes nothing |
| `StreamScheme.UdsStreamScheme.HandleRead` | ipcd/src/uds/stream.rs:1341-1360 | State, outcome and buffer are those of the read step; bytes of the buffer beyond the data stay |
| `StreamScheme.UdsStreamScheme.HandleRecvMsg` | ipcd/src/uds/stream.rs:760-793 | State, outcome and payload are those of the receive step |
| `StreamScheme.UdsStreamScheme.CloseWaiting` | ipcd/src/uds/stream.rs:1188-1198 | Every waiting client that still exists becomes closed |
| `StreamScheme.UdsStreamScheme.OnClose` | ipcd/src/uds/stream.rs:1373-1387 | State after a close, by the kind of socket closed |
| `StreamScheme.NextSane` | ipcd/src/uds/stream.rs:436-446 | Every step keeps handles below the next id and no socket in its own queue |
| `Framing.FramingRoundTrip` | ipcd/src/uds/mod.rs:102-144 | For every payload, descriptor count and list of credentials, parsing the framed message returns the same payload and count |
| `Framing.MessageRoundTrip` | ipcd/src/uds/mod.rs:102-144 | For every payload and list of control messages, parsing the framed bytes gives the payload and the sum of the announced descriptors, or the first error among the control messages, up to fifteen stray bytes at the end |
| `Framing.ParsedIsFramed` | ipcd/src/uds/mod.rs:102-144 | Conversely, every stream the parser accepts is a framed message with a tail shorter than a header, and means what was framed |
| `Framing.TruncationNoticed` | ipcd/src/uds/mod.rs:304-341 | The filling written for a control message that did not fit is refused where it is at least a header long and passed over where it is shorter |
| `Framing.ParseAnswers` | ipcd/src/uds/mod.rs:102-144 | The answer read off the control messages: the payload and the sum of the counts in rights messages, modulo the word size, if all are rights with a count or credentials; otherwise EINVAL if the first bad one is rights, and EOPNOTSUPP if not |
| `Framing.FirstIsFramed` | ipcd/src/uds/mod.rs:56-76 | A control message the header parser accepts is byte for byte the one that was framed |
| `MsgWriting.FromStream` | ipcd/src/uds/mod.rs:102-144 | The cursor loop computes the parse of every stream, so it ends on every input |
| `MsgWriting.CountFds` | ipcd/src/uds/mod.rs:117-143 | The control-message loop adds up the descriptors modulo the word size or stops at the first error |
| `MsgWriting.MsgWriter.WriteName` | ipcd/src/uds/mod.rs:241-273 | The name's length and as much of it as fits; a missing name only skips the length field; a buffer without room counts as full |
| `MsgWriting.MsgWriter.WritePayload` | ipcd/src/uds/mod.rs:275-302 | The full length and the payload as far as the receiver has room, or a buffer that counts as full |
| `MsgWriting.MsgWriter.WriteCmsg` | ipcd/src/uds/mod.rs:304-341 | A control message goes in whole exactly when it fits; otherwise the rest of the buffer is filled with ones |
| `MsgWriting.MsgWriter.WriteRights` | ipcd/src/uds/mod.rs:343-349 | No message for no descriptors; otherwise one control message with the count |
| `MsgWriting.MsgWriter.WriteCredentials` | ipcd/src/uds/mod.rs:351-358 | One control message of twelve bytes for one credential |
| `MsgWriting.MsgWriter.WriteMessage` | ipcd/src/uds/mod.rs:275-358 | If there is room for payload, descriptors and credentials, the parser gives payload and count back from what was written; otherwise the whole buffer counts as written |
| `InitfsRoundTrip.ImageRoundTrip` | initfs/src/lib.rs:176-218 | The reader accepts a complete image if and only if its length is a 32-bit number, and then the root inode reads back as the very source tree: names, kinds, contents and link targets |
| `InitfsRoundTrip.BuildAndRead` | initfs/tools/src/lib.rs:464-564 | Building and then reading, for every tree and every limit: the builder succeeds exactly when directories, names and inodes are countable in 16 bits, the pages fit the limit and 32-bit offsets reach every inode; the image has exactly the stated length, is accepted exactly when that is a 32-bit number, and then reads back as that tree |
| `InitfsRoundTrip.OversizedIsBuilt` | initfs/tools/src/lib.rs:372-416 | A concrete input for which the builder succeeds with an image eight bytes longer than 4 GiB, which the reader does not accept |
| `InitfsBuilder.BuildInitfs` | initfs/tools/src/lib.rs:464-564 | For every limit, success is characterised exactly and gives a complete image of exactly the stated length, no longer than the limit |
| `InitfsBuilder.WriteBootstrap` | initfs/tools/src/lib.rs:510-522 | A page for the header and the bootstrap code behind it, exactly where the reader expects them |
| `InitfsBuilder.HeaderFinishes` | initfs/tools/src/lib.rs:535-556 | Writing the header on its own page completes the image and disturbs nothing stored |
| `InitfsImage.StoredFrame` | initfs/tools/src/lib.rs:150-160 | What is stored stays stored under every write below its range and every growth of image and inode table: allocated ranges are disjoint |
| `InitfsRoundTrip.StoredShows` | initfs/src/lib.rs:262-284 | Whatever is stored below an inode of the table is what the reader shows under that inode |
| `InitfsRoundTrip.ShownReads` | initfs/src/lib.rs:56-87 | What the reader shows is what reading the tree to any sufficient depth returns |
| `InitfsBuilder.ImageBuilder.BumpAlloc` | initfs/tools/src/lib.rs:150-160 | Returns the current offset and advances it by whole pages, exactly if that stays within the limit |
| `InitfsBuilder.ImageBuilder.AllocateAndWriteFile` | initfs/tools/src/lib.rs:166-208 | The file's bytes stand at the old offset, behind an unchanged image; the chunk loop cannot fail if the pages fit the limit and end below 4 GiB |
| `InitfsBuilder.ImageBuilder.AllocateAndWriteLink` | initfs/tools/src/lib.rs:210-228 | The link's target stands at the old offset, behind an unchanged image |
| `InitfsBuilder.ImageBuilder.AllocateAndWriteName` | initfs/tools/src/lib.rs:287-299 | The name stands at the old offset if it is shorter than 65536 bytes and fits |
| `InitfsBuilder.ImageBuilder.AddEntry` | initfs/tools/src/lib.rs:245-327 | Node, inode, name and record of one entry are in place, and only the record's eight bytes changed within the old image |
| `InitfsBuilder.ImageBuilder.FillTable` | initfs/tools/src/lib.rs:245-327 | All entries of a directory are stored, and everything before its table is unchanged |
| `InitfsBuilder.ImageBuilder.AllocateAndWriteDir` | initfs/tools/src/lib.rs:230-333 | The directory and all below it are stored behind an unchanged image, using exactly the pages and inodes the tree needs; it succeeds if there is room below the limit and below 4 GiB |
| `InitfsBuilder.ImageBuilder.AllocateContents` | initfs/tools/src/lib.rs:334-343 | The root's inode comes last and leads to the stored tree |
| `InitfsBuilder.ImageBuilder.AllocateInode` | initfs/tools/src/lib.rs:361-369 | The next inode number, if it is a 16-bit number, and the header stored under it |
| `InitfsBuilder.ImageBuilder.WriteInodeTable` | initfs/tools/src/lib.rs:372-416 | Every inode header stands in the table, which ends the image; succeeds exactly when the inodes are countable, the pages fit and every header starts below 4 GiB |
| `InitfsTypes.HeaderRoundTrip` | initfs/src/types.rs:58-66 | A header written at the start reads back field by field, with the magic bytes |
| `InitfsTypes.InodeRoundTrip` | initfs/src/types.rs:75-79 | An inode header reads back as written |
| `InitfsTypes.DirEntryRoundTrip` | initfs/src/types.rs:111-115 | A directory record reads back as written |
| `InitfsOpen.BuiltPathsOpen` | bootstrap/src/initfs.rs:130-192 | In an image built from a tree, every path of proper names other than dot and dot-dot opens the node it names in the tree, or fails with the very error the tree calls for: missing name, file or link in the middle, link at the end |
| `InitfsOpen.WalkResolves` | bootstrap/src/initfs.rs:138-180 | For every component list the walk ends at an inode that shows what the followed names lead to, or with the same error |
| `InitfsOpen.FollowedIffPlain` | bootstrap/src/initfs.rs:140-149 | The walk follows the components as given if and only if none of them is dot or dot-dot |
| `InitfsOpen.DotDotDropsLast` | bootstrap/src/initfs.rs:140-149 | A dot-dot component does not undo the name before it: it removes the path's last component |
| `InitfsOpen.DotDotRightIff` | bootstrap/src/initfs.rs:140-149 | One dot-dot between plain names leads where undoing the name before it would, if and only if it stands alone or there are names on both sides and every name after it repeats the one before it |
| `InitfsOpen.ComponentsOfJoin` | bootstrap/src/initfs.rs:130-136 | Joining proper names with slashes and splitting the path again gives the names back |
| `InitfsOpen.Iter.Next` | bootstrap/src/initfs.rs:78-89 | The next entry of the directory, its end, or an error |
| `InitfsOpen.InitFsScheme.Lookup` | bootstrap/src/initfs.rs:167-180 | The entry loop finds the first entry with the name, or the error |
| `InitfsOpen.InitFsScheme.Follow` | bootstrap/src/initfs.rs:138-181 | The component loop, which consumes from both ends, computes the walk |
| `InitfsOpen.InitFsScheme.Openat` | bootstrap/src/initfs.rs:116-208 | Only the scheme root may be opened from; the outcome is that of the walk, and only success adds a handle, under a new id |
| `Scheduling.StepTerminatesIff` | init/src/scheduler.rs:57-81 | The rotating loop over distinct units ends if and only if no set of queued units exists each of which requires another one of the set |
| `Scheduling.StepRunsAll` | init/src/scheduler.rs:57-81 | Once the queue is empty each queued unit has started exactly once, and after every queued unit it requires other than itself |
| `Scheduling.KnotNeverEnds` | init/src/scheduler.rs:57-81 | The members of a cyclic set of requirements never leave the queue |
| `Scheduling.MutualNeverDrains` | init/src/scheduler.rs:57-81 | Two queued units that require each other, in either order: the loop never ends |
| `Scheduling.StartableMembers` | init/src/scheduler.rs:44-54 | The units queued are exactly those loaded whose conditions are met, each once |
| `Scheduling.StartableOrder` | init/src/scheduler.rs:44-54 | They are queued in the order in which they were loaded |
| `Scheduling.Scheduler.ScheduleStart` | init/src/scheduler.rs:38-55 | Queued afterwards is exactly what was queued before and each newly loaded unit whose conditions are met, in order, never one twice |
| `Scheduling.Scheduler.MustWait` | init/src/scheduler.rs:67-74 | Decides whether anything the unit requires is still queued |
| `Scheduling.Scheduler.Step` | init/src/scheduler.rs:57-81 | For untangled requirements the queue is emptied, each unit started once and in dependency order |
| `Units.LoadTerminatesIff` | init/src/unit.rs:77-95 | The loading loop ends if and only if some finite set of ids holds the root and, with every loadable unit not loaded before, all that unit requires |
| `UnitFiles.EndlessNeverTerminates` | init/src/unit.rs:31-95 | With one template file base@.ext in one directory whose only requirement is base@$INSTANCE followed by a non-empty suffix, loading any instance of it never ends |
| `UnitFiles.UnparameterisedTerminates` | init/src/unit.rs:31-95 | For any finite directories in which no template mentions $INSTANCE in what it requires, in particular without templates, loading ends from every store and stack |
| `UnitFiles.InstanceName` | init/src/unit.rs:32-41 | base@instance.ext names the template file base@.ext and the instance, whatever dots and at-signs the instance contains |
| `UnitFiles.NextInstance` | init/src/unit.rs:153-172 | Substituting the instance into such a requirement gives the id of the longer instance |
| `UnitFiles.RequiresNamed` | init/src/unit.rs:31-75 | Without instances passed on, everything a unit requires is written in some file or is the runtime target |
| `UnitFiles.PlainName` | init/src/unit.rs:32-41 | An id without an at sign is its own file name; with one but no dot behind it, it names nothing |
| `UnitFiles.FillStep` | init/src/unit.rs:153-172 | From the left, a placeholder is replaced by the instance and any other character stays |
| `UnitFiles.LookupLast` | init/src/unit.rs:42-49 | The file of the last directory that has one by that name is used, and none if none has |
| `UnitFiles.UnitIsRead` | init/src/unit.rs:31-75 | A unit requires, by position, what its file lists with the instance put in, then the runtime target if asked for; its conditions are met exactly if each list present names this machine |
| `UnitFiles.UnitIsMissing` | init/src/unit.rs:31-75 | A unit is not loadable if its id names nothing, no directory has the file, or the file used does not parse |
| `UnitFiles.UnitStore.FindFile` | init/src/unit.rs:43-49 | The search from the last directory to the first finds the file of highest precedence |
| `Units.LoadResult` | init/src/unit.rs:77-95 | A finished load has loaded exactly the loadable units reached from the root through units not loaded before, each once, touching nothing else, and everything they require is in the store or not loadable |
| `UnitFiles.UnitStore.LoadSingleUnit` | init/src/unit.rs:31-75 | The id is split into file name and instance, the file is looked up, the instance substituted, conditions are evaluated and, with default dependencies and a runtime target, that target is required too; the unit enters the store, or None if the name, the search or the file fails |
| `UnitFiles.UnitStore.LoadUnits` | init/src/unit.rs:77-95 | Store and list of loaded units are those of a finished load, whenever the loop ends |
| `PtyConservation.RawModeConserves` | ptyd/src/pty.rs:43-224 | For every interleaving of input, ticks, slave reads and writes and changes of settings that keep raw mode, bytes read, then queued packets, then pending bytes equal the content at the start followed by the translated and filtered input |
| `PtyConservation.UpdateKeeps` | ptyd/src/pty.rs:247-310 | The packetiser moves bytes from the line to the packets and neither adds, drops nor reorders any |
| `PtyConservation.ReadKeeps` | ptyd/src/subterm.rs:46-75 | A slave read delivers at most the room asked for, and what it delivers followed by what is left is what was there |
| `PtyConservation.RawBytes` | ptyd/src/pty.rs:67-224 | Feeding a buffer in raw mode appends exactly the bytes that INLCR, IGNCR and ICRNL make of it, without those that signals, flow control and literal-next take away |
| `PtyConservation.RawReadWaitsIff` | ptyd/src/pty.rs:247-310 | Read off the packetiser's cases: when no packet is ready, a raw read waits exactly while fewer than VMIN bytes are pending and the inter-byte timer, if any, has not run out |
| `PtyLines.ErasesUndo` | ptyd/src/pty.rs:84-150 | In canonical mode any number of ordinary bytes followed by as many erase characters leave line, packets, signals and settings as they were |
| `PtyLines.LineEnds` | ptyd/src/pty.rs:67-150 | In canonical mode any ordinary bytes followed by Enter, as a newline or a carriage return that ICRNL turns into one, add exactly one packet: what was pending, those bytes, a newline |
| `PtyLines.LinesEnd` | ptyd/src/pty.rs:67-150 | Any number of lines typed arrive as that many packets, in order |
| `PtyLines.LineIsRead` | ptyd/src/subterm.rs:46-75 | On an empty pty the slave then reads exactly the line typed and a newline |
| `PtyLines.EofEnds` | ptyd/src/pty.rs:97-102 | The end-of-file character hands over the line as it is, even an empty one |
| `PtyLines.EolEnds` | ptyd/src/pty.rs:104-126 | The end-of-line characters hand over the line and themselves |
| `PtyLines.IgnoredKeeps` | ptyd/src/pty.rs:75-152 | Kill, word erase, reprint and an ignored carriage return change neither line, packets nor output |
| `PtyLines.SignalSent` | ptyd/src/pty.rs:154-187 | In either mode a signal character is sent to the foreground group, if any, and changes nothing else |
| `PtyLines.EchoesOne` | ptyd/src/pty.rs:211-220 | An ordinary byte is echoed as a packet of its own exactly if ECHO is set |
| `PtyLines.EnterEchoes` | ptyd/src/pty.rs:84-95 | Enter is echoed, as output has newlines, exactly if ECHO or ECHONL is set |
| `PtyLines.EraseEchoes` | ptyd/src/pty.rs:128-136 | Erasing a character blanks it out on the screen exactly if ECHOE is set |
| `PtyLines.EraseStopsAtStart` | ptyd/src/pty.rs:128-136 | Erasing an empty line changes nothing at all |
| `PtyLines.TimerRuns` | ptyd/src/pty.rs:247-318 | A byte typed restarts the inter-byte timer: a later read waits exactly until VTIME ticks after it, the sum wrapping at 64 bits |
| `PtyLines.TickReleases` | ptyd/src/pty.rs:312-318 | A tick without a read makes a packet of what is pending exactly when the timer started by the last byte has run out |
| `PtyLines.ExpandExact` | ptyd/src/pty.rs:226-245 | With OPOST and ONLCR each newline gets a carriage return before it and nothing else changes; without them nothing changes |
| `PtyLines.OutputAdds` | ptyd/src/pty.rs:226-245 | Output adds one packet: a zero byte and the bytes with newlines expanded |
| `PtyLines.WriteAnswers` | ptyd/src/subterm.rs:77-91 | A slave's write is taken whole exactly when fewer than 64 packets wait for the master, and otherwise changes nothing |
| `PtyDevice.Device.Input` | ptyd/src/pty.rs:43-224 | The byte loop followed by the packetiser leaves the pty in the state the model gives |
| `PtyDevice.Device.Feed` | ptyd/src/pty.rs:67-222 | One byte goes through translation, line editing, signals and filtering as in the model |
| `PtyDevice.Device.EditLine` | ptyd/src/pty.rs:84-150 | Canonical mode's characters, in the same order, with their echo |
| `PtyDevice.Device.Update` | ptyd/src/pty.rs:247-310 | The packetiser's cases for VMIN and VTIME, with the wrapping timer |
| `PtyDevice.Device.Timeout` | ptyd/src/pty.rs:312-318 | A new tick count triggers the packetiser, the same count does nothing |
| `PtyDevice.Device.Read` | ptyd/src/subterm.rs:46-75 | The slave gets the first bytes of the first packet in its buffer, the rest goes back to the front, or the read would block |
| `PtyDevice.Device.Write` | ptyd/src/subterm.rs:77-91 | The slave's bytes go out as one packet, or the write would block while 64 packets wait |
| `PtyDevice.Device.Output` | ptyd/src/pty.rs:226-245 | One packet with a leading zero byte and newlines expanded as the output flags ask |
| `Readiness.ExactlyOneAnswer` | scheme-utils/src/readiness_based.rs:51-115 | For every scheme behaviour and every sequence of batches and polls in which ids are not reused while pending, answers to an id plus its pending operation equal the requests received with it; so a request whose id came once is pending and unanswered or answered once and not pending |
| `Readiness.HandleBalancesIff` | scheme-utils/src/readiness_based.rs:51-115 | Handling one request keeps that balance if and only if it does not block under an id that is pending already |
| `Readiness.ReusedIdLosesAnswer` | scheme-utils/src/readiness_based.rs:100-107 | A computed instance for `HandleBalancesIff`: two blocking calls with the same id leave one pending operation and no answer |
| `Readiness.PollAllFindsAll` | scheme-utils/src/readiness_based.rs:160-177 | In every run polling all pending requests, in any order, asks each once and never meets the missing-id error |
| `Readiness.PollBalances` | scheme-utils/src/readiness_based.rs:136-159 | Polling a pending request keeps the balance and leaves every other pending request |
| `Readiness.PollEachOkIff` | scheme-utils/src/readiness_based.rs:160-172 | Polling a queue of distinct ids gives up at the first one that is not pending, having asked once for each before it, and succeeds exactly if there is none |
| `ReadinessAnswers.RightAnswers` | scheme-utils/src/readiness_based.rs:51-178 | In every run in which no pending id is reused, each answer is the scheme's reply to the last question asked for that request, cancelled exactly when withdrawn while pending, unsupported exactly when the call is; to wait is answered only to requests that do not wait, and whatever is pending was last told to wait |
| `Readiness.ReadinessBased.HandleRequest` | scheme-utils/src/readiness_based.rs:52-115 | States, answers and questions asked are those of the model's step for each kind of request |
| `Readiness.ReadinessBased.ReadAndProcessRequests` | scheme-utils/src/readiness_based.rs:34-115 | A batch is handled request by request |
| `Readiness.ReadinessBased.PollRequestInner` | scheme-utils/src/readiness_based.rs:136-159 | A pending request is asked again and answered or kept; a missing one is an error |
| `Readiness.ReadinessBased.PollReadyRequests` | scheme-utils/src/readiness_based.rs:160-172 | The ready queue is emptied, in order, giving up at the first missing id |
| `Readiness.ReadinessBased.PollAllRequests` | scheme-utils/src/readiness_based.rs:173-178 | Every pending request is polled exactly once, without error, and the balance is kept |

## Left out

Process manager:

- Kernel file descriptors, event queues and attribute writes: assumed to succeed.  Shared pointers are pids.
- The signal page, pending bits, real-time queues and sigdeq: a signal's effect on statuses, records and wake-ups is modelled, its delivery is not; whether a conditional stop signal has its default action is an argument.
- Signals to whole groups or to all processes: a sequence of single sends.  Signal numbers are those of libredox, which is not part of this repository.
- Credentials beyond the real and effective user id that decide who may signal whom, priorities, names, `ps` text, metadata reads.
- ProcWaiters.NoLostWaiter: is about calls that asked for stops and continues; the others are the subject of `ListedIff`, which says where they are but not what news is at hand.  News for groups is covered under hypotheses about the run that `OwnGroupsAttendedIff` and `SearchSucceedsIff` show to be needed.
- ProcManager.ProcScheme.SendSig: the errors of delivering the signal itself (ESRCH from the signal page, EAGAIN from a full real-time queue) are not returned, since delivery is not modelled.
- ProcTree.ParentsFormTree: assumes that init neither exits nor gives up root, that nobody forks an exited process, and that walks over hash maps visit every entry; the results of `ProcTerminations`, `ProcZombies` and `ProcOrphans` assume the same.
- The replies' payload layout; the answer to a suspended call is the pid and the status word.

Unix stream sockets:

- The path registry, tokens as random numbers, socket options, user credentials, descriptor passing, datagram sockets and event notification.  A token is a flag that says whether a socket can be named in connect.
- Sharing of socket objects between tables: sockets are values in the table of handles.
- StreamScheme.UdsStreamScheme.HandleRecvMsg: assumes a receive buffer large enough for header, payload and control messages; with a smaller one the source has already taken the bytes off the queue.
- StreamScheme.UdsStreamScheme.HandleSendMsg: takes the parsed payload; parsing is modelled separately, the refusal of an empty stream comes before it, and the non-blocking flag of the call, which only selects between two error codes, is ignored.
- StreamScheme.UdsStreamScheme.HandleBind: the refusal of a path that is already in use is not modelled, since paths are not.

Message framing:

- MsgWriting.MsgWriter.WriteName: the function that renders the name is outside the repository, and so is its error; the name arrives rendered and is cut to the room there is.
- Arithmetic overflow traps: sums wrap as in a build without overflow checks.

initfs:

- Reading host directories, ELF entry extraction (the entry address is an argument), temporary files and renaming.
- InitfsBuilder.BuildInitfs: 32-bit offset overflow counts as failure, as in a build with overflow checks.
- InitfsBuilder.ImageBuilder.AllocateAndWriteFile: each chunk is read whole; a short read of the source file is not modelled.
- Listing, stat, memory mapping and file reads through the scheme; UTF-8 validity of paths.

init, pty and readiness loop:

- UnitFiles.UnitStore.LoadSingleUnit: parsing is not modelled, nor is the reading of legacy scripts: a file either parses, whatever the instance, or does not.  Names with directory separators are looked up as they are; error messages are dropped.
- Running a unit is appending it to a list.
- UnitFiles.UnitStore.LoadUnits: requires that the loop ends (`LoadTerminatesIff`).
- Scheduling.Scheduler.Step: requires untangled units, since otherwise the loop does not end (`StepTerminatesIff`).
- Locking, window size and byte access to the terminal settings; control characters are named fields, and the flow-control flag is the one the source tests, whichever word it lives in.
- Readiness.ReadinessBased.ReadAndProcessRequests: the batch is an argument; read errors end a call before anything is processed.
