# Verification of the job hypervisor

The hypervisor runs jobs as processes that can be checkpointed, suspended, woken, killed and
retried, and it survives its own crashes because every job has a row in a database. One
goroutine per job (the *runner*) reads a command queue and drives the job through six states;
the hypervisor around it keeps a map of runners, evicts them, and re-creates them from rows
when a poller finds them due or when it recovers after a crash. This project models that
machinery together with three smaller pieces of the same program, and proves what it promises:

- **One runner** (`Machine`, `RunnerSpec`, `RunnerLaws`, `RowLaws`, `RunnerTheorems`,
  `JobRunner`). `RunnerSpec` gives each of the twelve commands as a transition function with one
  normal form: a row write, a runtime call, a second row write, the reply. The class
  `JobRunner.JobRunner` has the fields of the Go struct and changes them in place; every handler
  and the command loop are proved to compute exactly those functions. The laws are proved for
  every command, then for every run.
- **The hypervisor** (`Slots`, `SlotLaws`, `SlotTheorems`, `BudgetLaws`, `Effects`, `System`,
  `EveryRun`, `SystemTheorems`, `Polling`, `Hypervisor`, `HypervisorLaws`). A *slot* is what exists of one
  job: its row, images and live processes, the runner the hypervisor may hold for it, and
  runners at work that another was published over. The system is all slots, a clock, the rows
  recovery has read and still has to go through, and the spawns that have inserted their row and
  not gone on; the servers and the poller are up before recovery reads its rows. The retry policy
  is the one each launch finds with the definition. A step may be cut short between any two of
  its parts, and the process may crash at any time. The class `Hypervisor.Hypervisor` holds the
  maps and its methods, the loops over rows included, are proved to take those steps;
  `HypervisorLaws` shows the loops to be runs of the system. `Effects` says what every request,
  retry, poll and recovery achieves: in the row, the processes, the runner and the reply.
- **Three data cores**: keyset pagination (`Listing`), the definition registry with its
  `@latest` index (`Registry`), and the Firecracker string code (`EnvFile`, `TapName`).

`Wrappers`, `Text`, `Jobs` and `Rows` hold what these share: options, Go's string order and
decimal rendering, the job record, the row and its UPDATE statements.

The runtime and its processes are contracts: `Start` never succeeds while a process of the same
execution id is alive, `Restore` replaces any such process, and `Checkpoint` without keeping the
process running leaves none alive. Clock readings, the answers of the runtime and of lookups,
and whether a row write succeeds are parameters. Persist errors are only logged by the program,
so statements about rows take "writes succeed" as an explicit hypothesis (`RowLaws.Reliable`);
statements about one runner's memory do not need it.

A job is *pursued* when somebody will act on it without being asked: it is settled, or its runner
waits for its process or has a retry under way, or its row is scheduled and the poller will not
pass it over. It is *reachable* when a runner at work is in the map, where requests find it. Both
are shown to mean what they say, and each to be lost by exactly the steps listed below.

## Where the program differs from what it says

- A held lock makes a checkpoint fail (`hypervisor/job_runner.go:383-388`); it does not block,
  as the comment at `hypervisor/hypervisor.go:413` says. `CapturesExactlyWhenAdmitted`.
- Checkpoint tokens are known to one runner only (`hypervisor/job_runner.go:95`). A job woken in
  a fresh runner accepts an old token again: `TokensDoNotSurviveAWake`.
- A job that crashed while running, without a checkpoint and with a retry left, is handed to
  `restartPendingJob`, whose runner loads the state `running` and refuses to start
  (`hypervisor/hypervisor.go:877-883`, `hypervisor/job_runner.go:219`). Its row stays `running`
  and nobody acts on it: `RestartIsRefused`, `RecoveryServesExactlyTheRest`.
- A failed restore in `handleRetry` writes no terminal row (`hypervisor/job_runner.go:706-716`).
  After an immediate retry the row stays `running` and nobody pursues the job any more:
  `PursuitIsLostExactlyWhen`. After a delayed retry the row stays `pending_retry` and due, so
  the poller tries again without end and the retry count passes the policy's maximum:
  `BudgetIsKeptExactlyWhen`, `FailingRestoreOverrunsBudget`.
- A delayed retry is counted on the row (`hypervisor/job_runner.go:685`) before the row says that
  it runs (`723`, `747`, `759`). A death of the hypervisor in between leaves the row due with the
  retry counted, and the poll after the restart counts it again: `CutRetryIsCountedTwice`.
- `CheckpointJob` returns before `maybeEvictJob` when its context expires
  (`hypervisor/hypervisor.go:424-427`; the runtime API gives it 30 seconds,
  `hypervisor/runtime_api.go:50`), although the suspending checkpoint goes on and succeeds. The
  sleeping runner stays in the map, the poller passes the job over (`1068-1074`), and the job
  sleeps past its resume time until it is killed or the request is repeated:
  `AbandonedSuspensionSleepsOn`, `UnpursuedUntilAsked`.
- Repeating a used checkpoint token while an immediate retry is pending replies with a failed
  job, which makes `CheckpointJob` evict the live runner (`hypervisor/hypervisor.go:429-430`,
  `678-686`). The retry still runs, but no request finds the job: `ReplayWhileRetryingLosesReach`.
- Recovery assumes that no job has a runner yet, but `New` starts both servers and the poller
  (`hypervisor/hypervisor.go:108-112`) before `RecoverState` is called (`main.go:35-44`), and
  `recoverJobs` (`hypervisor/hypervisor.go:808-846`), unlike the poller (`1068-1074`), never
  looks at `h.runners`. A job spawned or polled before the rows are read, at a first boot too, is
  among them with a runner at work. It may be marked failed while it runs, and its exit then
  settles the settled row again (`MarkedFailedWhileRunning`); lose its place in the map to a
  restart that is refused (`RestartedWhileRunning`); or be restored beside its runner
  (`WokenWhileRunning`). A turn of recovery by the job's current row keeps the invariant, the
  reach and the launch rule if and only if no runner is at work or there is nothing to do:
  `RecoveryIsSafeExactlyWhen`.
- A spawn inserts its row as `pending` before its runner is published and started
  (`hypervisor/hypervisor.go:303-335`). A recovery that reads the row meanwhile starts the job
  too. The spawn's own start is then refused by the runtime and writes failed over the running
  job: `StartedTwice`, `RecoveryTouchesSpawn`. So a look at `h.runners` is not enough; together
  with one at the spawns under way it makes a turn safe: `RecoveryTurnIsSafeExactlyWhen`,
  `LookingFirstIsSafe`.
- All rows are read before the first turn. A job whose runner is at work at the reading may have
  settled by its turn, and is then marked failed or launched again (`MarkedFailedAfterCompletion`,
  `OldRowSparesSettledExactlyWhen`), or it may have fallen asleep, and is woken before its time
  (`WokenEarly`, `OldRowSparesSleeperExactlyWhen`). If at no reading a runner is at work on the
  job or a spawn of it under way, recovery upsets it in no run, and every launch is alone:
  `QuietReadingsAreCalm`, `QuietLaunchesAreAlone`. Whatever recovery upsets, no job ever has two
  processes and no acknowledged checkpoint is lost: `AtMostOneProcess`,
  `AcknowledgedCheckpointsSurvive`.
- A request for the result that a runner has taken before it suspends and is evicted is never
  answered, not even when the job settles in its next runner
  (`hypervisor/job_runner.go:645-664`, `912-940`): `SleepersWaitersStayUnanswered`. A kill that
  was queued behind the checkpoint still reaches the evicted runner and settles the job:
  `QueuedKillSettlesSleeper`.
- A definition may be registered under the version `@latest`; it is then found under that name
  only if it is also the greatest version: `RegisteredIsFoundUnless`.
- `findUniqueTAPName` reports 99 attempts after the base name; when the base already looks like a
  suffixed name, 99 devices in all are enough to exhaust it: `SearchFailsExactlyWhenCrowded`.

## Model

| member | source | states |
|---|---|---|
| JobRunner.JobRunner.constructor | hypervisor/job_runner.go:115-139 | a new runner has no process, locks, tokens or waiters, and the job, policy and checkpoint it was given |
| JobRunner.JobRunner.HandleStart | hypervisor/job_runner.go:217-263 | new fields, row, processes and reply are those of the start transition: only a pending job starts, a failed start settles it |
| JobRunner.JobRunner.SettleExit | hypervisor/job_runner.go:288-304 | how a process exit settles the job: wait error, non-zero code, or success that keeps an earlier result |
| JobRunner.JobRunner.ScheduleRetry | hypervisor/job_runner.go:314-337 | a delayed retry becomes pending_retry with its time on the row; an immediate one sets retryPending and sends itself |
| JobRunner.JobRunner.HandleProcessExited | hypervisor/job_runner.go:277-349 | exits of settled or suspended jobs are ignored; others settle, clean up, then retry or write the final row |
| JobRunner.JobRunner.NotifyCollapsed | hypervisor/job_runner.go:421-427 | the loop answers each collapsed request once and empties the list |
| JobRunner.JobRunner.HandleCheckpoint | hypervisor/job_runner.go:352-457 | the order of refusals, the replay of a used token, and who is answered |
| JobRunner.JobRunner.Capture | hypervisor/job_runner.go:398-457 | the admitted checkpoint: count, token, state, resume time and row on success; all put back but the time stamp on failure |
| JobRunner.JobRunner.HandleWake | hypervisor/job_runner.go:460-510 | the row says running before the restore; a failed restore settles the job and the row |
| JobRunner.JobRunner.HandleKill | hypervisor/job_runner.go:513-552 | running and suspended jobs can be killed; a failed kill leaves only the operation mark |
| JobRunner.JobRunner.HandleExit | hypervisor/job_runner.go:555-601 | a running job settles with the given code and output, and the row gets the same |
| JobRunner.JobRunner.HandleTakeLock | hypervisor/job_runner.go:611-626 | a fresh numbered lock becomes active unless the job has settled |
| JobRunner.JobRunner.HandleReleaseLock | hypervisor/job_runner.go:629-642 | exactly an active lock can be released |
| JobRunner.JobRunner.HandleWaitForResult | hypervisor/job_runner.go:645-664 | a settled job answers at once, otherwise the request becomes a waiter |
| JobRunner.JobRunner.HandleRetry | hypervisor/job_runner.go:667-774 | retry from the checkpoint if there is one, otherwise from scratch, with the row writes of each path |
| JobRunner.JobRunner.Relaunch | hypervisor/job_runner.go:689-736 | restore in a retry: no terminal row write when it fails |
| JobRunner.JobRunner.Restart | hypervisor/job_runner.go:737-769 | start in a retry: a terminal row write when it fails, resume time untouched |
| JobRunner.JobRunner.Dispatch | hypervisor/job_runner.go:188-215 | each command type reaches its handler; together they are the transition function of one command |
| JobRunner.JobRunner.HandleCommand | hypervisor/job_runner.go:188-215 | one command with its replies is the transition of the whole machine: runner, row, processes, history |
| JobRunner.JobRunner.Receive | hypervisor/job_runner.go:266-274 | a command leaves the queue, and the goroutine that sent an internal one has ended |
| JobRunner.JobRunner.NotifyWaiters | hypervisor/job_runner.go:785-790 | the loop releases every waiter once and forgets them |
| JobRunner.JobRunner.DrainRemainingCommands | hypervisor/job_runner.go:174-185 | every command left in the queue is answered with a stopped error and nothing else changes |
| JobRunner.JobRunner.TakeTurn | hypervisor/job_runner.go:146-163 | one turn of the loop, and exactly when it returns |
| JobRunner.JobRunner.CommandLoop | hypervisor/job_runner.go:142-171 | over any sequence of events the loop leaves the state RunLoop gives, so every theorem on RunLoop holds of it |
| RunnerLaws.CommandKeepsBooks | hypervisor/job_runner.go:188-215 | every command keeps the token, lock, final-write and reply rules |
| RunnerLaws.CommandKeepsAttempt | hypervisor/job_runner.go:188-215 | every command keeps the clean-attempt and retry-budget rules, whatever the runtime and the database answer |
| RunnerLaws.StepLawful | hypervisor/job_runner.go:142-171 | one turn of a lawful loop is lawful |
| RunnerLaws.EntryLawful | hypervisor/job_runner.go:217-263 | a fresh runner is lawful after its first command, be it start, wake or retry |
| RunnerTheorems.LifeIsLawful | hypervisor/job_runner.go:142-171 | every run of every runner, from its entry command on, is lawful |
| RunnerTheorems.RetriesAndFailuresAreBounded | hypervisor/job_runner.go:312-340 | a started or woken runner keeps its retry count within max(initial, maximum) and handles at most max(0, maximum - initial) + 1 failures |
| RunnerTheorems.FailuresAreCounted | hypervisor/job_runner.go:277-349 | the failures counted are exactly the failed ends of a job's process, by wait error or code |
| RunnerTheorems.CheckpointsAreCountedOnce | hypervisor/job_runner.go:352-457 | the checkpoint count has grown by the number of distinct accepted tokens, with exactly one runtime image for each |
| RunnerTheorems.ReplayChangesNothing | hypervisor/job_runner.go:361-367 | replaying an accepted token is answered with success and changes nothing, also while locks are held |
| RunnerTheorems.CapturesExactlyWhenAdmitted | hypervisor/job_runner.go:352-400 | the runtime is asked for a checkpoint if and only if a running job gets a fresh token with no lock active |
| RunnerTheorems.LocksAreConserved | hypervisor/job_runner.go:611-642 | lock ids are never reissued, released ids never active again, active locks are taken less released |
| RunnerTheorems.RunningIsClean | hypervisor/job_runner.go:217-263 | between commands no checkpoint is in progress and none collapsed; a running job has its process, one waiter on it, and no leftovers |
| RunnerTheorems.TokensDoNotSurviveAWake | hypervisor/job_runner.go:131 | the job woken in a fresh runner has its own old token captured a second time |
| RunnerTheorems.StoppedMeansFrozen | hypervisor/job_runner.go:174-185 | after the loop has ended nothing changes the job, the row or the processes |
| RunnerTheorems.OneFinalWrite | hypervisor/job_runner.go:969-1001 | at most one terminal row write in a runner's life, no row write after it, and only when the loop has ended |
| RunnerTheorems.SettlingIsCounted | hypervisor/job_runner.go:969-1001 | what the history counts as a final write is exactly what settles the row |
| RunnerTheorems.SettledRowIsFinal | hypervisor/job_runner.go:146-185 | once the row has settled in a run with successful writes the loop has ended, and nothing that comes after changes it |
| RunnerTheorems.ExitIsCurrent | hypervisor/job_runner.go:266-285 | a process exit taken from the queue is that of the current process, and no other is under way |
| RunnerTheorems.EveryRequestIsAnswered | hypervisor/job_runner.go:142-185 | requests taken are those answered plus the waiters, and all are answered when the loop ends settled |
| RunnerTheorems.WaitIsAnsweredAtOnceExactlyWhen | hypervisor/job_runner.go:645-664 | a request for the result is answered at once if and only if the job has completed or failed; any other becomes a waiter |
| RunnerTheorems.WaitLastsUntilTheEnd | hypervisor/job_runner.go:645-664 | over any run a waiter is answered if and only if the loop has come to its end, once, and shown the job as it ended: settled, or waiting for the poller to retry it |
| RunnerTheorems.RowRefinesRunner | hypervisor/job_runner.go:969-1056 | from the row a runner is loaded from, through its entry command and any run with successful writes and no failed restore in a retry, the row agrees with memory after every command, the retry count at its column's 32-bit width |
| RunnerTheorems.SettledRowReadsBack | hypervisor/hypervisor.go:728-784 | with a column that keeps output text as it is, a settled row reads back as the job's result if and only if the exit code fits 32 bits and the output is not empty text |
| RunnerTheorems.LoadForgetsExactly | hypervisor/hypervisor.go:728-784 | two rows load as the same progress of a job, its times, counts, state, error and result, if and only if they agree in those columns, in the result as far as there is a code and an output that is not empty |
| RowLaws.WriteRuleIsDurable | hypervisor/job_runner.go:410-457 | every crash point of a rule-abiding command leaves a sound world: the row names the newest recorded image, no acknowledged one is newer |
| RowLaws.CommandSafe | hypervisor/job_runner.go:188-215 | every command of a live runner writes by that rule, and leaves row and memory in step except after a failed restore in an immediate retry |
| SlotLaws.CommandRefinesRow | hypervisor/job_runner.go:667-716 | after a command row and memory agree if and only if it was not that failed restore |
| SlotLaws.PlansFit | hypervisor/hypervisor.go:854-931 | what recovery and the poller load from a row fits the entry command they send |
| SlotLaws.RestartIsRefused | hypervisor/hypervisor.go:890-931 | a row that says running cannot be restarted: the runner refuses and changes nothing |
| SlotLaws.PollFindsNoWorkingRunner | hypervisor/hypervisor.go:1068-1074 | when the poller acts on a due row without a runner in the map, no runner works on it: at most an evicted one that sleeps |
| SlotLaws.ActionKeepsSlot | hypervisor/hypervisor.go:808-1265 | every action on a job, complete or cut short at any point, keeps the slot invariant if and only if it is not a recovery that marks failed, or restores, a job whose runner is at work |
| SlotLaws.RecoverKeepsSlotExactlyWhen | hypervisor/hypervisor.go:808-944 | so for recovery alone: the invariant is kept exactly when there is no runner at work, or the plan neither marks the job failed nor wakes it |
| SlotLaws.BeginKeepsSlot | hypervisor/hypervisor.go:322-335 | the rest of a spawn, complete or cut short, keeps the invariant of a job whose row is as it was inserted |
| SlotLaws.BeginOverRunner | hypervisor/hypervisor.go:322-335 | over a runner at work it never does: the row is settled under that runner and it leaves the map, or, if its process has died and the start succeeds, two runners are at work |
| SlotTheorems.SettledStaysSettled | hypervisor/hypervisor.go:808-849 | no step writes a settled row or launches its job again |
| SlotTheorems.WaitsForItsTime | hypervisor/hypervisor.go:1052-1093 | before its time a sleeping job is left alone by every action, complete or cut short |
| SlotTheorems.RestsUntilItsTime | hypervisor/hypervisor.go:1052-1093 | so is one that recovery has marked failed under its sleeping runner: what it takes is that nobody is at work on it, not the invariant |
| SlotTheorems.PursuedMeansSomebodyActs | hypervisor/hypervisor.go:1052-1093 | a pursued job not yet settled has its next step enabled without any request: the exit of its process, its pending retry, or from its resume time on a poll, after the eviction of an ended runner |
| SlotTheorems.UnpursuedIsStuck | hypervisor/hypervisor.go:1068-1074 | conversely whatever happens unasked to a job that is not pursued writes nothing to its row, launches nothing, and leaves it so |
| SlotTheorems.PursuitIsLostExactlyWhen | hypervisor/hypervisor.go:415-433 | a complete step loses pursuit if and only if it is an immediate retry that fails to restore or a suspending checkpoint that succeeds after its caller has gone |
| SlotTheorems.ReachIsLostExactlyWhen | hypervisor/hypervisor.go:678-931 | a complete step takes a runner at work out of the map if and only if it replays a used token while an immediate retry is pending, or is a recovery that launches over the runner |
| SlotTheorems.ServiceIsLostExactlyWhen | hypervisor/hypervisor.go:678-931 | a job pursued and reachable stays so over a complete step if and only if the step is none of those four |
| SlotTheorems.AbandonedSuspensionSleepsOn | hypervisor/hypervisor.go:424-427 | any admitted suspending checkpoint that outlives its caller leaves a scheduled row no poll is ever enabled for, until the request is repeated |
| SlotTheorems.LaunchFindsNobodyAtWork | hypervisor/hypervisor.go:808-1265 | a launch, complete or cut short, is the pending retry of the job's own runner or finds no runner at work, leaves one process, and replaces a live one only by a restore of a job not suspended: for every step if and only if it is not a recovery that restores a job whose runner is at work |
| SlotTheorems.ReplayWhileRetryingLosesReach | hypervisor/hypervisor.go:415-433 | from any running job with a used token and an immediate retry left, a failing exit and then a replay of the token leave a runner whose retry is enabled but which no request finds |
| SlotTheorems.RecoveryServesExactlyTheRest | hypervisor/hypervisor.go:808-931 | after recovery a job is pursued if and only if it was, or it was interrupted and neither does a checkpoint lookup fail nor is a retry left without a checkpoint; reach is lost exactly by launching over a runner at work; a stranded job is left as it was |
| SlotTheorems.MarkedFailedWhileRunning | hypervisor/hypervisor.go:869-886 | without a checkpoint and a retry left, a running job met by recovery is marked failed, its runner works on, and its successful exit writes completed over the settled row |
| SlotTheorems.RestartedWhileRunning | hypervisor/hypervisor.go:890-931 | with a retry left only the map entry is lost: the runner works on where no request finds it |
| SlotTheorems.WokenWhileRunning | hypervisor/hypervisor.go:857-865 | with a checkpoint the job is restored again, and two runners are at work on it |
| SlotTheorems.StartedTwice | hypervisor/hypervisor.go:303-335 | recovery starts a job whose spawn has only inserted its row; the spawn then settles the row under the running job and takes it out of the map |
| SlotTheorems.RecoveryTouchesSpawn | hypervisor/hypervisor.go:890-931 | whatever its lookups and the runtime answer, recovery changes the row a spawn has just inserted |
| SlotTheorems.RecoveryIsSafeExactlyWhen | hypervisor/hypervisor.go:808-846 | recovery by a job's current row keeps the invariant, the reach and the launch rule if and only if its runner is not at work or there is nothing to do |
| SlotTheorems.RowReadStaysCurrent | hypervisor/hypervisor.go:808-846 | an interrupted job without a runner at work keeps its row, and stays so, until its turn of recovery |
| SlotTheorems.DueRowStaysCurrent | hypervisor/hypervisor.go:1052-1074 | a due row of a job without a live runner in or out of the map changes only by its poll or by nothing |
| SlotTheorems.MarkedFailedAfterCompletion | hypervisor/hypervisor.go:808-886 | a job read as running that completes before its turn is then marked failed |
| SlotTheorems.OldRowSparesSettledExactlyWhen | hypervisor/hypervisor.go:808-931 | by a row read earlier, recovery leaves a settled job's row and launches alone, whatever clock, runtime and database answer, if and only if it plans nothing or a restart that is refused |
| SlotTheorems.QueuedKillSettlesSleeper | hypervisor/job_runner.go:513-552 | a kill that still reaches an evicted sleeping runner settles the job and ends the runner, launching nothing |
| SlotTheorems.SleepersWaitersStayUnanswered | hypervisor/job_runner.go:645-664 | what an evicted sleeping runner has taken and not answered are its waiters, and no step answers them |
| SlotTheorems.LaunchesFromAcknowledgedOrLater | hypervisor/hypervisor.go:1116-1151 | every launch from a checkpoint that the poller or recovery plans from the job's current row uses the newest recorded image, which is no older than the last acknowledged one |
| EveryRun.OldRowsRestoreRecorded | hypervisor/hypervisor.go:811-865 | over every run whatever, a recovery by an old row restores an image the row was told of, and where the runtime keeps one path for a job, the newest of them |
| SlotTheorems.AcknowledgedWorkIsNotThrownAway | hypervisor/hypervisor.go:854-887 | an interrupted job with an acknowledged checkpoint is never restarted from scratch nor marked failed |
| Effects.KillStopsTheProcess | hypervisor/job_runner.go:513-552 | a kill that succeeds on a running or sleeping job leaves no process, a row failed as killed and an ended loop, and replies with that job; one that fails leaves row and processes as they were |
| Effects.ExitSettlesByCode | hypervisor/job_runner.go:555-601 | the job's own exit completes it if and only if the code is zero; the error, the code at its column's width and the output are in the row, and in the job replied |
| Effects.ProcessExitSettlesOrRetries | hypervisor/job_runner.go:277-349 | a failed process with a retry left waits exactly the policy's delay from the later clock reading, or has its retry under way at once; any other end settles the row by wait error or code |
| Effects.RetryLaunchesExactlyWhen | hypervisor/job_runner.go:667-774 | an immediate retry launches the job again if and only if the runtime does and there is a checkpoint or no process left; it then runs as that one process and its row says so |
| Effects.LaunchRunsExactlyWhen | hypervisor/hypervisor.go:1148-1177 | a fresh runner of any kind runs its job, from the plan's checkpoint, under the policy found and in the map, if and only if the runtime launches it; otherwise there is none and the row says why |
| Effects.PlansRestoreExactlyWhen | hypervisor/hypervisor.go:854-1265 | for any row, whoever left it: poller and recovery plan a restore if and only if the row has a path that is not empty, for recovery also a count, and the lookups find the rest; and then from that path |
| Effects.PollWakesExactlyWhen | hypervisor/hypervisor.go:1096-1190 | a due sleeper is woken from the newest recorded checkpoint if and only if definition, runtime, file and checkpoint are found and the runtime restores it; a lookup that fails leaves it as it is, a restore that fails settles it |
| Effects.PollRetriesExactlyWhen | hypervisor/hypervisor.go:1193-1265 | a due retry is taken if and only if definition and runtime are found and the runtime launches it: from the newest recorded checkpoint whenever that can be rebuilt, otherwise from scratch |
| Effects.RecoveryLaunchesExactlyWhen | hypervisor/hypervisor.go:854-944 | an interrupted job nobody works on is launched by recovery if and only if it runs from a checkpoint with every lookup found, or is pending with definition and runtime found and no process left; and which failure its row gets otherwise |
| Effects.SpawnRunsExactlyWhen | hypervisor/hypervisor.go:322-337 | a spawn that goes on runs its job under its definition's policy if and only if the runtime starts it |
| Effects.CheckpointRecordsImage | hypervisor/job_runner.go:398-457 | an admitted checkpoint is the newest image, recorded and acknowledged, and the job goes on in its process or sleeps until the time asked for without one; a failed one changes nothing in the row |
| Effects.EmptyPathIsNoPath | hypervisor/job_runner.go:436-443 | a captured checkpoint with an empty path leaves no path on the row, any other leaves that one |
| Effects.EndedRunnersAreEvicted | hypervisor/hypervisor.go:678-710 | every ended runner's job is one maybeEvictJob takes out, so that the poller finds a retry put off; of a live runner's only the sleeper's, and a failed job's with its retry under way |
| Effects.LocksAreGiven | hypervisor/job_runner.go:611-626 | until the job has settled a lock can be had, is not one already held, and is held afterwards |
| Effects.LocksAreReturned | hypervisor/job_runner.go:629-642 | giving a lock back succeeds if and only if it is held, and takes away just that one |
| Effects.StateIsShown | hypervisor/job_runner.go:604-608 | asking for the state shows the job as it is and changes nothing |
| Effects.RefusalsAreTruthful | hypervisor/job_runner.go:188-215 | a refusal of any command gives a reason that holds, and unless the runtime failed leaves row, processes and runner as they were |
| Effects.RefusedExactlyWhen | hypervisor/job_runner.go:352-642 | which requests are refused outright, for every state and every argument |
| Effects.StopLetsTheLoopEnd | hypervisor/job_runner.go:146-171 | a stop lets the loop end at any later turn, with the job and its row as they are; without one it does not end so |
| BudgetLaws.BudgetIsKeptExactlyWhen | hypervisor/hypervisor.go:647-674 | for a bound that fits 32 bits and is no less than the policy each launch finds, every step, complete or cut short, keeps the row's retry count within it if and only if it is not the last delayed retry failing to restore or cut between counting the retry and writing the new state |
| BudgetLaws.CutRetryIsCountedTwice | hypervisor/job_runner.go:685-759 | after such a cut and a crash the row is due and the next poll counts the same retry a second time |
| BudgetLaws.FailingRestoreOverrunsBudget | hypervisor/hypervisor.go:1193-1248 | with a restore that keeps failing, n polls raise the row's retry count by n and it stays due |
| System.RunKeepsInvariant | hypervisor/hypervisor.go:289-1265 | in every state of every run, with crashes anywhere, the invariant holds of each job that no recovery and no delayed spawn has upset |
| System.MoveKeepsInvariant | hypervisor/hypervisor.go:289-1265 | every move of the system keeps each job's invariant if it does not upset it, and a recovery of its current row or a spawn over a runner at work that does, breaks it |
| System.FirstUpsetBreaksInvariant | hypervisor/hypervisor.go:808-846 | the first turn of a run that meets a runner at work and upsets it breaks the invariant |
| SystemTheorems.AtMostOneProcess | hypervisor/hypervisor.go:808-1265 | from an empty table, over every run whatever, a job has at most one live process; unless it has been upset it has none while suspended, and a running runner's is the one it holds |
| SystemTheorems.EveryLaunchIsAlone | hypervisor/hypervisor.go:289-1151 | from an empty table, at every move of every run that has not upset the job yet, turns on old rows and delayed spawns included: a launch is the pending retry of the job's own runner or finds no runner at work, if and only if the move is not a recovery or a spawn that gets as far as a launch over one |
| SystemTheorems.AcknowledgedCheckpointsSurvive | hypervisor/job_runner.go:410-457 | over every run whatever and at every crash point the row names an image at least as new as the last acknowledged |
| SystemTheorems.QuietReadingsAreCalm | hypervisor/hypervisor.go:808-846 | from an empty table, over every run: if at no reading of rows a runner is at work on the job or a spawn of it under way, nothing ever upsets it, and the rows recovery and spawns act on are current at their turns |
| SystemTheorems.QuietLaunchesAreAlone | hypervisor/hypervisor.go:289-1151 | and then whatever launches the job is the pending retry of its own runner or finds no runner at work, and leaves one process |
| SystemTheorems.SettledForever | hypervisor/hypervisor.go:808-849 | over every run a settled row is never written and its job never launched again, unless a turn of recovery acts on a row read before the job settled, or a spawn goes on after that |
| SystemTheorems.NeverLaunchedEarly | query/jobs.sql.go:48-53 | over every run, crashes and recovery included, nothing launches a sleeping job before its resume time, unless recovery or a spawn acts on it by a row older than its sleep with a plan that can launch it |
| SystemTheorems.CalmRunsDoNotWake | hypervisor/hypervisor.go:808-849 | a run that upsets nobody has no such turn |
| SystemTheorems.WokenEarly | hypervisor/hypervisor.go:808-865 | a run with one: from any running job with a checkpoint, its row is read, it suspends, and recovery restores it while its row asks to wait |
| SlotTheorems.OldRowSparesSleeperExactlyWhen | hypervisor/hypervisor.go:808-931 | such a turn leaves a sleeping job alone, whatever clock, runtime and database answer, if and only if it neither wakes it nor starts it with no process alive |
| SystemTheorems.PursuitContinues | hypervisor/hypervisor.go:305-349 | along a run in which the hypervisor lives, nothing upsets this job and neither losing command of it is handled, a pursued job stays pursued |
| SystemTheorems.ReachContinues | hypervisor/hypervisor.go:678-710 | along a run in which the hypervisor lives, nothing upsets this job and no recovery launches over its runner and no replay evicts it, a runner at work stays in the map |
| SystemTheorems.ServiceContinues | hypervisor/hypervisor.go:305-349 | along a run of both kinds a job pursued and reachable stays so |
| SystemTheorems.NoJobIsForgotten | hypervisor/hypervisor.go:239-352 | from an empty table, while the hypervisor lives, nothing upsets the job, and no step that loses pursuit or reach happens, every job whose spawn has gone on is pursued and reachable |
| SystemTheorems.UnpursuedUntilAsked | hypervisor/hypervisor.go:1068-1074 | until its spawn goes on, a recovery turns to it or a request comes, a job that is not pursued is never written nor launched, however long the run |
| SystemTheorems.RetriesStayInBudget | hypervisor/hypervisor.go:647-674 | from an empty table, over every run with crashes anywhere in which nothing upsets the job, its row stays within the largest of the policies its launches found, read anew at each, as long as no step is one of the overrunning ones |
| SystemTheorems.FirstOverrunBreaksBudget | hypervisor/hypervisor.go:647-674 | and the first such step of a run breaks the budget |
| SlotTheorems.BeginServes | hypervisor/hypervisor.go:305-337 | a spawn that goes on while its row is as it was inserted leaves the job pursued and reachable |
| Hypervisor.Hypervisor.LaunchRunner | hypervisor/hypervisor.go:1148-1177 | publish, over a runner that may be there, first command, removal on an error reply: exactly that job's slot changes, as the plan says, under the policy just looked up |
| Hypervisor.Hypervisor.MarkJobAsFailed | hypervisor/hypervisor.go:934-944 | one terminal write on that job's row and nothing else |
| Hypervisor.Hypervisor.Spawn | hypervisor/hypervisor.go:289-349 | the new job's slot is the spawned one, all others are untouched; a failed insert changes nothing |
| Hypervisor.Hypervisor.RestartPendingJob | hypervisor/hypervisor.go:890-931 | lookups and launch as the restart plan says |
| Hypervisor.Hypervisor.WakeJob | hypervisor/hypervisor.go:1096-1190 | lookups and launch as the wake plan says; a failed lookup is an error and changes nothing |
| Hypervisor.Hypervisor.RetryJob | hypervisor/hypervisor.go:1193-1265 | lookups and launch as the retry plan says |
| Hypervisor.Hypervisor.RecoverRunningJob | hypervisor/hypervisor.go:854-887 | checkpoint, then definition, then retry budget decide what happens to an interrupted job |
| Hypervisor.Hypervisor.RecoverJob | hypervisor/hypervisor.go:821-846 | one row takes its recovery step, chosen by its state |
| Hypervisor.Hypervisor.RecoverJobs | hypervisor/hypervisor.go:808-849 | in whatever order rows come, each unsettled job takes its recovery step and every other is as it was |
| Hypervisor.Hypervisor.ResumeJob | hypervisor/hypervisor.go:1076-1091 | one row takes its poll step, chosen by its state |
| Hypervisor.Hypervisor.ResumeReadyJobs | hypervisor/hypervisor.go:1052-1093 | each job of the batch without a runner in the map takes its poll step and every other is as it was |
| Hypervisor.Hypervisor.ResumeUnlessHeld | hypervisor/hypervisor.go:1067-1091 | one turn of that loop: a job with a runner in the map is passed over |
| Hypervisor.Hypervisor.MaybeEvictJob | hypervisor/hypervisor.go:678-710 | the job's runner leaves the map if the given job is settled, pending_retry, or suspended with a resume time |
| Hypervisor.Hypervisor.RunnerDone | hypervisor/hypervisor.go:339-349 | a runner in the map that has ended with an evictable job is taken out; for any other id nothing happens |
| Hypervisor.Hypervisor.SendCommand | hypervisor/hypervisor.go:368-380 | a request to a job in the map is one turn of its runner; to any other it is an error |
| Hypervisor.Hypervisor.CheckpointJob | hypervisor/hypervisor.go:415-433 | a checkpoint request and the eviction its reply causes are the job's step, with the runner's reply |
| HypervisorLaws.SteppedIsARun | hypervisor/hypervisor.go:808-1093 | what such a loop does over distinct jobs is a run of the system, in any order |
| HypervisorLaws.RecoveryIsARun | hypervisor/hypervisor.go:808-849 | the reading of the rows and recovery of all of them, from any state not recovered yet, whatever runners there are, is a run of the system |
| HypervisorLaws.RecoveryServesAllBut | hypervisor/hypervisor.go:808-931 | whatever runners were made before it: a job is sound if and only if recovery did not upset it, reachable if and only if it was and was not launched over, pursued if and only if it was or was interrupted and is not stranded |
| HypervisorLaws.RecoveryAfterCrash | hypervisor/hypervisor.go:808-931 | right after a crash every job is sound and reachable again, and pursued if and only if it is not stranded |
| HypervisorLaws.LookingFirstIsSafe | hypervisor/hypervisor.go:1068-1074 | the poller's look into the map, and one at the spawns under way, would make a recovery by the job's current row keep invariant and reach and launch alone |
| SystemTheorems.RecoveryTurnIsSafeExactlyWhen | hypervisor/hypervisor.go:808-846 | such a recovery leaves the job sound, reachable, its spawn undisturbed and launched alone if and only if it has nothing to do to a runner at work and no spawn of the job is under way |
| HypervisorLaws.PollTickServes | hypervisor/hypervisor.go:1052-1093 | one tick of the poller is a run of the system that leaves each job of the batch pursued and reachable |
| HypervisorLaws.PollTickLaunches | hypervisor/hypervisor.go:1052-1093 | and each job of the batch is woken or retried if and only if its own lookups and the runtime let it be |
| HypervisorLaws.FindDefinitions | hypervisor/hypervisor.go:647-656 | the policies of the jobs whose definition the recovered registry finds |
| HypervisorLaws.DefinitionDecidesRetry | hypervisor/hypervisor.go:647-674 | a failed process is retried if and only if its definition has a policy that allows one more: after the delay it names, or at once |
| HypervisorLaws.RecoverState | hypervisor/hypervisor.go:788-798 | definitions first, then jobs, some of which may have runners by then: the registry is that of the usable rows, and soundness, reach and pursuit of every job are as above, with what its lookups, the registry's among them, find |
| Polling.BatchIsTheEarliestDue | query/jobs.sql.go:48-53 | the possible poll batches are exactly the sequences of due rows, earliest first, whose omitted due rows are no earlier and find it full |
| Listing.Query | query/jobs.sql.go:182-188 | filter, order and limit give the page |
| Listing.ListJobs | hypervisor/hypervisor.go:560-598 | the jobs of the page's rows in order, and a cursor at the last row exactly when the page is full |
| Listing.FollowCursor | hypervisor/hypervisor.go:589-595 | a client that follows the cursors sees each page's jobs from the table of its fetch, and knows whether it reached the end |
| Listing.PagesAreAWalk | hypervisor/hypervisor.go:589-595 | its pages are a walk: each starts below the last row of a full one before it |
| Listing.ClientSeesEverythingOnce | hypervisor/hypervisor.go:560-598 | if the table only grows meanwhile and it reaches the end, it has seen every job present at its first call, in strictly descending order, and only jobs of the tables |
| Listing.FullPage | query/jobs.sql.go:182-188 | a full page followed by all rows below its last key is the whole of what was asked for |
| Listing.WalkSeesEverythingOnce | hypervisor/hypervisor.go:589-595 | while rows are inserted between fetches the pages descend strictly, hold every row present at the first fetch, and only rows of the table |
| Listing.NoRowTwice | query/jobs.sql.go:182-188 | so no row comes twice |
| Listing.NewestComeFirst | query/jobs.sql.go:182-188 | a listing has later jobs first, and among those created together the greater id |
| Listing.WalkOfFixedTable | hypervisor/hypervisor.go:560-598 | on a table that does not change the pages together are the sorted table |
| Registry.JobDefinitionRegistry.constructor | hypervisor/job_definition.go:97-102 | an empty registry is consistent |
| Registry.JobDefinitionRegistry.Register | hypervisor/job_definition.go:106-127 | a valid definition is stored under its name and version, the index stays the greatest version; an invalid one changes nothing |
| Registry.JobDefinitionRegistry.Get | hypervisor/job_definition.go:131-154 | the answer, errors included, is that of a table without an index in which `@latest` means the greatest version |
| Registry.JobDefinitionRegistry.Unregister | hypervisor/job_definition.go:188-218 | the definition goes, the index stays the greatest version left, or the name goes with its last version |
| Registry.Recalculate | hypervisor/job_definition.go:209-214 | the loop finds the lexicographic maximum whatever the order of the map |
| Registry.IndexIsDetermined | hypervisor/job_definition.go:86-94 | registries of the same definitions have the same index, whatever their histories |
| Registry.LatestIsGreatestVersion | hypervisor/job_definition.go:141-146 | `@latest` finds something exactly for names with a definition, and then what the greatest version finds |
| Text.LessExactlyWhen | hypervisor/job_definition.go:120-124 | the order of versions: a proper prefix comes first, otherwise the first place of difference decides |
| Registry.RegisteredIsFoundUnless | hypervisor/job_definition.go:131-154 | a registered version is found under itself unless it is spelled `@latest` without being the greatest |
| Registry.NewDefinitionIsLatestExactlyWhen | hypervisor/job_definition.go:120-124 | a new definition becomes `@latest` if and only if every other version is smaller |
| Registry.RunOps | hypervisor/job_definition.go:106-218 | a registry object driven through any history ends with the table of that history |
| Registry.RecoverJobDefinitions | hypervisor/hypervisor.go:947-1032 | the loop registers the usable rows in order and skips the others |
| Registry.RecoveredExactlyUsable | hypervisor/hypervisor.go:958-1029 | afterwards a name and version are registered if and only if some usable, valid row has them |
| Registry.HistoryDecides | hypervisor/job_definition.go:106-127 | after any history a key holds what was last registered and not unregistered since |
| Registry.LatestAfterHistory | hypervisor/job_definition.go:188-218 | after any history `@latest` is the greatest of the versions still registered |
| Registry.TakesExactlyComplete | hypervisor/job_definition.go:46-60 | registration takes exactly the definitions with name, version, runtime and configuration, and names one that is missing otherwise |
| Registry.RegisteredAreComplete | hypervisor/job_definition.go:106-127 | after any history every registered definition is complete |
| Registry.RemovalFailsExactlyWhenAbsent | hypervisor/job_definition.go:188-201 | unregistering fails exactly for what is not registered, and tells an unknown name from an unknown version |
| EnvFile.QuotedValueReadsBack | runtime/firecracker/runtime_linux.go:460-462 | any text, escaped and quoted, is read back by the shell's quoting rules as itself |
| EnvFile.LineReadsBack | runtime/firecracker/runtime_linux.go:439-445 | one line of the file is read as one assignment, whatever follows it |
| EnvFile.EnvFileRoundTrip | runtime/firecracker/runtime_linux.go:437-445 | in whatever order keys come, reading the file gives back exactly the map if and only if all keys are valid shell names |
| EnvFile.EnvContent | runtime/firecracker/runtime_linux.go:437-445 | the loop that writes the file has that property |
| TapName.FindUniqueTapName | runtime/firecracker/runtime_linux.go:331-357 | the name returned is unused, at most 15 bytes, the base or the first free suffixed name; failure means all are taken |
| TapName.CandidateIsComplete | runtime/firecracker/runtime_linux.go:346-351 | the cut to 15 bytes never happens |
| TapName.CandidatesDiffer | runtime/firecracker/runtime_linux.go:346-351 | the suffixed names are pairwise different |
| TapName.PrefixDoesNotCount | runtime/firecracker/runtime_linux.go:309-321 | the `job-` before an id makes no difference to its base |
| TapName.BaseKeepsTheEnd | runtime/firecracker/runtime_linux.go:309-321 | the base is as much of the end of the id's unique part as fits after the prefix |
| TapName.BasesCollideExactlyWhen | runtime/firecracker/runtime_linux.go:309-321 | two long ids share a base if and only if they end alike in eleven characters |
| TapName.CandidateUsesTheRoom | runtime/firecracker/runtime_linux.go:340-351 | a suffixed name keeps a short base whole, and of a long one all that leaves room for the suffix |
| TapName.SearchFailsExactlyWhenCrowded | runtime/firecracker/runtime_linux.go:331-357 | the search fails if and only if all its names are taken, which are 100, or 99 when the base is itself a suffixed name |
| TapName.BaseMayBeACandidate | runtime/firecracker/runtime_linux.go:309-321 | an execution id for which that coincidence happens |

## Left out

- The queue is an unbounded sequence of events, and looking a runner up and delivering a command
  to it are one step, as are publishing a fresh runner with its first command, a checkpoint's
  reply with the eviction it causes, and the poller's query with its dispatch of a row.
- Hypervisor.Hypervisor.SendCommand: holds runners as values, not as `JobRunner` objects, so
  aliasing between the map and an evicted runner is not modelled; what a runner value does in a
  turn is what the class `JobRunner` is proved to do.
- Hypervisor.Hypervisor.Spawn: starts after the definition and its runtime have been looked up
  and an unused id generated; merging of environment and metadata is not modelled.
- JobRunner.JobRunner.HandleCheckpoint: the reply is the method's result and is sent by
  HandleCommand; a job in a reply is a value, as `Clone` makes it.
- JobRunner.JobRunner.CommandLoop: `select` may pick a cancelled context at any turn, but commands
  sent after the drain has finished are not distinguished from drained ones.
- HypervisorLaws.RecoverState: which definition rows parse is given, and the parsing of a retry
  delay is a parameter. The loop goes through its rows without interruption; the interleaving of
  its turns with everything else is the system's.
- Hypervisor.Hypervisor.ResumeReadyJobs: a batch's rows are read and acted on without interruption;
  `DueRowStaysCurrent` says when that makes no difference.
- SlotLaws.PollFindsNoWorkingRunner: requests queued in a sleeping runner before its eviction are
  not steps of the system; what a kill among them does is `QueuedKillSettlesSleeper`.
- Hypervisor.Hypervisor.RunnerDone: the wait for a runner's end deletes whatever runner the map
  names at that moment; here it finds the runner it waited for. A sleeping or ended runner that
  another is published over is forgotten.
- RunnerTheorems.SettledRowReadsBack: `result_output` is a JSONB column, which normalises key order
  and spacing; the model's column keeps the text as it is, so reading back is up to that.
- Listing.ListJobs: the cursor is the pair of creation time and id; its JSON and base64 encoding,
  and an undecodable cursor, are not modelled. A limit below one never reaches it.
- EnvFile.EnvFileRoundTrip: the reader knows quoting, comments and `export`, and rejects any
  unquoted character that means more to a shell; mounting and writing the file are not modelled.
- TapName.FindUniqueTapName: the devices do not change during the search.
- SlotTheorems.OldRowSparesSettledExactlyWhen: a row read while a spawn was under way is covered
  where no process is alive; a start that fails beside one may write the same failed row again.
- `Shutdown`, `Stop` and the cancellation of contexts at shutdown are not steps of the system;
  a runner's own `Stop` command and a cancelled context are events of the command loop.
- Error texts are enumerated by what they report, and lock ids are numbers or foreign texts.
- A write either happens or not; ambiguous commits and database retries are below the model.
- `RetryPolicy` is shared by pointer between a definition and its clone; here it is a value.
- Started-at times, standard output, runtime configuration and job parameters are carried or
  dropped without being stated about; the last-checkpoint time of a failed checkpoint differs
  from the row, as in the program.
- Liveness of the poller: a hundred rows that always fail can fill every batch.
- HTTP servers, request binding, TLS, logging, tracing, migrations, Podman, CRIU and Firecracker
  commands.
