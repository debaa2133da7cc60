/** What requests, retries, the poller and recovery achieve, as a caller sees it: in the job's row,
    its processes, its runner and the reply. */
module Effects {
  import opened Wrappers
  import opened Jobs
  import opened Rows
  import opened Machine
  import opened RunnerSpec
  import opened RunnerLaws
  import opened RowLaws
  import opened Slots
  import opened SlotLaws
  import opened SlotTheorems
  import opened RunnerTheorems

  /** The reply to a request, and the job after it. */
  function ReplyTo(slot: Slot, cmd: Command, ch: Chan, env: Env): Option<Response>
    requires slot.mem.Some?
  {
    CommandOutcome(slot.w, slot.mem.value, Message(cmd, Some(ch)), env).reply
  }

  function After(slot: Slot, cmd: Command, ch: Option<Chan>, env: Env): Slot {
    SlotStep(slot, Command(Message(cmd, ch), env, true))
  }

  ghost predicate Live(slot: Slot) {
    SlotInv(slot) && slot.mem.Some? && !slot.mem.value.stopped
  }

  /** The job runs under this process alone, its row says so, and its runner is at work. */
  ghost predicate RunsAs(slot: Slot, pid: Pid) {
    && slot.w.live == {pid} && slot.w.row.state == Running
    && slot.mem.Some? && !slot.mem.value.stopped
    && slot.mem.value.r.job.state == Running && slot.mem.value.r.process == Some(pid)
  }

  /** A command on a live runner, in parts. */
  lemma CommandDoes(slot: Slot, cmd: Command, ch: Option<Chan>, env: Env)
    requires slot.mem.Some? && !slot.mem.value.stopped && !slot.hung
    ensures var o := CommandOutcome(slot.w, slot.mem.value, Message(cmd, ch), env);
            var slot' := After(slot, cmd, ch, env);
            && slot'.w == WorldAt(slot.w, o, 4) && slot'.mem.Some? && slot'.mem.value.stopped == LoopEnds(o.r)
            && slot'.mem.value.r == if LoopEnds(o.r) then o.r.(resultWaiters := []) else o.r
  {
    hide Handle, WorldAt, LoopEnds;
    LoopStepShape(LoopOf(slot.w, slot.mem.value), Message(cmd, ch), env);
    hide LoopStep;
  }

  /** What the invariant says of a live runner, in one place. */
  lemma LiveFacts(slot: Slot)
    requires Live(slot)
    ensures var r, w := slot.mem.value.r, slot.w;
            && !slot.hung && !w.row.state.IsTerminal()
            && (r.job.state == Running || r.job.state == Suspended || (r.job.state == Failed && r.retryPending))
            && (r.job.state == Running || r.job.state == Suspended ==> r.process.Some? && r.job.Clean() && !r.retryPending)
            && (r.job.state == Running ==> w.live <= {r.process.value} && w.row.state == Running)
            && (r.job.state == Suspended ==> w.live == {})
            && (r.retryPending ==> w.row.state == Running)
            && r.onFailure == Some(w.policy)
            && (r.checkpoint.Some? ==> w.row.checkpointPath == r.checkpoint)
            && w.row.retryCount == Int32(r.job.retryCount)
            && w.row.checkpointCount == r.job.checkpointCount
  {
    LiveRowOf(slot);
    hide OneEach, Balanced, CheckpointsRecorded;
  }

  // ----- kill -----

  lemma KillOutcome(w: World, r: Runner, ch: Option<Chan>, env: Env)
    requires r.job.state == Running || r.job.state == Suspended
    requires r.process.Some? && w.live <= {r.process.value} && !r.retryPending && Reliable(env)
    ensures var o := Handle(r, w.live, Message(Kill, ch), env);
            var w' := WorldAt(w, o, 4);
            match env.killError
            case Some(err) => w' == w && o.r == r.(job := r.job.(op := Terminating)) && o.reply == Some(Error(KillError(err)))
            case None =>
              && w'.live == {} && w'.launches == w.launches && LoopEnds(o.r)
              && w'.row == w.row.(state := Failed, error := Some(KilledByCaller), completedAt := Some(env.now),
                                  resultExitCode := None, resultOutput := None)
              && o.reply == Some(JobInfo(o.r.job)) && o.r.job.state == Failed && o.r.job.error == Some(KilledByCaller)
              && o.r.job.completedAt == Some(env.now) && o.r.job.op == Terminating
  {}

  /** A kill stops the job's process for good and settles job and row; one that fails changes
      neither. */
  lemma KillStopsTheProcess(slot: Slot, ch: Chan, env: Env)
    requires Live(slot) && Reliable(env)
    requires slot.mem.value.r.job.state == Running || slot.mem.value.r.job.state == Suspended
    ensures var slot' := After(slot, Kill, Some(ch), env);
            var a := slot'.mem.value;
            match env.killError
            case Some(err) =>
              && slot'.w == slot.w && !a.stopped && a.r.job.state == slot.mem.value.r.job.state
              && ReplyTo(slot, Kill, ch, env) == Some(Error(KillError(err)))
            case None =>
              && slot'.w.live == {} && slot'.w.launches == slot.w.launches && a.stopped
              && slot'.w.row.state == Failed && slot'.w.row.error == Some(KilledByCaller)
              && slot'.w.row.completedAt == Some(env.now) && slot'.w.row.resultExitCode.None?
              && ReplyTo(slot, Kill, ch, env) == Some(JobInfo(a.r.job)) && a.r.job.state == Failed
  {
    LiveFacts(slot);
    hide SlotInv, Handle, WorldAt;
    CommandDoes(slot, Kill, Some(ch), env);
    KillOutcome(slot.w, slot.mem.value.r, Some(ch), env);
  }

  // ----- the job's own exit -----

  lemma ExitOutcome(w: World, r: Runner, code: int, output: Option<string>, ch: Option<Chan>, env: Env)
    requires r.job.state == Running && r.job.Clean() && !r.retryPending && Reliable(env)
    ensures var o := Handle(r, w.live, Message(Exit(code, output), ch), env);
            var w' := WorldAt(w, o, 4);
            var j := o.r.job;
            && LoopEnds(o.r) && o.reply == Some(JobInfo(j)) && w'.live == w.live && w'.launches == w.launches
            && (w'.row.state == Completed <==> code == 0) && (w'.row.state == Failed <==> code != 0)
            && w'.row.error == (if code == 0 then None else Some(ExitCode(code)))
            && w'.row.resultExitCode == Some(Int32(code)) && w'.row.resultOutput == output
            && w'.row.completedAt == Some(env.now)
            && j.state == w'.row.state && j.error == w'.row.error && j.result == Some(JobResult(code, output))
            && j.completedAt == Some(env.now) && j.op == Exiting
  {}

  /** The job's own exit settles it by its code, with the output it gave, in the row and in the
      reply alike. */
  lemma ExitSettlesByCode(slot: Slot, code: int, output: Option<string>, ch: Chan, env: Env)
    requires Live(slot) && Reliable(env) && slot.mem.value.r.job.state == Running
    ensures var slot' := After(slot, Exit(code, output), Some(ch), env);
            var row, j := slot'.w.row, slot'.mem.value.r.job;
            && slot'.mem.value.stopped && slot'.w.live == slot.w.live
            && (row.state == Completed <==> code == 0) && (row.state == Failed <==> code != 0)
            && row.error == (if code == 0 then None else Some(ExitCode(code)))
            && row.resultExitCode == Some(Int32(code)) && row.resultOutput == output && row.completedAt == Some(env.now)
            && ReplyTo(slot, Exit(code, output), ch, env) == Some(JobInfo(j))
            && j.state == row.state && j.error == row.error && j.result == Some(JobResult(code, output))
  {
    LiveFacts(slot);
    hide SlotInv, Handle, WorldAt;
    CommandDoes(slot, Exit(code, output), Some(ch), env);
    ExitOutcome(slot.w, slot.mem.value.r, code, output, Some(ch), env);
  }

  // ----- the process's exit -----

  /** How an exit settles a job that has no result yet. */
  function ExitError(code: int, exitError: Option<string>): Option<Failure> {
    if exitError.Some? then Some(WaitFailed(exitError.value)) else if code != 0 then Some(ExitCode(code)) else None
  }

  lemma SettledOutcome(w: World, r: Runner, code: int, exitError: Option<string>, env: Env)
    requires r.job.state == Running && r.job.Clean() && r.process.Some? && w.live <= {r.process.value} && !r.retryPending
    requires r.onFailure == Some(w.policy) && Reliable(env)
    requires ExitError(code, exitError).None? || r.job.retryCount >= w.policy.maxRetries
    ensures var o := HandleProcessExited(r, code, exitError, env);
            var w' := WorldAt(w, o, 4);
            && LoopEnds(o.r) && w'.launches == w.launches && w'.live == (if env.cleanupOk then {} else w.live)
            && (w'.row.state == Completed <==> ExitError(code, exitError).None?)
            && (w'.row.state == Failed <==> ExitError(code, exitError).Some?)
            && w'.row.error == ExitError(code, exitError)
            && w'.row.resultExitCode == (if exitError.Some? then None else Some(Int32(code)))
            && w'.row.resultOutput == None && w'.row.completedAt == Some(env.now)
            && o.r.job.state == w'.row.state && o.r.job.error == w'.row.error
  {}

  lemma RetriedOutcome(w: World, r: Runner, code: int, exitError: Option<string>, env: Env)
    requires r.job.state == Running && r.job.Clean() && r.process.Some? && w.live <= {r.process.value} && !r.retryPending
    requires r.onFailure == Some(w.policy) && Reliable(env)
    requires ExitError(code, exitError).Some? && r.job.retryCount < w.policy.maxRetries
    ensures var o := HandleProcessExited(r, code, exitError, env);
            var w' := WorldAt(w, o, 4);
            && w'.launches == w.launches && w'.live == (if env.cleanupOk then {} else w.live)
            && o.r.job.retryCount == r.job.retryCount
            && if w.policy.retryDelay > 0 then
                 && LoopEnds(o.r) && o.r.job.state == PendingRetry
                 && w'.row == w.row.(state := PendingRetry, resumeAt := Some(env.later + w.policy.retryDelay))
               else
                 && !LoopEnds(o.r) && o.r.retryPending && o.r.retrySenders == r.retrySenders + 1 && w'.row == w.row
  {}

  /** The end of the job's process. With a retry left a failure waits for the policy's delay, or has
      its retry under way at once; everything else settles the job by the exit. */
  lemma ProcessExitSettlesOrRetries(slot: Slot, pid: Pid, code: int, exitError: Option<string>, env: Env)
    requires Live(slot) && Reliable(env) && slot.mem.value.r.job.state == Running
    requires slot.mem.value.r.exitWatchers.Has(pid)
    ensures var slot' := After(slot, ProcessExited(pid, code, exitError), None, env);
            var failure, row := ExitError(code, exitError), slot'.w.row;
            && slot'.w.launches == slot.w.launches && (env.cleanupOk ==> slot'.w.live == {})
            && if failure.Some? && slot.mem.value.r.job.retryCount < slot.w.policy.maxRetries then
                 if slot.w.policy.retryDelay > 0
                 then Waiting(slot'.w, env.later + slot.w.policy.retryDelay) && row.state == PendingRetry && slot'.mem.value.stopped
                 else row == slot.w.row && !slot'.mem.value.stopped && slot'.mem.value.r.retryPending && AtWork(slot')
               else
                 && slot'.mem.value.stopped
                 && row.state == (if failure.Some? then Failed else Completed) && row.error == failure
                 && row.resultExitCode == (if exitError.Some? then None else Some(Int32(code)))
                 && row.completedAt == Some(env.now)
  {
    LiveFacts(slot);
    hide SlotInv, HandleProcessExited, WorldAt;
    CommandDoes(slot, ProcessExited(pid, code, exitError), None, env);
    var r := SenderGone(slot.mem.value.r, ProcessExited(pid, code, exitError));
    if ExitError(code, exitError).Some? && r.job.retryCount < slot.w.policy.maxRetries {
      RetriedOutcome(slot.w, r, code, exitError, env);
    } else {
      SettledOutcome(slot.w, r, code, exitError, env);
    }
  }

  // ----- retry -----

  /** What a retry does to a job that has failed or whose row was loaded as failed. */
  lemma RetryOutcome(w: World, r: Runner, env: Env)
    requires r.job.state == Failed && Reliable(env)
    ensures var o := HandleRetry(r, w.live, env);
            var w' := WorldAt(w, o, 4);
            && w'.row.retryCount == Int32(r.job.retryCount + 1)
            && if env.launch.Launched? && (r.checkpoint.Some? || w.live == {}) then
                 var pid := env.launch.pid;
                 && o.call == Some(if r.checkpoint.Some? then Restored(pid) else Started(pid))
                 && w'.launches == w.launches + 1 && w'.live == {pid} && w'.row.state == Running
                 && !LoopEnds(o.r) && o.r.job.state == Running && o.r.process == Some(pid) && o.r.checkpoint == r.checkpoint
                 && o.r.exitWatchers == Watcher(pid, r.exitWatchers) && o.r.job.Clean()
                 && o.reply == Some(JobInfo(o.r.job))
               else
                 && w'.launches == w.launches && w'.live == w.live && LoopEnds(o.r) && o.r.job.state == Failed
                 && w'.row.state == (if r.checkpoint.Some? then w.row.state else Failed)
                 && o.reply.Some? && o.reply.value.Error?
  {}

  /** The job runs again, or has no runner at work any more. */
  ghost predicate RetriedTo(slot: Slot, slot': Slot, env: Env)
    requires slot.mem.Some?
  {
    var r := slot.mem.value.r;
    var goes := env.launch.Launched? && (r.checkpoint.Some? || slot.w.live == {});
    && slot'.w.launches == slot.w.launches + (if goes then 1 else 0)
    && slot'.w.row.retryCount == Int32(r.job.retryCount + 1)
    && slot'.mem.Some? && slot'.mem.value.published == slot.mem.value.published
    && if goes then RunsAs(slot', env.launch.pid)
       else
         && slot'.mem.value.stopped && slot'.w.live == slot.w.live
         && slot'.w.row.state == if r.checkpoint.Some? then Running else Failed
  }

  /** A pending immediate retry launches the job again exactly when the runtime does, from its
      checkpoint, which its row names, if it has one, and from scratch if nothing of it is left
      running. */
  lemma RetryLaunchesExactlyWhen(slot: Slot, env: Env)
    requires Live(slot) && Reliable(env) && slot.mem.value.r.retryPending
    ensures RetriedTo(slot, After(slot, Retry, None, env), env)
    ensures var r := slot.mem.value.r; r.checkpoint.Some? ==> r.checkpoint == slot.w.row.checkpointPath
  {
    hide SlotInv, Handle, HandleRetry, WorldAt, After, CommandOutcome;
    LiveFacts(slot);
    RetryIsHandled(slot.w, slot.mem.value, env);
    CommandDoes(slot, Retry, None, env);
    RetryOutcome(slot.w, SenderGone(slot.mem.value.r, Retry), env);
    RetryIsNotACheckpoint(slot, env);
  }

  lemma RetryIsHandled(w: World, a: Attached, env: Env)
    ensures CommandOutcome(w, a, Message(Retry, None), env) == HandleRetry(SenderGone(a.r, Retry), w.live, env)
  {
    hide HandleRetry;
  }

  lemma RetryIsNotACheckpoint(slot: Slot, env: Env)
    requires slot.mem.Some? && !slot.mem.value.stopped
    ensures After(slot, Retry, None, env).mem.value.published == slot.mem.value.published
  {
    hide LoopStep, HandleStart, HandleWake, HandleKill, HandleExit, HandleProcessExited, HandleCheckpoint;
  }

  // ----- launches by a fresh runner -----

  /** The runtime launches the job by this plan. */
  predicate Goes(w: World, plan: Plan, env: Env) {
    && plan.Launch? && env.launch.Launched?
    && (plan.entry == ByWake || (plan.entry == ByRetry && plan.checkpoint.Some?) || w.live == {})
  }

  /** The row after a launch that went through. */
  function LaunchedRow(row: Row, entry: Entry, now: int): Row {
    match entry
    case ByStart => row.(state := Running, startedAt := Some(now))
    case ByWake => row.(state := Running)
    case ByRetry => row.(state := Running, startedAt := Some(now), retryCount := Int32(row.retryCount + 1))
  }

  /** The job in memory then: a restore forgets the resume time, a start has a new start time. */
  function LaunchedJob(plan: Plan, now: int): JobRecord
    requires plan.Launch?
  {
    var j := plan.job.(state := Running);
    var counted := if plan.entry == ByRetry then j.(op := Restarting, retryCount := j.retryCount + 1) else j;
    if plan.checkpoint.Some? then counted.(resumeAt := None) else counted.(startedAt := Some(now))
  }

  function LaunchErr(w: World, entry: Entry, checkpoint: Option<string>, env: Env): string {
    match if entry == ByWake || checkpoint.Some? then env.launch else RtStart(w.live, env)
    case LaunchFailed(err) => err
    case Launched(_) => []
  }

  /** The row after one that did not: settled, unless it was a retry from a checkpoint. */
  function UnlaunchedRow(w: World, entry: Entry, checkpoint: Option<string>, env: Env): Row {
    var err := LaunchErr(w, entry, checkpoint, env);
    match entry
    case ByStart => w.row.(state := Failed, error := Some(StartFailed(err)))
    case ByWake => w.row.(state := Failed, error := Some(RestoreFailed(err)), completedAt := Some(env.now))
    case ByRetry =>
      var counted := w.row.(retryCount := Int32(w.row.retryCount + 1));
      if checkpoint.Some? then counted else counted.(state := Failed, error := Some(StartFailed(err)))
  }

  /** What the first command of such a plan does. */
  ghost predicate Does(w: World, plan: Plan, env: Env, o: Outcome)
    requires plan.Launch?
  {
    var w' := WorldAt(w, o, 4);
    && (Refused(o) <==> !Goes(w, plan, env))
    && if Goes(w, plan, env) then
         && w'.launches == w.launches + 1 && w'.live == {env.launch.pid}
         && w'.row == LaunchedRow(w.row, plan.entry, env.now)
         && !LoopEnds(o.r) && o.r.job.state == Running && o.r.process == Some(env.launch.pid)
         && o.r.checkpoint == plan.checkpoint && o.r.onFailure == Some(w.policy)
         && o.r.exitWatchers == Watcher(env.launch.pid, Nobody)
         && o.reply == Some(JobInfo(o.r.job)) && o.r.job == LaunchedJob(plan, env.now)
       else
         && w'.launches == w.launches && w'.live == w.live
         && w'.row == UnlaunchedRow(w, plan.entry, plan.checkpoint, env)
  }

  lemma StartDoes(w: World, plan: Plan, env: Env)
    requires plan.Launch? && plan.entry == ByStart && w.row.Clean() && Reliable(env)
    requires plan.job == Load(w.row) && plan.checkpoint.None? && w.row.state == Pending
    ensures Does(w, plan, env, HandleStart(NewRunner(plan.job, w.policy, plan.checkpoint), w.live, env))
  {}

  lemma WakeDoes(w: World, plan: Plan, env: Env)
    requires plan.Launch? && plan.entry == ByWake && w.row.Clean() && Reliable(env)
    requires plan.job == Load(w.row).(state := Suspended) && plan.checkpoint.Some?
    ensures Does(w, plan, env, HandleWake(NewRunner(plan.job, w.policy, plan.checkpoint), env))
  {}

  lemma FirstRetryDoes(w: World, plan: Plan, env: Env)
    requires plan.Launch? && plan.entry == ByRetry && w.row.Clean() && Reliable(env)
    requires plan.job == Load(w.row).(state := Failed)
    ensures Does(w, plan, env, HandleRetry(NewRunner(plan.job, w.policy, plan.checkpoint), w.live, env))
  {}

  lemma FirstCommandDoes(w: World, plan: Plan, ch: Chan, env: Env)
    requires Durable(w) && plan.Launch? && Loaded(plan.entry, w.row, plan.job, plan.checkpoint) && Reliable(env)
    ensures Does(w, plan, env, FirstOutcome(w, plan, ch, env))
  {
    hide HandleWake, HandleStart, HandleRetry, Does, CheckpointsRecorded;
    match plan.entry
    case ByStart => StartDoes(w, plan, env);
    case ByWake => WakeDoes(w, plan, env);
    case ByRetry => FirstRetryDoes(w, plan, env);
  }

  /** A plan loaded from the job's row, on a job nobody works on: the job runs, from the plan's
      checkpoint and under the policy just found, exactly when the runtime launches it; otherwise
      it has no runner, and the row says why. */
  lemma LaunchRunsExactlyWhen(slot: Slot, plan: Plan, policy: Policy, ch: Chan, env: Env)
    requires Durable(slot.w) && !AtWork(slot) && Reliable(env)
    requires plan.Launch? && Loaded(plan.entry, slot.w.row, plan.job, plan.checkpoint)
    ensures var slot' := CarryOut(slot, plan, policy, ch, env);
            if Goes(slot.w, plan, env) then
              && RunsAs(slot', env.launch.pid) && slot'.InMap() && slot'.w.launches == slot.w.launches + 1
              && slot'.mem.value.r.checkpoint == plan.checkpoint && slot'.mem.value.r.onFailure == Some(policy)
              && slot'.mem.value.r.exitWatchers.Has(env.launch.pid)
              && slot'.w.row == LaunchedRow(slot.w.row, plan.entry, env.now)
            else
              && slot'.mem.None? && slot'.w.launches == slot.w.launches && slot'.w.live == slot.w.live
              && slot'.w.row == UnlaunchedRow(slot.w, plan.entry, plan.checkpoint, env)
  {
    var u := Under(slot, plan, policy);
    UnderKeeps(slot, plan, policy);
    hide Durable, Loaded, FirstOutcome, Enter, WorldAt, LoopEnds, UnlaunchedRow;
    FirstCommandDoes(u.w, plan, ch, env);
    SameLaunch(slot.w, u.w, plan, env);
    EnterShape(u.w, plan, ch, env);
    hide Under, Goes;
  }

  lemma SameLaunch(w: World, u: World, plan: Plan, env: Env)
    requires u == w.(policy := u.policy) && plan.Launch?
    ensures Goes(w, plan, env) == Goes(u, plan, env)
    ensures UnlaunchedRow(w, plan.entry, plan.checkpoint, env) == UnlaunchedRow(u, plan.entry, plan.checkpoint, env)
  {}

  /** A path a checkpoint can be rebuilt from. */
  predicate HasPath(row: Row) {
    row.checkpointPath.Some? && row.checkpointPath.value != []
  }

  /** When a plan restores, said of any row, also of one no runner here would have left. */
  lemma PlansRestoreExactlyWhen(row: Row, setup: Setup)
    ensures row.state == Suspended ==>
              (PollPlan(row, setup).Launch? <==>
                 HasPath(row) && setup.definition && setup.runtime && setup.file && setup.reconstruct)
    ensures row.state == PendingRetry && PollPlan(row, setup).Launch? ==>
              (PollPlan(row, setup).checkpoint.Some? <==> HasPath(row) && setup.reconstruct)
    ensures var plan := RecoverPlan(row, setup);
            (plan.Launch? && plan.checkpoint.Some?) <==>
              && row.state == Running && row.checkpointCount > 0 && HasPath(row)
              && setup.definition && setup.runtime && setup.file && setup.reconstruct
    ensures forall plan | plan == PollPlan(row, setup) || plan == RecoverPlan(row, setup) ::
              plan.Launch? && plan.checkpoint.Some? ==> plan.checkpoint == row.checkpointPath
  {}

  // ----- the poller -----

  /** The newest checkpoint the row was told of. */
  function NewestRecorded(w: World): Option<string>
    requires w.recorded <= |w.images|
  {
    if w.recorded == 0 then None else Some(w.images[w.recorded - 1].path)
  }

  lemma RowNamesNewest(w: World)
    requires Durable(w)
    ensures w.recorded <= |w.images| && w.row.checkpointPath == NewestRecorded(w)
    ensures w.row.state == Suspended ==> UsablePath(w.row)
  {
    UsablePathMeansRecorded(w);
  }

  /** The sleeper is woken, or settled by a restore that fails, or left for the next poll. */
  ghost predicate PolledSleeper(slot: Slot, slot': Slot, setup: Setup, env: Env)
    requires slot.w.recorded <= |slot.w.images|
  {
    var found := setup.definition && setup.runtime && setup.file && setup.reconstruct;
    && (slot'.w.launches != slot.w.launches <==> found && env.launch.Launched?)
    && if found && env.launch.Launched? then
         && RunsAs(slot', env.launch.pid) && slot'.InMap()
         && slot'.mem.value.r.checkpoint == NewestRecorded(slot.w) && slot'.mem.value.r.checkpoint.Some?
         && slot'.mem.value.r.onFailure == Some(setup.policy)
         && slot'.w.row == slot.w.row.(state := Running)
       else if found then
         slot'.w.row == slot.w.row.(state := Failed, error := Some(RestoreFailed(env.launch.err)), completedAt := Some(env.now))
       else slot' == slot
  }

  /** A due suspended job wakes at its poll exactly when every lookup finds what it looks for and
      the runtime restores it: from the newest recorded checkpoint, with its runner in the map. */
  lemma PollWakesExactlyWhen(slot: Slot, setup: Setup, ch: Chan, env: Env, now: int)
    requires SlotInv(slot) && Enabled(slot, Poll(setup, ch, env), now) && Reliable(env) && slot.w.row.state == Suspended
    ensures slot.w.recorded <= |slot.w.images| && PolledSleeper(slot, SlotStep(slot, Poll(setup, ch, env)), setup, env)
  {
    var plan := PollPlan(slot.w.row, setup);
    PlansFit(slot.w, setup);
    PollFindsNoWorkingRunner(slot, now);
    RowNamesNewest(slot.w);
    hide Durable, Attended, CarryOut, RunsAs;
    if plan.Launch? {
      LaunchRunsExactlyWhen(slot, plan, setup.policy, ch, env);
    } else {
      GiveUpChangesNothing(slot, setup.policy, ch, env);
    }
  }

  /** The delayed retry is taken, or the row says why not. */
  ghost predicate PolledRetry(slot: Slot, slot': Slot, setup: Setup, env: Env)
    requires slot.w.recorded <= |slot.w.images|
  {
    var rebuilt := slot.w.row.checkpointCount > 0 && setup.reconstruct;
    var goes := setup.definition && setup.runtime && env.launch.Launched? && (rebuilt || slot.w.live == {});
    var counted := Int32(slot.w.row.retryCount + 1);
    && (slot'.w.launches != slot.w.launches <==> goes)
    && if goes then
         && RunsAs(slot', env.launch.pid) && slot'.InMap()
         && slot'.mem.value.r.checkpoint == (if rebuilt then NewestRecorded(slot.w) else None)
         && slot'.mem.value.r.onFailure == Some(setup.policy)
         && slot'.w.row == slot.w.row.(state := Running, startedAt := Some(env.now), retryCount := counted)
       else if !setup.definition then FailedBy(slot, slot', DefinitionNotFound, env.now)
       else if !setup.runtime then FailedBy(slot, slot', RuntimeNotFound, env.now)
       else if rebuilt then slot'.w.row == slot.w.row.(retryCount := counted)
       else slot'.w.row.state == Failed && slot'.w.row.retryCount == counted
  }

  /** A due delayed retry is taken at its poll exactly when definition and runtime are found and the
      runtime launches it: from the newest recorded checkpoint if that can be rebuilt, otherwise
      from scratch, which needs that nothing of the job is left running. */
  lemma PollRetriesExactlyWhen(slot: Slot, setup: Setup, ch: Chan, env: Env, now: int)
    requires SlotInv(slot) && Enabled(slot, Poll(setup, ch, env), now) && Reliable(env) && slot.w.row.state == PendingRetry
    ensures slot.w.recorded <= |slot.w.images| && PolledRetry(slot, SlotStep(slot, Poll(setup, ch, env)), setup, env)
  {
    PollFindsNoWorkingRunner(slot, now);
    RowNamesNewest(slot.w);
    hide SlotInv, Durable, CarryOut, PolledRetry, PollPlan, AtWork;
    PlannedRetry(slot, setup, ch, env);
    PolledAsPlanned(slot, setup, ch, env);
  }

  lemma PolledAsPlanned(slot: Slot, setup: Setup, ch: Chan, env: Env)
    ensures SlotStep(slot, Poll(setup, ch, env)) == CarryOut(slot, PollPlan(slot.w.row, setup), setup.policy, ch, env)
  {
    hide CarryOut, PollPlan;
  }

  lemma PlannedRetry(slot: Slot, setup: Setup, ch: Chan, env: Env)
    requires Durable(slot.w) && !AtWork(slot) && Reliable(env) && slot.w.row.state == PendingRetry
    ensures slot.w.recorded <= |slot.w.images|
    ensures PolledRetry(slot, CarryOut(slot, PollPlan(slot.w.row, setup), setup.policy, ch, env), setup, env)
  {
    hide Durable, CarryOut, RunsAs, NewestRecorded, AtWork, FailedBy, PollPlan, UnlaunchedRow, Loaded;
    RetryPlanFits(slot.w, setup);
    var plan := PollPlan(slot.w.row, setup);
    if plan.Launch? {
      LaunchRunsExactlyWhen(slot, plan, setup.policy, ch, env);
      UnlaunchedRetryRow(slot.w, plan.checkpoint, env);
    } else {
      MarkedFailed(slot, plan.failure, setup.policy, ch, env);
    }
  }

  lemma RetryPlanFits(w: World, setup: Setup)
    requires Durable(w) && w.row.state == PendingRetry
    ensures var plan := PollPlan(w.row, setup);
            && w.recorded <= |w.images|
            && if !setup.definition then plan == MarkFailed(DefinitionNotFound)
               else if !setup.runtime then plan == MarkFailed(RuntimeNotFound)
               else
                 && plan.Launch? && plan.entry == ByRetry && Loaded(ByRetry, w.row, plan.job, plan.checkpoint)
                 && plan.checkpoint == (if w.row.checkpointCount > 0 && setup.reconstruct then NewestRecorded(w) else None)
                 && (plan.checkpoint.Some? <==> w.row.checkpointCount > 0 && setup.reconstruct)
  {
    RowNamesNewest(w);
    UsablePathMeansRecorded(w);
  }

  lemma UnlaunchedRetryRow(w: World, checkpoint: Option<string>, env: Env)
    ensures var row := UnlaunchedRow(w, ByRetry, checkpoint, env);
            if checkpoint.Some? then row == w.row.(retryCount := Int32(w.row.retryCount + 1))
            else row.state == Failed && row.retryCount == Int32(w.row.retryCount + 1)
  {}

  /** The job is marked failed with its row, and nothing else happens. */
  predicate FailedBy(slot: Slot, slot': Slot, failure: Failure, now: int) {
    && slot'.w.launches == slot.w.launches && slot'.w.live == slot.w.live && slot'.mem == slot.mem
    && slot'.w.row == slot.w.row.(state := Failed, error := Some(failure), completedAt := Some(now),
                                  resultExitCode := None, resultOutput := None)
  }

  lemma MarkedFailed(slot: Slot, failure: Failure, policy: Policy, ch: Chan, env: Env)
    requires Reliable(env)
    ensures FailedBy(slot, CarryOut(slot, MarkFailed(failure), policy, ch, env), failure, env.now)
  {}

  // ----- recovery and spawn -----

  /** Recovery of an interrupted job nobody works on, row by row of what it finds. */
  lemma RecoveryLaunchesExactlyWhen(slot: Slot, setup: Setup, ch: Chan, env: Env)
    requires SlotInv(slot) && !slot.hung && !AtWork(slot) && Interrupted(slot.w.row) && Reliable(env)
    ensures var slot' := SlotStep(slot, Recover(setup, ch, env));
            var row := slot.w.row;
            var wakes := row.checkpointCount > 0 && setup.definition && setup.runtime && setup.file && setup.reconstruct;
            var starts := row.state == Pending && setup.definition && setup.runtime;
            && slot.w.recorded <= |slot.w.images|
            && (slot'.w.launches != slot.w.launches <==>
                  env.launch.Launched? && (if row.state == Running then wakes else starts && slot.w.live == {}))
            && (row.state == Running && wakes && env.launch.Launched? ==>
                  RunsAs(slot', env.launch.pid) && slot'.InMap() && slot'.mem.value.r.checkpoint == NewestRecorded(slot.w))
            && (starts && env.launch.Launched? && slot.w.live == {} ==>
                  RunsAs(slot', env.launch.pid) && slot'.InMap() && slot'.mem.value.r.checkpoint == None)
            && (row.state == Running && row.checkpointCount == 0 ==>
                  && (!setup.definition ==> FailedBy(slot, slot', InterruptedWithoutDefinition, env.now))
                  && (setup.definition && row.retryCount >= setup.policy.maxRetries ==>
                        FailedBy(slot, slot', InterruptedWithoutRetries, env.now)))
            && (row.state == Pending && !setup.definition ==> FailedBy(slot, slot', DefinitionNotFound, env.now))
            && (row.state == Pending && setup.definition && !setup.runtime ==>
                  FailedBy(slot, slot', RuntimeNotFound, env.now))
  {
    var plan := RecoverPlan(slot.w.row, setup);
    PlansFit(slot.w, setup);
    RowNamesNewest(slot.w);
    UsablePathMeansRecorded(slot.w);
    hide SlotInv, Durable, Attended, CarryOut, RunsAs;
    match plan
    case GiveUp => GiveUpChangesNothing(slot, setup.policy, ch, env);
    case MarkFailed(failure) => MarkedFailed(slot, failure, setup.policy, ch, env);
    case Launch(entry, job, checkpoint) =>
      if Loaded(entry, slot.w.row, job, checkpoint) {
        LaunchRunsExactlyWhen(slot, plan, setup.policy, ch, env);
      } else {
        RestartLaunchesNothing(slot, plan, setup.policy, ch, env);
      }
  }

  lemma RestartLaunchesNothing(slot: Slot, plan: Plan, policy: Policy, ch: Chan, env: Env)
    requires plan.Launch? && plan.entry == ByStart && plan.job.state != Pending && plan.checkpoint.None?
    ensures CarryOut(slot, plan, policy, ch, env).w.launches == slot.w.launches
  {
    RefusedLaunch(Under(slot, plan, policy), plan, ch, env);
  }

  /** The rest of a spawn, when nothing has happened to its row: the job runs exactly when the
      runtime starts it, under the policy of its definition. */
  lemma SpawnRunsExactlyWhen(slot: Slot, policy: Policy, ch: Chan, env: Env)
    requires SlotInv(slot) && !slot.hung && AsInserted(slot) && Reliable(env)
    ensures var slot' := BeginTurn(slot, policy, ch, env, None);
            if env.launch.Launched? && slot.w.live == {} then
              && RunsAs(slot', env.launch.pid) && slot'.InMap() && slot'.w.launches == slot.w.launches + 1
              && slot'.mem.value.r.checkpoint.None? && slot'.mem.value.r.onFailure == Some(policy)
              && slot'.w.row == slot.w.row.(state := Running, startedAt := Some(env.now))
            else
              slot'.mem.None? && slot'.w.launches == slot.w.launches && slot'.w.row.state == Failed
  {
    AsInsertedIsIdle(slot);
    hide Durable, Attended, CarryOut, RunsAs;
    LaunchRunsExactlyWhen(slot, SpawnPlan(slot.w.row.createdAt), policy, ch, env);
  }

  // ----- checkpoints -----

  lemma CheckpointOutcome(w: World, r: Runner, suspend: int, token: string, ch: Chan, env: Env)
    requires CheckpointAdmitted(r, token) && Reliable(env)
    ensures var o := Handle(r, w.live, Message(Checkpoint(suspend, token), Some(ch)), env);
            var w' := WorldAt(w, o, 4);
            match env.capture
            case CaptureFailed(err) =>
              && w' == w && o.r.job.state == Running && !LoopEnds(o.r) && o.r.checkpointTokens == r.checkpointTokens
              && o.r.checkpoint == r.checkpoint && o.reply == Some(Error(CheckpointError(err)))
              && o.r.job == r.job.(lastCheckpointAt := Some(env.now), op := Idle, resumeAt := None)
            case Captured(path) =>
              && w'.images == w.images + [Image(path, token)] && w'.recorded == w'.acked == |w'.images|
              && w'.live == (if suspend == 0 then w.live else {}) && w'.launches == w.launches
              && w'.row == w.row.(state := if suspend == 0 then Running else Suspended,
                                  checkpointCount := w.row.checkpointCount + 1, lastCheckpointAt := Some(env.now),
                                  resumeAt := if suspend == 0 then r.job.resumeAt else Some(env.now + suspend),
                                  checkpointPath := Some(path))
              && !LoopEnds(o.r) && o.r.job.state == w'.row.state && o.r.checkpoint == Some(path)
              && o.r.checkpointTokens == r.checkpointTokens + {token}
              && o.r.job.lastCheckpointAt == Some(env.now) && o.r.job.op == Idle && o.r.job.resumeAt == w'.row.resumeAt
              && o.reply == Some(CheckpointDone(o.r.job)) && o.r.job.checkpointCount == r.job.checkpointCount + 1
  {
    hide HandleStart, HandleWake, HandleRetry, HandleExit, HandleKill, HandleProcessExited;
  }

  /** An admitted checkpoint that the runtime takes is the newest recorded and acknowledged one. The
      job goes on under the same process, or none is left of it and its row says until when it
      sleeps. One that fails leaves the job running and the row as it was. */
  lemma CheckpointRecordsImage(slot: Slot, suspend: int, token: string, ch: Chan, env: Env)
    requires Live(slot) && Reliable(env) && CheckpointAdmitted(slot.mem.value.r, token)
    ensures var cmd := Checkpoint(suspend, token);
            var slot' := After(slot, cmd, Some(ch), env);
            var w, w', r' := slot.w, slot'.w, slot'.mem.value.r;
            match env.capture
            case CaptureFailed(err) =>
              w' == w && r'.job.state == Running && ReplyTo(slot, cmd, ch, env) == Some(Error(CheckpointError(err)))
            case Captured(path) =>
              && w'.images == w.images + [Image(path, token)] && w'.recorded == w'.acked == |w'.images|
              && w'.row.checkpointPath == Some(path) && w'.row.checkpointCount == w.row.checkpointCount + 1
              && token in r'.checkpointTokens && ReplyTo(slot, cmd, ch, env) == Some(CheckpointDone(r'.job))
              && if suspend == 0 then w'.live == w.live && w'.row.state == Running && w'.row.resumeAt == r'.job.resumeAt
                 else w'.live == {} && Waiting(w', env.now + suspend) && w'.row.state == Suspended
  {
    LiveFacts(slot);
    hide SlotInv, Handle, WorldAt, CheckpointAdmitted;
    CommandDoes(slot, Checkpoint(suspend, token), Some(ch), env);
    CheckpointOutcome(slot.w, slot.mem.value.r, suspend, token, ch, env);
  }

  /** A checkpoint without a path leaves none on the row. */
  lemma EmptyPathIsNoPath(slot: Slot, suspend: int, token: string, ch: Chan, env: Env)
    requires slot.mem.Some? && !slot.mem.value.stopped && !slot.hung && CheckpointAdmitted(slot.mem.value.r, token)
    requires env.capture.Captured? && env.firstWriteOk
    ensures After(slot, Checkpoint(suspend, token), Some(ch), env).w.row.checkpointPath ==
            if env.capture.path == "" then None else Some(env.capture.path)
  {
    hide Handle, WorldAt;
    CommandDoes(slot, Checkpoint(suspend, token), Some(ch), env);
    CapturedPath(slot.w, slot.mem.value.r, suspend, token, ch, env);
  }

  lemma CapturedPath(w: World, r: Runner, suspend: int, token: string, ch: Chan, env: Env)
    requires CheckpointAdmitted(r, token) && env.capture.Captured? && env.firstWriteOk
    ensures WorldAt(w, Handle(r, w.live, Message(Checkpoint(suspend, token), Some(ch)), env), 4).row.checkpointPath ==
            if env.capture.path == "" then None else Some(env.capture.path)
  {
    hide HandleStart, HandleWake, HandleRetry, HandleExit, HandleKill, HandleProcessExited;
  }

  // ----- eviction -----

  /** A runner that has ended is always evicted: the job it ends with passes maybeEvictJob's
      condition, a retry put off included, which the poller would otherwise pass over. Of a live
      runner's it is the sleeper's, and a failed one's whose retry is under way. */
  lemma EndedRunnersAreEvicted(slot: Slot)
    requires SlotInv(slot) && slot.mem.Some?
    ensures var a := slot.mem.value;
            if a.stopped then Evictable(a.r.job)
            else (Evictable(a.r.job) <==> a.r.job.state == Suspended || (a.r.job.state == Failed && a.r.retryPending))
  {
    hide Durable, InStep, OneEach, Balanced;
  }

  // ----- locks, states and refusals -----

  /** A lock can be had until the job has settled, and is then held until it is given back. */
  lemma LocksAreGiven(slot: Slot, ch: Chan, env: Env)
    requires Live(slot)
    ensures var slot' := After(slot, TakeLock, Some(ch), env);
            var r, r' := slot.mem.value.r, slot'.mem.value.r;
            slot'.w == slot.w &&
            if r.job.state.IsTerminal() then r' == r && ReplyTo(slot, TakeLock, ch, env) == Some(Error(HasTerminated))
            else
              var lockID := Numbered(r.lockCounter + 1);
              && ReplyTo(slot, TakeLock, ch, env) == Some(LockTaken(lockID)) && lockID !in r.activeLocks
              && r'.activeLocks == r.activeLocks + {lockID} && !slot'.mem.value.stopped
  {
    LiveFacts(slot);
    NextLockIsFree(slot.mem.value.r, slot.mem.value.h);
    hide SlotInv;
    CommandDoes(slot, TakeLock, Some(ch), env);
    hide LoopStep;
  }

  lemma NextLockIsFree(r: Runner, h: History)
    requires LocksBalance(r, h)
    ensures Numbered(r.lockCounter + 1) !in r.activeLocks
  {}

  /** Exactly a lock that is held can be given back. */
  lemma LocksAreReturned(slot: Slot, lockID: LockID, ch: Chan, env: Env)
    requires Live(slot)
    ensures var cmd := ReleaseLock(lockID);
            var slot' := After(slot, cmd, Some(ch), env);
            var r, r' := slot.mem.value.r, slot'.mem.value.r;
            && slot'.w == slot.w && r'.activeLocks == r.activeLocks - {lockID}
            && ReplyTo(slot, cmd, ch, env) == Some(if lockID in r.activeLocks then Empty else Error(NoSuchLock(lockID)))
  {
    LiveFacts(slot);
    hide SlotInv;
    CommandDoes(slot, ReleaseLock(lockID), Some(ch), env);
    hide LoopStep;
  }

  /** Asking for the state shows the job and changes nothing. */
  lemma StateIsShown(slot: Slot, ch: Chan, env: Env)
    requires Live(slot)
    ensures var slot' := After(slot, GetState, Some(ch), env);
            && slot'.w == slot.w && slot'.mem.value.r == slot.mem.value.r
            && ReplyTo(slot, GetState, ch, env) == Some(JobInfo(slot.mem.value.r.job))
  {
    LiveFacts(slot);
    hide SlotInv;
    CommandDoes(slot, GetState, Some(ch), env);
    hide LoopStep;
  }

  // ----- refusals -----

  /** The reason given for refusing a command is the case. */
  predicate Truthful(r: Runner, cmd: Command, reason: Refusal) {
    match reason
    case CannotStart(state) => cmd.Start? && r.job.state == state && state != Pending
    case CannotKill(state) => cmd.Kill? && r.job.state == state && (state == Pending || state == PendingRetry)
    case CannotExit(state) => cmd.Exit? && r.job.state == state && !state.IsTerminal() && state != Running
    case CannotRetry(state) => cmd.Retry? && r.job.state == state && state != Failed && state != PendingRetry
    case CannotCheckpoint(state) => cmd.Checkpoint? && r.job.state == state && !state.IsTerminal() && state != Running
    case NotSuspended => cmd.Wake? && r.job.state != Suspended
    case HasTerminated =>
      r.job.state.IsTerminal() && (cmd.Checkpoint? || cmd.Kill? || cmd.Exit? || cmd.TakeLock?)
    case TokenRequired => cmd.Checkpoint? && cmd.token == ""
    case LocksHeld(count) => cmd.Checkpoint? && count == |r.activeLocks| > 0
    case NoSuchLock(lockID) => cmd == ReleaseLock(lockID) && lockID !in r.activeLocks
    case LaunchError(_) => cmd.Start? || cmd.Wake? || cmd.Retry?
    case CheckpointError(_) => cmd.Checkpoint? && CheckpointAdmitted(r, cmd.token)
    case KillError(_) => cmd.Kill? && (r.job.state == Running || r.job.state == Suspended) && r.process.Some?
    case RunnerStopped => false
  }

  /** The command was let through to the runtime and failed there. */
  predicate FailedInRuntime(reason: Refusal) {
    reason.LaunchError? || reason.CheckpointError? || reason.KillError?
  }

  /** A command that is refused is refused for a reason that holds, and leaves the world as it was
      unless it was the runtime that failed; the runner as well, but for a retry not pending any
      more. */
  lemma RefusalsAreTruthful(w: World, r: Runner, msg: Message, env: Env)
    ensures var o := Handle(r, w.live, msg, env);
            o.reply.Some? && o.reply.value.Error? ==>
              var reason := o.reply.value.reason;
              && Truthful(r, msg.cmd, reason)
              && (!FailedInRuntime(reason) ==>
                    WorldAt(w, o, 4) == w && o.r == r.(retryPending := r.retryPending && !msg.cmd.Retry?))
  {
    match msg.cmd
    case Retry => hide HandleStart, HandleWake, HandleCheckpoint, HandleKill, HandleExit, HandleProcessExited;
    case ProcessExited(_, _, _) => hide HandleStart, HandleWake, HandleCheckpoint, HandleKill, HandleExit, HandleRetry;
    case _ => hide HandleRetry, HandleProcessExited;
  }

  /** And conversely: these are all the requests that are refused outright. */
  predicate Refusable(r: Runner, cmd: Command) {
    match cmd
    case Checkpoint(_, token) =>
      token == "" || (token !in r.checkpointTokens && r.job.op != Checkpointing && !CheckpointAdmitted(r, token))
      || (token !in r.checkpointTokens && r.job.state.IsTerminal())
    case Kill => r.job.state != Running && r.job.state != Suspended
    case Exit(_, _) => r.job.state != Running
    case TakeLock => r.job.state.IsTerminal()
    case ReleaseLock(lockID) => lockID !in r.activeLocks
    case _ => false
  }

  lemma RefusedExactlyWhen(r: Runner, live: set<Pid>, msg: Message, env: Env)
    requires !msg.cmd.Start? && !msg.cmd.Wake? && !msg.cmd.Retry? && !msg.cmd.ProcessExited?
    ensures var reply := Handle(r, live, msg, env).reply;
            (reply.Some? && reply.value.Error? && !FailedInRuntime(reply.value.reason)) <==> Refusable(r, msg.cmd)
  {
    hide HandleRetry, HandleProcessExited, HandleStart, HandleWake;
  }

  // ----- stopping -----

  /** A runner goes on until it is told to stop; once it has been, the loop can end at any turn, with
      the job as it is. */
  lemma StopLetsTheLoopEnd(l: Loop, ch: Option<Chan>, env: Env)
    requires Lawful(l) && !l.stopped
    ensures var told := LoopStep(l, Deliver(Message(Stop, ch), env));
            && told.m.r.cancelled && !told.stopped && told.m.w == l.m.w && told.m.r.job == l.m.r.job
            && LoopStep(told, ContextDone).stopped && LoopStep(told, ContextDone).m == told.m
    ensures !l.m.r.cancelled ==> LoopStep(l, ContextDone) == l
  {
    LoopStepShape(l, Message(Stop, ch), env);
    LawfulTurns(l);
    hide Lawful;
  }
}
