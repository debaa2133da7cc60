/** What each command does to a runner: the transition functions behind job_runner.go.
    The class JobRunner is proved to compute exactly these. */
module RunnerSpec {
  import opened Wrappers
  import opened Jobs
  import opened Rows
  import opened Machine

  datatype Launch = Launched(pid: Pid) | LaunchFailed(err: string)
  datatype Capturing = Captured(path: string) | CaptureFailed(err: string)

  /** The answers of the clock, the runtime and the database during one command. `later` is
      the second clock reading of handlers that take two. */
  datatype Env = Env(
    now: int,
    later: int,
    launch: Launch,
    capture: Capturing,
    killError: Option<string>,
    cleanupOk: bool,
    firstWriteOk: bool,
    secondWriteOk: bool
  )

  datatype Command =
    | Start
    | Checkpoint(suspend: int, token: string)
    | Kill
    | Exit(code: int, output: Option<string>)
    | GetState
    | TakeLock
    | ReleaseLock(lockID: LockID)
    | WaitForResult
    | ProcessExited(pid: Pid, exitCode: int, exitError: Option<string>)
    | Retry
    | Wake
    | Stop

  datatype Message = Message(cmd: Command, ch: Option<Chan>)

  /** Runtime contract: no second process starts under a live execution id. */
  function RtStart(live: set<Pid>, env: Env): Launch {
    if live != {} then LaunchFailed([]) else env.launch
  }

  function RtRestore(checkpoint: Option<string>, env: Env): Launch {
    if checkpoint.None? then LaunchFailed([]) else env.launch
  }

  /** A command that only replies. */
  function Reply(r: Runner, res: Response): Outcome {
    Outcome(r, None, None, None, Some(res), Nothing)
  }

  function Refuse(r: Runner, reason: Refusal): Outcome {
    Reply(r, Error(reason))
  }

  function HandleStart(r: Runner, live: set<Pid>, env: Env): Outcome {
    var j := r.job;
    if j.state != Pending then Refuse(r, CannotStart(j.state))
    else
      match RtStart(live, env)
      case LaunchFailed(err) =>
        var error := Some(StartFailed(err));
        Outcome(r.(job := j.(state := Failed, error := error)), None, None,
                Some(Write(CompletedUpdate(Failed, None, None, error), env.firstWriteOk)),
                Some(Error(LaunchError(err))), Nothing)
      case Launched(pid) =>
        var j' := j.(startedAt := Some(env.now), state := Running);
        Outcome(r.(process := Some(pid), job := j', exitWatchers := Watcher(pid, r.exitWatchers)),
                None, Some(Started(pid)), Some(Write(UpdateStarted(env.now), env.firstWriteOk)),
                Some(JobInfo(j')), Nothing)
  }

  /** The part of handleProcessExited that settles the job, before cleanup and callback. */
  function SettleExit(j: JobRecord, code: int, exitError: Option<string>, now: int): JobRecord {
    var done := j.(completedAt := Some(now));
    if exitError.Some? then done.(state := Failed, error := Some(WaitFailed(exitError.value)))
    else if code != 0 then
      done.(state := Failed, error := Some(ExitCode(code)), result := Some(JobResult(code, None)))
    else
      done.(state := Completed, result := if j.result.None? then Some(JobResult(0, None)) else j.result)
  }

  function HandleProcessExited(r: Runner, code: int, exitError: Option<string>, env: Env): Outcome {
    if r.job.state.IsTerminal() || r.job.state == Suspended then
      Outcome(r, None, None, None, None, Nothing)
    else
      var j := SettleExit(r.job, code, exitError, env.now);
      if j.state == Failed && r.onFailure.Some? && j.retryCount < r.onFailure.value.maxRetries then
        ScheduleRetry(r, j, r.onFailure.value.retryDelay, env)
      else
        Conclude(r, j, env)
  }

  function Cleanup(r: Runner, env: Env): Option<Call> {
    if env.cleanupOk && r.process.Some? then Some(Cleaned(r.process.value)) else None
  }

  /** The failure callback asked for a retry: the poller's, or at once by command. */
  function ScheduleRetry(r: Runner, j: JobRecord, delay: int, env: Env): Outcome {
    if delay > 0 then
      Outcome(r.(job := j.(state := PendingRetry, resumeAt := Some(env.later + delay))), None, Cleanup(r, env),
              Some(Write(UpdatePendingRetry(env.later + delay), env.firstWriteOk)), None, AttemptFailed)
    else
      Outcome(r.(job := j, retryPending := true, retrySenders := r.retrySenders + 1),
              None, Cleanup(r, env), None, None, AttemptFailed)
  }

  function Conclude(r: Runner, j: JobRecord, env: Env): Outcome {
    Outcome(r.(job := j), None, Cleanup(r, env),
            Some(Write(CompletedUpdate(j.state, j.completedAt, j.result, j.error), env.firstWriteOk)),
            None, if j.state == Failed then AttemptFailed else Nothing)
  }

  /** What the checks of handleCheckpoint ask for before the runtime is called. */
  predicate CheckpointAdmitted(r: Runner, token: string) {
    && token != ""
    && token !in r.checkpointTokens
    && r.job.op != Checkpointing
    && |r.activeLocks| == 0
    && r.job.state == Running
  }

  function HandleCheckpoint(r: Runner, suspend: int, token: string, ch: Option<Chan>, env: Env): Outcome {
    var j := r.job;
    if token == "" then Refuse(r, TokenRequired)
    else if token in r.checkpointTokens then Reply(r, CheckpointDone(j))
    else if j.state.IsTerminal() then Refuse(r, HasTerminated)
    else if j.op == Checkpointing then
      Outcome(r.(pendingCheckpointRequests := r.pendingCheckpointRequests + [ch]),
              None, None, None, None, Nothing)
    else if |r.activeLocks| > 0 then
      Refuse(r, LocksHeld(|r.activeLocks|))
    else if j.state != Running then Refuse(r, CannotCheckpoint(j.state))
    else Capture1(r, suspend, token, env)
  }

  /** The admitted checkpoint. */
  function Capture1(r: Runner, suspend: int, token: string, env: Env): Outcome {
    var keepRunning := suspend == 0;
    match env.capture
    case CaptureFailed(err) =>
      var j := r.job.(lastCheckpointAt := Some(env.now), op := Idle, resumeAt := None);
      Outcome(r.(job := j, pendingCheckpointRequests := []), None, None, None,
              Some(Error(CheckpointError(err))), Capture)
    case Captured(path) =>
      var j := r.job.(checkpointCount := r.job.checkpointCount + 1, lastCheckpointAt := Some(env.now), op := Idle,
                      resumeAt := if keepRunning then r.job.resumeAt else Some(env.now + suspend),
                      state := if keepRunning then r.job.state else Suspended);
      Outcome(r.(job := j, checkpoint := Some(path), checkpointTokens := r.checkpointTokens + {token},
                 pendingCheckpointRequests := []),
              None, Some(Imaged(keepRunning, Image(path, token))),
              Some(Write(UpdateCheckpointed(if keepRunning then Running else Suspended, env.now, j.resumeAt,
                                            NullString(path)), env.firstWriteOk)),
              Some(CheckpointDone(j)), Capture)
  }

  function HandleWake(r: Runner, env: Env): Outcome {
    if r.job.state != Suspended then Refuse(r, NotSuspended)
    else
      var j := r.job.(state := Running, resumeAt := None);
      var running := Some(Write(UpdateState(Running), env.firstWriteOk));
      match RtRestore(r.checkpoint, env)
      case LaunchFailed(err) =>
        var error := Some(RestoreFailed(err));
        Outcome(r.(job := j.(state := Failed, error := error, completedAt := Some(env.now))), running, None,
                Some(Write(CompletedUpdate(Failed, Some(env.now), None, error), env.secondWriteOk)),
                Some(Error(LaunchError(err))), Nothing)
      case Launched(pid) =>
        Outcome(r.(job := j, process := Some(pid), exitWatchers := Watcher(pid, r.exitWatchers)), running,
                Some(Restored(pid)), None, Some(JobInfo(j)), Nothing)
  }

  function HandleKill(r: Runner, env: Env): Outcome {
    var j := r.job;
    if j.state.IsTerminal() then Refuse(r, HasTerminated)
    else if j.state != Running && j.state != Suspended then
      Refuse(r, CannotKill(j.state))
    else if r.process.Some? && env.killError.Some? then
      Refuse(r.(job := j.(op := Terminating)), KillError(env.killError.value))
    else
      var j' := j.(op := Terminating, state := Failed, error := Some(KilledByCaller), completedAt := Some(env.now));
      Outcome(r.(job := j'), None, if r.process.Some? then Some(Killed(r.process.value)) else None,
              Some(Write(CompletedUpdate(Failed, Some(env.now), None, Some(KilledByCaller)), env.firstWriteOk)),
              Some(JobInfo(j')), Nothing)
  }

  function HandleExit(r: Runner, code: int, output: Option<string>, env: Env): Outcome {
    var j := r.job;
    if j.state.IsTerminal() then Refuse(r, HasTerminated)
    else if j.state != Running then Refuse(r, CannotExit(j.state))
    else
      var errorMsg := if code == 0 then None else Some(ExitCode(code));
      var j' := j.(op := Exiting, state := if code == 0 then Completed else Failed,
                   error := if code == 0 then j.error else errorMsg,
                   result := Some(JobResult(code, output)), completedAt := Some(env.now));
      Outcome(r.(job := j'), None, None,
              Some(Write(CompletedUpdate(j'.state, Some(env.now), j'.result, errorMsg), env.firstWriteOk)),
              Some(JobInfo(j')), Nothing)
  }

  function HandleTakeLock(r: Runner): Outcome {
    if r.job.state.IsTerminal() then Refuse(r, HasTerminated)
    else
      var lockID := Numbered(r.lockCounter + 1);
      Outcome(r.(lockCounter := r.lockCounter + 1, activeLocks := r.activeLocks + {lockID}),
              None, None, None, Some(LockTaken(lockID)), Issued(lockID))
  }

  function HandleReleaseLock(r: Runner, lockID: LockID): Outcome {
    if lockID !in r.activeLocks then Refuse(r, NoSuchLock(lockID))
    else
      Outcome(r.(activeLocks := r.activeLocks - {lockID}), None, None, None, Some(Empty), Released(lockID))
  }

  function HandleWaitForResult(r: Runner, ch: Option<Chan>): Outcome {
    if r.job.state.IsTerminal() then Reply(r, JobInfo(r.job))
    else Outcome(r.(resultWaiters := r.resultWaiters + [ch]), None, None, None, None, Nothing)
  }

  function HandleRetry(r: Runner, live: set<Pid>, env: Env): Outcome {
    var j := r.job;
    var r0 := r.(retryPending := false);
    if j.state != Failed && j.state != PendingRetry then
      Refuse(r0, CannotRetry(j.state))
    else
      var j1 := j.(op := Restarting, retryCount := j.retryCount + 1, error := None, result := None,
                   completedAt := None);
      var count := Write(UpdateRetryCount(Int32(j1.retryCount)), env.firstWriteOk);
      if r.checkpoint.Some? then Relaunch(r0.(job := j1), count, env) else Restart(r0.(job := j1), count, live, env)
  }

  /** Retry from the checkpoint. A failed restore writes no terminal row. */
  function Relaunch(r: Runner, count: Write, env: Env): Outcome {
    match RtRestore(r.checkpoint, env)
    case LaunchFailed(err) =>
      Outcome(r.(job := r.job.(state := Failed, error := Some(RestoreFailed(err)), completedAt := Some(env.now))),
              Some(count), None, None, Some(Error(LaunchError(err))), Nothing)
    case Launched(pid) =>
      var j := r.job.(state := Running, resumeAt := None);
      Outcome(r.(process := Some(pid), job := j, exitWatchers := Watcher(pid, r.exitWatchers)), Some(count),
              Some(Restored(pid)), Some(Write(UpdateStarted(env.now), env.secondWriteOk)),
              Some(JobInfo(j)), Nothing)
  }

  /** Retry from scratch. `resumeAt` is left as it was. */
  function Restart(r: Runner, count: Write, live: set<Pid>, env: Env): Outcome {
    match RtStart(live, env)
    case LaunchFailed(err) =>
      var error := Some(StartFailed(err));
      Outcome(r.(job := r.job.(state := Failed, error := error)), Some(count), None,
              Some(Write(CompletedUpdate(Failed, None, None, error), env.secondWriteOk)),
              Some(Error(LaunchError(err))), Nothing)
    case Launched(pid) =>
      var j := r.job.(state := Running, startedAt := Some(env.now));
      Outcome(r.(process := Some(pid), job := j, exitWatchers := Watcher(pid, r.exitWatchers)), Some(count),
              Some(Started(pid)), Some(Write(UpdateStarted(env.now), env.secondWriteOk)),
              Some(JobInfo(j)), Nothing)
  }

  function Handle(r: Runner, live: set<Pid>, msg: Message, env: Env): Outcome {
    match msg.cmd
    case Start => HandleStart(r, live, env)
    case Checkpoint(suspend, token) => HandleCheckpoint(r, suspend, token, msg.ch, env)
    case Kill => HandleKill(r, env)
    case Exit(code, output) => HandleExit(r, code, output, env)
    case GetState => Reply(r, JobInfo(r.job))
    case TakeLock => HandleTakeLock(r)
    case ReleaseLock(lockID) => HandleReleaseLock(r, lockID)
    case WaitForResult => HandleWaitForResult(r, msg.ch)
    case ProcessExited(pid, code, exitError) => HandleProcessExited(r, code, exitError, env)
    case Retry => HandleRetry(r, live, env)
    case Wake => HandleWake(r, env)
    case Stop => Reply(r.(cancelled := true), Empty)
  }

  // ----- the command loop -----

  /** A runner's loop: its machine, and whether commandLoop has returned. */
  datatype Loop = Loop(m: Machine, stopped: bool)

  /** What `select` can pick: the next queued command, or a cancelled context. */
  datatype Event = Deliver(msg: Message, env: Env) | ContextDone

  /** The goroutine that sent an internal command has ended. */
  function SenderGone(r: Runner, cmd: Command): Runner {
    if cmd.ProcessExited? then r.(exitWatchers := r.exitWatchers.Without(cmd.pid))
    else if cmd.Retry? && r.retrySenders > 0 then r.(retrySenders := r.retrySenders - 1)
    else r
  }

  function TakeFromQueue(m: Machine, msg: Message): Machine {
    m.(r := SenderGone(m.r, msg.cmd), h := m.h.(delivered := m.h.delivered + SomeChan(msg.ch)))
  }

  /** handleCommand. */
  function HandleCommand(m: Machine, msg: Message, env: Env): Machine {
    Commit(m, msg.ch, Handle(m.r, m.w.live, msg, env))
  }

  /** notifyWaiters: every waiter's goroutine replies with the settled job. */
  function NotifyWaiters(m: Machine): Machine {
    m.(r := m.r.(resultWaiters := []),
       h := m.h.(answered := m.h.answered + SomeChans(m.r.resultWaiters), told := Some(m.r.job)))
  }

  predicate LoopEnds(r: Runner) {
    (r.job.state.IsTerminal() && !r.retryPending) || r.job.state == PendingRetry
  }

  /** The check commandLoop makes after a command. */
  function Turn(m: Machine): Loop {
    if LoopEnds(m.r) then Loop(NotifyWaiters(m), true) else Loop(m, false)
  }

  /** One turn of commandLoop; after it has returned, one step of drainRemainingCommands. */
  function LoopStep(l: Loop, e: Event): Loop {
    match e
    case ContextDone => if l.m.r.cancelled then l.(stopped := true) else l
    case Deliver(msg, env) =>
      var m := TakeFromQueue(l.m, msg);
      if l.stopped then l.(m := Commit(m, msg.ch, Refuse(m.r, RunnerStopped)))
      else
        Turn(HandleCommand(m, msg, env))
  }

  function RunLoop(l: Loop, events: seq<Event>): Loop {
    if events == [] then l
    else LoopStep(RunLoop(l, events[..|events| - 1]), events[|events| - 1])
  }
}
