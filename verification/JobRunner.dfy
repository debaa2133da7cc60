/** hypervisor/job_runner.go: the runner itself. Its handlers update the runner and its job in
    place and call the database and the runtime in the source's order; each is proved to do
    exactly what its transition function says, and the loop to run exactly as RunLoop. */
module JobRunner {
  import opened Wrappers
  import opened Jobs
  import opened Rows
  import opened Machine
  import Spec = RunnerSpec
  import opened RunnerSpec
  import RunnerTheorems

  lemma StoreKeepsProcesses(w: World, write: Write)
    ensures Store(w, write).live == w.live
  {}

  /** The reply to a checkpoint tells its caller of every image there is. */
  function Acknowledged(w: World, reply: Option<Response>): World {
    if reply.Some? && reply.value.CheckpointDone? then w.(acked := |w.images|) else w
  }

  ghost function NoteOutcome(h: History, o: Outcome, answered: multiset<Chan>): History {
    var h' := NoteWrite(NoteWrite(NoteCommand(h, o.note), o.before), o.after);
    h'.(answered := h'.answered + answered)
  }

  /** Commit is the world before the reply, the reply, and the history. */
  lemma CommitInParts(m: Machine, ch: Option<Chan>, o: Outcome)
    ensures Commit(m, ch, o) ==
            Machine(o.r, Acknowledged(WorldAt(m.w, o, 3), o.reply), NoteOutcome(m.h, o, RepliedTo(m.r, ch, o)))
  {
    hide RepliedTo, NoteWrite, NoteCommand, Store, Perform;
  }

  lemma RepliesChangeNoWorld(w: World, r: Runner)
    ensures forall res :: WorldAt(w, Reply(r, res), 3) == w
    ensures forall res :: WorldAt(w, Reply(r.(cancelled := true), res), 3) == w
  {}

  lemma NobodyReleased(waiters: seq<Option<Chan>>)
    ensures SomeChans(waiters[..0]) == multiset{}
  {}

  lemma OneMoreReleased(waiters: seq<Option<Chan>>, i: nat)
    requires i < |waiters|
    ensures SomeChans(waiters[..i + 1]) == SomeChans(waiters[..i]) + SomeChan(waiters[i])
  {
    assert waiters[..i + 1][..i] == waiters[..i];
  }

  class JobRunner {
    const job: Job
    var process: Option<Pid>
    var checkpoint: Option<string>
    const onFailure: Option<Policy>
    var resultWaiters: seq<Option<Chan>>
    var activeLocks: set<LockID>
    var lockCounter: nat
    var checkpointTokens: set<string>
    var pendingCheckpointRequests: seq<Option<Chan>>
    var retryPending: bool
    var cancelled: bool
    var exitWatchers: Watchers
    var retrySenders: nat

    /** The database row and the processes, as this runner's calls leave them. */
    var world: World
    ghost var history: History

    /** The value of the runner's fields. */
    ghost function View(): Runner
      reads this, job
    {
      Runner(job.Clone(), process, checkpoint, onFailure, resultWaiters, activeLocks, lockCounter,
             checkpointTokens, pendingCheckpointRequests, retryPending, cancelled, exitWatchers, retrySenders)
    }

    ghost function State(): Machine
      reads this, job
    {
      Machine(View(), world, history)
    }

    /** NewJobRunner, setupRetryCallback and SetCheckpoint. */
    constructor (j: Job, policy: Policy, checkpoint: Option<string>, w: World, ghost h: History)
      ensures job == j && State() == Machine(NewRunner(j.Clone(), policy, checkpoint), w, h)
    {
      job, process, this.checkpoint, onFailure := j, None, checkpoint, Some(policy);
      resultWaiters, activeLocks, lockCounter := [], {}, 0;
      checkpointTokens, pendingCheckpointRequests := {}, [];
      retryPending, cancelled, exitWatchers, retrySenders := false, false, Nobody, 0;
      world, history := w, h;
    }

    // ----- what handlers do to the job -----

    method BeginRunning(pid: Pid, now: int)
      modifies this`process, job
      ensures process == Some(pid) && job.Clone() == old(job.Clone()).(startedAt := Some(now), state := Running)
    {
      process := Some(pid);
      job.startedAt := Some(now);
      job.state := Running;
    }

    method Rouse()
      modifies job
      ensures job.Clone() == old(job.Clone()).(state := Running, resumeAt := None)
    {
      job.state := Running;
      job.resumeAt := None;
    }

    /** A start that fails leaves no completion time. */
    method FailToStart(err: string)
      modifies job
      ensures job.Clone() == old(job.Clone()).(state := Failed, error := Some(StartFailed(err)))
    {
      job.state := Failed;
      job.error := Some(StartFailed(err));
    }

    method Fail(error: Failure, now: int)
      modifies job
      ensures job.Clone() == old(job.Clone()).(state := Failed, error := Some(error), completedAt := Some(now))
    {
      job.state := Failed;
      job.error := Some(error);
      job.completedAt := Some(now);
    }

    /** The job's fields after its own exit call, and the error text that goes to the row. */
    method FinishJob(code: int, output: Option<string>, now: int) returns (errorMsg: Option<Failure>)
      modifies job
      ensures errorMsg == if code == 0 then None else Some(ExitCode(code))
      ensures job.Clone() ==
              old(job.Clone()).(op := Exiting, state := if code == 0 then Completed else Failed,
                                error := if code == 0 then old(job.error) else errorMsg,
                                result := Some(JobResult(code, output)), completedAt := Some(now))
    {
      job.op := Exiting;
      errorMsg := None;
      if code == 0 {
        job.state := Completed;
      } else {
        job.state := Failed;
        errorMsg := Some(ExitCode(code));
        job.error := errorMsg;
      }
      job.result := Some(JobResult(code, output));
      job.completedAt := Some(now);
    }

    // ----- handlers: what is left to do after one is the reply it returns -----

    method HandleStart(env: Env) returns (res: Response)
      modifies this, job
      ensures history == old(history)
      ensures var o := Spec.HandleStart(old(View()), old(world).live, env);
              View() == o.r && world == WorldAt(old(world), o, 3) && o.reply == Some(res)
    {
      hide Store, Perform, CompletedUpdate, RtStart, RtRestore;
      if job.state != Pending {
        return Error(CannotStart(job.state));
      }
      match RtStart(world.live, env)
      case LaunchFailed(err) =>
        FailToStart(err);
        world := Store(world, Write(CompletedUpdate(Failed, None, None, job.error), env.firstWriteOk));
        res := Error(LaunchError(err));
      case Launched(pid) =>
        world := Perform(world, Started(pid));
        BeginRunning(pid, env.now);
        world := Store(world, Write(UpdateStarted(env.now), env.firstWriteOk));
        exitWatchers := Watcher(pid, exitWatchers);
        res := JobInfo(job.Clone());
    }

    method HandleWake(env: Env) returns (res: Response)
      modifies this, job
      ensures history == old(history)
      ensures var o := Spec.HandleWake(old(View()), env);
              View() == o.r && world == WorldAt(old(world), o, 3) && o.reply == Some(res)
    {
      hide Store, Perform, CompletedUpdate, RtStart, RtRestore;
      if job.state != Suspended {
        return Error(NotSuspended);
      }
      Rouse();
      world := Store(world, Write(UpdateState(Running), env.firstWriteOk));
      match RtRestore(checkpoint, env)
      case LaunchFailed(err) =>
        Fail(RestoreFailed(err), env.now);
        world := Store(world, Write(CompletedUpdate(Failed, job.completedAt, None, job.error), env.secondWriteOk));
        res := Error(LaunchError(err));
      case Launched(pid) =>
        world := Perform(world, Restored(pid));
        process := Some(pid);
        exitWatchers := Watcher(pid, exitWatchers);
        res := JobInfo(job.Clone());
    }

    method HandleKill(env: Env) returns (res: Response)
      modifies this, job
      ensures history == old(history)
      ensures var o := Spec.HandleKill(old(View()), env);
              View() == o.r && world == WorldAt(old(world), o, 3) && o.reply == Some(res)
    {
      hide Store, Perform, CompletedUpdate, RtStart, RtRestore;
      if job.state.IsTerminal() {
        return Error(HasTerminated);
      }
      if job.state != Running && job.state != Suspended {
        return Error(CannotKill(job.state));
      }
      job.op := Terminating;
      if process.Some? {
        if env.killError.Some? {
          return Error(KillError(env.killError.value));
        }
        world := Perform(world, Killed(process.value));
      }
      Fail(KilledByCaller, env.now);
      world := Store(world, Write(CompletedUpdate(Failed, Some(env.now), None, Some(KilledByCaller)), env.firstWriteOk));
      res := JobInfo(job.Clone());
    }

    method HandleExit(code: int, output: Option<string>, env: Env) returns (res: Response)
      modifies this, job
      ensures history == old(history)
      ensures var o := Spec.HandleExit(old(View()), code, output, env);
              View() == o.r && world == WorldAt(old(world), o, 3) && o.reply == Some(res)
    {
      hide Store, Perform, CompletedUpdate, RtStart, RtRestore;
      if job.state.IsTerminal() {
        return Error(HasTerminated);
      }
      if job.state != Running {
        return Error(CannotExit(job.state));
      }
      var errorMsg := FinishJob(code, output, env.now);
      world := Store(world, Write(CompletedUpdate(job.state, Some(env.now), job.result, errorMsg), env.firstWriteOk));
      res := JobInfo(job.Clone());
    }

    method HandleTakeLock() returns (res: Response)
      modifies this`lockCounter, this`activeLocks
      ensures var o := Spec.HandleTakeLock(old(View()));
              View() == o.r && world == WorldAt(world, o, 3) && o.reply == Some(res)
    {
      if job.state.IsTerminal() {
        return Error(HasTerminated);
      }
      lockCounter := lockCounter + 1;
      var lockID := Numbered(lockCounter);
      activeLocks := activeLocks + {lockID};
      res := LockTaken(lockID);
    }

    method HandleReleaseLock(lockID: LockID) returns (res: Response)
      modifies this`activeLocks
      ensures var o := Spec.HandleReleaseLock(old(View()), lockID);
              View() == o.r && world == WorldAt(world, o, 3) && o.reply == Some(res)
    {
      if lockID !in activeLocks {
        return Error(NoSuchLock(lockID));
      }
      activeLocks := activeLocks - {lockID};
      res := Empty;
    }

    method HandleWaitForResult(ch: Option<Chan>) returns (res: Option<Response>)
      modifies this`resultWaiters
      ensures var o := Spec.HandleWaitForResult(old(View()), ch);
              View() == o.r && world == WorldAt(world, o, 3) && o.reply == res
    {
      if job.state.IsTerminal() {
        return Some(JobInfo(job.Clone()));
      }
      resultWaiters := resultWaiters + [ch];
      res := None;
    }

    /** handleProcessExited up to the cleanup: the exit settles the job. */
    method SettleExit(code: int, exitError: Option<string>, now: int)
      modifies job
      ensures job.Clone() == Spec.SettleExit(old(job.Clone()), code, exitError, now)
    {
      job.completedAt := Some(now);
      if exitError.Some? {
        job.state := Failed;
        job.error := Some(WaitFailed(exitError.value));
      } else if code != 0 {
        job.state := Failed;
        job.error := Some(ExitCode(code));
        job.result := Some(JobResult(code, None));
      } else {
        job.state := Completed;
        if job.result.None? {
          job.result := Some(JobResult(0, None));
        }
      }
    }

    /** The failure callback, which only reads. */
    function ShouldRetry(): bool
      reads this, job
    {
      onFailure.Some? && job.retryCount < onFailure.value.maxRetries
    }

    /** A retry by the poller is written down; one at once is sent as a command. */
    method ScheduleRetry(delay: int, env: Env)
      modifies this, job
      ensures history == old(history)
      ensures var o := Spec.ScheduleRetry(old(View()), old(job.Clone()), delay, env);
              View() == o.r && world == if o.after.Some? then Store(old(world), o.after.value) else old(world)
    {
      if delay > 0 {
        job.state := PendingRetry;
        job.resumeAt := Some(env.later + delay);
        world := Store(world, Write(UpdatePendingRetry(env.later + delay), env.firstWriteOk));
      } else {
        retryPending := true;
        retrySenders := retrySenders + 1;
      }
    }

    method HandleProcessExited(code: int, exitError: Option<string>, env: Env)
      modifies this, job
      ensures history == old(history)
      ensures var o := Spec.HandleProcessExited(old(View()), code, exitError, env);
              View() == o.r && world == WorldAt(old(world), o, 3) && o.reply == None
    {
      hide Store, Perform, CompletedUpdate, Spec.SettleExit;
      if job.state.IsTerminal() || job.state == Suspended {
        return;
      }
      SettleExit(code, exitError, env.now);
      if env.cleanupOk && process.Some? {
        world := Perform(world, Cleaned(process.value));
      }
      if job.state == Failed && ShouldRetry() {
        ScheduleRetry(onFailure.value.retryDelay, env);
        return;
      }
      world := Store(world, Write(CompletedUpdate(job.state, job.completedAt, job.result, job.error), env.firstWriteOk));
    }

    /** The replies to the requests collapsed into a checkpoint. */
    method NotifyCollapsed() returns (ghost notified: multiset<Chan>)
      modifies this`pendingCheckpointRequests
      ensures notified == SomeChans(old(pendingCheckpointRequests))
      ensures pendingCheckpointRequests == []
    {
      notified := multiset{};
      for i := 0 to |pendingCheckpointRequests|
        invariant pendingCheckpointRequests == old(pendingCheckpointRequests)
        invariant notified == SomeChans(pendingCheckpointRequests[..i])
      {
        assert pendingCheckpointRequests[..i + 1][..i] == pendingCheckpointRequests[..i];
        notified := notified + SomeChan(pendingCheckpointRequests[i]);
      }
      assert pendingCheckpointRequests[..|pendingCheckpointRequests|] == pendingCheckpointRequests;
      pendingCheckpointRequests := [];
    }

    method HandleCheckpoint(suspend: int, token: string, ch: Option<Chan>, env: Env)
      returns (res: Option<Response>, ghost notified: multiset<Chan>)
      modifies this, job
      ensures history == old(history)
      ensures var o := Spec.HandleCheckpoint(old(View()), suspend, token, ch, env);
              && View() == o.r && world == WorldAt(old(world), o, 3) && o.reply == res
              && notified == if o.note.Capture? then SomeChans(old(pendingCheckpointRequests)) else multiset{}
    {
      hide Spec.Capture1;
      notified := multiset{};
      if token == "" {
        res := Some(Error(TokenRequired));
      } else if token in checkpointTokens {
        res := Some(CheckpointDone(job.Clone()));
      } else if job.state.IsTerminal() {
        res := Some(Error(HasTerminated));
      } else if job.op == Checkpointing {
        pendingCheckpointRequests := pendingCheckpointRequests + [ch];
        res := None;
      } else if |activeLocks| > 0 {
        res := Some(Error(LocksHeld(|activeLocks|)));
      } else if job.state != Running {
        res := Some(Error(CannotCheckpoint(job.state)));
      } else {
        var reply := Capture(suspend, token, env);
        res := Some(reply);
        notified := NotifyCollapsed();
      }
    }

    /** The job's fields are set before the runtime is called, and put back if it fails. */
    method PrepareCapture(suspend: int, now: int)
      modifies job
      ensures job.Clone() ==
              old(job.Clone()).(op := Checkpointing, checkpointCount := old(job.checkpointCount) + 1,
                                lastCheckpointAt := Some(now),
                                resumeAt := if suspend == 0 then old(job.resumeAt) else Some(now + suspend))
    {
      job.op := Checkpointing;
      job.checkpointCount := job.checkpointCount + 1;
      job.lastCheckpointAt := Some(now);
      if suspend != 0 {
        job.resumeAt := Some(now + suspend);
      }
    }

    method AbandonCapture()
      modifies job
      ensures job.Clone() ==
              old(job.Clone()).(checkpointCount := old(job.checkpointCount) - 1, op := Idle, resumeAt := None)
    {
      job.checkpointCount := job.checkpointCount - 1;
      job.op := Idle;
      job.resumeAt := None;
    }

    method AcceptCapture(path: string, token: string, keepRunning: bool)
      modifies this`checkpoint, this`checkpointTokens, job
      ensures checkpoint == Some(path) && checkpointTokens == old(checkpointTokens) + {token}
      ensures job.Clone() ==
              old(job.Clone()).(op := Idle, state := if keepRunning then old(job.state) else Suspended)
    {
      checkpoint := Some(path);
      checkpointTokens := checkpointTokens + {token};
      job.op := Idle;
      if !keepRunning {
        job.state := Suspended;
      }
    }

    /** The admitted checkpoint, up to the replies to the collapsed requests. */
    method Capture(suspend: int, token: string, env: Env) returns (res: Response)
      modifies this, job
      ensures history == old(history)
      ensures var o := Spec.Capture1(old(View()), suspend, token, env);
              && View() == o.r.(pendingCheckpointRequests := old(pendingCheckpointRequests))
              && world == WorldAt(old(world), o, 3) && o.reply == Some(res)
              && o.note.Capture? && o.r.pendingCheckpointRequests == []
    {
      hide Store, Perform, RtStart, RtRestore;
      var keepRunning := suspend == 0;
      PrepareCapture(suspend, env.now);
      match env.capture
      case CaptureFailed(err) =>
        AbandonCapture();
        res := Error(CheckpointError(err));
      case Captured(path) =>
        world := Perform(world, Imaged(keepRunning, Image(path, token)));
        AcceptCapture(path, token, keepRunning);
        var dbState := if keepRunning then Running else Suspended;
        world := Store(world, Write(UpdateCheckpointed(dbState, env.now, job.resumeAt, NullString(path)), env.firstWriteOk));
        res := CheckpointDone(job.Clone());
    }

    method HandleRetry(env: Env) returns (res: Response)
      modifies this, job
      ensures history == old(history)
      ensures var o := Spec.HandleRetry(old(View()), old(world).live, env);
              View() == o.r && world == WorldAt(old(world), o, 3) && o.reply == Some(res)
    {
      hide Store, Perform, CompletedUpdate, Spec.Relaunch, Spec.Restart;
      retryPending := false;
      if job.state != Failed && job.state != PendingRetry {
        return Error(CannotRetry(job.state));
      }
      ghost var w := world;
      var count := BeginAttempt(env);
      if checkpoint.Some? {
        res := Relaunch(env, w, count);
      } else {
        res := Restart(env, w, count);
      }
    }

    /** Count the retry, forget the failed attempt, write the count down. */
    method BeginAttempt(env: Env) returns (count: Write)
      modifies job, this`world
      ensures job.Clone() == old(job.Clone()).(op := Restarting, retryCount := old(job.retryCount) + 1, error := None,
                                               result := None, completedAt := None)
      ensures count == Write(UpdateRetryCount(Int32(job.retryCount)), env.firstWriteOk)
      ensures world == Store(old(world), count)
    {
      job.op := Restarting;
      job.retryCount := job.retryCount + 1;
      job.error := None;
      job.result := None;
      job.completedAt := None;
      count := Write(UpdateRetryCount(Int32(job.retryCount)), env.firstWriteOk);
      world := Store(world, count);
    }

    method Relaunch(env: Env, ghost w: World, ghost count: Write) returns (res: Response)
      requires world == Store(w, count)
      modifies this, job
      ensures history == old(history)
      ensures var o := Spec.Relaunch(old(View()), count, env);
              View() == o.r && world == WorldAt(w, o, 3) && o.reply == Some(res)
    {
      hide Store, Perform, RtStart, RtRestore;
      match RtRestore(checkpoint, env)
      case LaunchFailed(err) =>
        Fail(RestoreFailed(err), env.now);
        res := Error(LaunchError(err));
      case Launched(pid) =>
        world := Perform(world, Restored(pid));
        process := Some(pid);
        Rouse();
        world := Store(world, Write(UpdateStarted(env.now), env.secondWriteOk));
        exitWatchers := Watcher(pid, exitWatchers);
        res := JobInfo(job.Clone());
    }

    method Restart(env: Env, ghost w: World, ghost count: Write) returns (res: Response)
      requires world == Store(w, count)
      modifies this, job
      ensures history == old(history)
      ensures var o := Spec.Restart(old(View()), count, w.live, env);
              View() == o.r && world == WorldAt(w, o, 3) && o.reply == Some(res)
    {
      StoreKeepsProcesses(w, count);
      hide Store, Perform, CompletedUpdate, RtStart, RtRestore;
      match RtStart(world.live, env)
      case LaunchFailed(err) =>
        FailToStart(err);
        world := Store(world, Write(CompletedUpdate(Failed, None, None, job.error), env.secondWriteOk));
        res := Error(LaunchError(err));
      case Launched(pid) =>
        world := Perform(world, Started(pid));
        BeginRunning(pid, env.now);
        world := Store(world, Write(UpdateStarted(env.now), env.secondWriteOk));
        exitWatchers := Watcher(pid, exitWatchers);
        res := JobInfo(job.Clone());
    }

    // ----- the command loop -----

    /** The switch of handleCommand. */
    method Dispatch(msg: Message, env: Env) returns (res: Option<Response>, ghost collapsed: multiset<Chan>)
      modifies this, job
      ensures history == old(history)
      ensures var o := Handle(old(View()), old(world).live, msg, env);
              && View() == o.r && world == WorldAt(old(world), o, 3) && o.reply == res
              && collapsed == if o.note.Capture? then SomeChans(old(pendingCheckpointRequests)) else multiset{}
    {
      if !msg.cmd.Checkpoint? {
        RunnerTheorems.OthersNeverCapture(View(), world.live, msg, env);
      }
      RepliesChangeNoWorld(world, View());
      hide Spec.HandleStart, Spec.HandleWake, Spec.HandleKill, Spec.HandleExit, Spec.HandleProcessExited, WorldAt;
      hide Spec.HandleCheckpoint, Spec.HandleRetry, Spec.HandleTakeLock, Spec.HandleReleaseLock, Spec.HandleWaitForResult;
      collapsed := multiset{};
      var reply: Response;
      match msg.cmd
      case Start => reply := HandleStart(env); res := Some(reply);
      case Checkpoint(suspend, token) => res, collapsed := HandleCheckpoint(suspend, token, msg.ch, env);
      case Kill => reply := HandleKill(env); res := Some(reply);
      case Exit(code, output) => reply := HandleExit(code, output, env); res := Some(reply);
      case GetState => res := Some(JobInfo(job.Clone()));
      case TakeLock => reply := HandleTakeLock(); res := Some(reply);
      case ReleaseLock(lockID) => reply := HandleReleaseLock(lockID); res := Some(reply);
      case WaitForResult => res := HandleWaitForResult(msg.ch);
      case ProcessExited(_, code, exitError) => HandleProcessExited(code, exitError, env); res := None;
      case Retry => reply := HandleRetry(env); res := Some(reply);
      case Wake => reply := HandleWake(env); res := Some(reply);
      case Stop => cancelled := true; res := Some(Empty);
    }

    /** One command and its replies. */
    method HandleCommand(msg: Message, env: Env)
      modifies this, job
      ensures State() == Spec.HandleCommand(old(State()), msg, env)
    {
      ghost var m := State();
      ghost var o := Handle(View(), world.live, msg, env);
      CommitInParts(m, msg.ch, o);
      hide Handle, Commit, WorldAt, NoteOutcome;
      var res, collapsed := Dispatch(msg, env);
      ghost var answered := if res.Some? then SomeChan(msg.ch) + collapsed else multiset{};
      assert answered == RepliedTo(m.r, msg.ch, o);
      hide RepliedTo;
      world := Acknowledged(world, res);
      history := NoteOutcome(history, o, answered);
    }

    /** Every waiter's goroutine is released and replies. */
    method NotifyWaiters()
      modifies this`resultWaiters, this`history
      ensures State() == Spec.NotifyWaiters(old(State()))
    {
      ghost var released := multiset{};
      ghost var waiters := resultWaiters;
      NobodyReleased(waiters);
      hide SomeChans;
      for i := 0 to |resultWaiters|
        invariant released == SomeChans(waiters[..i]) && history == old(history)
      {
        OneMoreReleased(waiters, i);
        released := released + SomeChan(resultWaiters[i]);
      }
      assert waiters[..|waiters|] == waiters;
      assert old(State()) == State();
      resultWaiters := [];
      history := history.(answered := history.answered + released, told := Some(job.Clone()));
    }

    /** A command leaves the queue; the goroutine that sent an internal one has ended. */
    method Receive(msg: Message)
      modifies this`exitWatchers, this`retrySenders, this`history
      ensures State() == TakeFromQueue(old(State()), msg)
    {
      if msg.cmd.ProcessExited? {
        exitWatchers := exitWatchers.Without(msg.cmd.pid);
      } else if msg.cmd.Retry? && retrySenders > 0 {
        retrySenders := retrySenders - 1;
      }
      history := history.(delivered := history.delivered + SomeChan(msg.ch));
    }

    /** Everything still queued is told that the runner has stopped. */
    method DrainRemainingCommands(queue: seq<Event>)
      modifies this`exitWatchers, this`retrySenders, this`history
      ensures Loop(State(), true) == RunLoop(Loop(old(State()), true), queue)
    {
      for i := 0 to |queue|
        invariant Loop(State(), true) == RunLoop(Loop(old(State()), true), queue[..i])
      {
        ghost var before := State();
        if queue[i].Deliver? {
          Receive(queue[i].msg);
          ghost var m := State();
          history := history.(answered := history.answered + SomeChan(queue[i].msg.ch));
          RefusalOnlyAnswers(m, queue[i].msg.ch);
        }
        RunLoopStep(Loop(old(State()), true), queue, i);
      }
      assert queue[..|queue|] == queue;
    }

    /** One turn of commandLoop, and whether it returns. */
    method TakeTurn(msg: Message, env: Env) returns (ended: bool)
      modifies this, job
      ensures Loop(State(), ended) == LoopStep(Loop(old(State()), false), Deliver(msg, env))
    {
      hide Spec.HandleCommand;
      Receive(msg);
      HandleCommand(msg, env);
      if job.state.IsTerminal() && !retryPending {
        NotifyWaiters();
        return true;
      }
      if job.state == PendingRetry {
        NotifyWaiters();
        return true;
      }
      return false;
    }

    /** commandLoop, over the events `select` picks: it handles commands until the job has
        settled or waits for the poller, or its context is cancelled. */
    method CommandLoop(queue: seq<Event>) returns (stopped: bool)
      modifies this, job
      ensures Loop(State(), stopped) == RunLoop(Loop(old(State()), false), queue)
    {
      ghost var start := Loop(State(), false);
      stopped := false;
      var i := 0;
      while i < |queue| && !stopped
        invariant 0 <= i <= |queue|
        invariant Loop(State(), stopped) == RunLoop(start, queue[..i])
        decreases |queue| - i
      {
        RunLoopStep(start, queue, i);
        match queue[i] {
          case ContextDone => stopped := cancelled;
          case Deliver(msg, env) => stopped := TakeTurn(msg, env);
        }
        i := i + 1;
      }
      RunLoopAppend(start, queue, i);
      if stopped {
        DrainRemainingCommands(queue[i..]);
      } else {
        assert queue[..i] == queue;
      }
    }
  }

  lemma RefusalOnlyAnswers(m: Machine, ch: Option<Chan>)
    ensures Commit(m, ch, Refuse(m.r, RunnerStopped)) == m.(h := m.h.(answered := m.h.answered + SomeChan(ch)))
  {}

  lemma RunLoopStep(l: Loop, events: seq<Event>, i: nat)
    requires i < |events|
    ensures RunLoop(l, events[..i + 1]) == LoopStep(RunLoop(l, events[..i]), events[i])
  {
    assert events[..i + 1][..i] == events[..i];
  }

  lemma {:induction false} RunLoopAppend(l: Loop, events: seq<Event>, i: nat)
    requires i <= |events|
    ensures RunLoop(l, events) == RunLoop(RunLoop(l, events[..i]), events[i..])
    decreases |events| - i
  {
    hide LoopStep;
    var rest := events[i..];
    if rest == [] {
      assert events[..i] == events;
    } else {
      var n := |events| - 1;
      RunLoopAppend(l, events[..n], i);
      assert events[..n][..i] == events[..i] && events[..n][i..] == rest[..|rest| - 1];
    }
  }
}
