/** What the durable world of a job holds at every crash point of every command, and how far
    the row agrees with the runner between commands. Row writes succeed here. */
module RowLaws {
  import opened Wrappers
  import opened Jobs
  import opened Rows
  import opened Machine
  import opened RunnerSpec
  import opened RunnerLaws

  /** Every write succeeds, and a checkpoint always has a path. */
  ghost predicate Reliable(env: Env) {
    && env.firstWriteOk && env.secondWriteOk
    && (env.capture.Captured? ==> env.capture.path != "")
  }

  /** The row names the newest image it was ever told of, and no acknowledged image is newer. */
  ghost predicate CheckpointsRecorded(w: World) {
    && w.acked <= w.recorded <= |w.images|
    && w.row.checkpointPath == (if w.recorded == 0 then None else Some(w.images[w.recorded - 1].path))
    && 0 <= w.row.checkpointCount
    && (w.row.checkpointCount > 0 <==> w.recorded > 0)
    && (w.recorded > 0 ==> w.row.checkpointPath != Some(""))
  }

  ghost predicate AtMostOne(live: set<Pid>) {
    forall p, q :: p in live && q in live ==> p == q
  }

  /** True of the durable world at any moment, also in the middle of a command. */
  ghost predicate Durable(w: World) {
    && AtMostOne(w.live)
    && (w.row.state == Suspended ==> w.live == {} && w.row.checkpointPath.Some?)
    && (w.row.state == Suspended || w.row.state == PendingRetry ==> w.row.resumeAt.Some?)
    && (!w.row.state.IsTerminal() ==> w.row.Clean())
    && IsInt32(w.row.retryCount)
    && CheckpointsRecorded(w)
  }

  /** The settled columns agree with the settled job, up to the width of the exit code. */
  ghost predicate FinalColumnsMatch(row: Row, j: JobRecord) {
    && row.completedAt == j.completedAt
    && row.error == j.error
    && row.resultExitCode == (if j.result.Some? then Some(Int32(j.result.value.exitCode)) else None)
    && row.resultOutput == (if j.result.Some? then j.result.value.output else None)
  }

  /** The row says what memory says; only a pending immediate retry is still `running` there. */
  ghost predicate RowMatches(row: Row, r: Runner) {
    && row.state == (if r.retryPending then Running else r.job.state)
    && row.retryCount == Int32(r.job.retryCount)
    && row.checkpointCount == r.job.checkpointCount
    && (r.checkpoint.Some? ==> row.checkpointPath == r.checkpoint)
    && (r.job.state == Suspended || r.job.state == PendingRetry ==> row.resumeAt == r.job.resumeAt)
    && (r.job.state.IsTerminal() && !r.retryPending ==> FinalColumnsMatch(row, r.job))
  }

  /** The memory of a live runner against its durable world. */
  ghost predicate Tracks(r: Runner, w: World) {
    && r.onFailure == Some(w.policy)
    && (r.retryPending ==> w.policy.retryDelay <= 0 && r.job.state == Failed)
    && (r.job.state == Running ==> r.process.Some? && w.live <= {r.process.value})
    && (r.checkpointTokens != {} ==> w.recorded == |w.images|)
  }

  /** A runner between commands, in step with its row. */
  ghost predicate InStep(r: Runner, w: World) {
    Durable(w) && RowMatches(w.row, r) && Tracks(r, w)
  }

  // ----- the write discipline -----

  function StateAfter(row: Row, before: Option<Write>): JobState {
    if before.Some? && before.value.u.UpdateState? then before.value.u.state else row.state
  }

  /** What a command may write and when: nothing once the row is settled; a launch only when
      the row no longer says suspended; a suspended row only after the process is gone and
      with the path just taken; a checkpoint reported only when the row names it. */
  ghost predicate WriteRule(w: World, o: Outcome) {
    && (o.before.Some? || o.call.Some? || o.after.Some? ==> !w.row.state.IsTerminal())
    && (o.before.Some? ==>
          && o.before.value.ok
          && match o.before.value.u
             case UpdateState(state) => state == Running
             case UpdateRetryCount(n) => IsInt32(n)
             case _ => false)
    && (o.call.Some? && o.call.value.Started? ==> w.live == {} && StateAfter(w.row, o.before) != Suspended)
    && (o.call.Some? && o.call.value.Restored? ==> StateAfter(w.row, o.before) != Suspended)
    && (o.after.Some? ==>
          && o.after.value.ok
          && match o.after.value.u
             case UpdateStarted(_) => true
             case UpdateCheckpointed(state, _, resumeAt, path) =>
               && o.call.Some? && o.call.value.Imaged?
               && path == Some(o.call.value.image.path) && path != Some("")
               && (state == Running || (state == Suspended && !o.call.value.keepRunning && resumeAt.Some?))
             case UpdateCompleted(state, _, _, _, _) => state.IsTerminal()
             case UpdatePendingRetry(_) => w.policy.retryDelay > 0
             case _ => false)
    && (o.reply.Some? && o.reply.value.CheckpointDone? ==>
          || (o.after.Some? && o.after.value.u.UpdateCheckpointed?)
          || (o.before.None? && o.call.None? && o.after.None? && w.recorded == |w.images|))
  }

  lemma FirstWriteDurable(w: World, o: Outcome)
    requires Durable(w) && WriteRule(w, o) && o.before.Some?
    ensures var w1 := Store(w, o.before.value);
            Durable(w1) && w1 == w.(row := Update(w.row, o.before.value.u)) && w1.row.state == StateAfter(w.row, o.before)
  {}

  lemma CallDurable(w: World, call: Call)
    requires Durable(w)
    requires call.Started? ==> w.live == {} && w.row.state != Suspended
    requires call.Restored? ==> w.row.state != Suspended
    ensures Durable(Perform(w, call))
  {}

  lemma CheckpointWriteDurable(w: World, u: RowUpdate)
    requires Durable(w) && u.UpdateCheckpointed? && |w.images| > 0
    requires u.path == Some(w.images[|w.images| - 1].path) && u.path != Some("")
    requires !w.row.state.IsTerminal()
    requires u.state == Running || (u.state == Suspended && w.live == {} && u.resumeAt.Some?)
    ensures Durable(Store(w, Write(u, true)))
  {}

  lemma OtherWriteDurable(w: World, u: RowUpdate)
    requires Durable(w) && !w.row.state.IsTerminal()
    requires match u
             case UpdateStarted(_) => true
             case UpdateCompleted(state, _, _, _, _) => state.IsTerminal()
             case UpdatePendingRetry(_) => w.policy.retryDelay > 0
             case _ => false
    ensures Durable(Store(w, Write(u, true)))
  {}

  lemma AcknowledgeDurable(w: World)
    requires Durable(w) && w.recorded == |w.images|
    ensures Durable(w.(acked := |w.images|))
  {}

  lemma WriteRuleIsDurable(w: World, o: Outcome, k: nat)
    requires Durable(w) && WriteRule(w, o)
    ensures Durable(WorldAt(w, o, k))
  {
    hide Durable;
    var w1 := if o.before.Some? then Store(w, o.before.value) else w;
    if o.before.Some? {
      FirstWriteDurable(w, o);
    }
    var w2 := if o.call.Some? then Perform(w1, o.call.value) else w1;
    if o.call.Some? {
      CallDurable(w1, o.call.value);
    }
    var w3 := if o.after.Some? then Store(w2, o.after.value) else w2;
    if o.after.Some? {
      assert o.after.value == Write(o.after.value.u, true);
      if o.after.value.u.UpdateCheckpointed? {
        CheckpointWriteDurable(w2, o.after.value.u);
      } else {
        OtherWriteDurable(w2, o.after.value.u);
      }
    }
    if o.reply.Some? && o.reply.value.CheckpointDone? {
      AcknowledgeDurable(w3);
    }
  }

  function RowAfter(row: Row, o: Outcome): Row {
    var row1 := if o.before.Some? then Update(row, o.before.value.u) else row;
    if o.after.Some? then Update(row1, o.after.value.u) else row1
  }

  function LiveAfter(live: set<Pid>, call: Option<Call>): set<Pid> {
    if call.None? then live
    else
      match call.value
      case Started(pid) => live + {pid}
      case Restored(pid) => {pid}
      case Imaged(keepRunning, _) => if keepRunning then live else {}
      case Killed(pid) => live - {pid}
      case Cleaned(pid) => live - {pid}
  }

  lemma WorldAtEnd(w: World, o: Outcome)
    requires WriteRule(w, o)
    ensures var w' := WorldAt(w, o, 4);
            && w'.row == RowAfter(w.row, o)
            && w'.policy == w.policy
            && w'.live == LiveAfter(w.live, o.call)
            && |w'.images| == |w.images| + (if o.call.Some? && o.call.value.Imaged? then 1 else 0)
            && w'.recorded == (if o.after.Some? && o.after.value.u.UpdateCheckpointed? then |w'.images| else w.recorded)
  {}

  /** The memory after a command, against what the command did to the world. */
  ghost predicate Follows(r: Runner, w: World, o: Outcome) {
    && RowMatches(RowAfter(w.row, o), o.r)
    && o.r.onFailure == Some(w.policy)
    && (o.r.retryPending ==> w.policy.retryDelay <= 0 && o.r.job.state == Failed)
    && (o.r.job.state == Running ==> o.r.process.Some? && LiveAfter(w.live, o.call) <= {o.r.process.value})
    && ((o.r.checkpointTokens == r.checkpointTokens && (o.call.None? || !o.call.value.Imaged?))
        || (o.after.Some? && o.after.value.u.UpdateCheckpointed?))
  }

  /** Safe at every crash point, and followed by memory. */
  ghost predicate Safe(r: Runner, w: World, o: Outcome) {
    WriteRule(w, o) && Follows(r, w, o)
  }

  lemma SafeKeepsInStep(r: Runner, w: World, o: Outcome)
    requires Durable(w) && (r.checkpointTokens != {} ==> w.recorded == |w.images|) && Safe(r, w, o)
    ensures InStep(o.r, WorldAt(w, o, 4))
  {
    hide Durable, RowMatches, WriteRule, WorldAt, RowAfter, LiveAfter;
    WorldAtEnd(w, o);
    WriteRuleIsDurable(w, o, 4);
  }

  // ----- every command is safe -----

  /** A command that neither writes nor calls the runtime. */
  lemma QuietSafe(r: Runner, w: World, o: Outcome)
    requires InStep(r, w) && o.before.None? && o.call.None? && o.after.None?
    requires o.r.job == r.job && o.r.retryPending == r.retryPending && o.r.checkpoint == r.checkpoint
    requires o.r.process == r.process && o.r.checkpointTokens == r.checkpointTokens && o.r.onFailure == r.onFailure
    requires o.reply.Some? && o.reply.value.CheckpointDone? ==> r.checkpointTokens != {}
    ensures Safe(r, w, o)
  {}

  lemma CaptureSafe(r: Runner, w: World, suspend: int, token: string, env: Env)
    requires Turning(r) && InStep(r, w) && Reliable(env) && CheckpointAdmitted(r, token)
    ensures Safe(r, w, Capture1(r, suspend, token, env))
  {}

  lemma CheckpointSafe(r: Runner, w: World, suspend: int, token: string, ch: Option<Chan>, env: Env)
    requires Turning(r) && InStep(r, w) && Reliable(env)
    ensures Safe(r, w, HandleCheckpoint(r, suspend, token, ch, env))
  {
    hide Capture1, Safe, InStep;
    if CheckpointAdmitted(r, token) {
      CaptureSafe(r, w, suspend, token, env);
    } else {
      var o := HandleCheckpoint(r, suspend, token, ch, env);
      QuietSafe(r, w, o);
    }
  }

  lemma KillSafe(r: Runner, w: World, env: Env)
    requires Turning(r) && InStep(r, w) && Reliable(env)
    ensures Safe(r, w, HandleKill(r, env))
  {}

  lemma ExitSafe(r: Runner, w: World, code: int, output: Option<string>, env: Env)
    requires Turning(r) && InStep(r, w) && Reliable(env)
    ensures Safe(r, w, HandleExit(r, code, output, env))
  {}

  lemma ScheduleRetrySafe(r: Runner, j: JobRecord, w: World, delay: int, env: Env)
    requires delay == w.policy.retryDelay
    requires r.job.state == Running && !r.retryPending && InStep(r, w) && Reliable(env)
    requires j.state == Failed && j.retryCount == r.job.retryCount && j.checkpointCount == r.job.checkpointCount
    ensures Safe(r, w, ScheduleRetry(r, j, delay, env))
  {}

  lemma ConcludeSafe(r: Runner, j: JobRecord, w: World, env: Env)
    requires r.job.state == Running && !r.retryPending && InStep(r, w) && Reliable(env)
    requires j.state.IsTerminal() && j.retryCount == r.job.retryCount && j.checkpointCount == r.job.checkpointCount
    ensures Safe(r, w, Conclude(r, j, env))
  {}

  lemma ExitedSafe(r: Runner, w: World, code: int, exitError: Option<string>, env: Env)
    requires r.job.state == Running || r.job.state == Suspended
    requires !r.retryPending && InStep(r, w) && Reliable(env)
    ensures Safe(r, w, HandleProcessExited(r, code, exitError, env))
  {
    assert r.onFailure == Some(w.policy);
    hide Safe, InStep, ScheduleRetry, Conclude;
    if r.job.state == Suspended {
      QuietSafe(r, w, HandleProcessExited(r, code, exitError, env));
    } else {
      var j := SettleExit(r.job, code, exitError, env.now);
      if j.state == Failed && r.onFailure.Some? && j.retryCount < r.onFailure.value.maxRetries {
        ScheduleRetrySafe(r, j, w, r.onFailure.value.retryDelay, env);
      } else {
        ConcludeSafe(r, j, w, env);
      }
    }
  }

  /** The one failure that writes no terminal row. */
  ghost predicate RestoreFails(r: Runner, env: Env) {
    r.checkpoint.Some? && env.launch.LaunchFailed?
  }

  lemma RelaunchSafe(r: Runner, r1: Runner, w: World, env: Env)
    requires r.job.state == Failed && r.retryPending && InStep(r, w) && Reliable(env)
    requires r1 == r.(retryPending := false, job := r1.job) && r.checkpoint.Some?
    requires r1.job == r.job.(op := Restarting, retryCount := r.job.retryCount + 1, error := None, result := None,
                              completedAt := None)
    ensures var o := Relaunch(r1, Write(UpdateRetryCount(Int32(r1.job.retryCount)), true), env);
            && WriteRule(w, o) && (env.launch.Launched? ==> Follows(r, w, o))
            && (env.launch.LaunchFailed? ==>
                  && RowAfter(w.row, o).state == Running && o.r.job.state == Failed && !o.r.retryPending
                  && RowAfter(w.row, o).retryCount == Int32(o.r.job.retryCount))
  {}

  lemma RestartSafe(r: Runner, r1: Runner, w: World, env: Env)
    requires r.job.state == Failed && r.retryPending && InStep(r, w) && Reliable(env)
    requires r1 == r.(retryPending := false, job := r1.job) && r.checkpoint.None?
    requires r1.job == r.job.(op := Restarting, retryCount := r.job.retryCount + 1, error := None, result := None,
                              completedAt := None)
    ensures Safe(r, w, Restart(r1, Write(UpdateRetryCount(Int32(r1.job.retryCount)), true), w.live, env))
  {}

  lemma RetrySafe(r: Runner, w: World, env: Env)
    requires r.job.state == Failed && r.retryPending && InStep(r, w) && Reliable(env)
    ensures var o := HandleRetry(r, w.live, env);
            && WriteRule(w, o) && (!RestoreFails(r, env) ==> Follows(r, w, o))
            && (RestoreFails(r, env) ==>
                  && RowAfter(w.row, o).state == Running && o.r.job.state == Failed && !o.r.retryPending
                  && RowAfter(w.row, o).retryCount == Int32(o.r.job.retryCount))
  {
    hide InStep, Relaunch, Restart, WriteRule, Follows, RowAfter;
    var j := r.job.(op := Restarting, retryCount := r.job.retryCount + 1, error := None, result := None,
                    completedAt := None);
    var r1 := r.(retryPending := false, job := j);
    if r.checkpoint.Some? {
      RelaunchSafe(r, r1, w, env);
    } else {
      RestartSafe(r, r1, w, env);
    }
  }

  lemma QueriesSafe(r: Runner, w: World, lockID: LockID, ch: Option<Chan>)
    requires InStep(r, w)
    ensures Safe(r, w, HandleTakeLock(r)) && Safe(r, w, HandleReleaseLock(r, lockID))
    ensures Safe(r, w, HandleWaitForResult(r, ch))
    ensures Safe(r, w, Reply(r, JobInfo(r.job))) && Safe(r, w, Reply(r.(cancelled := true), Empty))
  {
    hide InStep, Safe;
    QuietSafe(r, w, HandleTakeLock(r));
    QuietSafe(r, w, HandleReleaseLock(r, lockID));
    QuietSafe(r, w, HandleWaitForResult(r, ch));
    QuietSafe(r, w, Reply(r, JobInfo(r.job)));
    QuietSafe(r, w, Reply(r.(cancelled := true), Empty));
  }

  lemma SenderGoneInStep(r: Runner, w: World, cmd: Command)
    requires InStep(r, w)
    ensures InStep(SenderGone(r, cmd), w)
  {
    hide Durable, FinalColumnsMatch;
  }

  ghost predicate CommandLosesRow(r: Runner, msg: Message, env: Env) {
    msg.cmd.Retry? && RestoreFails(r, env)
  }

  lemma CommandSafe(r: Runner, w: World, msg: Message, env: Env)
    requires Turning(r) && InStep(r, w) && Reliable(env) && Legal(r, Deliver(msg, env))
    ensures var r' := SenderGone(r, msg.cmd);
            var o := Handle(r', w.live, msg, env);
            && WriteRule(w, o) && (!CommandLosesRow(r, msg, env) ==> Follows(r', w, o))
            && (CommandLosesRow(r, msg, env) ==>
                  && RowAfter(w.row, o).state == Running && o.r.job.state == Failed && !o.r.retryPending
                  && RowAfter(w.row, o).retryCount == Int32(o.r.job.retryCount))
  {
    hide HandleCheckpoint, HandleKill, HandleExit, HandleProcessExited, HandleRetry;
    hide HandleTakeLock, HandleReleaseLock, HandleWaitForResult, Reply;
    hide InStep, WriteRule, Follows, RowAfter;
    var r' := SenderGone(r, msg.cmd);
    SenderGoneInStep(r, w, msg.cmd);
    match msg.cmd
    case Checkpoint(suspend, token) => CheckpointSafe(r, w, suspend, token, msg.ch, env);
    case Kill => KillSafe(r, w, env);
    case Exit(code, output) => ExitSafe(r, w, code, output, env);
    case ProcessExited(pid, code, exitError) => ExitedSafe(r', w, code, exitError, env);
    case Retry => RetrySafe(r', w, env);
    case ReleaseLock(lockID) => QueriesSafe(r, w, lockID, msg.ch);
    case GetState => QueriesSafe(r, w, Foreign(""), msg.ch);
    case TakeLock => QueriesSafe(r, w, Foreign(""), msg.ch);
    case WaitForResult => QueriesSafe(r, w, Foreign(""), msg.ch);
    case Stop => QueriesSafe(r, w, Foreign(""), msg.ch);
  }

  // ----- entering -----

  /** The job an entry loads from its row (dbJobToJob, then the state the entry forces). */
  ghost predicate Loaded(entry: Entry, row: Row, job: JobRecord, checkpoint: Option<string>) {
    match entry
    case ByStart => row.state == Pending && job == Load(row) && checkpoint.None?
    case ByWake =>
      && (row.state == Suspended || row.state == Running)
      && job == Load(row).(state := Suspended) && checkpoint == row.checkpointPath && checkpoint.Some?
    case ByRetry =>
      && row.state == PendingRetry
      && job == Load(row).(state := Failed) && (checkpoint.None? || checkpoint == row.checkpointPath)
  }

  lemma LoadedIsEnterable(entry: Entry, w: World, job: JobRecord, checkpoint: Option<string>)
    requires Durable(w) && Loaded(entry, w.row, job, checkpoint)
    ensures Enterable(entry, job, checkpoint)
  {}

  lemma StartSafe(w: World, job: JobRecord, env: Env)
    requires Durable(w) && Loaded(ByStart, w.row, job, None) && Reliable(env)
    ensures var r := NewRunner(job, w.policy, None); Safe(r, w, HandleStart(r, w.live, env))
  {}

  lemma WakeSafe(w: World, job: JobRecord, checkpoint: Option<string>, env: Env)
    requires Durable(w) && Loaded(ByWake, w.row, job, checkpoint) && Reliable(env)
    ensures var r := NewRunner(job, w.policy, checkpoint); Safe(r, w, HandleWake(r, env))
  {}

  lemma FirstRetrySafe(w: World, job: JobRecord, checkpoint: Option<string>, env: Env)
    requires Durable(w) && Loaded(ByRetry, w.row, job, checkpoint) && Reliable(env)
    ensures var r := NewRunner(job, w.policy, checkpoint);
            var o := HandleRetry(r, w.live, env);
            && WriteRule(w, o) && (!RestoreFails(r, env) ==> Follows(r, w, o))
            && (RestoreFails(r, env) ==>
                  && RowAfter(w.row, o) == w.row.(retryCount := Int32(w.row.retryCount + 1))
                  && o.reply.Some? && o.reply.value.Error?
                  && o.r.job.state == Failed && !o.r.retryPending)
  {}
}
