/** What holds between any two commands of any runner, whatever the clock, the runtime and
    the database answer and however the commands interleave. */
module RunnerLaws {
  import opened Wrappers
  import opened Jobs
  import opened Rows
  import opened Machine
  import opened RunnerSpec

  // ----- the runs of one runner -----

  /** How a runner comes to life: Spawn and restartPendingJob send cmdStart, wakeJob sends
      cmdWake, retryJob sends cmdRetry, each to a runner nobody has used before. */
  datatype Entry = ByStart | ByWake | ByRetry

  function EntryCommand(entry: Entry): Command {
    match entry
    case ByStart => Start
    case ByWake => Wake
    case ByRetry => Retry
  }

  /** The job each entry hands to its runner. */
  ghost predicate Enterable(entry: Entry, job: JobRecord, checkpoint: Option<string>) {
    && job.Clean() && job.op == Idle
    && match entry
       case ByStart => job.state == Pending
       case ByWake => job.state == Suspended && checkpoint.Some?
       case ByRetry => job.state == Failed
  }

  function FreshLoop(entry: Entry, job: JobRecord, checkpoint: Option<string>, w: World): Loop {
    var retries := job.retryCount + if entry == ByRetry then 1 else 0;
    Loop(Machine(NewRunner(job, w.policy, checkpoint), w,
                 NewHistory(retries, job.checkpointCount, |w.images|)), false)
  }

  function Enter(entry: Entry, job: JobRecord, checkpoint: Option<string>, w: World,
                 ch: Option<Chan>, env: Env): Loop {
    LoopStep(FreshLoop(entry, job, checkpoint, w), Deliver(Message(EntryCommand(entry), ch), env))
  }

  /** What the queue can hold after the entry command: any API request, a process exit sent
      by a goroutine still waiting on that process, a retry sent by a pending retry. */
  ghost predicate Legal(r: Runner, e: Event) {
    e.Deliver? ==>
      && !e.msg.cmd.Start? && !e.msg.cmd.Wake?
      && (e.msg.cmd.ProcessExited? ==> e.msg.ch.None? && r.exitWatchers.Has(e.msg.cmd.pid))
      && (e.msg.cmd.Retry? ==> e.msg.ch.None? && r.retrySenders > 0)
  }

  ghost predicate LegalRun(l: Loop, events: seq<Event>) {
    events == [] ||
    (LegalRun(l, events[..|events| - 1]) &&
     Legal(RunLoop(l, events[..|events| - 1]).m.r, events[|events| - 1]))
  }

  // ----- the laws -----

  function Max(a: int, b: int): int {
    if a > b then a else b
  }

  /** No checkpoint is in progress between commands, so none is ever collapsed. */
  ghost predicate NeverCollapsing(r: Runner) {
    && r.job.op != Checkpointing
    && r.pendingCheckpointRequests == []
  }

  /** The current attempt: a running job has a process, exactly that process is waited for,
      and nothing is left of an earlier attempt; an exit still to come is this process's. */
  ghost predicate CleanAttempt(r: Runner, over: bool) {
    !over ==>
      && (r.job.state == Running || r.job.state == Suspended || (r.job.state == Failed && r.retryPending))
      && (r.job.state == Running || r.job.state == Suspended ==>
            && r.job.Clean() && r.process.Some? && !r.retryPending && r.retrySenders == 0)
      && (r.job.state == Running ==> r.exitWatchers == Watcher(r.process.value, Nobody))
      && (r.job.state == Suspended ==>
            && (r.exitWatchers == Nobody || r.exitWatchers == Watcher(r.process.value, Nobody))
            && r.job.resumeAt.Some? && r.checkpoint.Some?)
      && (r.job.state == Failed ==> r.retrySenders == 1 && r.exitWatchers == Nobody)
  }

  /** The retry budget, and a failure count tied to it. */
  ghost predicate WithinBudget(m: Machine, over: bool) {
    var j, h := m.r.job, m.h;
    var max := m.w.policy.maxRetries;
    && m.r.onFailure == Some(m.w.policy)
    && h.retries0 <= j.retryCount <= Max(h.retries0, max)
    && (!over && m.r.retryPending ==> j.retryCount < max)
    && (!over ==> h.failures == j.retryCount - h.retries0 + if m.r.retryPending then 1 else 0)
    && h.failures <= Max(0, max - h.retries0) + 1
  }

  /** The images from one point on carry different tokens, and exactly these. */
  ghost predicate OneEach(images: seq<Image>, from: nat, tokens: set<string>) {
    && from <= |images|
    && (forall i, j :: from <= i < j < |images| ==> images[i].token != images[j].token)
    && (forall t :: t in tokens <==> exists i :: from <= i < |images| && images[i].token == t)
    && |tokens| == |images| - from
  }

  /** Tokens, successful runtime checkpoints and the checkpoint count move together. */
  ghost predicate OneImagePerToken(m: Machine) {
    && OneEach(m.w.images, m.h.images0, m.r.checkpointTokens)
    && m.r.job.checkpointCount == m.h.checkpoints0 + |m.r.checkpointTokens|
  }

  /** Lock ids are numbered in order, and active means issued and not released. */
  ghost predicate Balanced(counter: nat, active: set<LockID>, issued: seq<LockID>, released: set<LockID>) {
    && |issued| == counter
    && (forall i :: 0 <= i < |issued| ==> issued[i] == Numbered(i + 1))
    && (forall x :: x in released ==> x in issued)
    && (forall x :: x in active <==> x in issued && x !in released)
  }

  ghost predicate LocksBalance(r: Runner, h: History) {
    Balanced(r.lockCounter, r.activeLocks, h.issued, h.released)
  }

  /** At most one terminal row write, and no row write after it. */
  ghost predicate FinalIsLast(h: History, over: bool) {
    && h.finals <= 1 && h.late == 0
    && (!over ==> h.finals == 0)
  }

  /** Every request taken from the queue has its one reply, or is a waiter. */
  ghost predicate RepliesBalance(m: Machine) {
    m.h.answered + SomeChans(m.r.resultWaiters) == m.h.delivered
  }

  /** A loop ends with a settled job, whose waiters are released, or by cancellation. */
  ghost predicate EndsSettled(l: Loop) {
    && (l.stopped ==> l.m.r.cancelled || LoopEnds(l.m.r))
    && (!l.stopped ==> !LoopEnds(l.m.r))
    && (LoopEnds(l.m.r) ==> l.m.r.resultWaiters == [])
  }

  ghost predicate Lawful(l: Loop) {
    && NeverCollapsing(l.m.r)
    && CleanAttempt(l.m.r, l.stopped)
    && WithinBudget(l.m, l.stopped)
    && OneImagePerToken(l.m)
    && LocksBalance(l.m.r, l.m.h)
    && FinalIsLast(l.m.h, l.stopped)
    && RepliesBalance(l.m)
    && EndsSettled(l)
  }

  // ----- the discipline every command follows -----

  /** A runner whose loop is still turning. */
  ghost predicate Turning(r: Runner) {
    NeverCollapsing(r) && CleanAttempt(r, false)
  }

  /** Tokens grow exactly with successful runtime checkpoints, which need a fresh token and
      no active lock. */
  ghost predicate TokenRule(r: Runner, o: Outcome) {
    if o.call.Some? && o.call.value.Imaged? then
      && CheckpointAdmitted(r, o.call.value.image.token)
      && o.r.checkpointTokens == r.checkpointTokens + {o.call.value.image.token}
      && o.r.job.checkpointCount == r.job.checkpointCount + 1
    else
      && o.r.checkpointTokens == r.checkpointTokens
      && o.r.job.checkpointCount == r.job.checkpointCount
  }

  ghost predicate LockRule(r: Runner, o: Outcome) {
    match o.note
    case Issued(lockID) =>
      && o.r.lockCounter == r.lockCounter + 1
      && lockID == Numbered(o.r.lockCounter)
      && o.r.activeLocks == r.activeLocks + {lockID}
    case Released(lockID) =>
      && o.r.lockCounter == r.lockCounter
      && lockID in r.activeLocks
      && o.r.activeLocks == r.activeLocks - {lockID}
    case _ =>
      && o.r.lockCounter == r.lockCounter
      && o.r.activeLocks == r.activeLocks
  }

  /** Only the last write of a command is ever terminal, and the loop ends with it. */
  ghost predicate FinalRule(o: Outcome) {
    && (o.before.Some? ==> !o.before.value.u.UpdateCompleted?)
    && (o.after.Some? && o.after.value.u.UpdateCompleted? ==> LoopEnds(o.r))
  }

  /** Exactly one of: reply now, become a waiter, be an internal command. A checkpoint's
      success reply shows the job as it is now. */
  ghost predicate ReplyRule(r: Runner, ch: Option<Chan>, o: Outcome) {
    && (o.reply.Some? && o.reply.value.CheckpointDone? ==> o.reply.value.job == o.r.job)
    && HasOneReply(r, ch, o)
  }

  ghost predicate HasOneReply(r: Runner, ch: Option<Chan>, o: Outcome) {
    || (o.reply.Some? && o.r.resultWaiters == r.resultWaiters)
    || (o.reply.None? && o.r.resultWaiters == r.resultWaiters + [ch])
    || (o.reply.None? && o.r.resultWaiters == r.resultWaiters && ch.None?)
  }

  /** A failed exit is retried only within the budget; a retry uses up a pending one. */
  ghost predicate BudgetRule(r: Runner, o: Outcome) {
    && o.r.onFailure == r.onFailure
    && (if o.note.AttemptFailed? then
          && !r.retryPending && o.r.job.retryCount == r.job.retryCount
          && (if o.r.retryPending then r.onFailure.Some? && r.job.retryCount < r.onFailure.value.maxRetries
              else LoopEnds(o.r))
        else if o.r.job.retryCount != r.job.retryCount then
          r.retryPending && !o.r.retryPending && o.r.job.retryCount == r.job.retryCount + 1
        else
          o.r.retryPending == r.retryPending)
  }

  /** A call that puts a process under the job's execution id. */
  predicate Launches(call: Option<Call>) {
    call.Some? && (call.value.Started? || call.value.Restored?)
  }

  ghost predicate KeepsBooks(r: Runner, ch: Option<Chan>, o: Outcome) {
    TokenRule(r, o) && LockRule(r, o) && FinalRule(o) && ReplyRule(r, ch, o)
  }

  ghost predicate KeepsAttempt(r: Runner, o: Outcome) {
    && NeverCollapsing(o.r) && CleanAttempt(o.r, LoopEnds(o.r)) && BudgetRule(r, o)
    && (Launches(o.call) ==> r.retryPending)
    && (o.r.job.state == PendingRetry ==> r.onFailure.Some? && o.r.job.retryCount < r.onFailure.value.maxRetries)
    && (r.job.state == Suspended ==> o.before.None? && (o.after.Some? ==> o.after.value.u.UpdateCompleted?))
  }

  /** The little a runner needs to keep its books. */
  ghost predicate Plain(r: Runner) {
    NeverCollapsing(r) && (r.retryPending ==> r.job.state == Failed)
  }

  lemma StartKeepsBooks(r: Runner, live: set<Pid>, ch: Option<Chan>, env: Env)
    requires Plain(r)
    ensures KeepsBooks(r, ch, HandleStart(r, live, env))
  {}

  lemma CheckpointKeepsBooks(r: Runner, suspend: int, token: string, ch: Option<Chan>, env: Env)
    requires Plain(r)
    ensures KeepsBooks(r, ch, HandleCheckpoint(r, suspend, token, ch, env))
  {}

  lemma KillKeepsBooks(r: Runner, ch: Option<Chan>, env: Env)
    requires Plain(r)
    ensures KeepsBooks(r, ch, HandleKill(r, env))
  {}

  lemma ExitKeepsBooks(r: Runner, code: int, output: Option<string>, ch: Option<Chan>, env: Env)
    requires Plain(r)
    ensures KeepsBooks(r, ch, HandleExit(r, code, output, env))
  {}

  lemma TakeLockKeepsBooks(r: Runner, ch: Option<Chan>)
    ensures KeepsBooks(r, ch, HandleTakeLock(r))
  {}

  lemma ReleaseLockKeepsBooks(r: Runner, lockID: LockID, ch: Option<Chan>)
    ensures KeepsBooks(r, ch, HandleReleaseLock(r, lockID))
  {}

  lemma ReplyKeepsBooks(r: Runner, cancelled: bool, res: Response, ch: Option<Chan>)
    requires !res.CheckpointDone?
    ensures KeepsBooks(r, ch, Reply(r.(cancelled := cancelled), res))
  {}

  lemma WaitKeepsBooks(r: Runner, ch: Option<Chan>)
    ensures KeepsBooks(r, ch, HandleWaitForResult(r, ch))
  {}

  lemma ExitedKeepsBooks(r: Runner, code: int, exitError: Option<string>, env: Env)
    requires Plain(r)
    ensures KeepsBooks(r, None, HandleProcessExited(r, code, exitError, env))
  {}

  lemma RelaunchKeepsBooks(r: Runner, count: Write, ch: Option<Chan>, env: Env)
    requires !r.retryPending && !count.u.UpdateCompleted?
    ensures KeepsBooks(r, ch, Relaunch(r, count, env))
  {}

  lemma RestartKeepsBooks(r: Runner, count: Write, live: set<Pid>, ch: Option<Chan>, env: Env)
    requires !r.retryPending && !count.u.UpdateCompleted?
    ensures KeepsBooks(r, ch, Restart(r, count, live, env))
  {}

  lemma RetryKeepsBooks(r: Runner, live: set<Pid>, ch: Option<Chan>, env: Env)
    ensures KeepsBooks(r, ch, HandleRetry(r, live, env))
  {
    hide Relaunch, Restart;
    if r.job.state == Failed || r.job.state == PendingRetry {
      var j := r.job.(op := Restarting, retryCount := r.job.retryCount + 1, error := None, result := None,
                      completedAt := None);
      var count := Write(UpdateRetryCount(Int32(j.retryCount)), env.firstWriteOk);
      var r0 := r.(retryPending := false, job := j);
      if r.checkpoint.Some? {
        RelaunchKeepsBooks(r0, count, ch, env);
      } else {
        RestartKeepsBooks(r0, count, live, ch, env);
      }
    }
  }

  lemma WakeKeepsBooks(r: Runner, ch: Option<Chan>, env: Env)
    requires Plain(r)
    ensures KeepsBooks(r, ch, HandleWake(r, env))
  {}

  lemma CommandKeepsBooks(r: Runner, live: set<Pid>, msg: Message, env: Env)
    requires Plain(r) && (msg.cmd.ProcessExited? ==> msg.ch.None?)
    ensures KeepsBooks(r, msg.ch, Handle(r, live, msg, env))
  {
    hide HandleStart, HandleCheckpoint, HandleKill, HandleExit, HandleTakeLock, HandleReleaseLock;
    hide HandleWaitForResult, HandleProcessExited, HandleRetry, HandleWake, Reply, KeepsBooks;
    match msg.cmd
    case Start => StartKeepsBooks(r, live, msg.ch, env);
    case Checkpoint(suspend, token) => CheckpointKeepsBooks(r, suspend, token, msg.ch, env);
    case Kill => KillKeepsBooks(r, msg.ch, env);
    case Exit(code, output) => ExitKeepsBooks(r, code, output, msg.ch, env);
    case TakeLock => TakeLockKeepsBooks(r, msg.ch);
    case ReleaseLock(lockID) => ReleaseLockKeepsBooks(r, lockID, msg.ch);
    case WaitForResult => WaitKeepsBooks(r, msg.ch);
    case ProcessExited(pid, code, exitError) => ExitedKeepsBooks(r, code, exitError, env);
    case Retry => RetryKeepsBooks(r, live, msg.ch, env);
    case Wake => WakeKeepsBooks(r, msg.ch, env);
    case GetState => ReplyKeepsBooks(r, r.cancelled, JobInfo(r.job), msg.ch);
    case Stop => ReplyKeepsBooks(r, true, Empty, msg.ch);
  }

  // The attempt stays clean, or its loop ends.

  lemma CaptureKeepsAttempt(r: Runner, suspend: int, token: string, env: Env)
    requires Turning(r) && CheckpointAdmitted(r, token)
    ensures KeepsAttempt(r, Capture1(r, suspend, token, env))
  {}

  lemma CheckpointKeepsAttempt(r: Runner, suspend: int, token: string, ch: Option<Chan>, env: Env)
    requires Turning(r)
    ensures KeepsAttempt(r, HandleCheckpoint(r, suspend, token, ch, env))
  {
    if CheckpointAdmitted(r, token) {
      CaptureKeepsAttempt(r, suspend, token, env);
    }
  }

  lemma KillKeepsAttempt(r: Runner, env: Env)
    requires Turning(r)
    ensures KeepsAttempt(r, HandleKill(r, env))
  {}

  lemma ExitKeepsAttempt(r: Runner, code: int, output: Option<string>, env: Env)
    requires Turning(r)
    ensures KeepsAttempt(r, HandleExit(r, code, output, env))
  {}

  lemma ExitedKeepsAttempt(r: Runner, pid: Pid, code: int, exitError: Option<string>, env: Env)
    requires Turning(r) && r.exitWatchers.Has(pid)
    ensures var r' := r.(exitWatchers := r.exitWatchers.Without(pid));
            KeepsAttempt(r', HandleProcessExited(r', code, exitError, env))
  {}

  lemma RetryKeepsAttempt(r: Runner, live: set<Pid>, env: Env)
    requires Turning(r) && r.retrySenders > 0
    ensures var r' := r.(retrySenders := r.retrySenders - 1); KeepsAttempt(r', HandleRetry(r', live, env))
  {}

  lemma ReplyKeepsAttempt(r: Runner, cancelled: bool, res: Response)
    requires Turning(r)
    ensures KeepsAttempt(r, Reply(r.(cancelled := cancelled), res))
  {}

  lemma QueryKeepsAttempt(r: Runner, lockID: LockID, ch: Option<Chan>)
    requires Turning(r)
    ensures KeepsAttempt(r, HandleTakeLock(r)) && KeepsAttempt(r, HandleReleaseLock(r, lockID))
    ensures KeepsAttempt(r, HandleWaitForResult(r, ch))
  {}

  lemma CommandKeepsAttempt(r: Runner, live: set<Pid>, msg: Message, env: Env)
    requires Turning(r) && Legal(r, Deliver(msg, env))
    ensures var r' := SenderGone(r, msg.cmd); KeepsAttempt(r', Handle(r', live, msg, env))
  {
    hide HandleStart, HandleCheckpoint, HandleKill, HandleExit, HandleTakeLock, HandleReleaseLock;
    hide HandleWaitForResult, HandleProcessExited, HandleRetry, HandleWake, Reply, KeepsAttempt;
    match msg.cmd
    case Checkpoint(suspend, token) => CheckpointKeepsAttempt(r, suspend, token, msg.ch, env);
    case Kill => KillKeepsAttempt(r, env);
    case Exit(code, output) => ExitKeepsAttempt(r, code, output, env);
    case ProcessExited(pid, code, exitError) => ExitedKeepsAttempt(r, pid, code, exitError, env);
    case Retry => RetryKeepsAttempt(r, live, env);
    case TakeLock => QueryKeepsAttempt(r, Numbered(0), msg.ch);
    case ReleaseLock(lockID) => QueryKeepsAttempt(r, lockID, msg.ch);
    case WaitForResult => QueryKeepsAttempt(r, Numbered(0), msg.ch);
    case GetState => ReplyKeepsAttempt(r, r.cancelled, JobInfo(r.job));
    case Stop => ReplyKeepsAttempt(r, true, Empty);
  }
  // ----- the discipline keeps the laws -----

  lemma OneMoreImage(images: seq<Image>, from: nat, tokens: set<string>, image: Image)
    requires OneEach(images, from, tokens) && image.token !in tokens
    ensures OneEach(images + [image], from, tokens + {image.token})
  {
    var images' := images + [image];
    forall t ensures t in tokens + {image.token} <==> exists i :: from <= i < |images'| && images'[i].token == t {
      if t in tokens {
        var i :| from <= i < |images| && images[i].token == t;
        assert images'[i].token == t;
      }
      assert images'[|images|].token == image.token;
    }
  }

  lemma CommitImages(m: Machine, ch: Option<Chan>, o: Outcome)
    ensures var m' := Commit(m, ch, o);
            && m'.r == o.r
            && m'.h.images0 == m.h.images0
            && m'.h.checkpoints0 == m.h.checkpoints0
            && m'.w.images == (if o.call.Some? && o.call.value.Imaged? then m.w.images + [o.call.value.image]
                               else m.w.images)
  {}

  lemma CommitKeepsTokens(m: Machine, ch: Option<Chan>, o: Outcome)
    requires OneImagePerToken(m) && TokenRule(m.r, o)
    ensures OneImagePerToken(Commit(m, ch, o))
  {
    var m' := Commit(m, ch, o);
    CommitImages(m, ch, o);
    if o.call.Some? && o.call.value.Imaged? {
      OneMoreImage(m.w.images, m.h.images0, m.r.checkpointTokens, o.call.value.image);
      assert |m'.r.checkpointTokens| == |m.r.checkpointTokens| + 1;
    }
    assert OneEach(m'.w.images, m'.h.images0, m'.r.checkpointTokens);
  }

  lemma CommitKeepsLocks(m: Machine, ch: Option<Chan>, o: Outcome)
    requires LocksBalance(m.r, m.h) && LockRule(m.r, o)
    ensures var m' := Commit(m, ch, o); LocksBalance(m'.r, m'.h)
  {
    var m' := Commit(m, ch, o);
    if o.note.Issued? {
      assert m'.h.issued == m.h.issued + [o.note.lockID];
      assert o.note.lockID !in m.h.released;
    }
  }

  lemma CommitKeepsFinal(m: Machine, ch: Option<Chan>, o: Outcome)
    requires FinalIsLast(m.h, false) && FinalRule(o)
    ensures FinalIsLast(Commit(m, ch, o).h, LoopEnds(o.r))
  {}

  lemma CommitAnswers(m: Machine, ch: Option<Chan>, o: Outcome)
    requires m.r.pendingCheckpointRequests == []
    ensures var h := Commit(m, ch, o).h;
            h.delivered == m.h.delivered &&
            h.answered == m.h.answered + if o.reply.Some? then SomeChan(ch) else multiset{}
  {}

  lemma OneMoreWaiter(waiters: seq<Option<Chan>>, ch: Option<Chan>)
    ensures SomeChans(waiters + [ch]) == SomeChans(waiters) + SomeChan(ch)
  {
    assert (waiters + [ch])[..|waiters|] == waiters;
  }

  lemma CommitKeepsReplies(m: Machine, ch: Option<Chan>, o: Outcome)
    requires m.h.answered + SomeChans(m.r.resultWaiters) + SomeChan(ch) == m.h.delivered
    requires m.r.pendingCheckpointRequests == [] && ReplyRule(m.r, ch, o)
    ensures RepliesBalance(Commit(m, ch, o))
  {
    CommitAnswers(m, ch, o);
    OneMoreWaiter(m.r.resultWaiters, ch);
  }

  lemma PolicyIsConstant(w: World, o: Outcome, k: nat)
    ensures WorldAt(w, o, k).policy == w.policy
  {}

  lemma CommitCounts(m: Machine, ch: Option<Chan>, o: Outcome)
    ensures var m' := Commit(m, ch, o);
            && m'.r == o.r
            && m'.w.policy == m.w.policy
            && m'.h.retries0 == m.h.retries0
            && m'.h.failures == m.h.failures + if o.note.AttemptFailed? then 1 else 0
  {
    hide WorldAt, RepliedTo;
    PolicyIsConstant(m.w, o, 4);
  }

  lemma CommitKeepsBudget(m: Machine, ch: Option<Chan>, o: Outcome)
    requires WithinBudget(m, false) && BudgetRule(m.r, o)
    ensures WithinBudget(Commit(m, ch, o), LoopEnds(o.r))
  {
    CommitCounts(m, ch, o);
    hide Commit;
  }

  // ----- every run is lawful -----

  /** The laws of a command about to be handled: its own request is still owed a reply. */
  ghost predicate Owing(m: Machine, ch: Option<Chan>) {
    && m.r.pendingCheckpointRequests == []
    && WithinBudget(m, false)
    && OneImagePerToken(m)
    && LocksBalance(m.r, m.h)
    && FinalIsLast(m.h, false)
    && m.h.answered + SomeChans(m.r.resultWaiters) + SomeChan(ch) == m.h.delivered
  }

  lemma TakeFromQueueOwes(l: Loop, msg: Message)
    requires Lawful(l) && !l.stopped
    ensures Owing(TakeFromQueue(l.m, msg), msg.ch)
  {
    hide OneEach, Balanced, SomeChan, SomeChans;
  }

  /** The settled machine of a command, once the loop has looked at it. */
  lemma TurnLawful(m: Machine)
    requires NeverCollapsing(m.r) && CleanAttempt(m.r, LoopEnds(m.r)) && WithinBudget(m, LoopEnds(m.r))
    requires OneImagePerToken(m) && LocksBalance(m.r, m.h) && FinalIsLast(m.h, LoopEnds(m.r)) && RepliesBalance(m)
    ensures Lawful(Turn(m))
  {
    assert SomeChans([]) == multiset{};
  }

  lemma CommitLawful(m: Machine, ch: Option<Chan>, o: Outcome)
    requires Owing(m, ch) && KeepsBooks(m.r, ch, o) && KeepsAttempt(m.r, o)
    ensures Lawful(Turn(Commit(m, ch, o)))
  {
    CommitImages(m, ch, o);
    CommitKeepsTokens(m, ch, o);
    CommitKeepsLocks(m, ch, o);
    CommitKeepsFinal(m, ch, o);
    CommitKeepsReplies(m, ch, o);
    CommitKeepsBudget(m, ch, o);
    TurnLawful(Commit(m, ch, o));
  }

  lemma CommandLawful(l: Loop, msg: Message, env: Env)
    requires Lawful(l) && !l.stopped && Legal(l.m.r, Deliver(msg, env))
    ensures Lawful(LoopStep(l, Deliver(msg, env)))
  {
    hide Handle, OneEach, Balanced;
    var m := TakeFromQueue(l.m, msg);
    TakeFromQueueOwes(l, msg);
    CommandKeepsBooks(m.r, m.w.live, msg, env);
    CommandKeepsAttempt(l.m.r, l.m.w.live, msg, env);
    CommitLawful(m, msg.ch, Handle(m.r, m.w.live, msg, env));
  }

  lemma DrainOnlyAnswers(l: Loop, msg: Message, env: Env)
    requires l.stopped
    ensures LoopStep(l, Deliver(msg, env)) ==
            l.(m := Machine(SenderGone(l.m.r, msg.cmd), l.m.w,
                            l.m.h.(delivered := l.m.h.delivered + SomeChan(msg.ch),
                                   answered := l.m.h.answered + SomeChan(msg.ch))))
  {}

  lemma DrainedIsLawful(l: Loop, exitWatchers: Watchers, retrySenders: nat, ch: Option<Chan>)
    requires Lawful(l) && l.stopped
    ensures Lawful(l.(m := Machine(l.m.r.(exitWatchers := exitWatchers, retrySenders := retrySenders), l.m.w,
                                   l.m.h.(delivered := l.m.h.delivered + SomeChan(ch),
                                          answered := l.m.h.answered + SomeChan(ch)))))
  {
    hide OneEach, Balanced, SomeChan, SomeChans;
  }

  lemma DrainLawful(l: Loop, msg: Message, env: Env)
    requires Lawful(l) && l.stopped
    ensures Lawful(LoopStep(l, Deliver(msg, env)))
  {
    hide Lawful;
    DrainOnlyAnswers(l, msg, env);
    var r := SenderGone(l.m.r, msg.cmd);
    DrainedIsLawful(l, r.exitWatchers, r.retrySenders, msg.ch);
  }

  lemma StepLawful(l: Loop, e: Event)
    requires Lawful(l) && Legal(l.m.r, e)
    ensures Lawful(LoopStep(l, e))
  {
    match e
    case ContextDone =>
    case Deliver(msg, env) => if l.stopped { DrainLawful(l, msg, env); } else { CommandLawful(l, msg, env); }
  }

  /** The first command leaves a clean attempt, or ends the loop. */
  ghost predicate EntersCleanly(r: Runner, o: Outcome, retries: int) {
    && NeverCollapsing(o.r) && CleanAttempt(o.r, LoopEnds(o.r))
    && o.r.onFailure == r.onFailure && !o.r.retryPending && !o.note.AttemptFailed?
    && o.r.job.retryCount == retries
  }

  lemma EntryKeepsAttempt(entry: Entry, job: JobRecord, checkpoint: Option<string>, policy: Policy,
                          live: set<Pid>, ch: Option<Chan>, env: Env)
    requires Enterable(entry, job, checkpoint)
    ensures var r := NewRunner(job, policy, checkpoint);
            EntersCleanly(r, Handle(r, live, Message(EntryCommand(entry), ch), env),
                          job.retryCount + if entry == ByRetry then 1 else 0)
  {}

  function EntryMachine(entry: Entry, job: JobRecord, checkpoint: Option<string>, w: World, ch: Option<Chan>): Machine {
    var retries := job.retryCount + if entry == ByRetry then 1 else 0;
    Machine(NewRunner(job, w.policy, checkpoint), w,
            NewHistory(retries, job.checkpointCount, |w.images|).(delivered := SomeChan(ch)))
  }

  lemma EnterHandlesFirstCommand(entry: Entry, job: JobRecord, checkpoint: Option<string>, w: World,
                                 ch: Option<Chan>, env: Env)
    ensures Enter(entry, job, checkpoint, w, ch, env) ==
            Turn(HandleCommand(EntryMachine(entry, job, checkpoint, w, ch), Message(EntryCommand(entry), ch), env))
  {
    hide HandleCommand, Turn;
    assert multiset{} + SomeChan(ch) == SomeChan(ch);
  }

  lemma FreshIsLawful(entry: Entry, job: JobRecord, checkpoint: Option<string>, w: World, ch: Option<Chan>)
    ensures var m := EntryMachine(entry, job, checkpoint, w, ch);
            && OneImagePerToken(m) && LocksBalance(m.r, m.h) && FinalIsLast(m.h, false)
            && m.h.answered + SomeChans(m.r.resultWaiters) + SomeChan(ch) == m.h.delivered
  {}

  lemma CommitEntryBudget(m: Machine, ch: Option<Chan>, o: Outcome)
    requires o.r.onFailure == Some(m.w.policy) && m.h.failures == 0 && !o.note.AttemptFailed?
    requires o.r.job.retryCount == m.h.retries0 && !o.r.retryPending
    ensures WithinBudget(Commit(m, ch, o), LoopEnds(o.r))
  {
    CommitCounts(m, ch, o);
    hide Commit;
  }

  lemma EntryLawful(entry: Entry, job: JobRecord, checkpoint: Option<string>, w: World,
                    ch: Option<Chan>, env: Env)
    requires Enterable(entry, job, checkpoint)
    ensures Lawful(Enter(entry, job, checkpoint, w, ch, env))
  {
    hide Handle, Enter, OneImagePerToken, LocksBalance;
    var m := EntryMachine(entry, job, checkpoint, w, ch);
    var msg := Message(EntryCommand(entry), ch);
    var o := Handle(m.r, w.live, msg, env);
    EnterHandlesFirstCommand(entry, job, checkpoint, w, ch, env);
    FreshIsLawful(entry, job, checkpoint, w, ch);
    CommandKeepsBooks(m.r, w.live, msg, env);
    EntryKeepsAttempt(entry, job, checkpoint, w.policy, w.live, ch, env);
    CommitImages(m, ch, o);
    CommitKeepsTokens(m, ch, o);
    CommitKeepsLocks(m, ch, o);
    CommitKeepsFinal(m, ch, o);
    CommitKeepsReplies(m, ch, o);
    CommitEntryBudget(m, ch, o);
    TurnLawful(Commit(m, ch, o));
  }

  /** Every run of every runner is lawful after every event. */
  lemma {:induction false} RunLawful(l: Loop, events: seq<Event>)
    requires Lawful(l) && LegalRun(l, events)
    ensures Lawful(RunLoop(l, events))
  {
    if events != [] {
      RunLawful(l, events[..|events| - 1]);
      StepLawful(RunLoop(l, events[..|events| - 1]), events[|events| - 1]);
    }
  }
}
