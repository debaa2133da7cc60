/** The promises of one runner, over every run of it. */
module RunnerTheorems {
  import opened Wrappers
  import opened Jobs
  import opened Rows
  import opened Machine
  import opened RunnerSpec
  import opened RunnerLaws
  import opened RowLaws
  import opened Slots
  import opened SlotLaws

  /** A runner's life: its entry command, then any legal events. */
  lemma LifeIsLawful(entry: Entry, job: JobRecord, checkpoint: Option<string>, w: World,
                     ch: Option<Chan>, env: Env, events: seq<Event>)
    requires Enterable(entry, job, checkpoint)
    requires LegalRun(Enter(entry, job, checkpoint, w, ch, env), events)
    ensures Lawful(RunLoop(Enter(entry, job, checkpoint, w, ch, env), events))
  {
    hide Enter, Lawful;
    EntryLawful(entry, job, checkpoint, w, ch, env);
    RunLawful(Enter(entry, job, checkpoint, w, ch, env), events);
  }

  lemma {:induction false} RunKeepsItsStart(l: Loop, events: seq<Event>)
    ensures var l' := RunLoop(l, events);
            && l'.m.h.retries0 == l.m.h.retries0 && l'.m.h.images0 == l.m.h.images0
            && l'.m.h.checkpoints0 == l.m.h.checkpoints0 && l'.m.w.policy == l.m.w.policy
  {
    if events != [] {
      var before, e := RunLoop(l, events[..|events| - 1]), events[|events| - 1];
      RunKeepsItsStart(l, events[..|events| - 1]);
      if e.Deliver? {
        StepKeepsItsStart(before, e.msg, e.env);
      }
    }
  }

  lemma StepKeepsItsStart(l: Loop, msg: Message, env: Env)
    ensures var l' := LoopStep(l, Deliver(msg, env));
            && l'.m.h.retries0 == l.m.h.retries0 && l'.m.h.images0 == l.m.h.images0
            && l'.m.h.checkpoints0 == l.m.h.checkpoints0 && l'.m.w.policy == l.m.w.policy
  {
    hide Handle;
    var m := TakeFromQueue(l.m, msg);
    var o, drained := Handle(m.r, m.w.live, msg, env), Refuse(m.r, RunnerStopped);
    CommitCounts(m, msg.ch, o);
    CommitImages(m, msg.ch, o);
    CommitCounts(m, msg.ch, drained);
    CommitImages(m, msg.ch, drained);
    hide Commit, Refuse;
  }

  /** A runner started or woken with `n` retries behind it never counts more than the larger
      of `n` and the policy's maximum, and handles at most max(0, maximum - n) + 1 failures. */
  lemma RetriesAndFailuresAreBounded(entry: Entry, job: JobRecord, checkpoint: Option<string>, w: World,
                                     ch: Option<Chan>, env: Env, events: seq<Event>)
    requires Enterable(entry, job, checkpoint) && entry != ByRetry
    requires LegalRun(Enter(entry, job, checkpoint, w, ch, env), events)
    ensures var m := RunLoop(Enter(entry, job, checkpoint, w, ch, env), events).m;
            && job.retryCount <= m.r.job.retryCount <= Max(job.retryCount, w.policy.maxRetries)
            && m.h.failures <= Max(0, w.policy.maxRetries - job.retryCount) + 1
  {
    var l := Enter(entry, job, checkpoint, w, ch, env);
    LifeIsLawful(entry, job, checkpoint, w, ch, env, events);
    RunKeepsItsStart(l, events);
    StepKeepsItsStart(FreshLoop(entry, job, checkpoint, w), Message(EntryCommand(entry), ch), env);
    hide Enter, LegalRun, RunLoop, LoopStep;
  }

  /** Over any run the checkpoint count has grown by the number of tokens accepted, one
      runtime image was taken for each of them, and no token has two. */
  lemma CheckpointsAreCountedOnce(entry: Entry, job: JobRecord, checkpoint: Option<string>, w: World,
                                  ch: Option<Chan>, env: Env, events: seq<Event>)
    requires Enterable(entry, job, checkpoint)
    requires LegalRun(Enter(entry, job, checkpoint, w, ch, env), events)
    ensures var m := RunLoop(Enter(entry, job, checkpoint, w, ch, env), events).m;
            && m.r.job.checkpointCount == job.checkpointCount + |m.r.checkpointTokens|
            && |m.w.images| == |w.images| + |m.r.checkpointTokens|
            && (forall i, j :: |w.images| <= i < j < |m.w.images| ==> m.w.images[i].token != m.w.images[j].token)
            && (forall i :: |w.images| <= i < |m.w.images| ==> m.w.images[i].token in m.r.checkpointTokens)
  {
    var l := Enter(entry, job, checkpoint, w, ch, env);
    LifeIsLawful(entry, job, checkpoint, w, ch, env, events);
    RunKeepsItsStart(l, events);
    StepKeepsItsStart(FreshLoop(entry, job, checkpoint, w), Message(EntryCommand(entry), ch), env);
    hide Enter, LegalRun, RunLoop, LoopStep;
  }

  // ----- checkpoints and locks -----

  /** Replaying an accepted token succeeds and changes nothing, also while locks are held. */
  lemma ReplayChangesNothing(l: Loop, suspend: int, token: string, ch: Option<Chan>, env: Env)
    requires Lawful(l) && !l.stopped && token in l.m.r.checkpointTokens && token != ""
    ensures var l' := LoopStep(l, Deliver(Message(Checkpoint(suspend, token), ch), env));
            && l'.m.r == l.m.r && !l'.stopped
            && l'.m.w == l.m.w.(acked := |l.m.w.images|)
            && l'.m.h.captures == l.m.h.captures
            && l'.m.h.answered == l.m.h.answered + SomeChan(ch)
  {
    hide OneEach, Balanced;
    var msg := Message(Checkpoint(suspend, token), ch);
    LoopStepShape(l, msg, env);
    var m := TakeFromQueue(l.m, msg);
    CommitAnswers(m, ch, Reply(m.r, CheckpointDone(m.r.job)));
    hide Lawful;
  }

  lemma OnlyCheckpointsCapture(r: Runner, live: set<Pid>, msg: Message, env: Env)
    ensures Handle(r, live, msg, env).note.Capture? <==>
            msg.cmd.Checkpoint? && CheckpointAdmitted(r, msg.cmd.token)
  {
    hide HandleStart, HandleWake, HandleRetry, HandleExit, HandleKill, HandleProcessExited;
    hide HandleTakeLock, HandleReleaseLock, HandleWaitForResult;
    if !msg.cmd.Checkpoint? {
      OthersNeverCapture(r, live, msg, env);
    }
  }

  lemma OthersNeverCapture(r: Runner, live: set<Pid>, msg: Message, env: Env)
    requires !msg.cmd.Checkpoint?
    ensures !Handle(r, live, msg, env).note.Capture?
  {}

  lemma CommitCaptures(m: Machine, ch: Option<Chan>, o: Outcome)
    ensures Commit(m, ch, o).h.captures == m.h.captures + if o.note.Capture? then 1 else 0
  {
    hide WorldAt, RepliedTo;
  }

  /** The runtime is asked for a checkpoint exactly when a running job gets a fresh token with
      no lock active; in particular never while a lock is held. */
  lemma CapturesExactlyWhenAdmitted(l: Loop, msg: Message, env: Env)
    requires !l.stopped
    ensures var h' := LoopStep(l, Deliver(msg, env)).m.h;
            if msg.cmd.Checkpoint? && CheckpointAdmitted(l.m.r, msg.cmd.token)
            then l.m.r.activeLocks == {} && h'.captures == l.m.h.captures + 1
            else h'.captures == l.m.h.captures
  {
    var m := TakeFromQueue(l.m, msg);
    OnlyCheckpointsCapture(m.r, m.w.live, msg, env);
    hide Handle;
    CommitCaptures(m, msg.ch, Handle(m.r, m.w.live, msg, env));
    hide Commit;
  }

  /** The lock ids a runner has issued after `n` locks were taken. */
  function FirstIds(n: nat): set<LockID> {
    set i: nat | 1 <= i <= n :: Numbered(i)
  }

  lemma {:induction false} FirstIdsCount(n: nat)
    ensures |FirstIds(n)| == n
  {
    if n == 0 {
      assert FirstIds(0) == {};
    } else {
      FirstIdsCount(n - 1);
      assert FirstIds(n) == FirstIds(n - 1) + {Numbered(n)};
    }
  }

  lemma BalanceCounts(counter: nat, active: set<LockID>, issued: seq<LockID>, released: set<LockID>)
    requires Balanced(counter, active, issued, released)
    ensures |active| == |issued| - |released|
  {
    FirstIdsCount(counter);
    forall x ensures x in issued <==> x in FirstIds(counter) {
      if x in FirstIds(counter) {
        assert issued[x.n - 1] == x;
      }
    }
    assert active == FirstIds(counter) - released && released <= FirstIds(counter);
  }

  /** Over any run no lock id is issued twice, no released id is active again, and the locks
      held are those taken less those given back. */
  lemma LocksAreConserved(entry: Entry, job: JobRecord, checkpoint: Option<string>, w: World,
                          ch: Option<Chan>, env: Env, events: seq<Event>)
    requires Enterable(entry, job, checkpoint)
    requires LegalRun(Enter(entry, job, checkpoint, w, ch, env), events)
    ensures var m := RunLoop(Enter(entry, job, checkpoint, w, ch, env), events).m;
            && (forall i, j :: 0 <= i < j < |m.h.issued| ==> m.h.issued[i] != m.h.issued[j])
            && (forall x :: x in m.r.activeLocks <==> x in m.h.issued && x !in m.h.released)
            && |m.r.activeLocks| == |m.h.issued| - |m.h.released|
  {
    LifeIsLawful(entry, job, checkpoint, w, ch, env, events);
    var m := RunLoop(Enter(entry, job, checkpoint, w, ch, env), events).m;
    hide Enter, LegalRun, RunLoop;
    BalanceCounts(m.r.lockCounter, m.r.activeLocks, m.h.issued, m.h.released);
  }

  /** Between commands of any run: no checkpoint is in progress and none is collapsed; a
      running job has a process, which alone is waited for, and nothing left of an earlier
      attempt. */
  lemma RunningIsClean(entry: Entry, job: JobRecord, checkpoint: Option<string>, w: World,
                       ch: Option<Chan>, env: Env, events: seq<Event>)
    requires Enterable(entry, job, checkpoint)
    requires LegalRun(Enter(entry, job, checkpoint, w, ch, env), events)
    ensures var l := RunLoop(Enter(entry, job, checkpoint, w, ch, env), events);
            var r := l.m.r;
            && r.job.op != Checkpointing && r.pendingCheckpointRequests == []
            && (!l.stopped && r.job.state == Running ==>
                  && r.process.Some? && r.exitWatchers == Watcher(r.process.value, Nobody)
                  && r.job.result.None? && r.job.error.None? && r.job.completedAt.None?)
  {
    LifeIsLawful(entry, job, checkpoint, w, ch, env, events);
    hide Enter, LegalRun, RunLoop;
  }

  /** Idempotency ends with the runner: after a suspending checkpoint, the job woken in a fresh
      runner has its own token accepted a second time. */
  lemma TokensDoNotSurviveAWake(w: World, pid: Pid, suspend: int, image: Image, ch: Option<Chan>, env: Env)
    requires Durable(w) && w.row.state == Suspended && Reliable(env) && image in w.images && image.token != ""
    requires env.launch == Launched(pid) && env.capture.Captured?
    ensures var job := Load(w.row).(state := Suspended);
            var woken := Enter(ByWake, job, w.row.checkpointPath, w, ch, env);
            var again := LoopStep(woken, Deliver(Message(Checkpoint(suspend, image.token), ch), env));
            again.m.w.images == w.images + [Image(env.capture.path, image.token)]
  {
    var job := Load(w.row).(state := Suspended);
    var woken := Enter(ByWake, job, w.row.checkpointPath, w, ch, env);
    WakenIsFresh(w, job, pid, ch, env);
    hide Durable, Enter, LoopStep;
    AdmittedIsCaptured(woken, suspend, image.token, ch, env);
  }

  lemma AdmittedIsCaptured(l: Loop, suspend: int, token: string, ch: Option<Chan>, env: Env)
    requires !l.stopped && CheckpointAdmitted(l.m.r, token) && env.capture.Captured?
    ensures LoopStep(l, Deliver(Message(Checkpoint(suspend, token), ch), env)).m.w.images ==
            l.m.w.images + [Image(env.capture.path, token)]
  {
    var msg := Message(Checkpoint(suspend, token), ch);
    LoopStepShape(l, msg, env);
    AdmittedCall(l.m.r, l.m.w.live, suspend, token, ch, env);
    hide LoopStep, Handle, WorldAt, CheckpointAdmitted;
    ImagedAddsImage(l.m.w, Handle(l.m.r, l.m.w.live, msg, env));
  }

  lemma AdmittedCall(r: Runner, live: set<Pid>, suspend: int, token: string, ch: Option<Chan>, env: Env)
    requires CheckpointAdmitted(r, token) && env.capture.Captured?
    ensures Handle(r, live, Message(Checkpoint(suspend, token), ch), env).call ==
            Some(Imaged(suspend == 0, Image(env.capture.path, token)))
  {
    hide HandleStart, HandleWake, HandleRetry, HandleExit, HandleKill, HandleProcessExited;
    hide HandleTakeLock, HandleReleaseLock, HandleWaitForResult;
  }

  lemma ImagedAddsImage(w: World, o: Outcome)
    requires o.call.Some? && o.call.value.Imaged?
    ensures WorldAt(w, o, 4).images == w.images + [o.call.value.image]
  {}

  lemma WakenIsFresh(w: World, job: JobRecord, pid: Pid, ch: Option<Chan>, env: Env)
    requires Durable(w) && w.row.state == Suspended && job == Load(w.row).(state := Suspended)
    requires env.launch == Launched(pid)
    ensures var woken := Enter(ByWake, job, w.row.checkpointPath, w, ch, env);
            && !woken.stopped && woken.m.r.job.state == Running && woken.m.r.job.op == Idle
            && woken.m.r.checkpointTokens == {} && woken.m.r.activeLocks == {} && woken.m.w.images == w.images
  {
    hide HandleStart, HandleRetry;
    EnterHandlesFirstCommand(ByWake, job, w.row.checkpointPath, w, ch, env);
    hide Enter;
  }

  // ----- the end of a run -----

  /** Once the loop has ended nothing changes the job or the world; queued requests are only
      told that the runner has stopped. */
  lemma {:induction false} StoppedMeansFrozen(l: Loop, events: seq<Event>)
    requires l.stopped
    ensures var l' := RunLoop(l, events);
            && l'.stopped && l'.m.w == l.m.w && l'.m.r.job == l.m.r.job
            && l'.m.h.finals == l.m.h.finals && l'.m.h.late == l.m.h.late
  {
    if events != [] {
      StoppedMeansFrozen(l, events[..|events| - 1]);
      var before, e := RunLoop(l, events[..|events| - 1]), events[|events| - 1];
      if e.Deliver? {
        DrainOnlyAnswers(before, e.msg, e.env);
      }
      hide LoopStep;
    }
  }

  /** Final means final: at most one terminal row write over a runner's life, and no row write
      of any kind after it. */
  lemma OneFinalWrite(entry: Entry, job: JobRecord, checkpoint: Option<string>, w: World,
                      ch: Option<Chan>, env: Env, events: seq<Event>)
    requires Enterable(entry, job, checkpoint)
    requires LegalRun(Enter(entry, job, checkpoint, w, ch, env), events)
    ensures var l := RunLoop(Enter(entry, job, checkpoint, w, ch, env), events);
            && l.m.h.finals <= 1 && l.m.h.late == 0 && (l.m.h.finals == 1 ==> l.stopped)
  {
    LifeIsLawful(entry, job, checkpoint, w, ch, env, events);
    hide Enter, LegalRun, RunLoop;
  }

  /** No stale exits: the process an exit reports is the one of the current attempt, and no
      other exit is under way. */
  lemma ExitIsCurrent(l: Loop, msg: Message, env: Env)
    requires Lawful(l) && !l.stopped && Legal(l.m.r, Deliver(msg, env)) && msg.cmd.ProcessExited?
    ensures l.m.r.process == Some(msg.cmd.pid)
    ensures SenderGone(l.m.r, msg.cmd).exitWatchers == Nobody
  {
    hide OneEach, Balanced;
    var watchers := l.m.r.exitWatchers;
    assert watchers.Watcher? ==> watchers.others == Nobody && !watchers.others.Has(msg.cmd.pid);
  }

  /** Every request has exactly one reply once the job has settled: those taken from the queue
      are all answered, the waiters among them included. */
  lemma EveryRequestIsAnswered(entry: Entry, job: JobRecord, checkpoint: Option<string>, w: World,
                               ch: Option<Chan>, env: Env, events: seq<Event>)
    requires Enterable(entry, job, checkpoint)
    requires LegalRun(Enter(entry, job, checkpoint, w, ch, env), events)
    ensures var l := RunLoop(Enter(entry, job, checkpoint, w, ch, env), events);
            && l.m.h.answered + SomeChans(l.m.r.resultWaiters) == l.m.h.delivered
            && (LoopEnds(l.m.r) ==> l.m.h.answered == l.m.h.delivered)
            && (l.stopped && !l.m.r.cancelled ==> LoopEnds(l.m.r))
  {
    LifeIsLawful(entry, job, checkpoint, w, ch, env, events);
    hide Enter, LegalRun, RunLoop;
    assert SomeChans([]) == multiset{};
  }

  /** What the history counts as a final write is what settles the row. */
  lemma SettlingIsCounted(l: Loop, msg: Message, env: Env)
    requires Lawful(l) && !l.stopped && Legal(l.m.r, Deliver(msg, env)) && InStep(l.m.r, l.m.w) && Reliable(env)
    ensures var m' := LoopStep(l, Deliver(msg, env)).m;
            && !l.m.w.row.state.IsTerminal()
            && m'.h.finals == l.m.h.finals + if m'.w.row.state.IsTerminal() then 1 else 0
  {
    LawfulTurns(l);
    TurningRowIsLive(l.m.r, l.m.w);
    assert l.m.r.checkpointTokens != {} ==> l.m.w.recorded == |l.m.w.images|;
    hide Lawful, InStep, Handle, WorldAt, RowAfter, Durable, WriteRule, Follows;
    SenderGoneInStep(l.m.r, l.m.w, msg.cmd);
    CommandSafe(l.m.r, l.m.w, msg, env);
    var o := Handle(SenderGone(l.m.r, msg.cmd), l.m.w.live, msg, env);
    LoopStepShape(l, msg, env);
    FinalsByOutcome(l, msg, env);
    SettledByOutcome(l.m.w, o);
    hide LoopStep;
  }

  lemma TurningRowIsLive(r: Runner, w: World)
    requires InStep(r, w) && Turning(r) && !LoopEnds(r)
    ensures Durable(w) && !w.row.state.IsTerminal()
  {}

  lemma SettledByOutcome(w: World, o: Outcome)
    requires Durable(w) && WriteRule(w, o) && !w.row.state.IsTerminal()
    ensures WorldAt(w, o, 4).row.state.IsTerminal() <==> o.after.Some? && o.after.value.u.UpdateCompleted?
  {
    hide CheckpointsRecorded, AtMostOne;
  }

  lemma FinalsByOutcome(l: Loop, msg: Message, env: Env)
    requires Lawful(l) && !l.stopped && Legal(l.m.r, Deliver(msg, env))
    ensures var o := Handle(SenderGone(l.m.r, msg.cmd), l.m.w.live, msg, env);
            LoopStep(l, Deliver(msg, env)).m.h.finals ==
            l.m.h.finals + if o.after.Some? && o.after.value.u.UpdateCompleted? then 1 else 0
  {
    LawfulTurns(l);
    CommandKeepsBooks(SenderGone(l.m.r, msg.cmd), l.m.w.live, msg, env);
    hide Handle, WorldAt, Lawful, Turning, TokenRule, LockRule, ReplyRule, SomeChans, RepliedTo, NoteCommand, LoopEnds;
    NotesKeepFinals(TakeFromQueue(l.m, msg).h, Handle(SenderGone(l.m.r, msg.cmd), l.m.w.live, msg, env).note);
  }

  /** And what it counts as late is any write after that. */
  lemma LateWritesAreCounted(h: History, write: Write)
    ensures NoteWrite(h, Some(write)).late == h.late + if h.finals > 0 then 1 else 0
  {}

  lemma NotesKeepFinals(h: History, note: Note)
    ensures NoteCommand(h, note).finals == h.finals
  {}

  /** What the history counts as a failure is a failed end of the running job's process. */
  lemma FailuresAreCounted(l: Loop, msg: Message, env: Env)
    requires !l.stopped
    ensures var failed := msg.cmd.ProcessExited? && !l.m.r.job.state.IsTerminal() && l.m.r.job.state != Suspended
                          && (msg.cmd.exitError.Some? || msg.cmd.exitCode != 0);
            LoopStep(l, Deliver(msg, env)).m.h.failures == l.m.h.failures + if failed then 1 else 0
  {
    var m := TakeFromQueue(l.m, msg);
    FailuresByOutcome(m.r, m.w.live, msg, env);
    hide Handle;
    CommitCounts(m, msg.ch, Handle(m.r, m.w.live, msg, env));
    hide Commit;
  }

  lemma FailuresByOutcome(r: Runner, live: set<Pid>, msg: Message, env: Env)
    ensures Handle(r, live, msg, env).note.AttemptFailed? <==>
              && msg.cmd.ProcessExited? && !r.job.state.IsTerminal() && r.job.state != Suspended
              && (msg.cmd.exitError.Some? || msg.cmd.exitCode != 0)
  {
    match msg.cmd
    case Retry => hide HandleStart, HandleWake, HandleCheckpoint, HandleKill, HandleExit, HandleProcessExited;
    case ProcessExited(_, _, _) => hide HandleStart, HandleWake, HandleCheckpoint, HandleKill, HandleExit, HandleRetry;
    case _ => hide HandleRetry, HandleProcessExited;
  }

  /** A settled row is final in its runner's life: the loop has ended, and nothing that comes
      after changes the row. */
  lemma SettledRowIsFinal(l: Loop, events: seq<Event>, more: seq<Event>)
    requires Lawful(l) && LegalRun(l, events) && InStep(l.m.r, l.m.w) && ReliableRun(l, events)
    requires RunLoop(l, events).m.w.row.state.IsTerminal()
    ensures RunLoop(l, events).stopped
    ensures RunLoop(RunLoop(l, events), more).m.w == RunLoop(l, events).m.w
  {
    RunLawful(l, events);
    RunStaysInStep(l, events);
    SettledRowEndsLoop(RunLoop(l, events));
    StoppedMeansFrozen(RunLoop(l, events), more);
  }

  lemma SettledRowEndsLoop(l: Loop)
    requires Lawful(l) && InStep(l.m.r, l.m.w) && l.m.w.row.state.IsTerminal()
    ensures l.stopped
  {
    hide OneEach, Balanced, Durable, WithinBudget;
  }

  // ----- waiting for the result -----

  /** A request for the result is answered at once if and only if the job has its result; any other
      becomes a waiter. */
  lemma WaitIsAnsweredAtOnceExactlyWhen(l: Loop, ch: Chan, env: Env)
    requires Lawful(l) && !l.stopped && ch !in l.m.h.delivered
    ensures var msg := Message(WaitForResult, Some(ch));
            var l' := LoopStep(l, Deliver(msg, env));
            && (ch in l'.m.h.answered <==> l.m.r.job.state == Completed || l.m.r.job.state == Failed)
            && (ch in l'.m.h.answered ==> Handle(l.m.r, l.m.w.live, msg, env).reply == Some(JobInfo(l.m.r.job)))
            && (ch !in l'.m.h.answered ==> ch in SomeChans(l'.m.r.resultWaiters) && !l'.stopped)
            && l'.m.h.delivered[ch] == 1 && l'.m.r.job == l.m.r.job && l'.m.w == l.m.w
  {
    var msg := Message(WaitForResult, Some(ch));
    LoopHistory(l, msg, env);
    OneMoreWaiter(l.m.r.resultWaiters, Some(ch));
    assert l.m.h.answered + SomeChans(l.m.r.resultWaiters) == l.m.h.delivered;
    LoopStepShape(l, msg, env);
    WaitOutcome(l.m.w, l.m.r, ch, env);
    hide Lawful, LoopStep, Handle, WorldAt, SomeChans;
  }

  lemma WaitOutcome(w: World, r: Runner, ch: Chan, env: Env)
    ensures var o := Handle(r, w.live, Message(WaitForResult, Some(ch)), env);
            && WorldAt(w, o, 4) == w && o.r.job == r.job && (LoopEnds(o.r) <==> LoopEnds(r))
            && if r.job.state == Completed || r.job.state == Failed then o.reply == Some(JobInfo(r.job)) && o.r == r
               else o.reply == None && o.r.resultWaiters == r.resultWaiters + [Some(ch)]
  {}

  /** Who is answered by one turn of the loop, and what released waiters are shown. */
  lemma LoopHistory(l: Loop, msg: Message, env: Env)
    requires !l.stopped && l.m.r.pendingCheckpointRequests == []
    ensures var o := Handle(SenderGone(l.m.r, msg.cmd), l.m.w.live, msg, env);
            var m, m' := l.m, LoopStep(l, Deliver(msg, env)).m;
            var replied := m.h.answered + if o.reply.Some? then SomeChan(msg.ch) else multiset{};
            && m'.h.delivered == m.h.delivered + SomeChan(msg.ch)
            && if LoopEnds(o.r) then
                 && m'.h.answered == replied + SomeChans(o.r.resultWaiters) && m'.h.told == Some(m'.r.job)
                 && m'.r == o.r.(resultWaiters := [])
               else m'.h.answered == replied && m'.h.told == m.h.told && m'.r == o.r
  {
    hide Handle, WorldAt, SomeChans, RepliedTo, NoteCommand, NoteWrite, LoopEnds, SenderGone;
    var m := TakeFromQueue(l.m, msg);
    var o := Handle(m.r, m.w.live, msg, env);
    QueueKeepsPending(l.m.r, msg.cmd);
    CommitAnswers(m, msg.ch, o);
    CommitTellsNobody(m, msg.ch, o);
    hide Commit;
  }

  lemma QueueKeepsPending(r: Runner, cmd: Command)
    ensures SenderGone(r, cmd).pendingCheckpointRequests == r.pendingCheckpointRequests
  {}

  lemma CommitTellsNobody(m: Machine, ch: Option<Chan>, o: Outcome)
    ensures Commit(m, ch, o).h.told == m.h.told && Commit(m, ch, o).r == o.r
  {
    hide WorldAt, RepliedTo;
  }

  /** A waiter of a loop that has not come to an end. */
  ghost predicate Waits(l: Loop, ch: Chan) {
    && l.m.h.delivered[ch] == 1
    && (!LoopEnds(l.m.r) ==> ch in SomeChans(l.m.r.resultWaiters))
    && (LoopEnds(l.m.r) ==> l.m.h.told == Some(l.m.r.job))
  }

  lemma CommandKeepsWaiters(r: Runner, live: set<Pid>, msg: Message, env: Env)
    requires Turning(r) && (msg.cmd.ProcessExited? ==> msg.ch.None?)
    ensures var waiters := Handle(SenderGone(r, msg.cmd), live, msg, env).r.resultWaiters;
            waiters == r.resultWaiters || waiters == r.resultWaiters + [msg.ch]
  {
    CommandKeepsBooks(SenderGone(r, msg.cmd), live, msg, env);
    hide Handle, TokenRule, LockRule, FinalRule;
  }

  lemma StepKeepsWaiter(l: Loop, msg: Message, env: Env, ch: Chan)
    requires Lawful(l) && Legal(l.m.r, Deliver(msg, env)) && Waits(l, ch) && msg.ch != Some(ch)
    ensures Waits(LoopStep(l, Deliver(msg, env)), ch)
  {
    hide Lawful, LoopStep, Handle, SomeChans;
    if l.stopped {
      DrainOnlyAnswers(l, msg, env);
    } else {
      LawfulTurns(l);
      LoopHistory(l, msg, env);
      CommandKeepsWaiters(l.m.r, l.m.w.live, msg, env);
      OneMoreWaiter(l.m.r.resultWaiters, msg.ch);
      hide LoopEnds, SenderGone;
    }
  }

  lemma LawfulTurns(l: Loop)
    requires Lawful(l) && !l.stopped
    ensures Turning(l.m.r) && !LoopEnds(l.m.r) && l.m.r.pendingCheckpointRequests == []
  {}

  lemma {:induction false} WaiterStays(l: Loop, events: seq<Event>, ch: Chan)
    requires Lawful(l) && LegalRun(l, events) && Waits(l, ch)
    requires forall e :: e in events && e.Deliver? ==> e.msg.ch != Some(ch)
    ensures Waits(RunLoop(l, events), ch)
  {
    hide Lawful, Legal, LoopStep, Waits;
    if events != [] {
      var before, e := RunLoop(l, events[..|events| - 1]), events[|events| - 1];
      WaiterStays(l, events[..|events| - 1], ch);
      RunLawful(l, events[..|events| - 1]);
      assert e in events;
      match e
      case ContextDone => ContextDoneKeepsMachine(before); OnlyTheMachineMatters(before, LoopStep(before, e), ch);
      case Deliver(msg, env) => StepKeepsWaiter(before, msg, env, ch);
    }
  }

  lemma OnlyTheMachineMatters(l: Loop, l': Loop, ch: Chan)
    requires Waits(l, ch) && l'.m == l.m
    ensures Waits(l', ch)
  {}

  /** A wait lasts until there is a result: over any run a waiter stays unanswered exactly until the
      loop comes to its end, and is then shown the job as it ended, settled or put off until the
      poller retries it. */
  lemma WaitLastsUntilTheEnd(l: Loop, events: seq<Event>, ch: Chan)
    requires Lawful(l) && !l.stopped && LegalRun(l, events)
    requires l.m.h.delivered[ch] == 1 && ch in SomeChans(l.m.r.resultWaiters)
    requires forall e :: e in events && e.Deliver? ==> e.msg.ch != Some(ch)
    ensures var m := RunLoop(l, events).m;
            && (ch in m.h.answered <==> LoopEnds(m.r))
            && (LoopEnds(m.r) ==>
                  && m.h.answered[ch] == 1 && m.h.told == Some(m.r.job)
                  && (m.r.job.state.IsTerminal() || m.r.job.state == PendingRetry))
  {
    WaiterStays(l, events, ch);
    RunLawful(l, events);
    var m := RunLoop(l, events).m;
    assert m.h.answered + SomeChans(m.r.resultWaiters) == m.h.delivered;
    assert SomeChans([]) == multiset{};
    hide RunLoop, LegalRun, OneEach, Balanced, WithinBudget, SomeChans;
  }

  // ----- the row refines the runner -----

  /** Writes succeed along the run, and no immediate retry fails to restore. */
  ghost predicate ReliableRun(l: Loop, events: seq<Event>) {
    events == [] ||
    (var before, e := RunLoop(l, events[..|events| - 1]), events[|events| - 1];
     && ReliableRun(l, events[..|events| - 1])
     && (e.Deliver? ==> Reliable(e.env) && (before.stopped || !CommandLosesRow(before.m.r, e.msg, e.env))))
  }

  lemma StepInStep(l: Loop, msg: Message, env: Env)
    requires Lawful(l) && Legal(l.m.r, Deliver(msg, env)) && InStep(l.m.r, l.m.w) && Reliable(env)
    requires l.stopped || !CommandLosesRow(l.m.r, msg, env)
    ensures var m := LoopStep(l, Deliver(msg, env)).m; InStep(m.r, m.w)
  {
    if l.stopped {
      DrainOnlyAnswers(l, msg, env);
      SenderGoneInStep(l.m.r, l.m.w, msg.cmd);
      hide InStep, LoopStep, Lawful;
    } else {
      LiveStepInStep(l, msg, env);
    }
  }

  lemma LiveStepInStep(l: Loop, msg: Message, env: Env)
    requires Lawful(l) && !l.stopped && Legal(l.m.r, Deliver(msg, env)) && InStep(l.m.r, l.m.w) && Reliable(env)
    requires !CommandLosesRow(l.m.r, msg, env)
    ensures var m := LoopStep(l, Deliver(msg, env)).m; InStep(m.r, m.w)
  {
    hide Handle;
    assert Turning(l.m.r);
    var a := Attached(l.m.r, l.m.h, false, true);
    assert LoopOf(l.m.w, a) == l;
    hide Lawful, InStep, Durable, LoopStep, CommandLosesRow;
    CommandRefinesRow(l.m.w, a, msg, env);
  }

  lemma {:induction false} RunStaysInStep(l: Loop, events: seq<Event>)
    requires Lawful(l) && LegalRun(l, events) && InStep(l.m.r, l.m.w) && ReliableRun(l, events)
    ensures var m := RunLoop(l, events).m; InStep(m.r, m.w)
  {
    hide Lawful, InStep, LoopStep, Legal, Reliable, CommandLosesRow;
    if events != [] {
      var before, e := RunLoop(l, events[..|events| - 1]), events[|events| - 1];
      RunStaysInStep(l, events[..|events| - 1]);
      RunLawful(l, events[..|events| - 1]);
      match e
      case ContextDone => ContextDoneKeepsMachine(before);
      case Deliver(msg, env) => StepInStep(before, msg, env);
    }
  }

  lemma ContextDoneKeepsMachine(l: Loop)
    ensures LoopStep(l, ContextDone).m == l.m
  {}

  /** The entry command leaves row and memory in step, unless it is a retry whose restore
      fails. */
  lemma EntryInStep(entry: Entry, job: JobRecord, checkpoint: Option<string>, w: World, ch: Chan, env: Env)
    requires Durable(w) && Loaded(entry, w.row, job, checkpoint) && Reliable(env)
    requires !(entry == ByRetry && checkpoint.Some? && env.launch.LaunchFailed?)
    ensures var m := Enter(entry, job, checkpoint, w, Some(ch), env).m; InStep(m.r, m.w)
  {
    var plan := Launch(entry, job, checkpoint);
    var r := NewRunner(job, w.policy, checkpoint);
    var o := FirstOutcome(w, plan, ch, env);
    hide Durable, Loaded, FirstOutcome, Enter, WorldAt, WriteRule, Follows, LoopEnds;
    EntryIsSafe(plan, w, ch, env);
    EnterShape(w, plan, ch, env);
    hide InStep;
    SafeKeepsInStep(r, w, o);
    WaitersDoNotMatter(o.r, WorldAt(w, o, 4));
  }

  lemma EntryIsSafe(plan: Plan, w: World, ch: Chan, env: Env)
    requires plan.Launch? && Durable(w) && Loaded(plan.entry, w.row, plan.job, plan.checkpoint) && Reliable(env)
    requires !(plan.entry == ByRetry && plan.checkpoint.Some? && env.launch.LaunchFailed?)
    ensures Safe(NewRunner(plan.job, w.policy, plan.checkpoint), w, FirstOutcome(w, plan, ch, env))
    ensures NewRunner(plan.job, w.policy, plan.checkpoint).checkpointTokens == {}
  {
    hide Durable, HandleStart, HandleWake, HandleRetry, WriteRule, Follows, RowAfter;
    match plan.entry
    case ByStart => StartSafe(w, plan.job, env);
    case ByWake => WakeSafe(w, plan.job, plan.checkpoint, env);
    case ByRetry => FirstRetrySafe(w, plan.job, plan.checkpoint, env);
  }

  /** From the row a runner is loaded from, through its entry command and any run, the row says
      what memory says after every command. */
  lemma RowRefinesRunner(entry: Entry, job: JobRecord, checkpoint: Option<string>, w: World, ch: Chan, env: Env,
                         events: seq<Event>)
    requires Durable(w) && Loaded(entry, w.row, job, checkpoint) && Reliable(env)
    requires !(entry == ByRetry && checkpoint.Some? && env.launch.LaunchFailed?)
    requires LegalRun(Enter(entry, job, checkpoint, w, Some(ch), env), events)
    requires ReliableRun(Enter(entry, job, checkpoint, w, Some(ch), env), events)
    ensures var m := RunLoop(Enter(entry, job, checkpoint, w, Some(ch), env), events).m; InStep(m.r, m.w)
  {
    hide Durable, Loaded, Reliable, Enter, InStep, LegalRun, ReliableRun, RunLoop;
    LoadedIsEnterable(entry, w, job, checkpoint);
    EntryLawful(entry, job, checkpoint, w, Some(ch), env);
    EntryInStep(entry, job, checkpoint, w, ch, env);
    RunStaysInStep(Enter(entry, job, checkpoint, w, Some(ch), env), events);
  }

  /** A settled row reads back as the settled job's result exactly when its exit code fits 32
      bits and its output is not the empty text, in a column that keeps the text as it is. */
  lemma SettledRowReadsBack(row: Row, r: Runner)
    requires RowMatches(row, r) && r.job.state.IsTerminal() && !r.retryPending
    ensures Load(row).state == r.job.state && Load(row).error == r.job.error
    ensures Load(row).completedAt == r.job.completedAt
    ensures Load(row).result == r.job.result <==>
              r.job.result.Some? ==> IsInt32(r.job.result.value.exitCode) && r.job.result.value.output != Some("")
  {}

  /** The result columns as a reader sees them. */
  predicate SameResult(a: Row, b: Row) {
    && a.resultExitCode == b.resultExitCode
    && (a.resultExitCode.Some? ==>
          a.resultOutput == b.resultOutput || (a.resultOutput.GetOr("") == "" && b.resultOutput.GetOr("") == ""))
  }

  /** What loading a row loses: two rows load as the same progress of a job exactly when they agree
      in all its columns (the creation time and the checkpoint's path are none), and in their results
      as a reader sees them. */
  lemma LoadForgetsExactly(a: Row, b: Row)
    ensures Load(a) == Load(b) <==>
              && SameResult(a, b)
              && b == a.(createdAt := b.createdAt, checkpointPath := b.checkpointPath,
                         resultExitCode := b.resultExitCode, resultOutput := b.resultOutput)
    ensures Load(a).startedAt == a.startedAt && Load(a).lastCheckpointAt == a.lastCheckpointAt
  {}
}
