/** What one step can and cannot do to a job: settled rows, scheduled rows, lost service. */
module SlotTheorems {
  import opened Wrappers
  import opened Jobs
  import opened Rows
  import opened Machine
  import opened RunnerSpec
  import opened RunnerLaws
  import opened RowLaws
  import opened Slots
  import opened SlotLaws
  import RunnerTheorems

  // ----- a settled row -----

  /** A live runner never belongs to a settled row. */
  lemma LiveRunnerMeansLiveRow(w: World, a: Attached)
    requires Attended(w, a) && !a.stopped
    ensures !w.row.state.IsTerminal()
  {
    hide Durable, OneEach, Balanced;
  }

  /** Once a row is settled no step writes it again and nothing is launched for it. */
  lemma SettledStaysSettled(slot: Slot, action: Action, now: int)
    requires SlotInv(slot) && Enabled(slot, action, now) && slot.w.row.state.IsTerminal()
    ensures var w := SlotStep(slot, action).w; w.row == slot.w.row && w.launches == slot.w.launches
  {
    hide Attended, Durable, Execute, ExecuteCut, DoCommand, WorldAt;
    var inner := if action.Cut? then action.action else action;
    if inner.Command? {
      LiveRunnerMeansLiveRow(slot.w, slot.mem.value);
    }
  }

  // ----- a scheduled row -----

  /** The row asks to be left alone until `t`. */
  predicate Waiting(w: World, t: int) {
    (w.row.state == Suspended || w.row.state == PendingRetry) && w.row.resumeAt == Some(t)
  }

  /** Still waiting, or settled, with nothing launched. */
  ghost predicate LeftAlone(w: World, w': World, t: int) {
    && w'.launches == w.launches
    && (Waiting(w', t) || w'.row.state.IsTerminal())
  }

  lemma CommandReachesEnd(slot: Slot, action: Action)
    requires action.Command? && slot.mem.Some? && !slot.mem.value.stopped
    ensures SlotStep(slot, action).w ==
            WorldAt(slot.w, CommandOutcome(slot.w, slot.mem.value, action.msg, action.env), 4)
  {
    hide Handle, WorldAt;
    LoopStepShape(LoopOf(slot.w, slot.mem.value), action.msg, action.env);
    hide LoopStep;
  }

  // ----- service -----

  /** A live runner in the map: the poller passes its job over. */
  ghost predicate Held(slot: Slot) {
    slot.InMap() && !slot.mem.value.stopped
  }

  /** Somebody will act on the job without being asked: it is settled, or its runner is at
      work, or it is scheduled and the poller does not pass it over. */
  ghost predicate Pursued(slot: Slot) {
    || slot.w.row.state.IsTerminal()
    || AtWork(slot)
    || (!slot.hung && slot.w.row.Scheduled() && !Held(slot))
  }

  /** Every runner at work is in the map, where requests find it. */
  ghost predicate Reachable(slot: Slot) {
    (AtWork(slot) ==> slot.InMap()) && forall a :: a in slot.overwritten ==> !Working(a)
  }

  ghost predicate Served(slot: Slot) {
    Pursued(slot) && Reachable(slot)
  }

  /** A suspending checkpoint succeeds after its caller has gone: CheckpointJob returns before
      maybeEvictJob, so the sleeping runner stays in the map. */
  ghost predicate AbandonsSuspension(slot: Slot, action: Action) {
    && action.Command? && slot.mem.Some? && !action.callerWaits && action.msg.cmd.Checkpoint?
    && CheckpointAdmitted(slot.mem.value.r, action.msg.cmd.token)
    && action.msg.cmd.suspend != 0 && action.env.capture.Captured?
  }

  /** The two commands after which nobody acts any more: an immediate retry whose restore
      fails, and an abandoned suspension. */
  ghost predicate LosesPursuit(slot: Slot, action: Action) {
    || AbandonsSuspension(slot, action)
    || (action.Command? && slot.mem.Some? && CommandLosesRow(slot.mem.value.r, action.msg, action.env))
  }

  /** A recovery that publishes over a runner at work, or takes it out of the map when the
      command of the new one is refused. */
  ghost predicate TakesOver(slot: Slot, action: Action) {
    action.Recover? && AtWork(slot) && RecoverPlan(slot.w.row, action.setup).Launch?
  }

  /** The two steps that take a runner at work out of the map: such a recovery, and the replay
      of a used checkpoint token while an immediate retry is pending, whose reply shows a
      failed job. */
  ghost predicate LosesReach(slot: Slot, action: Action) {
    TakesOver(slot, action) || Replays(slot, action)
  }

  ghost predicate Replays(slot: Slot, action: Action) {
    && action.Command? && slot.mem.Some? && action.callerWaits && action.msg.cmd.Checkpoint?
    && action.msg.cmd.token != "" && action.msg.cmd.token in slot.mem.value.r.checkpointTokens
    && slot.mem.value.r.retryPending
  }

  // ----- what pursuit means -----

  /** What happens to a job without anybody's request and without a restart. */
  ghost predicate Unasked(action: Action) {
    || action.Evict? || action.Poll? || action.Die? || action.Background?
    || (action.Command? && (action.msg.cmd.ProcessExited? || action.msg.cmd.Retry?))
  }

  /** A pursued job not yet settled has its next step enabled: the exit of its process, its
      pending retry, or a poll at any time from its resume time on, after a runner that has
      ended is evicted. */
  lemma PursuedMeansSomebodyActs(slot: Slot, env: Env, setup: Setup, ch: Chan, code: int, exitError: Option<string>,
                                 now: int)
    requires SlotInv(slot) && Pursued(slot) && !slot.w.row.state.IsTerminal()
    ensures if AtWork(slot) then
              var r := slot.mem.value.r;
              if r.retryPending then Enabled(slot, Command(Message(Retry, None), env, true), now)
              else r.process.Some? &&
                   Enabled(slot, Command(Message(ProcessExited(r.process.value, code, exitError), None), env, true), now)
            else
              var resting := if slot.InMap() then SlotStep(slot, Evict) else slot;
              && (slot.InMap() ==> Enabled(slot, Evict, now))
              && (slot.w.row.resumeAt.value <= now ==> Enabled(resting, Poll(setup, ch, env), now))
  {
    hide Durable, OneEach, Balanced, InStep, WithinBudget, RepliesBalance;
  }

  /** An unpursued job is stuck: whatever happens unasked, at any time, writes nothing to its
      row, launches nothing, and leaves it unpursued. */
  lemma UnpursuedIsStuck(slot: Slot, action: Action, now: int)
    requires SlotInv(slot) && !Pursued(slot) && Enabled(slot, action, now) && Unasked(action)
    ensures var slot' := SlotStep(slot, action);
            && slot'.w.row == slot.w.row && slot'.w.launches == slot.w.launches && !Pursued(slot')
  {
    hide Durable, OneEach, Balanced, CheckpointsRecorded, FinalColumnsMatch, WithinBudget, RepliesBalance;
    if action.Command? {
      SleeperIgnoresExits(slot, action);
    }
  }

  lemma SleeperIgnoresExits(slot: Slot, action: Action)
    requires SlotInv(slot) && !Pursued(slot) && action.Command? && Unasked(action)
    requires slot.mem.Some? && !slot.mem.value.stopped && Legal(slot.mem.value.r, Deliver(action.msg, action.env))
    ensures var slot' := SlotStep(slot, action);
            && slot'.w == slot.w && slot'.mem.Some? && !slot'.mem.value.stopped
            && slot'.mem.value.published == slot.mem.value.published
            && slot'.mem.value.r.job == slot.mem.value.r.job && !slot'.mem.value.r.retryPending
  {
    var a := slot.mem.value;
    assert a.r.job.state == Suspended && !a.r.retryPending && a.r.retrySenders == 0;
    hide SlotInv, Attended, Durable, Pursued;
    LoopStepShape(LoopOf(slot.w, a), action.msg, action.env);
    hide LoopStep, HandleStart, HandleWake, HandleRetry, HandleExit, HandleKill, HandleCheckpoint;
  }

  // ----- how pursuit and reach are lost -----

  lemma EvictingReply(w: World, a: Attached, msg: Message, env: Env, callerWaits: bool)
    requires Attended(w, a) && !a.stopped && Legal(a.r, Deliver(msg, env)) && Reliable(env)
    ensures var o := CommandOutcome(w, a, msg, env);
            && (EvictsAfter(o, callerWaits) ==> !LoopEnds(o.r))
            && (EvictsAfter(o, callerWaits) && o.r.job.state != Suspended <==>
                  && callerWaits && msg.cmd.Checkpoint? && msg.cmd.token != ""
                  && msg.cmd.token in a.r.checkpointTokens && a.r.retryPending)
  {
    hide Durable, OneEach, Balanced, CheckpointsRecorded, FinalColumnsMatch;
    assert Turning(a.r) && InStep(a.r, w);
    hide HandleKill, HandleExit, HandleRetry, HandleTakeLock, HandleReleaseLock;
    hide HandleWaitForResult, Conclude, ScheduleRetry, Lawful, InStep;
    if !msg.cmd.Checkpoint? {
      OnlyCheckpointsReportOne(SenderGone(a.r, msg.cmd), w.live, msg, env);
    }
  }

  lemma OnlyCheckpointsReportOne(r: Runner, live: set<Pid>, msg: Message, env: Env)
    requires !msg.cmd.Checkpoint?
    ensures var reply := Handle(r, live, msg, env).reply; reply.Some? ==> !reply.value.CheckpointDone?
  {}

  /** A runner at work falls asleep exactly by a successful suspending checkpoint, whose reply
      has its job evicted if there is still a caller. */
  lemma FallsAsleepExactlyBy(w: World, a: Attached, msg: Message, env: Env, callerWaits: bool)
    requires Attended(w, a) && !a.stopped && Legal(a.r, Deliver(msg, env)) && Reliable(env)
    requires a.r.job.state != Suspended
    ensures var o := CommandOutcome(w, a, msg, env);
            && (o.r.job.state == Suspended <==>
                  && msg.cmd.Checkpoint? && CheckpointAdmitted(a.r, msg.cmd.token)
                  && msg.cmd.suspend != 0 && env.capture.Captured?)
            && (o.r.job.state == Suspended ==> (EvictsAfter(o, callerWaits) <==> callerWaits))
  {
    hide Attended;
    if !msg.cmd.Checkpoint? {
      OthersDoNotSuspend(SenderGone(a.r, msg.cmd), w.live, msg, env);
    }
    hide HandleStart, HandleWake, HandleRetry, HandleExit, HandleKill, HandleProcessExited;
    hide HandleTakeLock, HandleReleaseLock, HandleWaitForResult;
  }

  lemma OthersDoNotSuspend(r: Runner, live: set<Pid>, msg: Message, env: Env)
    requires !msg.cmd.Checkpoint? && r.job.state != Suspended
    ensures Handle(r, live, msg, env).r.job.state != Suspended
  {
    hide HandleCheckpoint;
    match msg.cmd
    case Retry => hide HandleStart, HandleWake, HandleKill, HandleExit, HandleProcessExited;
    case ProcessExited(_, _, _) => hide HandleStart, HandleWake, HandleKill, HandleExit, HandleRetry;
    case _ => hide HandleRetry, HandleProcessExited;
  }

  /** A sleeping runner stays asleep or ends. */
  lemma SleeperDoesNotStart(w: World, a: Attached, msg: Message, env: Env)
    requires Attended(w, a) && !a.stopped && Legal(a.r, Deliver(msg, env)) && a.r.job.state == Suspended
    ensures var r := CommandOutcome(w, a, msg, env).r;
            LoopEnds(r) || (r.job.state == Suspended && !r.retryPending)
  {
    assert !a.r.retryPending && a.r.retrySenders == 0;
    hide Attended, HandleRetry, HandleWake, HandleStart;
  }

  /** A first command either leaves a running runner, or settles the row, or (a failed restore
      of a delayed retry) leaves the row scheduled. */
  lemma FirstCommandServes(w: World, plan: Plan, ch: Chan, env: Env)
    requires Durable(w) && plan.Launch? && Loaded(plan.entry, w.row, plan.job, plan.checkpoint) && Reliable(env)
    ensures var o := FirstOutcome(w, plan, ch, env);
            && (!Refused(o) ==> o.r.job.state == Running)
            && (Refused(o) ==> RowAfter(w.row, o).state.IsTerminal() || RowAfter(w.row, o).Scheduled())
  {
    hide CheckpointsRecorded;
    match plan.entry
    case ByStart => hide HandleWake, HandleRetry;
    case ByWake => hide HandleStart, HandleRetry;
    case ByRetry => hide HandleStart, HandleWake;
  }

  lemma LaunchServes(slot: Slot, plan: Plan, ch: Chan, env: Env)
    requires Durable(slot.w) && !slot.hung && slot.overwritten == [] && !AtWork(slot)
    requires plan.Launch? && Loaded(plan.entry, slot.w.row, plan.job, plan.checkpoint) && Reliable(env)
    ensures Served(Execute(slot, plan, ch, env))
  {
    hide Durable, Loaded, FirstOutcome, RowAfter, WriteRule, Follows, Enter, WorldAt;
    var o := FirstOutcome(slot.w, plan, ch, env);
    EnterShape(slot.w, plan, ch, env);
    FirstCommandServes(slot.w, plan, ch, env);
    FirstCommandSafe(slot.w, plan, ch, env);
    WorldAtEnd(slot.w, o);
  }

  /** Spawn leaves its job in service. */
  lemma BeginServes(slot: Slot, policy: Policy, ch: Chan, env: Env)
    requires SlotInv(slot) && !slot.hung && AsInserted(slot) && Reliable(env)
    ensures Served(BeginTurn(slot, policy, ch, env, None))
  {
    var plan := SpawnPlan(slot.w.row.createdAt);
    AsInsertedIsIdle(slot);
    UnderKeeps(slot, plan, policy);
    hide Durable, Attended, Execute, Under;
    LaunchServes(Under(slot, plan, policy), plan, ch, env);
  }

  /** A job stays in service over its poll, whatever the lookups and the runtime answer. */
  lemma PollServes(slot: Slot, setup: Setup, ch: Chan, env: Env, now: int)
    requires SlotInv(slot) && Enabled(slot, Poll(setup, ch, env), now) && Reliable(env)
    ensures Served(SlotStep(slot, Poll(setup, ch, env)))
  {
    PollFindsNoWorkingRunner(slot, now);
    hide Attended, Durable, Enter, FirstOutcome, WorldAt;
    var plan := PollPlan(slot.w.row, setup);
    PlansFit(slot.w, setup);
    if plan.Launch? {
      UnderKeeps(slot, plan, setup.policy);
      LaunchServes(Under(slot, plan, setup.policy), plan, ch, env);
    }
  }

  lemma InStepRow(w: World, a: Attached)
    requires Attended(w, a) && InStep(a.r, w)
    ensures a.stopped || a.r.job.state == Suspended ==> w.row.state.IsTerminal() || w.row.Scheduled()
    ensures !a.stopped && a.r.job.state != Suspended ==> a.r.job.state == Running || a.r.retryPending
    ensures !a.stopped && a.r.job.state == Suspended ==> !w.row.state.IsTerminal() && !a.r.retryPending
  {
    hide OneEach, Balanced, CheckpointsRecorded, FinalColumnsMatch, WithinBudget, RepliesBalance;
  }

  /** A slot whose runner is in step, from the runner's side. */
  lemma PursuedByState(slot: Slot)
    requires SlotInv(slot) && slot.mem.Some? && InStep(slot.mem.value.r, slot.w)
    ensures var a := slot.mem.value;
            && (Pursued(slot) <==> a.stopped || a.r.job.state != Suspended || !a.published)
            && (AtWork(slot) <==> !a.stopped && a.r.job.state != Suspended)
  {
    InStepRow(slot.w, slot.mem.value);
    hide Attended, InStep, Durable;
  }

  /** The runner after a command, in the terms of the two predicates. */
  lemma CommandPursuit(slot: Slot, msg: Message, env: Env, callerWaits: bool, now: int)
    requires SlotInv(slot) && Enabled(slot, Command(msg, env, callerWaits), now) && Reliable(env)
    ensures var action := Command(msg, env, callerWaits);
            var w, a, slot' := slot.w, slot.mem.value, SlotStep(slot, action);
            var o := CommandOutcome(w, a, msg, env);
            && slot.overwritten == [] && slot'.overwritten == []
            && if CommandLosesRow(a.r, msg, env) then !Pursued(slot') && !AtWork(slot')
            else
              && (Pursued(slot') <==>
                    LoopEnds(o.r) || o.r.job.state != Suspended || !a.published || EvictsAfter(o, callerWaits))
              && (AtWork(slot') <==> !LoopEnds(o.r) && o.r.job.state != Suspended)
              && (slot'.InMap() <==> a.published && !EvictsAfter(o, callerWaits))
  {
    hide Handle, Lawful, WorldAt, Durable, InStep, CommandLosesRow, Attended;
    var w, a := slot.w, slot.mem.value;
    var slot' := SlotStep(slot, Command(msg, env, callerWaits));
    CommandKeepsSlot(slot, msg, env, callerWaits, now);
    LoopStepShape(LoopOf(w, a), msg, env);
    CommandRefinesRow(w, a, msg, env);
    hide LoopStep, SlotInv, EvictsAfter, LoopEnds;
    if !CommandLosesRow(a.r, msg, env) {
      hide Pursued, AtWork;
      PursuedByState(slot');
    }
  }

  lemma LiveRunnerIsInStep(slot: Slot)
    requires SlotInv(slot) && slot.mem.Some? && !slot.mem.value.stopped
    ensures InStep(slot.mem.value.r, slot.w) && !slot.w.row.state.IsTerminal()
    ensures slot.mem.value.r.job.state == Suspended ==> slot.mem.value.r.retrySenders == 0 && !slot.mem.value.r.retryPending
    ensures slot.mem.value.r.retryPending ==> slot.mem.value.r.job.state != Suspended
  {
    LiveRunnerMeansLiveRow(slot.w, slot.mem.value);
  }

  lemma CommandPursuitExactlyWhen(slot: Slot, msg: Message, env: Env, callerWaits: bool, now: int)
    requires SlotInv(slot) && Enabled(slot, Command(msg, env, callerWaits), now) && Reliable(env)
    ensures var action := Command(msg, env, callerWaits);
            && (Pursued(slot) ==> (Pursued(SlotStep(slot, action)) <==> !LosesPursuit(slot, action)))
            && (Reachable(slot) ==> (Reachable(SlotStep(slot, action)) <==> !LosesReach(slot, action)))
  {
    hide InStep, Handle, SlotStep, Pursued, AtWork, EvictsAfter, Durable, Lawful;
    var w, a := slot.w, slot.mem.value;
    LiveRunnerIsInStep(slot);
    PursuedByState(slot);
    CommandPursuit(slot, msg, env, callerWaits, now);
    EvictingReply(w, a, msg, env, callerWaits);
    if a.r.job.state == Suspended {
      SleeperDoesNotStart(w, a, msg, env);
    } else {
      FallsAsleepExactlyBy(w, a, msg, env, callerWaits);
    }
    hide SlotInv;
  }

  // ----- recovery -----

  /** The rows a restart leaves as `running` with nobody acting on them: a checkpoint that
      cannot be looked up, or no checkpoint and a retry left. The latter is handed to
      restartPendingJob, whose runner loads the state `running` and so refuses to start. */
  predicate RecoveryStrands(row: Row, setup: Setup) {
    && row.state == Running
    && if row.checkpointCount > 0 then !(setup.definition && setup.runtime && setup.file && setup.reconstruct)
       else setup.definition && setup.runtime && row.retryCount < setup.policy.maxRetries
  }

  lemma UsablePathMeansRecorded(w: World)
    requires Durable(w)
    ensures w.row.checkpointCount > 0 <==> UsablePath(w.row)
    ensures UsablePath(w.row) ==>
              && w.acked <= w.recorded <= |w.images| && w.recorded > 0
              && w.row.checkpointPath == Some(w.images[w.recorded - 1].path)
    ensures w.acked > 0 ==> UsablePath(w.row)
  {}

  predicate Interrupted(row: Row) {
    row.state == Running || row.state == Pending
  }

  /** Recovery of an interrupted job without a runner at work. */
  lemma RecoverIdle(slot: Slot, setup: Setup, ch: Chan, env: Env)
    requires SlotInv(slot) && !slot.hung && !AtWork(slot) && Interrupted(slot.w.row) && Reliable(env)
    ensures var slot' := SlotStep(slot, Recover(setup, ch, env));
            if RecoveryStrands(slot.w.row, setup)
            then slot'.w == slot.w.(policy := slot'.w.policy) && !Pursued(slot') && Reachable(slot')
            else Served(slot')
  {
    hide Attended, Durable, Enter, FirstOutcome, WorldAt;
    var plan := RecoverPlan(slot.w.row, setup);
    PlansFit(slot.w, setup);
    UsablePathMeansRecorded(slot.w);
    UnderKeeps(slot, plan, setup.policy);
    if plan.Launch? {
      if Loaded(plan.entry, slot.w.row, plan.job, plan.checkpoint) {
        LaunchServes(Under(slot, plan, setup.policy), plan, ch, env);
      } else {
        RefusedLaunch(Under(slot, plan, setup.policy), plan, ch, env);
      }
    }
  }

  lemma RecoverBusy(slot: Slot, plan: Plan, policy: Policy, ch: Chan, env: Env)
    requires SlotInv(slot) && AtWork(slot) && slot.w.row.state == Running && FitsRow(slot.w.row, plan) && Reliable(env)
    requires plan != GiveUp && (plan.Launch? ==> plan.entry != ByRetry)
    ensures var slot' := CarryOut(slot, plan, policy, ch, env);
            Pursued(slot') && (Reachable(slot') <==> Reachable(slot) && !plan.Launch?)
  {
    var u := Under(slot, plan, policy);
    UnderKeeps(slot, plan, policy);
    hide Durable, Lawful, InStep, Execute, Under;
    match plan
    case MarkFailed(failure) => MarkFailedSettles(slot, failure, ch, env);
    case Launch(entry, job, _) =>
      var displaced := slot.mem.value.(published := false);
      assert Working(displaced);
      if entry == ByStart {
        assert job.state == Running && plan.checkpoint.None?;
        RefusedLaunch(slot, plan, ch, env);
      } else {
        assert Loaded(entry, slot.w.row, job, plan.checkpoint);
        WakeOverRunner(u, plan, ch, env);
        var slot' := Execute(u, plan, ch, env);
        if env.launch.Launched? {
          assert slot'.overwritten[|slot.overwritten|] == displaced;
          WokenIsAtWork(u, plan, ch, env);
        }
      }
  }

  lemma WokenIsAtWork(slot: Slot, plan: Plan, ch: Chan, env: Env)
    requires Durable(slot.w) && plan.Launch? && plan.entry == ByWake && env.launch.Launched? && Reliable(env)
    requires Loaded(plan.entry, slot.w.row, plan.job, plan.checkpoint)
    ensures AtWork(Execute(slot, plan, ch, env))
  {
    hide Durable, HandleStart, HandleRetry, Enter, WorldAt;
    var o := FirstOutcome(slot.w, plan, ch, env);
    assert !Refused(o) && o.r.job.state == Running;
    EnterShape(slot.w, plan, ch, env);
  }

  /** Recovery makes every interrupted job pursued except exactly the stranded ones, and loses
      the pursuit of none. It keeps runners at work in the map unless it launches over one. */
  lemma RecoveryServesExactlyTheRest(slot: Slot, setup: Setup, ch: Chan, env: Env, now: int)
    requires SlotInv(slot) && Enabled(slot, Recover(setup, ch, env), now) && Reliable(env)
    ensures var slot' := SlotStep(slot, Recover(setup, ch, env));
            && (Pursued(slot') <==>
                  Pursued(slot) || (Interrupted(slot.w.row) && !RecoveryStrands(slot.w.row, setup)))
            && (Reachable(slot') <==> Reachable(slot) && !TakesOver(slot, Recover(setup, ch, env)))
            && (RecoveryStrands(slot.w.row, setup) && !AtWork(slot) ==> slot'.w == slot.w.(policy := slot'.w.policy))
  {
    var plan := RecoverPlan(slot.w.row, setup);
    PlansFit(slot.w, setup);
    if slot.mem.Some? && !slot.mem.value.stopped {
      LiveRowOf(slot);
    }
    assert plan != GiveUp ==> Interrupted(slot.w.row);
    assert plan.Launch? ==> plan.entry != ByRetry;
    hide SlotInv, RecoverPlan, FitsRow, CarryOut;
    if plan == GiveUp {
      GiveUpChangesNothing(slot, setup.policy, ch, env);
    }
    if AtWork(slot) {
      if plan != GiveUp {
        RecoverBusy(slot, plan, setup.policy, ch, env);
      }
    } else if Interrupted(slot.w.row) {
      IdleIsUnpursued(slot);
      RecoverIdle(slot, setup, ch, env);
    }
  }

  lemma GiveUpChangesNothing(slot: Slot, policy: Policy, ch: Chan, env: Env)
    ensures CarryOut(slot, GiveUp, policy, ch, env) == slot
  {}

  lemma IdleIsUnpursued(slot: Slot)
    requires SlotInv(slot) && !AtWork(slot) && Interrupted(slot.w.row)
    ensures !Pursued(slot) && Reachable(slot)
  {}

  // ----- a recovery that meets a runner at work -----

  /** The default policy, with no retries: the job is marked failed while it runs, its row is
      settled, and its successful exit then settles the row a second time, differently. */
  lemma MarkedFailedWhileRunning(slot: Slot, setup: Setup, ch: Chan, env: Env, exit: Env, pid: Pid, now: int)
    requires SlotInv(slot) && !slot.hung && AtWork(slot) && slot.mem.value.r.job.state == Running
    requires slot.mem.value.r.exitWatchers.Has(pid) && Reliable(env) && Reliable(exit)
    requires slot.w.row.checkpointCount == 0 && setup.definition && slot.w.row.retryCount >= setup.policy.maxRetries
    ensures var action := Recover(setup, ch, env);
            var marked := SlotStep(slot, action);
            var ends := Command(Message(ProcessExited(pid, 0, None), None), exit, true);
            && Enabled(slot, action, now) && Upsets(slot, action)
            && marked.w.row.state == Failed && AtWork(marked) && marked.InMap() == slot.InMap()
            && Enabled(marked, ends, now) && SlotStep(marked, ends).w.row.state == Completed
  {
    LiveRowOf(slot);
    var marked := SlotStep(slot, Recover(setup, ch, env));
    assert marked == slot.(w := Store(slot.w, FailureWrite(InterruptedWithoutRetries, env)));
    assert marked.w.row.state == Failed;
    hide SlotInv, Store;
    ExitCompletes(marked, pid, exit);
  }

  lemma ExitCompletes(slot: Slot, pid: Pid, env: Env)
    requires slot.mem.Some? && !slot.mem.value.stopped && slot.mem.value.r.job.state == Running && Reliable(env)
    ensures SlotStep(slot, Command(Message(ProcessExited(pid, 0, None), None), env, true)).w.row.state == Completed
  {
    var msg := Message(ProcessExited(pid, 0, None), None);
    var a := slot.mem.value;
    CleanExit(SenderGone(a.r, msg.cmd), slot.w, pid, env);
    LoopStepShape(LoopOf(slot.w, a), msg, env);
    hide LoopStep, Handle, WorldAt;
  }

  lemma CleanExit(r: Runner, w: World, pid: Pid, env: Env)
    requires r.job.state == Running && Reliable(env)
    ensures var o := Handle(r, w.live, Message(ProcessExited(pid, 0, None), None), env);
            WorldAt(w, o, 4).row.state == Completed
  {
    hide HandleStart, HandleWake, HandleRetry, HandleExit, HandleKill, HandleCheckpoint;
  }

  /** With a retry left the restart is refused, and nothing is lost but the way to the runner: it
      works on out of the map. */
  lemma RestartedWhileRunning(slot: Slot, setup: Setup, ch: Chan, env: Env, now: int)
    requires SlotInv(slot) && !slot.hung && AtWork(slot) && Reliable(env)
    requires slot.w.row.checkpointCount == 0 && setup.definition && setup.runtime
    requires slot.w.row.retryCount < setup.policy.maxRetries
    ensures var action := Recover(setup, ch, env);
            var after := SlotStep(slot, action);
            && Enabled(slot, action, now) && TakesOver(slot, action) && !Upsets(slot, action)
            && after == slot.(mem := Some(slot.mem.value.(published := false)))
            && SlotInv(after) && Pursued(after) && !Reachable(after)
  {
    LiveRowOf(slot);
    var plan := RecoverPlan(slot.w.row, setup);
    assert plan == Launch(ByStart, Load(slot.w.row), None) && plan.job.state == Running;
    RefusedLaunch(slot, plan, ch, env);
    UnderKeeps(slot, plan, setup.policy);
    hide SlotInv, Execute, Under;
    ActionKeepsSlot(slot, Recover(setup, ch, env), now);
  }

  /** With a checkpoint the job is restored a second time: two runners are at work on it. */
  lemma WokenWhileRunning(slot: Slot, setup: Setup, ch: Chan, env: Env, now: int)
    requires SlotInv(slot) && !slot.hung && AtWork(slot) && Reliable(env) && env.launch.Launched?
    requires slot.w.row.checkpointCount > 0 && setup.definition && setup.runtime && setup.file && setup.reconstruct
    ensures var action := Recover(setup, ch, env);
            var after := SlotStep(slot, action);
            && Enabled(slot, action, now) && Upsets(slot, action) && LaunchesOver(slot, action)
            && AtWork(after) && |after.overwritten| == 1 && Working(after.overwritten[0])
  {
    hide Durable, Attended, Execute, Loaded, RecoverPlan;
    LiveRowOf(slot);
    InterruptedIsWoken(slot.w, setup);
    hide SlotInv;
    var plan := RecoverPlan(slot.w.row, setup);
    UnderKeeps(slot, plan, setup.policy);
    WakeOverRunner(Under(slot, plan, setup.policy), plan, ch, env);
    WokenIsAtWork(Under(slot, plan, setup.policy), plan, ch, env);
  }

  lemma InterruptedIsWoken(w: World, setup: Setup)
    requires Durable(w) && w.row.state == Running && w.row.checkpointCount > 0
    requires setup.definition && setup.runtime && setup.file && setup.reconstruct
    ensures var plan := RecoverPlan(w.row, setup);
            plan.Launch? && plan.entry == ByWake && Loaded(ByWake, w.row, plan.job, plan.checkpoint)
  {
    UsablePathMeansRecorded(w);
  }

  // ----- rows read before the turn -----

  /** Between the reading of the rows and its turn, the row of an interrupted job without a
      runner at work stays what it was, and nothing gets to work on it. */
  lemma RowReadStaysCurrent(slot: Slot, action: Action, now: int)
    requires SlotInv(slot) && !AtWork(slot) && Interrupted(slot.w.row) && Enabled(slot, action, now)
    requires !action.Recover? && !(action.Cut? && action.action.Recover?)
    ensures SlotStep(slot, action).w.row == slot.w.row && !AtWork(SlotStep(slot, action))
  {
    if slot.mem.Some? && !slot.mem.value.stopped {
      LiveRowOf(slot);
    }
    NobodyInBackground(slot, action, now);
  }

  /** The same for the poller: a due row whose job is not in the map, and has no runner asleep
      out of it, changes by the poll alone. */
  lemma DueRowStaysCurrent(slot: Slot, action: Action, now: int)
    requires SlotInv(slot) && slot.w.row.Due(now) && !slot.InMap() && Enabled(slot, action, now)
    requires slot.mem.Some? ==> slot.mem.value.stopped
    requires var inner := if action.Cut? then action.action else action; !inner.Poll?
    ensures SlotStep(slot, action).w.row == slot.w.row && !SlotStep(slot, action).InMap()
  {
    NobodyInBackground(slot, action, now);
  }

  ghost predicate Spares(slot: Slot, slot': Slot) {
    slot'.w.row == slot.w.row && slot'.w.launches == slot.w.launches
  }

  /** A job can finish after its row was read. Recovery by that row spares the settled one,
      whatever the clock, the database and the runtime answer, exactly when it plans nothing but a
      restart that is refused. */
  lemma OldRowSparesSettledExactlyWhen(slot: Slot, row: Row, setup: Setup, ch: Chan)
    requires SlotInv(slot) && !slot.hung && slot.w.row.state.IsTerminal()
    requires row.state == Running || (row.state == Pending && slot.w.live == {})
    ensures var plan := RecoverPlan(row, setup);
            (forall env: Env | Reliable(env) :: Spares(slot, CarryOut(slot, plan, setup.policy, ch, env))) <==> !Acts(plan)
  {
    var plan := RecoverPlan(row, setup);
    if Acts(plan) {
      var env := Env(slot.w.row.completedAt.GetOr(0) + 1, 0, LaunchFailed([]), CaptureFailed([]), None, true, true, true);
      assert Reliable(env);
      if plan.Launch? && plan.entry == ByStart {
        var launched := env.(launch := Launched(0));
        assert Reliable(launched);
        TurnLaunches(slot, plan, setup.policy, ch, launched, None);
        assert !Spares(slot, CarryOut(slot, plan, setup.policy, ch, launched));
      } else {
        ActingIsSeen(slot, plan, setup.policy, ch, env);
        assert !Spares(slot, CarryOut(slot, plan, setup.policy, ch, env));
      }
    } else {
      forall env: Env | Reliable(env) ensures Spares(slot, CarryOut(slot, plan, setup.policy, ch, env)) {
        IdlePlanKeepsSlot(slot, row, setup, ch, env, None);
      }
    }
  }

  /** Such an input: the job completes after the rows are read, and with no retry left its turn of
      recovery marks it failed. */
  lemma MarkedFailedAfterCompletion(slot: Slot, setup: Setup, ch: Chan, env: Env, exit: Env, pid: Pid, now: int)
    requires SlotInv(slot) && !slot.hung && AtWork(slot) && slot.mem.value.r.job.state == Running
    requires slot.mem.value.r.exitWatchers.Has(pid) && Reliable(env) && Reliable(exit)
    requires slot.w.row.checkpointCount == 0 && setup.definition && slot.w.row.retryCount >= setup.policy.maxRetries
    ensures var ends := Command(Message(ProcessExited(pid, 0, None), None), exit, true);
            var done := SlotStep(slot, ends);
            && Enabled(slot, ends, now) && SlotInv(done) && done.w.row.state == Completed
            && CarryOut(done, RecoverPlan(slot.w.row, setup), setup.policy, ch, env).w.row.state == Failed
  {
    var ends := Command(Message(ProcessExited(pid, 0, None), None), exit, true);
    LiveRowOf(slot);
    assert RecoverPlan(slot.w.row, setup) == MarkFailed(InterruptedWithoutRetries);
    MarkFailedSettles(SlotStep(slot, ends), InterruptedWithoutRetries, ch, env);
    ExitCompletes(slot, pid, exit);
    hide SlotInv, SlotStep, RecoverPlan, Execute;
    ActionKeepsSlot(slot, ends, now);
  }

  lemma ActingIsSeen(slot: Slot, plan: Plan, policy: Policy, ch: Chan, env: Env)
    requires Reliable(env) && env.launch.LaunchFailed? && !AtWork(slot)
    requires plan.MarkFailed? || (plan.Launch? && plan.entry == ByWake && plan.job.state == Suspended)
    ensures CarryOut(slot, plan, policy, ch, env).w.row.completedAt == Some(env.now)
  {
    hide HandleStart, HandleRetry, Enter;
    if plan.Launch? {
      EnterShape(Under(slot, plan, policy).w, plan, ch, env);
    }
  }

  // ----- losing pursuit and reach: the theorems -----

  /** Pursuit is lost by exactly two commands and by nothing else that completes. */
  lemma PursuitIsLostExactlyWhen(slot: Slot, action: Action, now: int)
    requires SlotInv(slot) && Enabled(slot, action, now) && ReliableAction(action) && !action.Cut? && Pursued(slot)
    ensures Pursued(SlotStep(slot, action)) <==> !LosesPursuit(slot, action)
  {
    NobodyInBackground(slot, action, now);
    match action
    case Command(msg, env, callerWaits) => CommandPursuitExactlyWhen(slot, msg, env, callerWaits, now);
    case Poll(setup, ch, env) => PollServes(slot, setup, ch, env, now);
    case Recover(setup, ch, env) =>
      hide SlotStep, SlotInv;
      RecoveryServesExactlyTheRest(slot, setup, ch, env, now);
    case Evict => EvictServes(slot);
    case Die(pid) => DeathServes(slot, pid);
  }

  lemma EvictServes(slot: Slot)
    requires SlotInv(slot) && slot.mem.Some? && slot.mem.value.stopped
    ensures Pursued(slot) <==> Pursued(SlotStep(slot, Evict))
    ensures Reachable(SlotStep(slot, Evict))
  {}

  lemma DeathServes(slot: Slot, pid: Pid)
    ensures Pursued(slot) <==> Pursued(SlotStep(slot, Die(pid)))
    ensures Reachable(slot) <==> Reachable(SlotStep(slot, Die(pid)))
  {}

  /** A runner at work leaves the map by exactly two steps: a recovery that launches over it,
      and the replay. */
  lemma ReachIsLostExactlyWhen(slot: Slot, action: Action, now: int)
    requires SlotInv(slot) && Enabled(slot, action, now) && ReliableAction(action) && !action.Cut? && Reachable(slot)
    ensures Reachable(SlotStep(slot, action)) <==> !LosesReach(slot, action)
  {
    NobodyInBackground(slot, action, now);
    match action
    case Command(msg, env, callerWaits) => CommandPursuitExactlyWhen(slot, msg, env, callerWaits, now);
    case Poll(setup, ch, env) => PollServes(slot, setup, ch, env, now);
    case Recover(setup, ch, env) =>
      hide SlotStep, SlotInv;
      RecoveryServesExactlyTheRest(slot, setup, ch, env, now);
    case Evict => EvictServes(slot);
    case Die(pid) => DeathServes(slot, pid);
  }

  /** Service is lost by exactly these four steps. */
  lemma ServiceIsLostExactlyWhen(slot: Slot, action: Action, now: int)
    requires SlotInv(slot) && Enabled(slot, action, now) && ReliableAction(action) && !action.Cut? && Served(slot)
    ensures Served(SlotStep(slot, action)) <==> !LosesPursuit(slot, action) && !LosesReach(slot, action)
  {
    hide SlotStep, LosesPursuit, LosesReach, Pursued, Reachable;
    PursuitIsLostExactlyWhen(slot, action, now);
    ReachIsLostExactlyWhen(slot, action, now);
  }

  /** A recovery keeps the invariant (settled rows with it), the reach and the launch rule
      exactly when it has nothing to do to a runner at work. */
  lemma RecoveryIsSafeExactlyWhen(slot: Slot, setup: Setup, ch: Chan, env: Env, now: int)
    requires SlotInv(slot) && Reachable(slot) && Enabled(slot, Recover(setup, ch, env), now) && Reliable(env)
    ensures var action := Recover(setup, ch, env);
            var slot' := SlotStep(slot, action);
            SlotInv(slot') && Reachable(slot') && LaunchRule(slot, action, slot'.w) <==>
              !(AtWork(slot) && RecoverPlan(slot.w.row, setup) != GiveUp)
  {
    RecoveryClash(slot, Recover(setup, ch, env));
    hide SlotInv, Reachable, LaunchRule, SlotStep, RecoverPlan, Upsets, TakesOver, LaunchesOver, AtWork;
    ActionKeepsSlot(slot, Recover(setup, ch, env), now);
    RecoveryServesExactlyTheRest(slot, setup, ch, env, now);
    LaunchFindsNobodyAtWork(slot, Recover(setup, ch, env), now);
  }

  lemma RecoveryClash(slot: Slot, action: Action)
    requires action.Recover?
    ensures Upsets(slot, action) || TakesOver(slot, action) <==>
              AtWork(slot) && RecoverPlan(slot.w.row, action.setup) != GiveUp
    ensures LaunchesOver(slot, action) ==> TakesOver(slot, action)
  {
    hide RecoverPlan;
  }

  // ----- a sleeping runner out of the map -----

  /** A kill queued before the eviction still reaches the sleeper, and settles its job. */
  lemma QueuedKillSettlesSleeper(slot: Slot, ch: Chan, env: Env)
    requires SlotInv(slot) && slot.mem.Some? && Asleep(slot.mem.value) && Reliable(env) && env.killError.None?
    ensures var after := SlotStep(slot, Command(Message(Kill, Some(ch)), env, true));
            after.w.row.state == Failed && after.w.launches == slot.w.launches && after.mem.value.stopped
  {
    var a, msg := slot.mem.value, Message(Kill, Some(ch));
    hide SlotInv;
    KilledAsleep(a.r, slot.w, ch, env);
    LoopStepShape(LoopOf(slot.w, a), msg, env);
    hide LoopStep, Handle, WorldAt;
  }

  lemma KilledAsleep(r: Runner, w: World, ch: Chan, env: Env)
    requires r.job.state == Suspended && Reliable(env) && env.killError.None?
    ensures var o := Handle(r, w.live, Message(Kill, Some(ch)), env);
            && WorldAt(w, o, 4).row.state == Failed && WorldAt(w, o, 4).launches == w.launches
            && (!r.retryPending ==> LoopEnds(o.r))
  {
    hide HandleStart, HandleWake, HandleRetry, HandleExit, HandleProcessExited, HandleCheckpoint;
  }

  /** The requests a sleeping runner has taken and not answered are exactly its waiters. No step
      answers them: it leaves them waiting, or forgets the runner for another or none. */
  lemma SleepersWaitersStayUnanswered(slot: Slot, action: Action, now: int)
    requires SlotInv(slot) && slot.mem.Some? && Asleep(slot.mem.value) && Enabled(slot, action, now)
    ensures var a, slot' := slot.mem.value, SlotStep(slot, action);
            && a.h.answered + SomeChans(a.r.resultWaiters) == a.h.delivered
            && (action.Command? || action.Die? ==>
                  && slot'.mem.Some? && Asleep(slot'.mem.value)
                  && slot'.mem.value.r.resultWaiters == a.r.resultWaiters
                  && slot'.mem.value.h.answered == a.h.answered)
            && !action.Evict?
  {
    var a := slot.mem.value;
    LiveRunnerIsInStep(slot);
    assert RepliesBalance(LoopOf(slot.w, a).m);
    if action.Command? {
      SleeperAnswersNobody(slot.w, a, action.msg, action.env);
    }
  }

  lemma SleeperAnswersNobody(w: World, a: Attached, msg: Message, env: Env)
    requires Asleep(a) && !a.r.retryPending && (msg.cmd.ProcessExited? || msg.cmd.Retry?) && Legal(a.r, Deliver(msg, env))
    ensures var l := LoopStep(LoopOf(w, a), Deliver(msg, env));
            && !l.stopped && l.m.r.job.state == Suspended && l.m.r.retrySenders == 0
            && l.m.r.resultWaiters == a.r.resultWaiters && l.m.h.answered == a.h.answered
  {
    hide HandleStart, HandleWake, HandleRetry, HandleExit, HandleKill, HandleCheckpoint, WorldAt;
  }

  // ----- how the commands that lose pursuit and reach come about -----

  /** An ordinary history of the one that loses reach: a job that has checkpointed fails with
      an immediate retry left, and its client repeats the checkpoint request. The runner goes
      on to its retry, but no request finds it any more. */
  lemma ReplayWhileRetryingLosesReach(slot: Slot, pid: Pid, code: int, token: string, ch: Chan, env: Env, now: int)
    requires SlotInv(slot) && !slot.hung && slot.InMap() && Reliable(env) && code != 0
    requires var a := slot.mem.value;
             && !a.stopped && a.r.job.state == Running && a.r.exitWatchers.Has(pid)
             && token != "" && token in a.r.checkpointTokens
             && slot.w.policy.retryDelay <= 0 && a.r.job.retryCount < slot.w.policy.maxRetries
    ensures var failed := SlotStep(slot, Command(Message(ProcessExited(pid, code, None), None), env, true));
            var replay := Command(Message(Checkpoint(0, token), Some(ch)), env, true);
            var after := SlotStep(failed, replay);
            && SlotInv(failed) && Served(failed) && Enabled(failed, replay, now)
            && Pursued(after) && !Reachable(after)
            && Enabled(after, Command(Message(Retry, None), env, true), now)
  {
    var exit := Command(Message(ProcessExited(pid, code, None), None), env, true);
    var replay := Command(Message(Checkpoint(0, token), Some(ch)), env, true);
    FailureAwaitsRetry(slot, pid, code, env);
    assert Enabled(slot, exit, now);
    hide SlotStep, SlotInv, CommandLosesRow, Attended;
    ActionKeepsSlot(slot, exit, now);
    ReplayKeepsRetry(SlotStep(slot, exit), token, ch, env, now);
  }

  lemma ReplayKeepsRetry(slot: Slot, token: string, ch: Chan, env: Env, now: int)
    requires SlotInv(slot) && slot.InMap() && !slot.mem.value.stopped && Reliable(env)
    requires token != "" && token in slot.mem.value.r.checkpointTokens && slot.mem.value.r.retryPending
    ensures var replay := Command(Message(Checkpoint(0, token), Some(ch)), env, true);
            var after := SlotStep(slot, replay);
            && Enabled(slot, replay, now) && Pursued(after) && !Reachable(after)
            && Enabled(after, Command(Message(Retry, None), env, true), now)
  {
    var replay := Command(Message(Checkpoint(0, token), Some(ch)), env, true);
    RunnerTheorems.ReplayChangesNothing(LoopOf(slot.w, slot.mem.value), 0, token, Some(ch), env);
    assert SlotStep(slot, replay).mem.value.r == slot.mem.value.r;
    assert slot.mem.value.r.retrySenders > 0;
    hide SlotStep, SlotInv;
    assert Pursued(slot) && Reachable(slot) && Enabled(slot, replay, now);
    assert LosesReach(slot, replay) && !LosesPursuit(slot, replay);
    PursuitIsLostExactlyWhen(slot, replay, now);
    ReachIsLostExactlyWhen(slot, replay, now);
    hide Pursued, LosesReach, LosesPursuit;
    ActionKeepsSlot(slot, replay, now);
    assert !SlotStep(slot, replay).hung by { NotHung(SlotStep(slot, replay)); }
  }

  lemma NotHung(slot: Slot)
    requires SlotInv(slot) && slot.mem.Some?
    ensures !slot.hung
  {}

  lemma FailureAwaitsRetry(slot: Slot, pid: Pid, code: int, env: Env)
    requires SlotInv(slot) && slot.InMap() && code != 0
    requires var a := slot.mem.value;
             && !a.stopped && a.r.job.state == Running
             && slot.w.policy.retryDelay <= 0 && a.r.job.retryCount < slot.w.policy.maxRetries
    ensures var failed := SlotStep(slot, Command(Message(ProcessExited(pid, code, None), None), env, true));
            && !failed.hung && failed.InMap() && !failed.mem.value.stopped && failed.mem.value.r.retryPending
            && Reachable(failed) && failed.mem.value.r.checkpointTokens == slot.mem.value.r.checkpointTokens
  {
    var a := slot.mem.value;
    assert a.r.onFailure == Some(slot.w.policy);
    hide SlotInv, Attended, Durable;
    LoopStepShape(LoopOf(slot.w, a), Message(ProcessExited(pid, code, None), None), env);
    hide LoopStep, WorldAt, HandleStart, HandleWake, HandleRetry, HandleExit, HandleKill, HandleCheckpoint;
  }

  /** The one that loses pursuit: the request times out while the runtime suspends the job.
      The row is scheduled and becomes due, yet the poller passes the job over at any time; a
      repeated request is what brings it back. */
  lemma AbandonedSuspensionSleepsOn(slot: Slot, suspend: int, token: string, ch: Chan, env: Env, now: int)
    requires SlotInv(slot) && slot.InMap() && !slot.mem.value.stopped && Reliable(env)
    requires CheckpointAdmitted(slot.mem.value.r, token) && suspend != 0 && env.capture.Captured?
    ensures var timedOut := Command(Message(Checkpoint(suspend, token), Some(ch)), env, false);
            var repeated := Command(Message(Checkpoint(suspend, token), Some(ch)), env, true);
            var slept := SlotStep(slot, timedOut);
            && Enabled(slot, timedOut, now) && SlotInv(slept) && slept.w.row.Scheduled() && !Pursued(slept)
            && (forall setup, ch', env', later :: !Enabled(slept, Poll(setup, ch', env'), later))
            && Enabled(slept, repeated, now) && Pursued(SlotStep(slept, repeated))
  {
    hide SlotStep, SlotInv;
    var timedOut := Command(Message(Checkpoint(suspend, token), Some(ch)), env, false);
    assert Pursued(slot) && LosesPursuit(slot, timedOut);
    assert Enabled(slot, timedOut, now) by { NotHung(slot); }
    hide LosesPursuit, CheckpointAdmitted, Pursued;
    PursuitIsLostExactlyWhen(slot, timedOut, now);
    ActionKeepsSlot(slot, timedOut, now);
    AbandonedShape(slot, suspend, token, ch, env);
    var slept := SlotStep(slot, timedOut);
    SleeperIsScheduled(slept);
    HeldIsNotPolled(slept);
    RepeatedRequestEvicts(slept, suspend, token, ch, env, now);
  }

  lemma HeldIsNotPolled(slot: Slot)
    requires Held(slot)
    ensures forall setup, ch, env, now :: !Enabled(slot, Poll(setup, ch, env), now)
  {}

  lemma AbandonedShape(slot: Slot, suspend: int, token: string, ch: Chan, env: Env)
    requires SlotInv(slot) && slot.InMap() && !slot.mem.value.stopped
    requires CheckpointAdmitted(slot.mem.value.r, token) && suspend != 0 && env.capture.Captured?
    ensures var slept := SlotStep(slot, Command(Message(Checkpoint(suspend, token), Some(ch)), env, false));
            && !slept.hung && slept.InMap() && !slept.mem.value.stopped && slept.mem.value.r.job.state == Suspended
            && token in slept.mem.value.r.checkpointTokens && token != ""
  {
    assert !slot.hung;
    hide SlotInv;
    CheckpointSuspends(slot.mem.value.r, slot.w.live, suspend, token, Some(ch), env);
    hide CheckpointAdmitted, Handle, WorldAt;
    LoopStepShape(LoopOf(slot.w, slot.mem.value), Message(Checkpoint(suspend, token), Some(ch)), env);
    hide LoopStep;
  }

  lemma CheckpointSuspends(r: Runner, live: set<Pid>, suspend: int, token: string, ch: Option<Chan>, env: Env)
    requires CheckpointAdmitted(r, token) && suspend != 0 && env.capture.Captured?
    ensures var o := Handle(r, live, Message(Checkpoint(suspend, token), ch), env);
            && o.r.job.state == Suspended && !LoopEnds(o.r) && token in o.r.checkpointTokens && token != ""
  {
    hide HandleStart, HandleWake, HandleRetry, HandleExit, HandleKill, HandleProcessExited;
    hide HandleTakeLock, HandleReleaseLock, HandleWaitForResult;
  }

  lemma SleeperIsScheduled(slot: Slot)
    requires SlotInv(slot) && slot.InMap() && !slot.mem.value.stopped && slot.mem.value.r.job.state == Suspended
    ensures slot.w.row.Scheduled()
  {
    LiveRunnerIsInStep(slot);
    InStepRow(slot.w, slot.mem.value);
  }

  lemma RepeatedRequestEvicts(slot: Slot, suspend: int, token: string, ch: Chan, env: Env, now: int)
    requires SlotInv(slot) && !slot.hung && slot.InMap() && !slot.mem.value.stopped && Reliable(env)
    requires slot.mem.value.r.job.state == Suspended && token in slot.mem.value.r.checkpointTokens && token != ""
    ensures var repeated := Command(Message(Checkpoint(suspend, token), Some(ch)), env, true);
            Enabled(slot, repeated, now) && Pursued(SlotStep(slot, repeated))
  {
    var repeated := Command(Message(Checkpoint(suspend, token), Some(ch)), env, true);
    var a := slot.mem.value;
    assert a.r.job.resumeAt.Some?;
    RunnerTheorems.ReplayChangesNothing(LoopOf(slot.w, a), suspend, token, Some(ch), env);
    SleeperIsScheduled(slot);
    hide SlotInv, Attended, LoopStep, HandleStart, HandleWake, HandleRetry, HandleExit, HandleKill, HandleProcessExited;
  }

  // ----- launches -----

  /** The checkpoint a launching step works from, if any. */
  function LaunchCheckpoint(slot: Slot, action: Action): Option<string> {
    match action
    case Command(_, _, _) => if slot.mem.Some? then slot.mem.value.r.checkpoint else None
    case Poll(setup, _, _) =>
      var plan := PollPlan(slot.w.row, setup);
      if plan.Launch? then plan.checkpoint else None
    case Recover(setup, _, _) =>
      var plan := RecoverPlan(slot.w.row, setup);
      if plan.Launch? then plan.checkpoint else None
    case _ => None
  }

  /** An outcome that launches: alone, or by a restore. */
  lemma LaunchingOutcome(w: World, o: Outcome, k: nat)
    requires WriteRule(w, o) && WorldAt(w, o, k).launches != w.launches
    ensures Launches(o.call) && |WorldAt(w, o, k).live| == 1
    ensures w.live != {} ==> o.call.value.Restored? && StateAfter(w.row, o.before) != Suspended
  {}

  lemma CommandLaunches(slot: Slot, msg: Message, env: Env, k: nat)
    requires SlotInv(slot) && slot.mem.Some? && !slot.mem.value.stopped && Legal(slot.mem.value.r, Deliver(msg, env))
    requires Reliable(env)
    ensures var w, a := slot.w, slot.mem.value;
            var w' := WorldAt(w, CommandOutcome(w, a, msg, env), k);
            w'.launches != w.launches ==>
              && a.r.retryPending && w.row.state == Running && |w'.live| == 1
              && (w.live != {} ==> a.r.checkpoint.Some?)
  {
    var w, a := slot.w, slot.mem.value;
    var o := CommandOutcome(w, a, msg, env);
    LiveRunnerIsInStep(slot);
    assert Turning(a.r) && (a.r.retryPending ==> w.row.state == Running);
    hide SlotInv, Attended, InStep, Durable, Handle, Follows, Turning;
    CommandSafe(a.r, w, msg, env);
    CommandKeepsAttempt(a.r, w.live, msg, env);
    hide WorldAt, WriteRule;
    if WorldAt(w, o, k).launches != w.launches {
      LaunchingOutcome(w, o, k);
      RestoresNeedCheckpoint(SenderGone(a.r, msg.cmd), w.live, msg, env);
    }
  }

  lemma RestoresNeedCheckpoint(r: Runner, live: set<Pid>, msg: Message, env: Env)
    ensures var call := Handle(r, live, msg, env).call; call.Some? && call.value.Restored? ==> r.checkpoint.Some?
  {
    match msg.cmd
    case Retry => hide HandleStart, HandleWake, HandleCheckpoint, HandleKill, HandleExit, HandleProcessExited;
    case ProcessExited(_, _, _) => hide HandleStart, HandleWake, HandleCheckpoint, HandleKill, HandleExit, HandleRetry;
    case _ => hide HandleRetry, HandleProcessExited;
  }

  lemma PlanLaunches(w: World, plan: Plan, ch: Chan, env: Env, k: nat)
    requires Durable(w) && FitsRow(w.row, plan) && Reliable(env)
    ensures var w' := ExecuteCut(w, plan, ch, env, k);
            w'.launches != w.launches ==>
              plan.Launch? && |w'.live| == 1 && (w.live != {} ==> plan.checkpoint.Some? && w.row.state != Suspended)
  {
    if plan.Launch? {
      var o := FirstOutcome(w, plan, ch, env);
      if Loaded(plan.entry, w.row, plan.job, plan.checkpoint) {
        FirstCommandSafe(w, plan, ch, env);
        RestoresNeedCheckpoint(NewRunner(plan.job, w.policy, plan.checkpoint), w.live,
                               Message(EntryCommand(plan.entry), Some(ch)), env);
        hide Handle, WorldAt, WriteRule, Follows, FitsRow, Loaded;
        if WorldAt(w, o, k).launches != w.launches {
          LaunchingOutcome(w, o, k);
        }
      } else {
        RestartIsRefused(w, plan.job, ch, env);
      }
    }
  }

  lemma CarriedOutIsWhole(slot: Slot, plan: Plan, policy: Policy, ch: Chan, env: Env)
    ensures CarryOut(slot, plan, policy, ch, env).w == PlanCut(slot, plan, policy, ch, env, 4)
  {
    hide FirstOutcome, WorldAt, Enter, Under;
    if plan.Launch? {
      EnterShape(Under(slot, plan, policy).w, plan, ch, env);
    }
  }

  /** What a step that launches must find and leave. */
  ghost predicate LaunchRule(slot: Slot, action: Action, after: World) {
    after.launches != slot.w.launches ==>
      && (if action.Command? then slot.mem.Some? && slot.mem.value.r.retryPending && slot.w.row.state == Running
          else (action.Poll? || action.Recover?) && !AtWork(slot))
      && |after.live| == 1
      && (slot.w.live != {} ==> LaunchCheckpoint(slot, action).Some? && slot.w.row.state != Suspended)
  }

  lemma PollLaunchRule(slot: Slot, setup: Setup, ch: Chan, env: Env, k: nat, now: int)
    requires SlotInv(slot) && Enabled(slot, Poll(setup, ch, env), now) && Reliable(env)
    ensures LaunchRule(slot, Poll(setup, ch, env), PlanCut(slot, PollPlan(slot.w.row, setup), setup.policy, ch, env, k))
  {
    hide Attended, Durable, ExecuteCut, PollPlan, FitsRow, AtWork, Under;
    PlansFit(slot.w, setup);
    PollFindsNoWorkingRunner(slot, now);
    UnderKeeps(slot, PollPlan(slot.w.row, setup), setup.policy);
    PlanLaunches(Under(slot, PollPlan(slot.w.row, setup), setup.policy).w, PollPlan(slot.w.row, setup), ch, env, k);
  }

  /** A recovery that restores a job whose runner is at work, and gets as far as that. */
  ghost predicate LaunchesOver(slot: Slot, action: Action) {
    var inner := if action.Cut? then action.action else action;
    && inner.Recover? && AtWork(slot)
    && (var plan := RecoverPlan(slot.w.row, inner.setup); plan.Launch? && plan.entry == ByWake)
    && inner.env.launch.Launched? && (action.Cut? ==> action.k >= 2)
  }

  /** How far a plan of recovery gets: a restart of a running row launches nothing, a wake
      launches with its second part. */
  lemma RecoveryLaunches(w: World, plan: Plan, ch: Chan, env: Env, k: nat)
    requires Durable(w) && w.row.state == Running && FitsRow(w.row, plan) && (plan.Launch? ==> plan.entry != ByRetry)
    ensures ExecuteCut(w, plan, ch, env, k).launches != w.launches <==>
              plan.Launch? && plan.entry == ByWake && env.launch.Launched? && k >= 2
  {
    hide Durable, HandleStart, HandleRetry;
    if plan.Launch? && plan.entry == ByStart {
      RestartIsRefused(w, plan.job, ch, env);
    }
  }

  lemma RecoverLaunchRule(slot: Slot, setup: Setup, ch: Chan, env: Env, k: nat, now: int)
    requires SlotInv(slot) && Enabled(slot, Recover(setup, ch, env), now) && Reliable(env)
    ensures var plan := RecoverPlan(slot.w.row, setup);
            LaunchRule(slot, Recover(setup, ch, env), PlanCut(slot, plan, setup.policy, ch, env, k)) <==>
              !(AtWork(slot) && plan.Launch? && plan.entry == ByWake && env.launch.Launched? && k >= 2)
  {
    var plan := RecoverPlan(slot.w.row, setup);
    PlansFit(slot.w, setup);
    assert plan.Launch? ==> plan.entry != ByRetry;
    if AtWork(slot) {
      LiveRowOf(slot);
    }
    hide SlotInv, Attended, Durable, ExecuteCut, RecoverPlan, FitsRow, Under;
    assert Durable(slot.w) by { SoundIsDurable(slot); }
    UnderKeeps(slot, plan, setup.policy);
    var w := Under(slot, plan, setup.policy).w;
    PlanLaunches(w, plan, ch, env, k);
    if AtWork(slot) {
      RecoveryLaunches(w, plan, ch, env, k);
    }
  }

  lemma SoundIsDurable(slot: Slot)
    requires SlotInv(slot)
    ensures Durable(slot.w)
  {}

  lemma CommandLaunchRule(slot: Slot, msg: Message, env: Env, callerWaits: bool, k: nat, now: int)
    requires SlotInv(slot) && Enabled(slot, Command(msg, env, callerWaits), now) && Reliable(env)
    ensures LaunchRule(slot, Command(msg, env, callerWaits), WorldAt(slot.w, CommandOutcome(slot.w, slot.mem.value, msg, env), k))
  {
    hide WorldAt, CommandOutcome, SlotInv;
    CommandLaunches(slot, msg, env, k);
  }

  /** Two runners launch the same job only by a recovery that restores over a runner at work.
      Every other launch, complete or cut short, is the pending retry of the job's own runner or
      finds no runner at work. It leaves that one process, and where another was still alive it
      was a restore from a checkpoint of a job not suspended. */
  lemma LaunchFindsNobodyAtWork(slot: Slot, action: Action, now: int)
    requires SlotInv(slot) && Enabled(slot, action, now) && ReliableAction(action)
    ensures LaunchRule(slot, if action.Cut? then action.action else action, SlotStep(slot, action).w) <==>
              !LaunchesOver(slot, action)
  {
    NobodyInBackground(slot, action, now);
    hide WorldAt, CommandOutcome, DoCommand, SlotInv, PlanCut, CarryOut, LaunchRule, PollPlan, RecoverPlan;
    var inner := if action.Cut? then action.action else action;
    var k := if action.Cut? then action.k else 4;
    match inner
    case Command(msg, env, callerWaits) =>
      CommandLaunchRule(slot, msg, env, callerWaits, k, now);
      if !action.Cut? {
        CommandReachesEnd(slot, action);
      }
    case Poll(setup, ch, env) =>
      PollLaunchRule(slot, setup, ch, env, k, now);
      CarriedOutIsWhole(slot, PollPlan(slot.w.row, setup), setup.policy, ch, env);
    case Recover(setup, ch, env) =>
      RecoverLaunchRule(slot, setup, ch, env, k, now);
      CarriedOutIsWhole(slot, RecoverPlan(slot.w.row, setup), setup.policy, ch, env);
    case Cut(_, _) =>
    case _ => QuietStepLaunches(slot, action);
  }

  lemma QuietStepLaunches(slot: Slot, action: Action)
    requires var inner := if action.Cut? then action.action else action; inner.Evict? || inner.Die?
    ensures LaunchRule(slot, if action.Cut? then action.action else action, SlotStep(slot, action).w)
  {}

  // ----- launches by an old row or a delayed spawn -----

  /** What recovery plans from any row, and what Spawn plans. */
  predicate Shaped(plan: Plan) {
    plan.Launch? ==>
      || (plan.entry == ByStart && plan.checkpoint.None?)
      || (plan.entry == ByWake && plan.checkpoint.Some? && plan.job.state == Suspended)
  }

  /** The plan gets as far as a launch that succeeds. */
  predicate GoesThrough(w: World, plan: Plan, env: Env, cut: Option<nat>) {
    && plan.Launch? && env.launch.Launched? && (cut.Some? ==> cut.value >= 2)
    && (plan.entry == ByWake || (plan.job.state == Pending && w.live == {}))
  }

  lemma RecoverPlanIsShaped(row: Row, setup: Setup)
    ensures Shaped(RecoverPlan(row, setup))
  {}

  lemma IdlePlansGoNowhere(w: World, row: Row, setup: Setup, env: Env, cut: Option<nat>)
    requires !Acts(RecoverPlan(row, setup))
    ensures !GoesThrough(w, RecoverPlan(row, setup), env, cut)
  {}

  lemma TurnLaunches(slot: Slot, plan: Plan, policy: Policy, ch: Chan, env: Env, cut: Option<nat>)
    requires Shaped(plan)
    ensures var w' := ActOn(slot, plan, policy, ch, env, cut).w;
            && (w'.launches != slot.w.launches <==> GoesThrough(slot.w, plan, env, cut))
            && (w'.launches != slot.w.launches ==> |w'.live| == 1)
  {
    CarriedOutIsWhole(slot, plan, policy, ch, env);
    UnderKeeps(slot, plan, policy);
    PlanGoesThrough(Under(slot, plan, policy).w, plan, ch, env, if cut.Some? then cut.value else 4);
    hide CarryOut, Under, ExecuteCut;
  }

  lemma PlanGoesThrough(w: World, plan: Plan, ch: Chan, env: Env, k: nat)
    requires Shaped(plan)
    ensures var w' := ExecuteCut(w, plan, ch, env, k);
            && (w'.launches != w.launches <==> GoesThrough(w, plan, env, Some(k)))
            && (w'.launches != w.launches ==> |w'.live| == 1)
  {
    if plan.Launch? {
      FirstCall(w, plan, ch, env);
      hide FirstOutcome, Shaped;
      LaunchesByCall(w, FirstOutcome(w, plan, ch, env), k);
      hide WorldAt;
    }
  }

  lemma FirstCall(w: World, plan: Plan, ch: Chan, env: Env)
    requires Shaped(plan) && plan.Launch?
    ensures var call := FirstOutcome(w, plan, ch, env).call;
            if env.launch.Launched? && plan.entry == ByWake then call == Some(Restored(env.launch.pid))
            else if env.launch.Launched? && plan.job.state == Pending && w.live == {} && plan.entry == ByStart
            then call == Some(Started(env.launch.pid))
            else call == None
  {
    hide HandleRetry;
  }

  lemma LaunchesByCall(w: World, o: Outcome, k: nat)
    requires o.call.Some? ==> o.call.value.Restored? || (o.call.value.Started? && w.live == {})
    ensures var w' := WorldAt(w, o, k);
            && (w'.launches != w.launches <==> k >= 2 && o.call.Some?)
            && (w'.launches != w.launches ==> |w'.live| == 1)
  {}

  // ----- a sleeping job and an old row -----

  /** Waiting or settled, with nobody at work on it: what a scheduled job stays whatever happens
      to its row, as long as nothing launches it. */
  ghost predicate Resting(slot: Slot, t: int) {
    && (Waiting(slot.w, t) || slot.w.row.state.IsTerminal())
    && slot.overwritten == []
    && (slot.mem.Some? && !slot.mem.value.stopped ==>
          var r := slot.mem.value.r; r.job.state == Suspended && !r.retryPending && r.retrySenders == 0)
  }

  lemma WaitingRests(slot: Slot, t: int)
    requires SlotInv(slot) && Waiting(slot.w, t)
    ensures Resting(slot, t)
  {
    if slot.mem.Some? && !slot.mem.value.stopped {
      LiveRunnerIsInStep(slot);
      LiveRowOf(slot);
    }
  }

  /** A plan of recovery or Spawn that can launch the job as its world is. */
  predicate Wakes(w: World, plan: Plan) {
    plan.Launch? && (plan.entry == ByWake || (plan.job.state == Pending && w.live == {}))
  }

  lemma SleeperOutcome(w: World, a: Attached, msg: Message, env: Env, k: nat, t: int)
    requires Waiting(w, t) || w.row.state.IsTerminal()
    requires a.r.job.state == Suspended && !a.r.retryPending && a.r.retrySenders == 0 && Legal(a.r, Deliver(msg, env))
    ensures var o := CommandOutcome(w, a, msg, env);
            var w' := WorldAt(w, o, k);
            && w'.launches == w.launches && (Waiting(w', t) || w'.row.state.IsTerminal())
            && (LoopEnds(o.r) || (o.r.job.state == Suspended && !o.r.retryPending && o.r.retrySenders == 0))
  {
    hide HandleStart, HandleWake, HandleRetry;
  }

  lemma SleeperRests(slot: Slot, msg: Message, env: Env, callerWaits: bool, t: int)
    requires Resting(slot, t) && slot.mem.Some? && !slot.mem.value.stopped && Legal(slot.mem.value.r, Deliver(msg, env))
    ensures var slot' := DoCommand(slot, msg, env, callerWaits);
            Resting(slot', t) && slot'.w.launches == slot.w.launches
  {
    hide WorldAt, Handle, EvictsAfter, LoopEnds, SenderGone;
    SleeperOutcome(slot.w, slot.mem.value, msg, env, 4, t);
    LoopStepShape(LoopOf(slot.w, slot.mem.value), msg, env);
    hide LoopStep;
  }

  lemma RestingPlans(slot: Slot, t: int, now: int, setup: Setup)
    requires Resting(slot, t) && now < t
    ensures !slot.w.row.Due(now) && RecoverPlan(slot.w.row, setup) == GiveUp
  {}

  /** No action before its time disturbs a resting job. */
  lemma RestsUntilItsTime(slot: Slot, action: Action, now: int, t: int)
    requires Resting(slot, t) && Enabled(slot, action, now) && now < t
    ensures Resting(SlotStep(slot, action), t) && SlotStep(slot, action).w.launches == slot.w.launches
  {
    hide CommandOutcome, WorldAt, RecoverPlan, PollPlan, DoCommand, DoBackground, Execute, ExecuteCut;
    var inner := if action.Cut? then action.action else action;
    match inner
    case Command(msg, env, callerWaits) =>
      if action.Cut? {
        SleeperOutcome(slot.w, slot.mem.value, msg, env, action.k, t);
      } else {
        SleeperRests(slot, msg, env, callerWaits, t);
      }
    case Poll(setup, _, _) => RestingPlans(slot, t, now, setup);
    case Recover(setup, ch, env) =>
      RestingPlans(slot, t, now, setup);
      GiveUpIsNothing(slot, ch, env, if action.Cut? then action.k else 0);
    case _ =>
  }

  /** Before its time a scheduled job is left alone by every step, finished or cut short. */
  lemma WaitsForItsTime(slot: Slot, action: Action, now: int, t: int)
    requires SlotInv(slot) && Enabled(slot, action, now) && Waiting(slot.w, t) && now < t
    ensures LeftAlone(slot.w, SlotStep(slot, action).w, t)
  {
    WaitingRests(slot, t);
    RestsUntilItsTime(slot, action, now, t);
  }

  /** Nor does a turn of recovery by an old row, or the rest of a spawn, that cannot launch it. */
  lemma RestsOverTurn(slot: Slot, plan: Plan, policy: Policy, ch: Chan, env: Env, cut: Option<nat>, t: int)
    requires Resting(slot, t) && Shaped(plan) && !Wakes(slot.w, plan) && Reliable(env)
    ensures var slot' := ActOn(slot, plan, policy, ch, env, cut);
            && Resting(slot', t) && slot'.w.launches == slot.w.launches
            && LeftAlone(slot.w, slot'.w, t)
  {
    hide HandleWake, HandleRetry, Enter;
    TurnLaunches(slot, plan, policy, ch, env, cut);
    if plan.Launch? {
      EnterShape(Under(slot, plan, policy).w, plan, ch, env);
    }
  }

  /** Such a turn spares a scheduled job, whatever the clock, the database and the runtime answer,
      exactly when its plan cannot launch it. */
  lemma OldRowSparesSleeperExactlyWhen(slot: Slot, plan: Plan, policy: Policy, ch: Chan, t: int)
    requires Resting(slot, t) && Waiting(slot.w, t) && Shaped(plan)
    ensures (forall env: Env | Reliable(env) :: LeftAlone(slot.w, ActOn(slot, plan, policy, ch, env, None).w, t)) <==>
              !Wakes(slot.w, plan)
  {
    if Wakes(slot.w, plan) {
      var env := Env(0, 0, Launched(0), CaptureFailed([]), None, true, true, true);
      assert Reliable(env);
      TurnLaunches(slot, plan, policy, ch, env, None);
      assert !LeftAlone(slot.w, ActOn(slot, plan, policy, ch, env, None).w, t);
    } else {
      forall env: Env | Reliable(env) ensures LeftAlone(slot.w, ActOn(slot, plan, policy, ch, env, None).w, t) {
        RestsOverTurn(slot, plan, policy, ch, env, None, t);
      }
    }
  }

  /** An input for which it is woken early: a running job with a checkpoint suspends after its row
      was read. */
  lemma SuspendedSinceRead(slot: Slot, suspend: int, token: string, ch: Chan, env: Env, setup: Setup, now: int)
    requires SlotInv(slot) && slot.InMap() && !slot.mem.value.stopped && slot.mem.value.r.job.state == Running
    requires CheckpointAdmitted(slot.mem.value.r, token) && suspend > 0 && env.capture.Captured? && Reliable(env)
    requires slot.w.row.checkpointCount > 0 && setup.definition && setup.runtime && setup.file && setup.reconstruct
    ensures var suspends := Command(Message(Checkpoint(suspend, token), Some(ch)), env, true);
            var asleep := SlotStep(slot, suspends);
            && Enabled(slot, suspends, now)
            && SlotInv(asleep) && !asleep.hung && Waiting(asleep.w, env.now + suspend)
            && asleep.w.row != slot.w.row && slot.w.row.state == Running
            && Wakes(asleep.w, RecoverPlan(slot.w.row, setup))
  {
    var msg := Message(Checkpoint(suspend, token), Some(ch));
    var suspends := Command(msg, env, true);
    LiveRowOf(slot);
    InterruptedIsWoken(slot.w, setup);
    CommandReachesEnd(slot, suspends);
    hide RecoverPlan, SlotStep;
    SuspensionWaits(slot.w, slot.mem.value, suspend, token, ch, env);
    ActionKeepsSlot(slot, suspends, now);
    NotHung(SlotStep(slot, suspends));
  }

  lemma SuspensionWaits(w: World, a: Attached, suspend: int, token: string, ch: Chan, env: Env)
    requires CheckpointAdmitted(a.r, token) && suspend > 0 && env.capture.Captured? && Reliable(env)
    ensures var w' := WorldAt(w, CommandOutcome(w, a, Message(Checkpoint(suspend, token), Some(ch)), env), 4);
            Waiting(w', env.now + suspend)
  {
    hide HandleStart, HandleWake, HandleRetry, HandleExit, HandleKill, HandleProcessExited;
  }

  // ----- a spawn under way -----

  /** Recovery always does something to a row that Spawn has just inserted. */
  lemma RecoveryTouchesSpawn(slot: Slot, setup: Setup, ch: Chan, env: Env)
    requires AsInserted(slot) && !AtWork(slot) && Reliable(env)
    ensures !AsInserted(SlotStep(slot, Recover(setup, ch, env)))
  {
    hide HandleWake, HandleRetry, Enter;
    var plan := RecoverPlan(slot.w.row, setup);
    if plan.Launch? {
      EnterShape(Under(slot, plan, setup.policy).w, plan, ch, env);
    }
  }

  /** And the spawn then spoils what recovery has done: the job recovery has started loses its
      place in the map and its row, and works on. */
  lemma StartedTwice(slot: Slot, setup: Setup, ch: Chan, env: Env, policy: Policy, own: Chan, again: Env, now: int)
    requires SlotInv(slot) && !slot.hung && AsInserted(slot) && slot.w.live == {} && setup.definition && setup.runtime
    requires Reliable(env) && env.launch.Launched? && Reliable(again)
    ensures var action := Recover(setup, ch, env);
            var started := SlotStep(slot, action);
            var after := BeginTurn(started, policy, own, again, None);
            && Enabled(slot, action, now) && SlotInv(started) && AtWork(started) && started.w.live != {}
            && AtWork(after) && !after.InMap() && after.w.row.state == Failed
  {
    var action := Recover(setup, ch, env);
    var started := SlotStep(slot, action);
    AsInsertedIsIdle(slot);
    InsertedIsStarted(slot, setup, ch, env);
    hide SlotInv, SlotStep, RecoverPlan, BeginTurn;
    ActionKeepsSlot(slot, action, now);
    NotHung(started);
    BeginOverRunner(started, policy, own, again);
  }

  lemma InsertedIsStarted(slot: Slot, setup: Setup, ch: Chan, env: Env)
    requires AsInserted(slot) && !AtWork(slot) && slot.w.live == {} && setup.definition && setup.runtime && Reliable(env)
    requires env.launch.Launched?
    ensures var started := SlotStep(slot, Recover(setup, ch, env)); AtWork(started) && started.w.live != {}
  {
    hide HandleWake, HandleRetry, Enter;
    var plan := RecoverPlan(slot.w.row, setup);
    assert plan == Launch(ByStart, Load(slot.w.row), None);
    EnterShape(Under(slot, plan, setup.policy).w, plan, ch, env);
  }

  // ----- checkpoints that were acknowledged -----

  /** Whatever is launched from a checkpoint, by the poller or by recovery, is launched from
      the newest image the row was told of, and that is no older than the last acknowledged. */
  lemma LaunchesFromAcknowledgedOrLater(slot: Slot, setup: Setup, plan: Plan)
    requires SlotInv(slot)
    requires plan == PollPlan(slot.w.row, setup) || plan == RecoverPlan(slot.w.row, setup)
    requires plan.Launch? && plan.checkpoint.Some?
    ensures slot.w.acked <= slot.w.recorded <= |slot.w.images| && slot.w.recorded > 0
    ensures plan.checkpoint.value == slot.w.images[slot.w.recorded - 1].path
  {
    UsablePathMeansRecorded(slot.w);
  }

  /** An interrupted job with an acknowledged checkpoint is restored from it, or (when a
      lookup fails) left alone; it is never restarted from scratch and never marked failed. */
  lemma AcknowledgedWorkIsNotThrownAway(slot: Slot, setup: Setup)
    requires SlotInv(slot) && slot.w.row.state == Running && slot.w.acked > 0
    ensures var plan := RecoverPlan(slot.w.row, setup);
            plan.GiveUp? || (plan.Launch? && plan.entry == ByWake && plan.checkpoint.Some?)
  {
    UsablePathMeansRecorded(slot.w);
  }
}
