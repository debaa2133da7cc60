/** What holds of every job, whatever the hypervisor does with it and wherever it dies.
    Row writes succeed here. */
module SlotLaws {
  import opened Wrappers
  import opened Jobs
  import opened Rows
  import opened Machine
  import opened RunnerSpec
  import opened RunnerLaws
  import opened RowLaws
  import opened Slots

  /** A runner the hypervisor created, against its job's durable world. What one that has ended
      remembers no longer matters. */
  ghost predicate Attended(w: World, a: Attached) {
    && Lawful(LoopOf(w, a))
    && (a.stopped ==> LoopEnds(a.r))
    && (!a.stopped ==> InStep(a.r, w))
  }

  ghost predicate SlotInv(slot: Slot) {
    && Durable(slot.w)
    && slot.overwritten == []
    && (slot.hung ==> slot.mem.None?)
    && (slot.mem.Some? ==> Attended(slot.w, slot.mem.value))
  }

  /** The loop after a command, and the world it leaves. */
  lemma LoopStepShape(l: Loop, msg: Message, env: Env)
    requires !l.stopped
    ensures var o := Handle(SenderGone(l.m.r, msg.cmd), l.m.w.live, msg, env);
            var l' := LoopStep(l, Deliver(msg, env));
            && l'.m.w == WorldAt(l.m.w, o, 4)
            && l'.m.r == (if LoopEnds(o.r) then o.r.(resultWaiters := []) else o.r)
            && l'.stopped == LoopEnds(o.r)
  {
    hide Handle, WorldAt, LoopEnds;
  }

  lemma WaitersDoNotMatter(r: Runner, w: World)
    requires InStep(r, w)
    ensures InStep(r.(resultWaiters := []), w)
  {
    hide Durable, FinalColumnsMatch;
  }

  lemma OutOfStep(w: World, o: Outcome)
    requires Durable(w) && WriteRule(w, o)
    requires RowAfter(w.row, o).state == Running
    ensures Durable(WorldAt(w, o, 4)) && WorldAt(w, o, 4).row == RowAfter(w.row, o)
  {
    hide Durable, WriteRule, WorldAt, RowAfter;
    WorldAtEnd(w, o);
    WriteRuleIsDurable(w, o, 4);
  }

  /** After a command on a live runner: still durable, and in step with memory exactly when
      the command was not an immediate retry whose restore failed. */
  lemma CommandRefinesRow(w: World, a: Attached, msg: Message, env: Env)
    requires Attended(w, a) && !a.stopped && Legal(a.r, Deliver(msg, env)) && Reliable(env)
    ensures var m := LoopStep(LoopOf(w, a), Deliver(msg, env)).m;
            && Durable(m.w)
            && (InStep(m.r, m.w) <==> !CommandLosesRow(a.r, msg, env))
            && (CommandLosesRow(a.r, msg, env) ==> LoopEnds(m.r) && m.w.row.state == Running && m.r.job.state == Failed)
            && m.w.row.retryCount == Int32(m.r.job.retryCount)
  {
    hide Handle;
    assert Turning(a.r) && InStep(a.r, w);
    assert Durable(w) && (a.r.checkpointTokens != {} ==> w.recorded == |w.images|);
    SenderGoneInStep(a.r, w, msg.cmd);
    hide Lawful, Durable, LoopStep, WriteRule, Follows, WorldAt, RowAfter, CleanAttempt, CommandLosesRow;
    var r' := SenderGone(a.r, msg.cmd);
    var o := Handle(r', w.live, msg, env);
    CommandSafe(a.r, w, msg, env);
    LoopStepShape(LoopOf(w, a), msg, env);
    if CommandLosesRow(a.r, msg, env) {
      OutOfStep(w, o);
    } else {
      SafeKeepsInStep(r', w, o);
      WaitersDoNotMatter(o.r, WorldAt(w, o, 4));
    }
  }

  lemma CommandKeepsSlot(slot: Slot, msg: Message, env: Env, callerWaits: bool, now: int)
    requires SlotInv(slot) && Enabled(slot, Command(msg, env, callerWaits), now) && Reliable(env)
    ensures SlotInv(SlotStep(slot, Command(msg, env, callerWaits)))
  {
    hide Handle, Lawful, WorldAt, Durable, InStep, CommandLosesRow;
    var w, a := slot.w, slot.mem.value;
    LoopStepShape(LoopOf(w, a), msg, env);
    StepLawful(LoopOf(w, a), Deliver(msg, env));
    CommandRefinesRow(w, a, msg, env);
  }

  // ----- launching -----

  /** A plan that fits its row. A runner planned for a row that already says running is
      refused by handleStart. */
  ghost predicate FitsRow(row: Row, plan: Plan) {
    match plan
    case GiveUp => true
    case MarkFailed(_) => !row.state.IsTerminal()
    case Launch(entry, job, checkpoint) =>
      || Loaded(entry, row, job, checkpoint)
      || (entry == ByStart && job == Load(row) && row.state == Running && checkpoint.None?)
  }

  lemma PlansFit(w: World, setup: Setup)
    requires Durable(w)
    ensures FitsRow(w.row, PollPlan(w.row, setup))
    ensures FitsRow(w.row, RecoverPlan(w.row, setup))
  {}

  /** The first command of a planned runner. */
  lemma FirstCommandSafe(w: World, plan: Plan, ch: Chan, env: Env)
    requires Durable(w) && plan.Launch? && Loaded(plan.entry, w.row, plan.job, plan.checkpoint) && Reliable(env)
    ensures var r := NewRunner(plan.job, w.policy, plan.checkpoint);
            var o := FirstOutcome(w, plan, ch, env);
            && WriteRule(w, o)
            && (!Refused(o) ==> Follows(r, w, o))
  {
    hide Durable, HandleStart, HandleWake, HandleRetry, WriteRule, Follows, RestoreFails, RowAfter;
    match plan.entry
    case ByStart => StartSafe(w, plan.job, env);
    case ByWake => WakeSafe(w, plan.job, plan.checkpoint, env);
    case ByRetry => FirstRetrySafe(w, plan.job, plan.checkpoint, env);
  }

  /** The shape of a fresh loop after its first command. */
  lemma EnterShape(w: World, plan: Plan, ch: Chan, env: Env)
    requires plan.Launch?
    ensures var o := FirstOutcome(w, plan, ch, env);
            var l := Enter(plan.entry, plan.job, plan.checkpoint, w, Some(ch), env);
            && l.m.w == WorldAt(w, o, 4)
            && l.m.r == (if LoopEnds(o.r) then o.r.(resultWaiters := []) else o.r)
            && l.stopped == LoopEnds(o.r)
  {
    hide Handle, WorldAt, LoopEnds, Enter;
    EnterHandlesFirstCommand(plan.entry, plan.job, plan.checkpoint, w, Some(ch), env);
  }

  /** restartPendingJob on a row that says running: handleStart refuses, nothing changes. */
  lemma RestartIsRefused(w: World, job: JobRecord, ch: Chan, env: Env)
    requires job.state != Pending
    ensures FirstOutcome(w, Launch(ByStart, job, None), ch, env) ==
            Refuse(NewRunner(job, w.policy, None), CannotStart(job.state))
  {
    hide HandleWake, HandleRetry;
  }

  lemma MarkFailedDurable(w: World, failure: Failure, env: Env)
    requires Durable(w) && !w.row.state.IsTerminal() && Reliable(env)
    ensures Durable(Store(w, FailureWrite(failure, env)))
  {
    hide Durable;
    OtherWriteDurable(w, FailureWrite(failure, env).u);
  }

  lemma ExecuteCutDurable(w: World, plan: Plan, ch: Chan, env: Env, k: nat)
    requires Durable(w) && FitsRow(w.row, plan) && Reliable(env)
    ensures Durable(ExecuteCut(w, plan, ch, env, k))
  {
    hide Durable, Handle, WriteRule, Follows;
    match plan
    case GiveUp =>
    case MarkFailed(failure) => MarkFailedDurable(w, failure, env);
    case Launch(entry, job, checkpoint) =>
      if Loaded(entry, w.row, job, checkpoint) {
        FirstCommandSafe(w, plan, ch, env);
        WriteRuleIsDurable(w, FirstOutcome(w, plan, ch, env), k);
      } else {
        RestartIsRefused(w, job, ch, env);
      }
  }

  lemma LaunchKeepsSlot(slot: Slot, plan: Plan, ch: Chan, env: Env)
    requires Durable(slot.w) && !slot.hung && slot.overwritten == [] && !AtWork(slot)
    requires plan.Launch? && FitsRow(slot.w.row, plan) && Reliable(env)
    ensures SlotInv(Execute(slot, plan, ch, env))
  {
    hide Durable, Handle, WriteRule, Follows, Lawful, WorldAt;
    var w := slot.w;
    var o := FirstOutcome(w, plan, ch, env);
    EnterShape(w, plan, ch, env);
    ExecuteCutDurable(w, plan, ch, env, 4);
    if !Loaded(plan.entry, w.row, plan.job, plan.checkpoint) {
      RestartIsRefused(w, plan.job, ch, env);
    } else if !Refused(o) {
      FirstCommandSafe(w, plan, ch, env);
      LoadedIsEnterable(plan.entry, w, plan.job, plan.checkpoint);
      EntryLawful(plan.entry, plan.job, plan.checkpoint, w, Some(ch), env);
      SafeKeepsInStep(NewRunner(plan.job, w.policy, plan.checkpoint), w, o);
      WaitersDoNotMatter(o.r, WorldAt(w, o, 4));
    }
  }

  /** Attaching a policy touches nothing else. */
  lemma UnderKeeps(slot: Slot, plan: Plan, policy: Policy)
    ensures var u := Under(slot, plan, policy);
            && u == slot.(w := slot.w.(policy := u.w.policy))
            && (Durable(slot.w) <==> Durable(u.w)) && (AtWork(slot) <==> AtWork(u))
            && (!plan.Launch? || (AtWork(slot) && !Acts(plan)) ==> u == slot)
            && (plan.Launch? && !AtWork(slot) ==> u.w.policy == policy)
  {}

  /** An evicted runner that sleeps: it has no retry under way, and no request sent from now on
      finds it. */
  ghost predicate Asleep(a: Attached) {
    !a.stopped && !a.published && a.r.job.state == Suspended && a.r.retrySenders == 0
  }

  /** The poller never starts a second runner beside a working one: evicting by job id alone
      and acting on rows are safe together. */
  lemma PollFindsNoWorkingRunner(slot: Slot, now: int)
    requires SlotInv(slot) && slot.w.row.Due(now) && !slot.InMap()
    ensures !AtWork(slot)
    ensures slot.mem.None? || slot.mem.value.stopped || (slot.w.row.state == Suspended && Asleep(slot.mem.value))
  {
    hide OneEach, Balanced, CheckpointsRecorded, FinalColumnsMatch, WithinBudget, RepliesBalance;
  }

  lemma MarkFailedKeepsSlot(slot: Slot, failure: Failure, ch: Chan, env: Env)
    requires SlotInv(slot) && !slot.w.row.state.IsTerminal() && Reliable(env)
    requires slot.mem.None? || slot.mem.value.stopped
    ensures SlotInv(Execute(slot, MarkFailed(failure), ch, env))
  {
    hide Durable, OneEach, Balanced;
    MarkFailedDurable(slot.w, failure, env);
  }

  lemma PollKeepsSlot(slot: Slot, setup: Setup, ch: Chan, env: Env, now: int)
    requires SlotInv(slot) && Enabled(slot, Poll(setup, ch, env), now) && Reliable(env)
    ensures SlotInv(SlotStep(slot, Poll(setup, ch, env)))
  {
    hide Attended, Durable, Enter, FirstOutcome;
    var plan := PollPlan(slot.w.row, setup);
    PlansFit(slot.w, setup);
    PollFindsNoWorkingRunner(slot, now);
    match plan
    case GiveUp =>
    case MarkFailed(failure) => MarkFailedKeepsSlot(slot, failure, ch, env);
    case Launch(_, _, _) =>
      UnderKeeps(slot, plan, setup.policy);
      LaunchKeepsSlot(Under(slot, plan, setup.policy), plan, ch, env);
  }

  // ----- recovery -----

  /** A recovery that meets a runner at work, which nothing in recoverJobs looks for, and that
      marks its job failed or restores it a second time. */
  predicate Upsets(slot: Slot, action: Action) {
    && action.Recover? && AtWork(slot)
    && var plan := RecoverPlan(slot.w.row, action.setup);
       plan.MarkFailed? || (plan.Launch? && plan.entry == ByWake)
  }

  /** What a live runner means for its row. */
  lemma LiveRowOf(slot: Slot)
    requires SlotInv(slot) && slot.mem.Some? && !slot.mem.value.stopped
    ensures AtWork(slot) <==> slot.mem.value.r.job.state != Suspended
    ensures slot.w.row.state == if AtWork(slot) then Running else Suspended
  {
    hide Durable, OneEach, Balanced, CheckpointsRecorded, FinalColumnsMatch, WithinBudget, RepliesBalance;
  }

  lemma OutOfStepIsUnsound(slot: Slot)
    requires AtWork(slot) && slot.w.row.state.IsTerminal()
    ensures !SlotInv(slot)
  {
    if SlotInv(slot) {
      LiveRowOf(slot);
    }
  }

  /** A wake settles the row or leaves a new runner. */
  lemma WakeOverRunner(slot: Slot, plan: Plan, ch: Chan, env: Env)
    requires Durable(slot.w) && AtWork(slot) && plan.Launch? && plan.entry == ByWake && Reliable(env)
    requires Loaded(plan.entry, slot.w.row, plan.job, plan.checkpoint)
    ensures var slot' := Execute(slot, plan, ch, env);
            if env.launch.Launched? then slot'.overwritten == slot.overwritten + [slot.mem.value.(published := false)]
            else slot'.mem == Some(slot.mem.value.(published := false)) && slot'.w.row.state == Failed
  {
    hide Durable, HandleStart, HandleRetry, Follows, WriteRule, Enter, WorldAt;
    var o := FirstOutcome(slot.w, plan, ch, env);
    assert Refused(o) <==> env.launch.LaunchFailed?;
    assert env.launch.LaunchFailed? ==> RowAfter(slot.w.row, o).state == Failed;
    FirstCommandSafe(slot.w, plan, ch, env);
    hide FirstOutcome, RowAfter;
    EnterShape(slot.w, plan, ch, env);
    WorldAtEnd(slot.w, o);
  }

  lemma RefusalKeepsWorld(w: World, r: Runner, reason: Refusal)
    ensures WorldAt(w, Refuse(r, reason), 4) == w
  {}

  /** Recovery keeps the invariant exactly when it upsets no runner at work. */
  lemma RecoverKeepsSlotExactlyWhen(slot: Slot, setup: Setup, ch: Chan, env: Env, now: int)
    requires SlotInv(slot) && Enabled(slot, Recover(setup, ch, env), now) && Reliable(env)
    ensures SlotInv(SlotStep(slot, Recover(setup, ch, env))) <==> !Upsets(slot, Recover(setup, ch, env))
  {
    var plan := RecoverPlan(slot.w.row, setup);
    PlansFit(slot.w, setup);
    if slot.mem.Some? && !slot.mem.value.stopped {
      LiveRowOf(slot);
    }
    assert plan != GiveUp ==> slot.w.row.state == Running || slot.w.row.state == Pending;
    assert plan.Launch? ==> plan.entry != ByRetry;
    hide Durable, Enter, FirstOutcome, WakePlan, RecoverRunningPlan, RecoverPlan, Lawful, InStep;
    if AtWork(slot) && plan != GiveUp {
      RecoverOverRunner(slot, plan, setup.policy, ch, env);
    } else {
      match plan
      case GiveUp =>
      case MarkFailed(failure) => MarkFailedKeepsSlot(slot, failure, ch, env);
      case Launch(_, _, _) =>
        UnderKeeps(slot, plan, setup.policy);
        LaunchKeepsSlot(Under(slot, plan, setup.policy), plan, ch, env);
    }
  }

  lemma RecoverOverRunner(slot: Slot, plan: Plan, policy: Policy, ch: Chan, env: Env)
    requires SlotInv(slot) && AtWork(slot) && slot.w.row.state == Running && FitsRow(slot.w.row, plan) && Reliable(env)
    requires plan != GiveUp && (plan.Launch? ==> plan.entry != ByRetry)
    ensures SlotInv(CarryOut(slot, plan, policy, ch, env)) <==> plan.Launch? && plan.entry == ByStart
  {
    var u := Under(slot, plan, policy);
    UnderKeeps(slot, plan, policy);
    var slot' := Execute(u, plan, ch, env);
    hide Durable, Lawful, InStep, Execute, Under;
    match plan
    case MarkFailed(failure) =>
      MarkFailedSettles(slot, failure, ch, env);
      OutOfStepIsUnsound(slot');
    case Launch(entry, job, _) =>
      if entry == ByStart {
        assert job.state == Running && plan.checkpoint.None?;
        RefusedLaunch(slot, plan, ch, env);
      } else {
        assert Loaded(entry, slot.w.row, job, plan.checkpoint);
        WakeOverRunner(u, plan, ch, env);
        if env.launch.LaunchFailed? {
          OutOfStepIsUnsound(slot');
        }
      }
  }

  lemma MarkFailedSettles(slot: Slot, failure: Failure, ch: Chan, env: Env)
    requires Reliable(env)
    ensures var slot' := Execute(slot, MarkFailed(failure), ch, env);
            slot'.w.row.state == Failed && slot'.mem == slot.mem && slot'.overwritten == slot.overwritten
  {}

  lemma RefusedCutChangesNothing(w: World, job: JobRecord, ch: Chan, env: Env, k: nat)
    requires job.state != Pending
    ensures ExecuteCut(w, Launch(ByStart, job, None), ch, env, k) == w
  {
    RestartIsRefused(w, job, ch, env);
  }

  /** What recovery plans from any row, if it does not act, leaves the job's world as it is. */
  lemma IdlePlanKeepsSlot(slot: Slot, row: Row, setup: Setup, ch: Chan, env: Env, cut: Option<nat>)
    requires SlotInv(slot) && !slot.hung && !Acts(RecoverPlan(row, setup))
    ensures var plan := RecoverPlan(row, setup);
            var slot' := ActOn(slot, plan, setup.policy, ch, env, cut);
            && SlotInv(slot')
            && slot'.w == slot.w.(policy := slot'.w.policy)
            && (cut.None? ==> slot'.mem == if !plan.Launch? then slot.mem else Displaced(slot))
            && slot'.overwritten == [] && slot'.hung == cut.Some?
  {
    var plan := RecoverPlan(row, setup);
    UnderKeeps(slot, plan, setup.policy);
    var u := Under(slot, plan, setup.policy);
    hide Durable, Lawful, InStep, Execute, ExecuteCut, Under;
    if plan.Launch? {
      assert plan.checkpoint.None?;
      RefusedCutChangesNothing(u.w, plan.job, ch, env, cut.GetOr(0));
      RefusedLaunch(u, plan, ch, env);
    } else {
      GiveUpIsNothing(u, ch, env, cut.GetOr(0));
    }
  }

  lemma GiveUpIsNothing(slot: Slot, ch: Chan, env: Env, k: nat)
    ensures Execute(slot, GiveUp, ch, env) == slot && ExecuteCut(slot.w, GiveUp, ch, env, k) == slot.w
  {}

  lemma RefusedLaunch(slot: Slot, plan: Plan, ch: Chan, env: Env)
    requires plan.Launch? && plan.entry == ByStart && plan.job.state != Pending && plan.checkpoint.None?
    ensures Execute(slot, plan, ch, env) == slot.(mem := Displaced(slot))
  {
    hide Enter, WorldAt, HandleStart, HandleWake, HandleRetry;
    RestartIsRefused(slot.w, plan.job, ch, env);
    EnterShape(slot.w, plan, ch, env);
    hide FirstOutcome;
    RefusalKeepsWorld(slot.w, NewRunner(plan.job, slot.w.policy, None), CannotStart(plan.job.state));
  }

  lemma DeathKeepsWorld(w: World, pid: Pid)
    requires Durable(w)
    ensures Durable(w.(live := w.live - {pid}))
  {}

  lemma DeathKeepsSlot(slot: Slot, pid: Pid)
    requires SlotInv(slot)
    ensures SlotInv(SlotStep(slot, Die(pid)))
  {
    hide Durable, OneEach, Balanced, FinalColumnsMatch;
    DeathKeepsWorld(slot.w, pid);
  }

  lemma CutCommandDurable(w: World, a: Attached, msg: Message, env: Env, k: nat)
    requires Durable(w) && Attended(w, a) && !a.stopped && Legal(a.r, Deliver(msg, env)) && Reliable(env)
    ensures Durable(WorldAt(w, CommandOutcome(w, a, msg, env), k))
  {
    hide Handle;
    assert Turning(a.r) && InStep(a.r, w);
    hide Lawful, Durable, InStep, WriteRule, Follows, WorldAt;
    CommandSafe(a.r, w, msg, env);
    WriteRuleIsDurable(w, CommandOutcome(w, a, msg, env), k);
  }

  lemma CutKeepsSlot(slot: Slot, inner: Action, k: nat, now: int)
    requires SlotInv(slot) && Enabled(slot, Cut(inner, k), now) && ReliableAction(inner)
    ensures SlotInv(SlotStep(slot, Cut(inner, k)))
  {
    hide Durable, Attended, ExecuteCut, PollPlan, RecoverPlan, WorldAt, CommandOutcome;
    match inner
    case Command(msg, env, _) => CutCommandDurable(slot.w, slot.mem.value, msg, env, k);
    case Poll(setup, ch, env) =>
      PlansFit(slot.w, setup);
      UnderKeeps(slot, PollPlan(slot.w.row, setup), setup.policy);
      ExecuteCutDurable(Under(slot, PollPlan(slot.w.row, setup), setup.policy).w, PollPlan(slot.w.row, setup), ch, env, k);
    case Recover(setup, ch, env) =>
      PlansFit(slot.w, setup);
      UnderKeeps(slot, RecoverPlan(slot.w.row, setup), setup.policy);
      ExecuteCutDurable(Under(slot, RecoverPlan(slot.w.row, setup), setup.policy).w, RecoverPlan(slot.w.row, setup), ch, env, k);
    case _ =>
  }

  ghost predicate ReliableAction(action: Action) {
    match action
    case Command(_, env, _) => Reliable(env)
    case Background(_, _, env) => Reliable(env)
    case Poll(_, _, env) => Reliable(env)
    case Recover(_, _, env) => Reliable(env)
    case Cut(inner, _) => ReliableAction(inner)
    case _ => true
  }

  lemma NobodyInBackground(slot: Slot, action: Action, now: int)
    requires SlotInv(slot) && Enabled(slot, action, now)
    ensures !action.Background? && (action.Cut? ==> !action.action.Background?)
  {}

  /** Every action on a job, finished or cut short, keeps the invariant if and only if it is
      not a recovery that upsets a runner at work. */
  lemma ActionKeepsSlot(slot: Slot, action: Action, now: int)
    requires SlotInv(slot) && Enabled(slot, action, now) && ReliableAction(action)
    ensures SlotInv(SlotStep(slot, action)) <==> !Upsets(slot, action)
  {
    NobodyInBackground(slot, action, now);
    hide SlotInv, SlotStep;
    match action
    case Command(msg, env, callerWaits) => CommandKeepsSlot(slot, msg, env, callerWaits, now);
    case Evict => EvictKeepsSlot(slot);
    case Poll(setup, ch, env) => PollKeepsSlot(slot, setup, ch, env, now);
    case Recover(setup, ch, env) => RecoverKeepsSlotExactlyWhen(slot, setup, ch, env, now);
    case Die(pid) => DeathKeepsSlot(slot, pid);
    case Cut(inner, k) => CutKeepsSlot(slot, inner, k, now);
  }

  lemma EvictKeepsSlot(slot: Slot)
    requires SlotInv(slot)
    ensures SlotInv(SlotStep(slot, Evict)) && SlotInv(CrashSlot(slot))
  {}

  // ----- spawning -----

  lemma InsertedIsSound(createdAt: int)
    ensures SlotInv(Inserted(createdAt)) && AsInserted(Inserted(createdAt))
  {}

  /** The rest of Spawn finds its row as it was inserted. */
  lemma BeginKeepsSlot(slot: Slot, policy: Policy, ch: Chan, env: Env, cut: Option<nat>)
    requires SlotInv(slot) && !slot.hung && AsInserted(slot) && Reliable(env)
    ensures SlotInv(BeginTurn(slot, policy, ch, env, cut))
  {
    var plan := SpawnPlan(slot.w.row.createdAt);
    AsInsertedIsIdle(slot);
    UnderKeeps(slot, plan, policy);
    hide Durable, Attended, Execute, ExecuteCut, Under;
    if cut.Some? {
      ExecuteCutDurable(Under(slot, plan, policy).w, plan, ch, env, cut.value);
    } else {
      LaunchKeepsSlot(Under(slot, plan, policy), plan, ch, env);
    }
  }

  lemma AsInsertedIsIdle(slot: Slot)
    requires SlotInv(slot) && AsInserted(slot)
    ensures !AtWork(slot) && (slot.mem.Some? ==> slot.mem.value.stopped)
    ensures var plan := SpawnPlan(slot.w.row.createdAt);
            Loaded(plan.entry, slot.w.row, plan.job, plan.checkpoint) && FitsRow(slot.w.row, plan)
  {
    if slot.mem.Some? && !slot.mem.value.stopped {
      LiveRowOf(slot);
    }
  }

  /** Spawn's start over a runner at work is never harmless: it settles the row or leaves a second
      runner. */
  lemma BeginOverRunner(slot: Slot, policy: Policy, ch: Chan, env: Env)
    requires SlotInv(slot) && !slot.hung && AtWork(slot) && Reliable(env)
    ensures var slot' := BeginTurn(slot, policy, ch, env, None);
            && !SlotInv(slot')
            && if slot.w.live == {} && env.launch.Launched?
               then slot'.overwritten == [slot.mem.value.(published := false)]
               else slot'.mem == Some(slot.mem.value.(published := false)) && slot'.w.row.state == Failed
  {
    var plan := SpawnPlan(slot.w.row.createdAt);
    var u := Under(slot, plan, policy);
    UnderKeeps(slot, plan, policy);
    var o := FirstOutcome(u.w, plan, ch, env);
    EnterShape(u.w, plan, ch, env);
    SpawnOutcome(u.w, u.w.row.createdAt, ch, env);
    hide Durable, Attended, Enter, Under, FirstOutcome, WorldAt;
    var slot' := Execute(u, plan, ch, env);
    if Refused(o) {
      OutOfStepIsUnsound(slot');
    }
  }

  lemma SpawnOutcome(w: World, createdAt: int, ch: Chan, env: Env)
    requires Reliable(env)
    ensures var o := FirstOutcome(w, SpawnPlan(createdAt), ch, env);
            && (Refused(o) <==> !(w.live == {} && env.launch.Launched?))
            && (Refused(o) ==> WorldAt(w, o, 4).row.state == Failed)
  {
    hide HandleWake, HandleRetry;
  }
}
