/** The retry budget across runners, polls and recoveries, and the ways to overrun it. A
    definition may be registered again with another retry policy, and every launch attaches the
    policy found at that time, so the budget is a bound on all of them. */
module BudgetLaws {
  import opened Wrappers
  import opened Jobs
  import opened Rows
  import opened Machine
  import opened RunnerSpec
  import opened RunnerLaws
  import opened RowLaws
  import opened Slots
  import opened SlotLaws
  import opened SlotTheorems

  /** The budget as the row and the current runner see it, for a bound on the policies attached
      so far; a scheduled retry is still covered. */
  ghost predicate Budgeted(slot: Slot, cap: int) {
    && IsInt32(cap)
    && 0 <= slot.w.row.retryCount <= Max(0, cap)
    && (slot.w.row.state == PendingRetry ==> slot.w.row.retryCount < cap)
    && (slot.mem.Some? ==> 0 <= slot.mem.value.h.retries0 <= Max(0, cap) && slot.w.policy.maxRetries <= cap)
  }

  /** The policy the step may attach keeps to the bound. */
  ghost predicate WithinCap(action: Action, cap: int) {
    var inner := if action.Cut? then action.action else action;
    && (inner.Poll? ==> inner.setup.policy.maxRetries <= cap)
    && (inner.Recover? ==> inner.setup.policy.maxRetries <= cap)
  }

  /** A poll of a delayed retry whose restore fails: no terminal row is written, and the row
      stays scheduled with its count already raised. */
  ghost predicate PollRestoreFails(slot: Slot, action: Action) {
    && action.Poll? && slot.w.row.state == PendingRetry
    && PollPlan(slot.w.row, action.setup).Launch?
    && PollPlan(slot.w.row, action.setup).checkpoint.Some?
    && action.env.launch.LaunchFailed?
  }

  lemma LoopKeepsItsStart(l: Loop, msg: Message, env: Env)
    ensures LoopStep(l, Deliver(msg, env)).m.h.retries0 == l.m.h.retries0
    ensures LoopStep(l, Deliver(msg, env)).m.w.policy == l.m.w.policy
  {
    hide Handle;
    var m := TakeFromQueue(l.m, msg);
    CommitCounts(m, msg.ch, Handle(m.r, m.w.live, msg, env));
    CommitCounts(m, msg.ch, Refuse(m.r, RunnerStopped));
    hide Commit;
  }

  /** A command on a live runner, in numbers. */
  lemma CommandCountsWithin(w: World, a: Attached, msg: Message, env: Env)
    requires Attended(w, a) && !a.stopped && Legal(a.r, Deliver(msg, env)) && Reliable(env)
    ensures var m := LoopStep(LoopOf(w, a), Deliver(msg, env)).m;
            && m.h.retries0 == a.h.retries0 && m.w.policy == w.policy
            && a.h.retries0 <= m.r.job.retryCount <= Max(a.h.retries0, w.policy.maxRetries)
            && m.w.row.retryCount == Int32(m.r.job.retryCount)
  {
    hide Handle;
    var l := LoopOf(w, a);
    StepLawful(l, Deliver(msg, env));
    assert WithinBudget(LoopStep(l, Deliver(msg, env)).m, LoopStep(l, Deliver(msg, env)).stopped);
    CommandRefinesRow(w, a, msg, env);
    LoopKeepsItsStart(l, msg, env);
    hide Lawful, LoopStep, Attended, InStep, Durable;
  }

  lemma ScheduledRetryIsCovered(w: World, a: Attached, msg: Message, env: Env)
    requires Attended(w, a) && !a.stopped && Legal(a.r, Deliver(msg, env)) && Reliable(env)
    ensures var m := LoopStep(LoopOf(w, a), Deliver(msg, env)).m;
            m.w.row.state == PendingRetry ==> m.r.job.retryCount < w.policy.maxRetries
  {
    hide Handle, OneEach, Balanced, CheckpointsRecorded, FinalColumnsMatch;
    assert Turning(a.r) && a.r.onFailure == Some(w.policy);
    hide Lawful;
    CommandKeepsAttempt(a.r, w.live, msg, env);
    CommandRefinesRow(w, a, msg, env);
    LoopStepShape(LoopOf(w, a), msg, env);
    hide WorldAt, Durable, Attended, LoopStep, CommandLosesRow;
  }

  lemma CommandKeepsBudgeted(slot: Slot, msg: Message, env: Env, callerWaits: bool, now: int, cap: int)
    requires SlotInv(slot) && Enabled(slot, Command(msg, env, callerWaits), now) && Reliable(env)
    requires Budgeted(slot, cap)
    ensures Budgeted(SlotStep(slot, Command(msg, env, callerWaits)), cap)
  {
    hide Attended, Durable, LoopStep;
    CommandCountsWithin(slot.w, slot.mem.value, msg, env);
    ScheduledRetryIsCovered(slot.w, slot.mem.value, msg, env);
  }

  lemma FirstCommandCounts(w: World, plan: Plan, ch: Chan, env: Env)
    requires Durable(w) && plan.Launch? && Loaded(plan.entry, w.row, plan.job, plan.checkpoint) && Reliable(env)
    ensures var o := FirstOutcome(w, plan, ch, env);
            var row := RowAfter(w.row, o);
            && row.retryCount == (if plan.entry == ByRetry then Int32(w.row.retryCount + 1) else w.row.retryCount)
            && (row.state == PendingRetry <==> plan.entry == ByRetry && plan.checkpoint.Some? && env.launch.LaunchFailed?)
  {
    hide CheckpointsRecorded;
    match plan.entry
    case ByStart => hide HandleWake, HandleRetry;
    case ByWake => hide HandleStart, HandleRetry;
    case ByRetry => hide HandleStart, HandleWake;
  }

  lemma EnterStartsCounting(w: World, plan: Plan, ch: Chan, env: Env)
    requires plan.Launch?
    ensures var l := Enter(plan.entry, plan.job, plan.checkpoint, w, Some(ch), env);
            && l.m.h.retries0 == plan.job.retryCount + (if plan.entry == ByRetry then 1 else 0)
            && l.m.w.policy == w.policy
  {
    hide LoopStep;
    LoopKeepsItsStart(FreshLoop(plan.entry, plan.job, plan.checkpoint, w), Message(EntryCommand(plan.entry), Some(ch)), env);
  }

  /** A launch, in numbers. */
  lemma LaunchCounts(slot: Slot, plan: Plan, ch: Chan, env: Env)
    requires Durable(slot.w) && plan.Launch? && Reliable(env)
    requires Loaded(plan.entry, slot.w.row, plan.job, plan.checkpoint)
    ensures var slot' := Execute(slot, plan, ch, env);
            var more := if plan.entry == ByRetry then 1 else 0;
            && slot'.w.policy == slot.w.policy
            && slot'.w.row.retryCount == (if plan.entry == ByRetry then Int32(slot.w.row.retryCount + 1) else slot.w.row.retryCount)
            && (slot'.w.row.state == PendingRetry <==>
                  plan.entry == ByRetry && plan.checkpoint.Some? && env.launch.LaunchFailed?)
            && (slot'.mem.Some? ==>
                  || slot'.mem.value.h.retries0 == plan.job.retryCount + more
                  || (slot.mem.Some? && slot'.mem.value.h == slot.mem.value.h))
  {
    var w := slot.w;
    hide Durable, FirstOutcome, RowAfter, WriteRule, Follows, Enter, WorldAt, Loaded, LoopEnds;
    EnterShape(w, plan, ch, env);
    EnterStartsCounting(w, plan, ch, env);
    FirstCommandSafe(w, plan, ch, env);
    FirstCommandCounts(w, plan, ch, env);
    WorldAtEnd(w, FirstOutcome(w, plan, ch, env));
  }

  lemma LaunchBudgeted(slot: Slot, plan: Plan, ch: Chan, env: Env, cap: int)
    requires Durable(slot.w) && plan.Launch? && Loaded(plan.entry, slot.w.row, plan.job, plan.checkpoint) && Reliable(env)
    requires Budgeted(slot, cap)
    requires slot.w.policy.maxRetries <= cap
    ensures Budgeted(Execute(slot, plan, ch, env), cap) <==>
            !(plan.entry == ByRetry && plan.checkpoint.Some? && env.launch.LaunchFailed?
              && slot.w.row.retryCount + 1 >= cap)
  {
    assert plan.job.retryCount == slot.w.row.retryCount;
    assert plan.entry == ByRetry ==> slot.w.row.state == PendingRetry;
    if plan.entry == ByRetry {
      assert Int32(slot.w.row.retryCount + 1) == slot.w.row.retryCount + 1;
    }
    hide Durable, Execute, Loaded, Int32;
    LaunchCounts(slot, plan, ch, env);
  }

  /** Every completed step stays within the budget, except the poll of a delayed retry that
      fails to restore with no further retry left. */
  lemma CompleteStepBudget(slot: Slot, action: Action, now: int, cap: int)
    requires SlotInv(slot) && Enabled(slot, action, now) && ReliableAction(action) && !action.Cut?
    requires Budgeted(slot, cap)
    requires WithinCap(action, cap)
    ensures Budgeted(SlotStep(slot, action), cap) <==>
            !(PollRestoreFails(slot, action) && slot.w.row.retryCount + 1 >= cap)
  {
    hide Attended, Durable, Enter, FirstOutcome, DoCommand;
    match action
    case Command(msg, env, callerWaits) => CommandKeepsBudgeted(slot, msg, env, callerWaits, now, cap);
    case Poll(setup, ch, env) =>
      var plan := PollPlan(slot.w.row, setup);
      PlansFit(slot.w, setup);
      PollFindsNoWorkingRunner(slot, now);
      if plan.Launch? {
        UnderBudgeted(slot, plan, setup.policy, cap);
        LaunchBudgeted(Under(slot, plan, setup.policy), plan, ch, env, cap);
      }
    case Recover(setup, ch, env) =>
      RecoverBudgeted(slot, setup, ch, env, now, cap);
    case _ =>
  }

  lemma UnderBudgeted(slot: Slot, plan: Plan, policy: Policy, cap: int)
    requires Budgeted(slot, cap) && policy.maxRetries <= cap
    ensures var u := Under(slot, plan, policy);
            && Budgeted(u, cap) && u.w.row == slot.w.row && (Durable(slot.w) ==> Durable(u.w))
            && (plan.Launch? ==> u.w.policy.maxRetries <= cap)
  {
    UnderKeeps(slot, plan, policy);
  }

  lemma RecoverBudgeted(slot: Slot, setup: Setup, ch: Chan, env: Env, now: int, cap: int)
    requires SlotInv(slot) && Enabled(slot, Recover(setup, ch, env), now) && Reliable(env)
    requires Budgeted(slot, cap) && setup.policy.maxRetries <= cap
    ensures Budgeted(SlotStep(slot, Recover(setup, ch, env)), cap)
  {
    var plan := RecoverPlan(slot.w.row, setup);
    PlansFit(slot.w, setup);
    assert plan.Launch? ==> plan.entry != ByRetry;
    hide Attended, Durable, Enter, FirstOutcome, RecoverPlan;
    if plan.Launch? {
      UnderBudgeted(slot, plan, setup.policy, cap);
      var u := Under(slot, plan, setup.policy);
      if Loaded(plan.entry, slot.w.row, plan.job, plan.checkpoint) {
        LaunchBudgeted(u, plan, ch, env, cap);
      } else {
        RefusedLaunch(u, plan, ch, env);
      }
    }
  }

  // ----- steps cut short -----

  /** The row while a command is under way: untouched, or with its first write, or final. */
  lemma RowOnTheWay(w: World, o: Outcome, k: nat)
    requires WriteRule(w, o)
    ensures WorldAt(w, o, k).policy == w.policy
    ensures WorldAt(w, o, k).row ==
            if k == 0 then w.row
            else if k <= 2 then (if o.before.Some? then Update(w.row, o.before.value.u) else w.row)
            else RowAfter(w.row, o)
  {}

  lemma OnlyRetriesWriteFirst(r: Runner, live: set<Pid>, msg: Message, env: Env)
    requires !msg.cmd.Start? && !msg.cmd.Wake?
    ensures var o := Handle(r, live, msg, env);
            o.before.Some? ==> msg.cmd.Retry? && o.before.value.u == UpdateRetryCount(Int32(r.job.retryCount + 1))
  {
    hide HandleStart, HandleWake;
    match msg.cmd
    case Retry => hide HandleCheckpoint, HandleKill, HandleExit, HandleProcessExited;
    case ProcessExited(_, _, _) => hide HandleCheckpoint, HandleKill, HandleExit, HandleRetry;
    case Checkpoint(_, _) => hide HandleKill, HandleExit, HandleProcessExited, HandleRetry;
    case _ => hide HandleCheckpoint, HandleProcessExited, HandleRetry;
  }

  lemma RowOnTheWayBudgeted(w: World, o: Outcome, k: nat, cap: int)
    requires WriteRule(w, o) && Budgeted(Slot(w, None, false, []), cap) && w.row.state != PendingRetry
    requires o.before.Some? ==> o.before.value.u.UpdateRetryCount?
                                && o.before.value.u.retryCount == RowAfter(w.row, o).retryCount
    requires Budgeted(Slot(w.(row := RowAfter(w.row, o)), None, false, []), cap)
    ensures Budgeted(Slot(WorldAt(w, o, k), None, true, []), cap)
  {
    hide WriteRule, WorldAt, RowAfter;
    RowOnTheWay(w, o, k);
  }

  lemma LiveRunnerTurns(slot: Slot)
    requires SlotInv(slot) && slot.mem.Some? && !slot.mem.value.stopped
    ensures InStep(slot.mem.value.r, slot.w) && Turning(slot.mem.value.r) && slot.w.row.state != PendingRetry
  {
    LiveRunnerIsInStep(slot);
  }

  lemma CutCommandBudgeted(slot: Slot, msg: Message, env: Env, callerWaits: bool, k: nat, now: int, cap: int)
    requires SlotInv(slot) && Enabled(slot, Command(msg, env, callerWaits), now) && Reliable(env) && Budgeted(slot, cap)
    ensures Budgeted(SlotStep(slot, Cut(Command(msg, env, callerWaits), k)), cap)
  {
    var w, a := slot.w, slot.mem.value;
    var o := CommandOutcome(w, a, msg, env);
    assert SlotStep(slot, Cut(Command(msg, env, callerWaits), k)) == Slot(WorldAt(w, o, k), None, true, []);
    hide Durable, InStep, Attended, CommandOutcome, DoCommand, Turning, WorldAt;
    LiveRunnerTurns(slot);
    CommandKeepsBudgeted(slot, msg, env, callerWaits, now, cap);
    CommandReachesEnd(slot, Command(msg, env, callerWaits));
    hide SlotInv, SlotStep, WriteRule, RowAfter;
    FirstWriteCounts(w, a, msg, env);
    WorldAtEnd(w, o);
    RowOnTheWayBudgeted(w, o, k, cap);
  }

  /** A command's first write already leaves the row with the count its last one leaves. */
  lemma FirstWriteCounts(w: World, a: Attached, msg: Message, env: Env)
    requires Attended(w, a) && !a.stopped && InStep(a.r, w) && Turning(a.r) && Legal(a.r, Deliver(msg, env)) && Reliable(env)
    ensures var o := CommandOutcome(w, a, msg, env);
            && WriteRule(w, o)
            && (o.before.Some? ==> o.before.value.u.UpdateRetryCount?
                                   && o.before.value.u.retryCount == RowAfter(w.row, o).retryCount)
  {
    hide Handle, InStep, Attended;
    CommandSafe(a.r, w, msg, env);
    OnlyRetriesWriteFirst(SenderGone(a.r, msg.cmd), w.live, msg, env);
  }

  lemma CutLaunchCounts(w: World, plan: Plan, ch: Chan, env: Env, k: nat)
    requires Durable(w) && plan.Launch? && Loaded(plan.entry, w.row, plan.job, plan.checkpoint) && Reliable(env)
    ensures var row := ExecuteCut(w, plan, ch, env, k).row;
            var restoreFails := plan.checkpoint.Some? && env.launch.LaunchFailed?;
            && ExecuteCut(w, plan, ch, env, k).policy == w.policy
            && row.retryCount == (if plan.entry == ByRetry && k >= 1 then Int32(w.row.retryCount + 1) else w.row.retryCount)
            && (row.state == PendingRetry <==> plan.entry == ByRetry && (k <= 2 || restoreFails))
  {
    var o := FirstOutcome(w, plan, ch, env);
    FirstCommandSafe(w, plan, ch, env);
    FirstCommandCounts(w, plan, ch, env);
    FirstCommandWritesFirst(w, plan, ch, env);
    assert plan.entry == ByRetry <==> w.row.state == PendingRetry;
    hide Durable, FirstOutcome, WriteRule, Follows, WorldAt, RowAfter;
    RowOnTheWay(w, o, k);
  }

  lemma FirstCommandWritesFirst(w: World, plan: Plan, ch: Chan, env: Env)
    requires plan.Launch? && Loaded(plan.entry, w.row, plan.job, plan.checkpoint)
    ensures var before := FirstOutcome(w, plan, ch, env).before;
            match plan.entry
            case ByStart => before.None?
            case ByWake => before == Some(Write(UpdateState(Running), env.firstWriteOk))
            case ByRetry => before == Some(Write(UpdateRetryCount(Int32(w.row.retryCount + 1)), env.firstWriteOk))
  {}

  /** What makes a step overrun the budget: the last delayed retry, whose restore fails or
      which is cut short between counting the retry and writing the new state. */
  ghost predicate OverrunsBudget(slot: Slot, action: Action, cap: int) {
    var inner := if action.Cut? then action.action else action;
    && inner.Poll? && slot.w.row.state == PendingRetry && slot.w.row.retryCount + 1 >= cap
    && PollPlan(slot.w.row, inner.setup).Launch?
    && var restoreFails := PollPlan(slot.w.row, inner.setup).checkpoint.Some? && inner.env.launch.LaunchFailed?;
       if action.Cut? then action.k >= 1 && (action.k <= 2 || restoreFails) else restoreFails
  }

  lemma CutLaunchBudget(slot: Slot, plan: Plan, ch: Chan, env: Env, k: nat, cap: int)
    requires Durable(slot.w) && plan.Launch? && Loaded(plan.entry, slot.w.row, plan.job, plan.checkpoint) && Reliable(env)
    requires Budgeted(slot, cap)
    ensures Budgeted(Slot(ExecuteCut(slot.w, plan, ch, env, k), None, true, []), cap) <==>
            !(plan.entry == ByRetry && slot.w.row.retryCount + 1 >= cap && k >= 1
              && (k <= 2 || (plan.checkpoint.Some? && env.launch.LaunchFailed?)))
  {
    LoadedCounts(slot.w, plan);
    hide Durable, ExecuteCut, Loaded, Int32;
    CutLaunchCounts(slot.w, plan, ch, env, k);
  }

  lemma LoadedCounts(w: World, plan: Plan)
    requires plan.Launch? && Loaded(plan.entry, w.row, plan.job, plan.checkpoint)
    ensures plan.entry == ByRetry <==> w.row.state == PendingRetry
    ensures IsInt32(w.row.retryCount + 1) ==> Int32(w.row.retryCount + 1) == w.row.retryCount + 1
  {}

  lemma CutPlanBudget(slot: Slot, inner: Action, k: nat, now: int, cap: int)
    requires SlotInv(slot) && Enabled(slot, inner, now) && ReliableAction(inner) && Budgeted(slot, cap)
    requires inner.Poll? || inner.Recover?
    requires WithinCap(inner, cap)
    ensures Budgeted(SlotStep(slot, Cut(inner, k)), cap) <==> !OverrunsBudget(slot, Cut(inner, k), cap)
  {
    hide Durable, FirstOutcome, WorldAt, Follows;
    var plan := if inner.Poll? then PollPlan(slot.w.row, inner.setup)
                else RecoverPlan(slot.w.row, inner.setup);
    PlansFit(slot.w, inner.setup);
    assert inner.Recover? && plan.Launch? ==> plan.entry != ByRetry;
    assert inner.Poll? && plan.Launch? ==> (plan.entry == ByRetry <==> slot.w.row.state == PendingRetry);
    if plan.Launch? {
      UnderBudgeted(slot, plan, inner.setup.policy, cap);
      var u := Under(slot, plan, inner.setup.policy);
      if Loaded(plan.entry, slot.w.row, plan.job, plan.checkpoint) {
        CutLaunchBudget(u, plan, inner.ch, inner.env, k, cap);
      } else {
        RefusedCutChangesNothing(u.w, plan.job, inner.ch, inner.env, k);
      }
    }
    hide SlotInv, Loaded;
  }

  /** Every step, complete or cut short, stays within the budget if and only if it is not one
      of those. */
  lemma BudgetIsKeptExactlyWhen(slot: Slot, action: Action, now: int, cap: int)
    requires SlotInv(slot) && Enabled(slot, action, now) && ReliableAction(action) && Budgeted(slot, cap)
    requires WithinCap(action, cap)
    ensures Budgeted(SlotStep(slot, action), cap) <==> !OverrunsBudget(slot, action, cap)
  {
    match action
    case Cut(inner, k) =>
      match inner {
        case Command(msg, env, callerWaits) => CutCommandBudgeted(slot, msg, env, callerWaits, k, now, cap);
        case Poll(_, _, _) => CutPlanBudget(slot, inner, k, now, cap);
        case Recover(_, _, _) => CutPlanBudget(slot, inner, k, now, cap);
        case _ =>
      }
    case _ => CompleteStepBudget(slot, action, now, cap);
  }

  lemma CrashKeepsBudget(slot: Slot, cap: int)
    requires Budgeted(slot, cap)
    ensures Budgeted(CrashSlot(slot), cap)
  {}

  lemma InsertedIsBudgeted(createdAt: int, cap: int)
    requires IsInt32(cap)
    ensures Budgeted(Inserted(createdAt), cap)
  {}

  lemma BeginIsBudgeted(slot: Slot, policy: Policy, ch: Chan, env: Env, cut: Option<nat>, cap: int)
    requires SlotInv(slot) && !slot.hung && AsInserted(slot) && Reliable(env)
    requires Budgeted(slot, cap) && policy.maxRetries <= cap
    ensures Budgeted(BeginTurn(slot, policy, ch, env, cut), cap)
  {
    var plan := SpawnPlan(slot.w.row.createdAt);
    AsInsertedIsIdle(slot);
    UnderBudgeted(slot, plan, policy, cap);
    UnderKeeps(slot, plan, policy);
    var u := Under(slot, plan, policy);
    hide Durable, Attended, Execute, ExecuteCut, Loaded, Under;
    if cut.Some? {
      CutLaunchCounts(u.w, plan, ch, env, cut.value);
    } else {
      LaunchBudgeted(u, plan, ch, env, cap);
    }
  }

  // ----- the overrun -----

  /** A death between the two writes of a delayed retry counts it without taking it: the row
      is due again, and the poll after the restart counts it a second time. */
  lemma CutRetryIsCountedTwice(slot: Slot, setup: Setup, ch: Chan, env: Env, again: Env, k: nat, now: int)
    requires SlotInv(slot) && Enabled(slot, Poll(setup, ch, env), now) && Reliable(env) && Reliable(again)
    requires slot.w.row.state == PendingRetry && PollPlan(slot.w.row, setup).Launch? && 1 <= k <= 2
    requires IsInt32(slot.w.row.retryCount + 2)
    ensures var cut := CrashSlot(SlotStep(slot, Cut(Poll(setup, ch, env), k)));
            && cut.w.row == slot.w.row.(retryCount := slot.w.row.retryCount + 1)
            && Enabled(cut, Poll(setup, ch, again), now)
            && SlotStep(cut, Poll(setup, ch, again)).w.row.retryCount == slot.w.row.retryCount + 2
  {
    hide Durable, FirstOutcome, WriteRule, Follows, WorldAt, RowAfter, Attended, Execute, Loaded;
    var plan := PollPlan(slot.w.row, setup);
    UnderKeeps(slot, plan, setup.policy);
    var w := Under(slot, plan, setup.policy).w;
    var o := FirstOutcome(w, plan, ch, env);
    RetryPlanLoads(slot.w, setup);
    FirstCommandSafe(w, plan, ch, env);
    FirstCommandWritesFirst(w, plan, ch, env);
    CutKeepsSlot(slot, Poll(setup, ch, env), k, now);
    EvictKeepsSlot(SlotStep(slot, Cut(Poll(setup, ch, env), k)));
    RowOnTheWay(w, o, k);
    var cut := CrashSlot(SlotStep(slot, Cut(Poll(setup, ch, env), k)));
    assert cut.w.row == slot.w.row.(retryCount := slot.w.row.retryCount + 1);
    SecondCount(cut, setup, ch, again, now);
  }

  lemma RetryPlanLoads(w: World, setup: Setup)
    requires Durable(w) && w.row.state == PendingRetry && PollPlan(w.row, setup).Launch?
    ensures var plan := PollPlan(w.row, setup);
            && plan.entry == ByRetry && Loaded(ByRetry, w.row, plan.job, plan.checkpoint)
            && IsInt32(w.row.retryCount)
  {}

  lemma SecondCount(slot: Slot, setup: Setup, ch: Chan, env: Env, now: int)
    requires SlotInv(slot) && Enabled(slot, Poll(setup, ch, env), now) && Reliable(env)
    requires slot.w.row.state == PendingRetry && PollPlan(slot.w.row, setup).Launch?
    requires IsInt32(slot.w.row.retryCount + 1)
    ensures SlotStep(slot, Poll(setup, ch, env)).w.row.retryCount == slot.w.row.retryCount + 1
  {
    hide Durable, Attended, Execute, Loaded, PollPlan;
    RetryPlanLoads(slot.w, setup);
    UnderKeeps(slot, PollPlan(slot.w.row, setup), setup.policy);
    LaunchCounts(Under(slot, PollPlan(slot.w.row, setup), setup.policy), PollPlan(slot.w.row, setup), ch, env);
  }

  /** `n` polls in a row. */
  function PollTimes(slot: Slot, action: Action, n: nat): Slot {
    if n == 0 then slot else SlotStep(PollTimes(slot, action, n - 1), action)
  }

  lemma FailedRetryRow(slot: Slot, plan: Plan, ch: Chan, env: Env)
    requires Durable(slot.w) && !AtWork(slot) && plan.Launch? && plan.entry == ByRetry && Reliable(env)
    requires Loaded(ByRetry, slot.w.row, plan.job, plan.checkpoint) && plan.checkpoint.Some? && env.launch.LaunchFailed?
    ensures var slot' := Execute(slot, plan, ch, env);
            && slot'.w.row == slot.w.row.(retryCount := Int32(slot.w.row.retryCount + 1))
            && slot'.mem.None? && slot'.hung == slot.hung
  {
    var w := slot.w;
    hide Durable, Loaded, WriteRule, Follows, Enter, WorldAt, HandleRetry;
    FirstRetrySafe(w, plan.job, plan.checkpoint, env);
    EnterShape(w, plan, ch, env);
    WorldAtEnd(w, FirstOutcome(w, plan, ch, env));
  }

  /** One failing poll only raises the count. */
  lemma FailingPollRaisesCount(slot: Slot, action: Action, now: int)
    requires SlotInv(slot) && Enabled(slot, action, now) && ReliableAction(action) && PollRestoreFails(slot, action)
    ensures var slot' := SlotStep(slot, action);
            && slot'.w.row == slot.w.row.(retryCount := Int32(slot.w.row.retryCount + 1))
            && slot'.mem.None? && Enabled(slot', action, now) && PollRestoreFails(slot', action)
  {
    hide Durable, Attended, Execute, Loaded, PollPlan;
    var plan := PollPlan(slot.w.row, action.setup);
    PollFindsNoWorkingRunner(slot, now);
    RetryPlanLoads(slot.w, action.setup);
    UnderKeeps(slot, plan, action.setup.policy);
    FailedRetryRow(Under(slot, plan, action.setup.policy), plan, action.ch, action.env);
    PlanIgnoresCount(slot.w.row, Int32(slot.w.row.retryCount + 1), action.setup);
  }

  lemma PlanIgnoresCount(row: Row, n: int, setup: Setup)
    requires PollPlan(row, setup).Launch?
    ensures var plan := PollPlan(row.(retryCount := n), setup);
            plan.Launch? && plan.checkpoint == PollPlan(row, setup).checkpoint
  {}

  /** With a restore that keeps failing the poller retries without end: after `n` polls the
      row counts `n` more retries than before, whatever the policy allows. */
  lemma {:induction false} FailingRestoreOverrunsBudget(slot: Slot, action: Action, now: int, n: nat)
    requires SlotInv(slot) && Enabled(slot, action, now) && ReliableAction(action) && PollRestoreFails(slot, action)
    requires IsInt32(slot.w.row.retryCount) && IsInt32(slot.w.row.retryCount + n)
    ensures var slot' := PollTimes(slot, action, n);
            && SlotInv(slot') && Enabled(slot', action, now) && PollRestoreFails(slot', action)
            && slot'.w.row == slot.w.row.(retryCount := slot.w.row.retryCount + n)
  {
    hide SlotInv, SlotStep, Enabled, PollRestoreFails, ReliableAction, Upsets;
    if n > 0 {
      FailingRestoreOverrunsBudget(slot, action, now, n - 1);
      var before := PollTimes(slot, action, n - 1);
      FailingPollRaisesCount(before, action, now);
      PollDoesNotUpset(before, action);
      ActionKeepsSlot(before, action, now);
    }
  }

  lemma PollDoesNotUpset(slot: Slot, action: Action)
    requires PollRestoreFails(slot, action)
    ensures !Upsets(slot, action)
  {}
}
