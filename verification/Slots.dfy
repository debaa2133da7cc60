/** hypervisor.go, one job at a time: what the hypervisor does with a job's durable world and
    with the runner it may hold for it. */
module Slots {
  import opened Wrappers
  import opened Jobs
  import opened Rows
  import opened Machine
  import opened RunnerSpec
  import opened RunnerLaws

  /** A runner the hypervisor created: its memory, its history, whether its loop has returned,
      and whether the `runners` map still names it. */
  datatype Attached = Attached(r: Runner, h: History, stopped: bool, published: bool)

  /** A live runner that waits for its process or has an immediate retry under way. */
  predicate Working(a: Attached) {
    !a.stopped && (a.r.job.state == Running || a.r.retryPending)
  }

  /** One job. `hung` marks a process of the hypervisor that died inside a command of this job:
      nothing of it happens any more until the restart. `overwritten` are the runners that were
      at work when another was published over them. A runner that sleeps or has ended is
      forgotten then: it does nothing unasked. */
  datatype Slot = Slot(w: World, mem: Option<Attached>, hung: bool, overwritten: seq<Attached>) {
    /** The `_, exists := h.runners[id]` of the API calls and of the poller. */
    predicate InMap() {
      mem.Some? && mem.value.published
    }
  }

  predicate AtWork(slot: Slot) {
    slot.mem.Some? && Working(slot.mem.value)
  }

  function LoopOf(w: World, a: Attached): Loop {
    Loop(Machine(a.r, w, a.h), a.stopped)
  }

  function Attach(slot: Slot, l: Loop, published: bool): Slot {
    slot.(w := l.m.w, mem := Some(Attached(l.m.r, l.m.h, l.stopped, published)))
  }

  /** The runner of the slot, taken out of the map, if it is at work. */
  function Displaced(slot: Slot): Option<Attached> {
    if AtWork(slot) then Some(slot.mem.value.(published := false)) else None
  }

  /** What the lookups before a launch find: the definition, its runtime, the checkpoint file
      on disk, a checkpoint rebuilt from it, and the definition's retry policy at that time. */
  datatype Setup = Setup(definition: bool, runtime: bool, file: bool, reconstruct: bool, policy: Policy)

  /** The world of a job just inserted; no launch has attached a policy yet. */
  function NewWorld(createdAt: int): World {
    World(NewRow(createdAt), Policy(0, 0), {}, [], 0, 0, 0)
  }

  // ----- launching a fresh runner -----

  /** A runner to be created, with the job and the checkpoint it gets. */
  datatype Plan =
    | Launch(entry: Entry, job: JobRecord, checkpoint: Option<string>)
    | MarkFailed(failure: Failure)
    | GiveUp

  function FirstOutcome(w: World, plan: Plan, ch: Chan, env: Env): Outcome
    requires plan.Launch?
  {
    Handle(NewRunner(plan.job, w.policy, plan.checkpoint), w.live,
           Message(EntryCommand(plan.entry), Some(ch)), env)
  }

  predicate Refused(o: Outcome) {
    o.reply.Some? && o.reply.value.Error?
  }

  /** markJobAsFailed. */
  function FailureWrite(failure: Failure, env: Env): Write {
    Write(UpdateCompleted(Failed, Some(env.now), None, None, Some(failure)), env.firstWriteOk)
  }

  /** Publish the runner and send its first command, as one step. It takes the place in the map
      of a runner the job may already have, and an error reply empties that place. */
  function Execute(slot: Slot, plan: Plan, ch: Chan, env: Env): Slot {
    match plan
    case GiveUp => slot
    case MarkFailed(failure) => slot.(w := Store(slot.w, FailureWrite(failure, env)))
    case Launch(entry, job, checkpoint) =>
      var l := Enter(entry, job, checkpoint, slot.w, Some(ch), env);
      if Refused(FirstOutcome(slot.w, plan, ch, env)) then slot.(w := l.m.w, mem := Displaced(slot))
      else
        Attach(slot, l, true).(overwritten :=
          if Displaced(slot).Some? then slot.overwritten + [Displaced(slot).value] else slot.overwritten)
  }

  /** The durable world when the hypervisor dies after the first `k` parts of a plan. */
  function ExecuteCut(w: World, plan: Plan, ch: Chan, env: Env, k: nat): World {
    match plan
    case GiveUp => w
    case MarkFailed(failure) => if k == 0 then w else Store(w, FailureWrite(failure, env))
    case Launch(_, _, _) => WorldAt(w, FirstOutcome(w, plan, ch, env), k)
  }

  /** The slot as a launch finds it once the retry policy of the definition just looked up is
      attached to the new runner. A restart that is refused over a runner at work attaches
      nothing. */
  function Under(slot: Slot, plan: Plan, policy: Policy): Slot {
    if plan.Launch? && (Acts(plan) || !AtWork(slot)) then slot.(w := slot.w.(policy := policy)) else slot
  }

  function CarryOut(slot: Slot, plan: Plan, policy: Policy, ch: Chan, env: Env): Slot {
    Execute(Under(slot, plan, policy), plan, ch, env)
  }

  function PlanCut(slot: Slot, plan: Plan, policy: Policy, ch: Chan, env: Env, k: nat): World {
    ExecuteCut(Under(slot, plan, policy).w, plan, ch, env, k)
  }

  /** The slot after a plan, complete or cut short. */
  function ActOn(slot: Slot, plan: Plan, policy: Policy, ch: Chan, env: Env, cut: Option<nat>): Slot {
    if cut.Some? then Slot(PlanCut(slot, plan, policy, ch, env, cut.value), None, true, [])
    else CarryOut(slot, plan, policy, ch, env)
  }

  /** The plan marks its job failed or sends a command that is not refused. */
  predicate Acts(plan: Plan) {
    match plan
    case GiveUp => false
    case MarkFailed(_) => true
    case Launch(entry, job, _) => entry != ByStart || job.state == Pending
  }

  function UsablePath(row: Row): bool {
    row.checkpointPath.Some? && row.checkpointPath.value != ""
  }

  /** wakeJob, up to the wake command: any failed lookup only returns an error. */
  function WakePlan(row: Row, setup: Setup): Plan {
    if !setup.definition || !setup.runtime || !UsablePath(row) || !setup.file || !setup.reconstruct then GiveUp
    else Launch(ByWake, Load(row).(state := Suspended), row.checkpointPath)
  }

  /** retryJob: a checkpoint that cannot be rebuilt means a retry from scratch. */
  function RetryPlan(row: Row, setup: Setup): Plan {
    if !setup.definition then MarkFailed(DefinitionNotFound)
    else if !setup.runtime then MarkFailed(RuntimeNotFound)
    else Launch(ByRetry, Load(row).(state := Failed),
                if UsablePath(row) && setup.reconstruct then row.checkpointPath else None)
  }

  /** restartPendingJob. */
  function RestartPlan(row: Row, setup: Setup): Plan {
    if !setup.definition then MarkFailed(DefinitionNotFound)
    else if !setup.runtime then MarkFailed(RuntimeNotFound)
    else Launch(ByStart, Load(row), None)
  }

  /** recoverRunningJob. */
  function RecoverRunningPlan(row: Row, setup: Setup): Plan {
    if row.checkpointCount > 0 && UsablePath(row) then WakePlan(row, setup)
    else if !setup.definition then MarkFailed(InterruptedWithoutDefinition)
    else if row.retryCount < setup.policy.maxRetries then RestartPlan(row, setup)
    else MarkFailed(InterruptedWithoutRetries)
  }

  /** The switch in recoverJobs. */
  function RecoverPlan(row: Row, setup: Setup): Plan {
    match row.state
    case Running => RecoverRunningPlan(row, setup)
    case Pending => RestartPlan(row, setup)
    case _ => GiveUp
  }

  /** The switch in resumeReadyJobs. */
  function PollPlan(row: Row, setup: Setup): Plan {
    match row.state
    case Suspended => WakePlan(row, setup)
    case PendingRetry => RetryPlan(row, setup)
    case _ => GiveUp
  }

  // ----- what can happen to a job -----

  datatype Action =
    | Command(msg: Message, env: Env, callerWaits: bool)
    | Background(i: nat, msg: Message, env: Env)
    | Evict
    | Poll(setup: Setup, ch: Chan, env: Env)
    | Recover(setup: Setup, ch: Chan, env: Env)
    | Die(pid: Pid)
    | Cut(action: Action, k: nat)

  /** maybeEvictJob's condition on the job it was given. */
  predicate Evictable(j: JobRecord) {
    j.state.IsTerminal() || j.state == PendingRetry || (j.state == Suspended && j.resumeAt.Some?)
  }

  /** The outcome of a command on an attached runner. */
  function CommandOutcome(w: World, a: Attached, msg: Message, env: Env): Outcome {
    Handle(SenderGone(a.r, msg.cmd), w.live, msg, env)
  }

  /** CheckpointJob: a successful reply goes to maybeEvictJob, unless the caller has gone. */
  predicate EvictsAfter(o: Outcome, callerWaits: bool) {
    callerWaits && o.reply.Some? && o.reply.value.CheckpointDone? && Evictable(o.reply.value.job)
  }

  function DoCommand(slot: Slot, msg: Message, env: Env, callerWaits: bool): Slot
    requires slot.mem.Some?
  {
    var a := slot.mem.value;
    var l := LoopStep(LoopOf(slot.w, a), Deliver(msg, env));
    Attach(slot, l, a.published && !EvictsAfter(CommandOutcome(slot.w, a, msg, env), callerWaits))
  }

  /** The same for a runner that was published over. */
  function DoBackground(slot: Slot, i: nat, msg: Message, env: Env): Slot
    requires i < |slot.overwritten|
  {
    var l := LoopStep(LoopOf(slot.w, slot.overwritten[i]), Deliver(msg, env));
    slot.(w := l.m.w, overwritten := slot.overwritten[i := Attached(l.m.r, l.m.h, l.stopped, false)])
  }

  /** When the action can happen, at clock reading `now`. API requests find their runner
      through the map; the poller's query matched the row and its lookup found no runner;
      recovery's query matched the row, and it looks for no runner. */
  ghost predicate Enabled(slot: Slot, action: Action, now: int) {
    match action
    case Command(msg, env, _) =>
      && !slot.hung && slot.mem.Some? && !slot.mem.value.stopped && !msg.cmd.Stop?
      && Legal(slot.mem.value.r, Deliver(msg, env))
      && (!msg.cmd.ProcessExited? && !msg.cmd.Retry? ==> slot.InMap())
    case Background(i, msg, env) =>
      && !slot.hung && i < |slot.overwritten| && !slot.overwritten[i].stopped
      && (msg.cmd.ProcessExited? || msg.cmd.Retry?)
      && Legal(slot.overwritten[i].r, Deliver(msg, env))
    case Evict => !slot.hung && slot.mem.Some? && slot.mem.value.stopped
    case Poll(_, _, _) => !slot.hung && slot.w.row.Due(now) && !slot.InMap()
    case Recover(_, _, _) => !slot.hung && !slot.w.row.state.IsTerminal()
    case Die(_) => true
    case Cut(inner, _) => !inner.Cut? && Enabled(slot, inner, now)
  }

  function CutWorld(slot: Slot, action: Action, k: nat): World {
    match action
    case Command(msg, env, _) =>
      if slot.mem.Some? then WorldAt(slot.w, CommandOutcome(slot.w, slot.mem.value, msg, env), k) else slot.w
    case Background(i, msg, env) =>
      if i < |slot.overwritten| then WorldAt(slot.w, CommandOutcome(slot.w, slot.overwritten[i], msg, env), k) else slot.w
    case Poll(setup, ch, env) => PlanCut(slot, PollPlan(slot.w.row, setup), setup.policy, ch, env, k)
    case Recover(setup, ch, env) =>
      PlanCut(slot, RecoverPlan(slot.w.row, setup), setup.policy, ch, env, k)
    case _ => slot.w
  }

  function SlotStep(slot: Slot, action: Action): Slot {
    match action
    case Command(msg, env, callerWaits) =>
      if slot.mem.Some? then DoCommand(slot, msg, env, callerWaits) else slot
    case Background(i, msg, env) =>
      if i < |slot.overwritten| then DoBackground(slot, i, msg, env) else slot
    case Evict => slot.(mem := None)
    case Poll(setup, ch, env) => CarryOut(slot, PollPlan(slot.w.row, setup), setup.policy, ch, env)
    case Recover(setup, ch, env) =>
      CarryOut(slot, RecoverPlan(slot.w.row, setup), setup.policy, ch, env)
    case Die(pid) => slot.(w := slot.w.(live := slot.w.live - {pid}))
    case Cut(inner, k) => Slot(CutWorld(slot, inner, k), None, true, [])
  }

  /** A crash forgets the runners; rows, images and processes stay. */
  function CrashSlot(slot: Slot): Slot {
    Slot(slot.w, None, false, [])
  }

  // ----- spawning -----

  /** Spawn, once it has inserted the row. */
  function Inserted(createdAt: int): Slot {
    Slot(NewWorld(createdAt), None, false, [])
  }

  predicate AsInserted(slot: Slot) {
    slot.w.row == NewRow(slot.w.row.createdAt)
  }

  /** The rest of Spawn: publish the runner, start it. The job is the one Spawn made, whatever the
      row says by now. */
  function SpawnPlan(createdAt: int): Plan {
    Launch(ByStart, Load(NewRow(createdAt)), None)
  }

  function BeginTurn(slot: Slot, policy: Policy, ch: Chan, env: Env, cut: Option<nat>): Slot {
    ActOn(slot, SpawnPlan(slot.w.row.createdAt), policy, ch, env, cut)
  }

  /** Both without interruption. */
  function SpawnSlot(createdAt: int, policy: Policy, ch: Chan, env: Env): Slot {
    BeginTurn(Inserted(createdAt), policy, ch, env, None)
  }
}
