/** What holds over every run whatever recovery does: also where it restores a job beside its
    runner, or acts on a row the job no longer has. */
module EveryRun {
  import opened Wrappers
  import opened Jobs
  import opened Rows
  import opened Machine
  import opened RunnerSpec
  import opened RunnerLaws
  import opened RowLaws
  import opened Slots
  import opened SlotLaws
  import opened System

  // ----- one process -----

  lemma StartsAlone(r: Runner, live: set<Pid>, msg: Message, env: Env)
    ensures var call := Handle(r, live, msg, env).call; call.Some? && call.value.Started? ==> live == {}
  {
    match msg.cmd
    case Retry => hide HandleStart, HandleWake, HandleCheckpoint, HandleKill, HandleExit, HandleProcessExited;
    case ProcessExited(_, _, _) => hide HandleStart, HandleWake, HandleCheckpoint, HandleKill, HandleExit, HandleRetry;
    case _ => hide HandleRetry, HandleProcessExited;
  }

  /** The runtime's contract alone keeps a job to one process, whichever runner calls it. */
  lemma CommandKeepsOne(w: World, r: Runner, msg: Message, env: Env, k: nat)
    requires AtMostOne(w.live)
    ensures AtMostOne(WorldAt(w, Handle(r, w.live, msg, env), k).live)
  {
    hide Handle;
    StartsAlone(r, w.live, msg, env);
  }

  // ----- the record of checkpoints -----

  /** The row and the acknowledgements as before, and no new image. */
  predicate SameRecord(w: World, w': World) {
    && w'.images == w.images && w'.recorded == w.recorded && w'.acked == w.acked
    && w'.row.checkpointPath == w.row.checkpointPath && w'.row.checkpointCount == w.row.checkpointCount
  }

  /** Images are never lost, nor does the row forget that it was told of one. */
  predicate RecordGrows(w: World, w': World) {
    w.images <= w'.images && w.recorded <= w'.recorded
  }

  predicate TakesNoImage(o: Outcome) {
    && (o.before.Some? ==> !o.before.value.u.UpdateCheckpointed?)
    && (o.call.Some? ==> !o.call.value.Imaged?)
    && (o.after.Some? ==> !o.after.value.u.UpdateCheckpointed?)
    && (o.reply.Some? ==> !o.reply.value.CheckpointDone?)
  }

  lemma OthersTakeNoImage(r: Runner, live: set<Pid>, msg: Message, env: Env)
    requires !msg.cmd.Checkpoint?
    ensures var o := Handle(r, live, msg, env); TakesNoImage(o) && o.r.checkpointTokens == r.checkpointTokens
  {
    match msg.cmd
    case Retry => RetryTakesNoImage(r, live, env); hide HandleRetry;
    case ProcessExited(_, code, exitError) => ExitTakesNoImage(r, code, exitError, env); hide HandleProcessExited;
    case _ => hide HandleRetry, HandleProcessExited, HandleCheckpoint;
  }

  lemma RetryTakesNoImage(r: Runner, live: set<Pid>, env: Env)
    ensures var o := HandleRetry(r, live, env); TakesNoImage(o) && o.r.checkpointTokens == r.checkpointTokens
  {}

  lemma ExitTakesNoImage(r: Runner, code: int, exitError: Option<string>, env: Env)
    ensures var o := HandleProcessExited(r, code, exitError, env);
            TakesNoImage(o) && o.r.checkpointTokens == r.checkpointTokens
  {}

  lemma OthersKeepRecord(w: World, r: Runner, live: set<Pid>, msg: Message, env: Env, k: nat)
    requires !msg.cmd.Checkpoint?
    ensures SameRecord(w, WorldAt(w, Handle(r, live, msg, env), k))
    ensures Handle(r, live, msg, env).r.checkpointTokens == r.checkpointTokens
  {
    hide Handle, WorldAt, TakesNoImage;
    OthersTakeNoImage(r, live, msg, env);
    QuietKeepsRecord(w, Handle(r, live, msg, env), k);
  }

  /** A runner with a token has had its newest image recorded. */
  ghost predicate TokensRecorded(w: World, r: Runner) {
    r.checkpointTokens != {} ==> w.recorded == |w.images|
  }

  predicate ReplaysToken(r: Runner, o: Outcome) {
    && o.before.None? && o.call.None? && o.after.None?
    && r.checkpointTokens != {} && o.r.checkpointTokens == r.checkpointTokens
  }

  predicate Captures(o: Outcome) {
    && o.before.None? && o.call.Some? && o.call.value.Imaged? && o.after.Some? && o.after.value.ok
    && o.after.value.u.UpdateCheckpointed?
    && o.call.value.image.path != "" && o.after.value.u.path == Some(o.call.value.image.path)
  }

  lemma CheckpointOutcomes(r: Runner, suspend: int, token: string, ch: Option<Chan>, env: Env)
    requires Reliable(env)
    ensures var o := HandleCheckpoint(r, suspend, token, ch, env);
            || (TakesNoImage(o) && o.r.checkpointTokens == r.checkpointTokens)
            || ReplaysToken(r, o) || Captures(o)
  {}

  lemma ReplayKeepsRecord(w: World, r: Runner, o: Outcome, k: nat)
    requires CheckpointsRecorded(w) && TokensRecorded(w, r) && ReplaysToken(r, o)
    ensures var w' := WorldAt(w, o, k); CheckpointsRecorded(w') && RecordGrows(w, w') && TokensRecorded(w', o.r)
  {}

  lemma CaptureKeepsRecord(w: World, o: Outcome, k: nat)
    requires CheckpointsRecorded(w) && Captures(o)
    ensures var w' := WorldAt(w, o, k);
            CheckpointsRecorded(w') && RecordGrows(w, w') && (k >= 4 ==> w'.recorded == |w'.images|)
  {}

  lemma QuietKeepsRecord(w: World, o: Outcome, k: nat)
    requires TakesNoImage(o)
    ensures SameRecord(w, WorldAt(w, o, k))
  {}

  lemma CheckpointKeepsRecord(w: World, r: Runner, suspend: int, token: string, ch: Option<Chan>, env: Env, k: nat)
    requires CheckpointsRecorded(w) && TokensRecorded(w, r) && Reliable(env)
    ensures var o := HandleCheckpoint(r, suspend, token, ch, env);
            var w' := WorldAt(w, o, k);
            CheckpointsRecorded(w') && RecordGrows(w, w') && (k >= 4 ==> TokensRecorded(w', o.r))
  {
    CheckpointOutcomes(r, suspend, token, ch, env);
    hide HandleCheckpoint, WorldAt, TakesNoImage, ReplaysToken, Captures;
    var o := HandleCheckpoint(r, suspend, token, ch, env);
    if TakesNoImage(o) {
      QuietKeepsRecord(w, o, k);
    } else if ReplaysToken(r, o) {
      ReplayKeepsRecord(w, r, o, k);
    } else {
      CaptureKeepsRecord(w, o, k);
    }
  }

  lemma CommandKeepsRecord(w: World, r: Runner, msg: Message, env: Env, k: nat)
    requires CheckpointsRecorded(w) && TokensRecorded(w, r) && Reliable(env)
    ensures var o := Handle(r, w.live, msg, env);
            var w' := WorldAt(w, o, k);
            CheckpointsRecorded(w') && RecordGrows(w, w') && (k >= 4 ==> TokensRecorded(w', o.r))
  {
    hide HandleCheckpoint, WorldAt;
    if msg.cmd.Checkpoint? {
      CheckpointKeepsRecord(w, r, msg.cmd.suspend, msg.cmd.token, msg.ch, env, k);
    } else {
      OthersKeepRecord(w, r, w.live, msg, env, k);
      hide Handle;
    }
  }

  // ----- a job and everything that works on it -----

  /** The runner in the slot is the only one that still takes checkpoint requests. */
  ghost predicate Kept(slot: Slot) {
    && AtMostOne(slot.w.live)
    && CheckpointsRecorded(slot.w)
    && (slot.mem.Some? ==> TokensRecorded(slot.w, slot.mem.value.r))
  }

  ghost predicate KeptBy(slot: Slot, slot': Slot) {
    Kept(slot') && RecordGrows(slot.w, slot'.w)
  }

  lemma CommandKeepsJob(slot: Slot, msg: Message, env: Env, callerWaits: bool, k: nat)
    requires Kept(slot) && slot.mem.Some? && !slot.mem.value.stopped && Reliable(env)
    ensures KeptBy(slot, SlotStep(slot, Command(msg, env, callerWaits)))
    ensures KeptBy(slot, SlotStep(slot, Cut(Command(msg, env, callerWaits), k)))
  {
    hide Handle, WorldAt, CheckpointsRecorded, RecordGrows;
    var w, a := slot.w, slot.mem.value;
    var r := SenderGone(a.r, msg.cmd);
    CommandKeepsOne(w, r, msg, env, 4);
    CommandKeepsRecord(w, r, msg, env, 4);
    CommandKeepsOne(w, r, msg, env, k);
    CommandKeepsRecord(w, r, msg, env, k);
    LoopStepShape(LoopOf(w, a), msg, env);
    hide LoopStep;
  }

  /** A runner that was published over gets no more requests. */
  lemma BackgroundKeepsJob(slot: Slot, i: nat, msg: Message, env: Env, k: nat)
    requires Kept(slot) && i < |slot.overwritten| && !slot.overwritten[i].stopped && !msg.cmd.Checkpoint?
    ensures KeptBy(slot, DoBackground(slot, i, msg, env))
    ensures KeptBy(slot, Slot(WorldAt(slot.w, CommandOutcome(slot.w, slot.overwritten[i], msg, env), k), None, true, []))
  {
    hide Handle, WorldAt, SameRecord, KeptBy, CheckpointsRecorded;
    var w, a := slot.w, slot.overwritten[i];
    var r := SenderGone(a.r, msg.cmd);
    CommandKeepsOne(w, r, msg, env, 4);
    OthersKeepRecord(w, r, w.live, msg, env, 4);
    CommandKeepsOne(w, r, msg, env, k);
    OthersKeepRecord(w, r, w.live, msg, env, k);
    LoopStepShape(LoopOf(w, a), msg, env);
    hide Kept, LoopStep, AtMostOne;
    SameRecordKeeps(slot, DoBackground(slot, i, msg, env));
    SameRecordKeeps(slot, Slot(WorldAt(w, CommandOutcome(w, a, msg, env), k), None, true, []));
  }

  lemma PlanKeepsWorld(w: World, plan: Plan, ch: Chan, env: Env, k: nat)
    requires AtMostOne(w.live)
    ensures var w' := ExecuteCut(w, plan, ch, env, k); AtMostOne(w'.live) && SameRecord(w, w')
  {
    hide Handle, WorldAt;
    if plan.Launch? {
      var r, msg := NewRunner(plan.job, w.policy, plan.checkpoint), Message(EntryCommand(plan.entry), Some(ch));
      CommandKeepsOne(w, r, msg, env, k);
      OthersKeepRecord(w, r, w.live, msg, env, k);
    }
  }

  lemma SameRecordKeeps(slot: Slot, slot': Slot)
    requires Kept(slot) && AtMostOne(slot'.w.live) && SameRecord(slot.w, slot'.w)
    requires slot'.mem.Some? ==>
               || slot'.mem.value.r.checkpointTokens == {}
               || (slot.mem.Some? && slot'.mem.value.r == slot.mem.value.r)
    ensures KeptBy(slot, slot')
  {}

  /** Any plan, carried out on any slot, whoever works there. */
  lemma PlanKeepsJob(slot: Slot, plan: Plan, policy: Policy, ch: Chan, env: Env, cut: Option<nat>)
    requires Kept(slot)
    ensures KeptBy(slot, ActOn(slot, plan, policy, ch, env, cut))
  {
    hide Kept, KeptBy, SameRecord, ExecuteCut;
    var u := Under(slot, plan, policy);
    UnderKeepsRecord(slot, plan, policy);
    PlanKeepsWorld(u.w, plan, ch, env, if cut.Some? then cut.value else 4);
    CarriedOutKeeps(slot, plan, policy, ch, env);
    SameRecordTwice(slot.w, u.w, ActOn(slot, plan, policy, ch, env, cut).w);
    SameRecordKeeps(slot, ActOn(slot, plan, policy, ch, env, cut));
  }

  lemma UnderKeepsRecord(slot: Slot, plan: Plan, policy: Policy)
    requires Kept(slot)
    ensures var u := Under(slot, plan, policy); AtMostOne(u.w.live) && SameRecord(slot.w, u.w)
  {}

  lemma SameRecordTwice(w: World, w1: World, w2: World)
    requires SameRecord(w, w1) && SameRecord(w1, w2)
    ensures SameRecord(w, w2)
  {}

  lemma CarriedOutKeeps(slot: Slot, plan: Plan, policy: Policy, ch: Chan, env: Env)
    ensures var slot' := CarryOut(slot, plan, policy, ch, env);
            && slot'.w == PlanCut(slot, plan, policy, ch, env, 4)
            && (slot'.mem.Some? ==>
                  || slot'.mem.value.r.checkpointTokens == {}
                  || (slot.mem.Some? && slot'.mem.value.r == slot.mem.value.r))
  {
    var u := Under(slot, plan, policy);
    hide WorldAt, Enter, Handle;
    if plan.Launch? {
      EnterShape(u.w, plan, ch, env);
      OthersKeepRecord(u.w, NewRunner(plan.job, u.w.policy, plan.checkpoint), u.w.live,
                       Message(EntryCommand(plan.entry), Some(ch)), env, 4);
    }
  }

  lemma ActionKeepsJob(slot: Slot, action: Action, now: int)
    requires Kept(slot) && Enabled(slot, action, now) && ReliableAction(action)
    ensures KeptBy(slot, SlotStep(slot, action))
  {
    hide DoCommand, DoBackground, CommandOutcome, WorldAt, CarryOut, PlanCut, PollPlan, RecoverPlan;
    var inner, k := if action.Cut? then action.action else action, if action.Cut? then action.k else 0;
    match inner
    case Command(msg, env, callerWaits) => CommandKeepsJob(slot, msg, env, callerWaits, k);
    case Background(i, msg, env) => BackgroundKeepsJob(slot, i, msg, env, k);
    case Poll(setup, ch, env) =>
      PlanKeepsJob(slot, PollPlan(slot.w.row, setup), setup.policy, ch, env, if action.Cut? then Some(k) else None);
    case Recover(setup, ch, env) =>
      PlanKeepsJob(slot, RecoverPlan(slot.w.row, setup), setup.policy, ch, env, if action.Cut? then Some(k) else None);
    case _ =>
  }

  // ----- runs -----

  lemma MoveKeepsJob(s: Sys, move: Move, id: string)
    requires CanMove(s, move) && (id in s.slots ==> Kept(s.slots[id])) && id in Next(s, move).slots
    ensures Kept(Next(s, move).slots[id])
    ensures id in s.slots ==> RecordGrows(s.slots[id].w, Next(s, move).slots[id].w)
  {
    hide SlotStep, Enabled, ActOn, RecoverPlan, Reliable, ReliableAction;
    match move
    case At(other, action) =>
      if other == id {
        ActionKeepsJob(s.slots[id], action, s.clock);
      }
    case Stale(other, setup, ch, env, cut) =>
      if other == id {
        PlanKeepsJob(s.slots[id], RecoverPlan(s.todo[id], setup), setup.policy, ch, env, cut);
      }
    case Begin(other, policy, ch, env, cut) =>
      if other == id {
        PlanKeepsJob(s.slots[id], SpawnPlan(s.slots[id].w.row.createdAt), policy, ch, env, cut);
      }
    case _ =>
  }

  lemma {:induction false} RunKeepsJob(clock: int, moves: seq<Move>, id: string)
    requires CanRun(Boot(clock), moves) && id in Run(Boot(clock), moves).slots
    ensures Kept(Run(Boot(clock), moves).slots[id])
  {
    hide Kept, Next, CanMove;
    if moves != [] {
      var init, move := moves[..|moves| - 1], moves[|moves| - 1];
      if id in Run(Boot(clock), init).slots {
        RunKeepsJob(clock, init, id);
      }
      MoveKeepsJob(Run(Boot(clock), init), move, id);
    }
  }

  // ----- what a recovery restores -----

  /** Every row recovery has read names an image its job has. */
  ghost predicate ReadRowIsRecorded(s: Sys, id: string) {
    id in s.todo ==>
      && id in s.slots
      && (UsablePath(s.todo[id]) ==>
            exists i: nat :: i < s.slots[id].w.recorded <= |s.slots[id].w.images| &&
                             Some(s.slots[id].w.images[i].path) == s.todo[id].checkpointPath)
  }

  lemma MoveKeepsReadRow(s: Sys, move: Move, id: string)
    requires CanMove(s, move) && (id in s.slots ==> Kept(s.slots[id])) && ReadRowIsRecorded(s, id)
    ensures ReadRowIsRecorded(Next(s, move), id)
  {
    var s' := Next(s, move);
    if id in s'.todo {
      MoveKeepsJob(s, move, id);
      ReadRowMoves(s, move, id);
      hide Next, CanMove, Kept;
      if UsablePath(s'.todo[id]) && !move.ReadRows? {
        var i: nat :| i < s.slots[id].w.recorded <= |s.slots[id].w.images| &&
                      Some(s.slots[id].w.images[i].path) == s.todo[id].checkpointPath;
        KeptMeansRecorded(s'.slots[id]);
        assert s'.slots[id].w.images[i] == s.slots[id].w.images[i];
      } else if UsablePath(s'.todo[id]) {
        KeptMeansRecorded(s'.slots[id]);
        var last: nat := s'.slots[id].w.recorded - 1;
        assert Some(s'.slots[id].w.images[last].path) == s'.todo[id].checkpointPath;
      }
    }
  }

  lemma KeptMeansRecorded(slot: Slot)
    requires Kept(slot)
    ensures slot.w.recorded <= |slot.w.images|
    ensures UsablePath(slot.w.row) ==>
              slot.w.recorded > 0 && slot.w.row.checkpointPath == Some(slot.w.images[slot.w.recorded - 1].path)
  {}

  lemma ReadRowMoves(s: Sys, move: Move, id: string)
    requires CanMove(s, move) && id in Next(s, move).todo && (id in s.todo ==> id in s.slots)
    ensures var s' := Next(s, move);
            && id in s.slots && id in s'.slots
            && if move.ReadRows? then s'.todo[id] == s.slots[id].w.row && s'.slots == s.slots
               else id in s.todo && s'.todo[id] == s.todo[id]
  {
    hide SlotStep, Enabled, ActOn, RecoverPlan, BeginTurn, StaleTurn;
  }

  lemma {:induction false} ReadRowsAreRecorded(clock: int, moves: seq<Move>, id: string)
    requires CanRun(Boot(clock), moves)
    ensures ReadRowIsRecorded(Run(Boot(clock), moves), id)
  {
    hide Next, CanMove, Kept, ReadRowIsRecorded;
    if moves != [] {
      var init := moves[..|moves| - 1];
      ReadRowsAreRecorded(clock, init, id);
      if id in Run(Boot(clock), init).slots {
        RunKeepsJob(clock, init, id);
      }
      MoveKeepsReadRow(Run(Boot(clock), init), moves[|moves| - 1], id);
    } else {
      assert ReadRowIsRecorded(Boot(clock), id) by { NothingReadAtBoot(clock, id); }
    }
  }

  lemma NothingReadAtBoot(clock: int, id: string)
    ensures ReadRowIsRecorded(Boot(clock), id)
  {}

  /** The runtime writes every image of a job to one path. */
  predicate OnePath(w: World) {
    forall i, j :: 0 <= i < |w.images| && 0 <= j < |w.images| ==> w.images[i].path == w.images[j].path
  }

  /** From an empty table, over every run: whatever recovery restores by a row it has read, however
      old, is an image the row was told of; and where the runtime writes all of a job's images to
      one path, it is the newest one the row was told of, no older than the last acknowledged. */
  lemma OldRowsRestoreRecorded(clock: int, moves: seq<Move>, id: string, setup: Setup)
    requires CanRun(Boot(clock), moves) && id in Run(Boot(clock), moves).todo
    requires RecoverPlan(Run(Boot(clock), moves).todo[id], setup).Launch?
    requires RecoverPlan(Run(Boot(clock), moves).todo[id], setup).checkpoint.Some?
    ensures var s := Run(Boot(clock), moves);
            && id in s.slots
            && var w, path := s.slots[id].w, RecoverPlan(s.todo[id], setup).checkpoint.value;
               && w.acked <= w.recorded <= |w.images| && w.recorded > 0
               && (exists i: nat :: i < w.recorded && w.images[i].path == path)
               && (OnePath(w) ==> path == w.images[w.recorded - 1].path)
  {
    hide Run, CanRun;
    ReadRowsAreRecorded(clock, moves, id);
    RunKeepsJob(clock, moves, id);
    var s := Run(Boot(clock), moves);
    RestoresByItsPath(s.todo[id], setup);
    hide RecoverPlan;
    var w := s.slots[id].w;
    var i: nat :| i < w.recorded <= |w.images| && Some(w.images[i].path) == s.todo[id].checkpointPath;
    assert w.images[i].path == RecoverPlan(s.todo[id], setup).checkpoint.value;
  }

  lemma RestoresByItsPath(row: Row, setup: Setup)
    requires var plan := RecoverPlan(row, setup); plan.Launch? && plan.checkpoint.Some?
    ensures UsablePath(row) && RecoverPlan(row, setup).checkpoint == row.checkpointPath
  {}
}
