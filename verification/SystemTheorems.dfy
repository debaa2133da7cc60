/** The hypervisor's promises over whole runs. */
module SystemTheorems {
  import opened Wrappers
  import opened Jobs
  import opened Rows
  import opened Machine
  import opened RunnerSpec
  import RunnerLaws
  import opened RowLaws
  import opened Slots
  import opened SlotLaws
  import opened SlotTheorems
  import opened BudgetLaws
  import opened System
  import opened EveryRun

  lemma BootIsSound(clock: int, moves: seq<Move>, id: string)
    requires CanRun(Boot(clock), moves) && Calm(Boot(clock), moves, id) && id in Run(Boot(clock), moves).slots
    ensures SlotInv(Run(Boot(clock), moves).slots[id])
  {
    RunKeepsInvariant(Boot(clock), moves, id);
  }

  lemma AtMostOneMeansOne(live: set<Pid>)
    requires AtMostOne(live)
    ensures |live| <= 1
  {
    if p :| p in live {
      assert live == {p};
    }
  }

  /** From an empty table, over every run, whatever recovery upsets: a job never has two live
      processes. Unless it has been upset it has none while its row says suspended, and the process
      of a running job is the one its runner holds. */
  lemma AtMostOneProcess(clock: int, moves: seq<Move>, id: string)
    requires CanRun(Boot(clock), moves) && id in Run(Boot(clock), moves).slots
    ensures |Run(Boot(clock), moves).slots[id].w.live| <= 1
    ensures Calm(Boot(clock), moves, id) ==>
              var slot := Run(Boot(clock), moves).slots[id];
              && (slot.w.row.state == Suspended ==> slot.w.live == {})
              && (slot.mem.Some? && !slot.mem.value.stopped && slot.mem.value.r.job.state == Running ==>
                    slot.mem.value.r.process.Some? && slot.w.live <= {slot.mem.value.r.process.value})
  {
    hide Run, CanRun, Calm;
    RunKeepsJob(clock, moves, id);
    AtMostOneMeansOne(Run(Boot(clock), moves).slots[id].w.live);
    if Calm(Boot(clock), moves, id) {
      BootIsSound(clock, moves, id);
    }
  }

  /** Whatever of this job the move launches, it launches alone. */
  ghost predicate LaunchesAlone(s: Sys, move: Move, id: string)
    requires id in s.slots && id in Next(s, move).slots
  {
    var slot, w' := s.slots[id], Next(s, move).slots[id].w;
    w'.launches != slot.w.launches ==>
      if move.At? then LaunchRule(slot, if move.action.Cut? then move.action.action else move.action, w')
      else (move.Stale? || move.Begin?) && !AtWork(slot) && |w'.live| == 1
  }

  /** A turn of recovery, or the rest of a spawn, that launches over this job's runner at work. */
  ghost predicate LaunchesBeside(s: Sys, move: Move, id: string)
    requires CanMove(s, move) && id in s.slots
  {
    match move
    case At(other, action) => other == id && LaunchesOver(s.slots[id], action)
    case Stale(other, setup, _, env, cut) =>
      other == id && AtWork(s.slots[id]) && GoesThrough(s.slots[id].w, RecoverPlan(s.todo[id], setup), env, cut)
    case Begin(other, _, _, env, cut) =>
      other == id && AtWork(s.slots[id]) && GoesThrough(s.slots[id].w, SpawnPlan(s.slots[id].w.row.createdAt), env, cut)
    case _ => false
  }

  /** From an empty table, at every move of every run in which nothing has upset the job yet: who
      launches it launches it alone, unless it is a recovery or a spawn that gets as far as a
      launch over its runner at work. */
  lemma EveryLaunchIsAlone(clock: int, moves: seq<Move>, id: string, move: Move)
    requires CanRun(Boot(clock), moves) && Calm(Boot(clock), moves, id)
    requires CanMove(Run(Boot(clock), moves), move) && id in Run(Boot(clock), moves).slots
    ensures var s := Run(Boot(clock), moves);
            id in Next(s, move).slots && (LaunchesAlone(s, move, id) <==> !LaunchesBeside(s, move, id))
  {
    hide Run, CanRun, Calm, LaunchRule, LaunchesOver, SlotStep, Enabled, ReliableAction, ActOn, GoesThrough, RecoverPlan,
      AtWork, SlotInv;
    var s := Run(Boot(clock), moves);
    BootIsSound(clock, moves, id);
    MoveOnJob(s, move, id);
    match move
    case At(other, action) =>
      if other == id {
        LaunchFindsNobodyAtWork(s.slots[id], action, s.clock);
        NothingLaunchedIsAlone(s.slots[id], action, SlotStep(s.slots[id], action).w);
      }
    case Stale(other, setup, ch, env, cut) =>
      if other == id {
        RecoverPlanIsShaped(s.todo[id], setup);
        TurnLaunches(s.slots[id], RecoverPlan(s.todo[id], setup), setup.policy, ch, env, cut);
      }
    case Begin(other, policy, ch, env, cut) =>
      if other == id {
        TurnLaunches(s.slots[id], SpawnPlan(s.slots[id].w.row.createdAt), policy, ch, env, cut);
      }
    case Crash => CrashKeepsRow(s.slots[id]);
    case _ =>
  }

  lemma NothingLaunchedIsAlone(slot: Slot, action: Action, after: World)
    ensures after.launches == slot.w.launches ==> LaunchRule(slot, if action.Cut? then action.action else action, after)
  {}

  /** From an empty table, over every run and at every crash point, whatever recovery upsets: the
      row names an image at least as new as the last one a caller was told of. */
  lemma AcknowledgedCheckpointsSurvive(clock: int, moves: seq<Move>, id: string)
    requires CanRun(Boot(clock), moves) && id in Run(Boot(clock), moves).slots
    ensures var w := Run(Boot(clock), moves).slots[id].w;
            && w.acked <= w.recorded <= |w.images|
            && (w.acked > 0 ==> w.row.checkpointPath == Some(w.images[w.recorded - 1].path))
  {
    hide Run, CanRun;
    RunKeepsJob(clock, moves, id);
  }

  // ----- when recovery upsets nobody -----

  /** Whenever recovery reads its rows, no runner is at work on this job, and no spawn of it is
      under way. */
  ghost predicate QuietReadings(s: Sys, moves: seq<Move>, id: string) {
    moves == [] ||
    (var before, move := Run(s, moves[..|moves| - 1]), moves[|moves| - 1];
     && QuietReadings(s, moves[..|moves| - 1], id)
     && (move.ReadRows? && id in before.slots ==> !AtWork(before.slots[id]) && id !in before.spawning))
  }

  /** The row recovery has read is still the job's, if recovery has anything to do about it; and
      so is the row a spawn has inserted. */
  ghost predicate TurnsAreDue(s: Sys, id: string) {
    && (id in s.todo && Interrupted(s.todo[id]) ==>
          id in s.slots && s.slots[id].w.row == s.todo[id] && !AtWork(s.slots[id]) && id !in s.spawning)
    && (id in s.spawning ==> id in s.slots && AsInserted(s.slots[id]))
  }

  lemma QuietMoveIsCalm(s: Sys, move: Move, id: string)
    requires CanMove(s, move) && (id in s.slots ==> SlotInv(s.slots[id])) && TurnsAreDue(s, id)
    requires move.ReadRows? && id in s.slots ==> !AtWork(s.slots[id]) && id !in s.spawning
    ensures !Upsetting(s, move, id) && TurnsAreDue(Next(s, move), id)
  {
    hide SlotInv, SlotStep, AtWork, Enabled, BeginTurn, Inserted, StaleTurn, Interrupted, AsInserted, RecoverPlan;
    if id in s.todo && !Interrupted(s.todo[id]) {
      NothingToRecover(s.todo[id]);
    }
    if id in s.spawning {
      InsertedIsInterrupted(s.slots[id]);
    }
    match move
    case At(other, action) =>
      if other == id && !IsRecovery(action) && Interrupted(s.slots[id].w.row) && !AtWork(s.slots[id]) {
        RowReadStaysCurrent(s.slots[id], action, s.clock);
        SameRowAsInserted(s.slots[id], SlotStep(s.slots[id], action));
      } else if other == id {
        DueTurnUpsetsNobody(s, move);
      }
    case Stale(other, _, _, _, _) =>
      if other == id {
        DueTurnIsNotStale(s, move);
        IdleTurn(s, move);
        SameRowAsInserted(s.slots[id], StaleTurn(s, move));
      }
    case Insert(_) => InsertedIsSound(s.clock);
    case Crash => if id in s.slots { CrashKeepsRow(s.slots[id]); }
    case _ =>
  }

  lemma InsertedIsInterrupted(slot: Slot)
    requires SlotInv(slot) && AsInserted(slot)
    ensures Interrupted(slot.w.row) && !AtWork(slot)
  {
    AsInsertedIsIdle(slot);
  }

  lemma SameRowAsInserted(slot: Slot, slot': Slot)
    requires slot'.w.row == slot.w.row
    ensures AsInserted(slot) <==> AsInserted(slot')
  {}

  lemma CrashKeepsRow(slot: Slot)
    ensures CrashSlot(slot).w == slot.w && !AtWork(CrashSlot(slot))
  {}

  lemma DueTurnUpsetsNobody(s: Sys, move: Move)
    requires move.At? && CanMove(s, move) && TurnsAreDue(s, move.id)
    ensures !Upsets(s.slots[move.id], move.action)
  {
    hide SlotInv, Enabled;
    if IsRecovery(move.action) && !Interrupted(s.todo[move.id]) {
      NothingToRecover(s.todo[move.id]);
    }
  }

  lemma NothingToRecover(row: Row)
    requires !Interrupted(row)
    ensures forall setup: Setup :: RecoverPlan(row, setup) == GiveUp
  {}

  /** Recovery upsets no job which at none of its readings has a runner at work or a spawn under
      way, something a look at both beforehand would tell; its rows are then current at their
      turns, and so is that of a spawn. */
  lemma {:induction false} QuietReadingsAreCalm(clock: int, moves: seq<Move>, id: string)
    requires CanRun(Boot(clock), moves) && QuietReadings(Boot(clock), moves, id)
    ensures Calm(Boot(clock), moves, id) && TurnsAreDue(Run(Boot(clock), moves), id)
  {
    hide SlotInv, Next, CanMove, Upsetting, TurnsAreDue;
    if moves != [] {
      var init, move := moves[..|moves| - 1], moves[|moves| - 1];
      QuietReadingsAreCalm(clock, init, id);
      if id in Run(Boot(clock), init).slots {
        BootIsSound(clock, init, id);
      }
      QuietMoveIsCalm(Run(Boot(clock), init), move, id);
    } else {
      assert TurnsAreDue(Boot(clock), id) by { NothingDueAtBoot(clock, id); }
    }
  }

  /** What a turn of recovery is to leave of a job. */
  ghost predicate Sound(s: Sys, id: string) {
    id in s.slots && SlotInv(s.slots[id]) && Reachable(s.slots[id]) && (id in s.spawning ==> AsInserted(s.slots[id]))
  }

  /** A recovery by the job's current row leaves it so and launches it alone exactly when it has
      nothing to do to a runner at work and no spawn of the job is under way. */
  lemma RecoveryTurnIsSafeExactlyWhen(s: Sys, id: string, setup: Setup, ch: Chan, env: Env)
    requires Sound(s, id) && CanMove(s, At(id, Recover(setup, ch, env)))
    ensures var move := At(id, Recover(setup, ch, env));
            && id in Next(s, move).slots
            && (Sound(Next(s, move), id) && LaunchesAlone(s, move, id) <==>
                  !(AtWork(s.slots[id]) && RecoverPlan(s.slots[id].w.row, setup) != GiveUp) && id !in s.spawning)
  {
    var slot, action := s.slots[id], Recover(setup, ch, env);
    RecoveryIsSafeExactlyWhen(slot, setup, ch, env, s.clock);
    if id in s.spawning {
      InsertedIsInterrupted(slot);
      RecoveryTouchesSpawn(slot, setup, ch, env);
    }
    MoveOnJob(s, At(id, action), id);
    NothingLaunchedIsAlone(slot, action, SlotStep(slot, action).w);
    hide SlotInv, SlotStep, Reachable, LaunchRule, RecoverPlan, AtWork, AsInserted, Enabled;
  }

  lemma NothingDueAtBoot(clock: int, id: string)
    ensures TurnsAreDue(Boot(clock), id)
  {}

  // ----- one job along a run -----

  lemma MoveOnJob(s: Sys, move: Move, id: string)
    requires CanMove(s, move) && id in s.slots
    ensures id in Next(s, move).slots
    ensures Next(s, move).slots[id] ==
            if move.At? && move.id == id then SlotStep(s.slots[id], move.action)
            else if move.Stale? && move.id == id then StaleTurn(s, move)
            else if move.Begin? && move.id == id then BeginTurn(s.slots[id], move.policy, move.ch, move.env, move.cut)
            else if move.Crash? then CrashSlot(s.slots[id])
            else s.slots[id]
    ensures Next(s, move).clock == if move.Tick? then move.to else s.clock
  {
    hide SlotStep, Enabled, BeginTurn, Inserted, StaleTurn;
  }

  /** A spawn that goes on when nothing has happened to its row leaves its job in service. */
  lemma CalmBegin(s: Sys, move: Move)
    requires move.Begin? && CanMove(s, move) && SlotInv(s.slots[move.id]) && !Upsetting(s, move, move.id)
    ensures AsInserted(s.slots[move.id]) && s.slots[move.id].w.row.state == Pending
    ensures move.cut.None? ==> Served(BeginTurn(s.slots[move.id], move.policy, move.ch, move.env, move.cut))
  {
    hide SlotInv, BeginTurn, Served;
    if move.cut.None? {
      BeginServes(s.slots[move.id], move.policy, move.ch, move.env);
    }
  }

  /** A turn of recovery by a row that is no longer the job's, when it does not act. */
  lemma IdleTurn(s: Sys, move: Move)
    requires move.Stale? && CanMove(s, move) && SlotInv(s.slots[move.id]) && !Upsetting(s, move, move.id)
    ensures var slot, slot' := s.slots[move.id], StaleTurn(s, move);
            && slot'.w == slot.w.(policy := slot'.w.policy)
            && (move.cut.None? && Pursued(slot) ==> Pursued(slot'))
            && (move.cut.None? && Reachable(slot) ==> (Reachable(slot') <==> !StaleTakesOver(s, move)))
  {
    hide SlotInv, RecoverPlan, ActOn, Acts;
    IdlePlanKeepsSlot(s.slots[move.id], s.todo[move.id], move.setup, move.ch, move.env, move.cut);
  }

  /** It takes a runner at work out of the map when the command of the new one is refused. */
  predicate StaleTakesOver(s: Sys, move: Move)
    requires move.Stale? && move.id in s.slots && move.id in s.todo
  {
    AtWork(s.slots[move.id]) && RecoverPlan(s.todo[move.id], move.setup).Launch?
  }

  /** A settled row is never written again and its job never launched again, whatever happens,
      unless a recovery acts on a row it has read before the job settled, or a spawn goes on after
      that. */
  lemma {:induction false} SettledForever(s: Sys, moves: seq<Move>, id: string)
    requires CanRun(s, moves) && Calm(s, moves, id)
    requires id in s.slots && SlotInv(s.slots[id]) && s.slots[id].w.row.state.IsTerminal()
    ensures var s' := Run(s, moves);
            && id in s'.slots && SlotInv(s'.slots[id])
            && s'.slots[id].w.row == s.slots[id].w.row
            && s'.slots[id].w.launches == s.slots[id].w.launches
  {
    hide SlotStep, Next, SlotInv, Enabled, Upsetting, StaleTurn;
    if moves != [] {
      var before, move := Run(s, moves[..|moves| - 1]), moves[|moves| - 1];
      SettledForever(s, moves[..|moves| - 1], id);
      MoveOnJob(before, move, id);
      MoveKeepsInvariant(before, move, id);
      if move.At? && move.id == id {
        SettledStaysSettled(before.slots[id], move.action, before.clock);
      } else if move.Stale? && move.id == id {
        IdleTurn(before, move);
      } else if move.Begin? && move.id == id {
        CalmBegin(before, move);
      }
    }
  }

  /** A turn of recovery by an old row of this job, or the rest of its spawn, that can launch it. */
  predicate WakesBy(s: Sys, move: Move, id: string) {
    && id in s.slots
    && ((move.Stale? && move.id == id && id in s.todo && Wakes(s.slots[id].w, RecoverPlan(s.todo[id], move.setup)))
        || (move.Begin? && move.id == id && Wakes(s.slots[id].w, SpawnPlan(s.slots[id].w.row.createdAt))))
  }

  /** There is none before the time. */
  predicate NobodyWakes(s: Sys, moves: seq<Move>, id: string, t: int) {
    moves == [] ||
    (var before := Run(s, moves[..|moves| - 1]);
     && NobodyWakes(s, moves[..|moves| - 1], id, t)
     && (before.clock < t ==> !WakesBy(before, moves[|moves| - 1], id)))
  }

  lemma RestsOverMove(s: Sys, move: Move, id: string, t: int)
    requires CanMove(s, move) && id in s.slots && Resting(s.slots[id], t) && s.clock < t && !WakesBy(s, move, id)
    ensures id in Next(s, move).slots
    ensures var slot' := Next(s, move).slots[id]; Resting(slot', t) && slot'.w.launches == s.slots[id].w.launches
  {
    hide SlotStep, BeginTurn, StaleTurn, Next, Resting, Enabled, Wakes, RecoverPlan;
    MoveOnJob(s, move, id);
    match move
    case At(other, action) =>
      if other == id {
        RestsUntilItsTime(s.slots[id], action, s.clock, t);
      }
    case Stale(other, setup, ch, env, cut) =>
      if other == id {
        RecoverPlanIsShaped(s.todo[id], setup);
        RestsOverTurn(s.slots[id], RecoverPlan(s.todo[id], setup), setup.policy, ch, env, cut, t);
        assert StaleTurn(s, move) == ActOn(s.slots[id], RecoverPlan(s.todo[id], setup), setup.policy, ch, env, cut) by {
          TurnIsActOn(s, move);
        }
      }
    case Begin(other, policy, ch, env, cut) =>
      if other == id {
        RestsOverBegin(s.slots[id], policy, ch, env, cut, t);
      }
    case Crash => CrashRests(s.slots[id], t);
    case _ =>
  }

  lemma TurnIsActOn(s: Sys, move: Move)
    requires move.Stale? && move.id in s.slots && move.id in s.todo
    ensures StaleTurn(s, move) ==
            ActOn(s.slots[move.id], RecoverPlan(s.todo[move.id], move.setup), move.setup.policy, move.ch, move.env, move.cut)
  {
    hide ActOn, RecoverPlan;
  }

  lemma RestsOverBegin(slot: Slot, policy: Policy, ch: Chan, env: Env, cut: Option<nat>, t: int)
    requires Resting(slot, t) && !Wakes(slot.w, SpawnPlan(slot.w.row.createdAt)) && Reliable(env)
    ensures var slot' := BeginTurn(slot, policy, ch, env, cut);
            Resting(slot', t) && slot'.w.launches == slot.w.launches
  {
    RestsOverTurn(slot, SpawnPlan(slot.w.row.createdAt), policy, ch, env, cut, t);
  }

  lemma CrashRests(slot: Slot, t: int)
    requires Resting(slot, t)
    ensures Resting(CrashSlot(slot), t)
  {}

  /** Never early: a job put to sleep until `t` is launched by nothing while the clock is before
      `t`, crashes and recovery included, unless by a recovery that wakes it by a row it has read
      before the job fell asleep, or by a spawn that goes on after that. Each of these does, with
      a runtime that answers so: OldRowSparesSleeperExactlyWhen. */
  lemma {:induction false} NeverLaunchedEarly(s: Sys, moves: seq<Move>, id: string, t: int)
    requires CanRun(s, moves) && NobodyWakes(s, moves, id, t)
    requires id in s.slots && SlotInv(s.slots[id]) && Waiting(s.slots[id].w, t)
    ensures var s' := Run(s, moves);
            && id in s'.slots && s.clock <= s'.clock
            && (s'.clock >= t || (Resting(s'.slots[id], t) && LeftAlone(s.slots[id].w, s'.slots[id].w, t)))
  {
    hide Next, CanMove, SlotInv, Resting, WakesBy;
    if moves != [] {
      var before, move := Run(s, moves[..|moves| - 1]), moves[|moves| - 1];
      NeverLaunchedEarly(s, moves[..|moves| - 1], id, t);
      MoveOnClock(before, move, id);
      if before.clock < t {
        RestsOverMove(before, move, id, t);
        RestingIsLeftAlone(Run(s, moves).slots[id], t);
      }
    } else {
      WaitingRests(s.slots[id], t);
    }
  }

  lemma MoveOnClock(s: Sys, move: Move, id: string)
    requires CanMove(s, move) && id in s.slots
    ensures id in Next(s, move).slots && s.clock <= Next(s, move).clock
  {
    hide Next, SlotStep, Enabled;
    MoveOnJob(s, move, id);
  }

  lemma RestingIsLeftAlone(slot: Slot, t: int)
    requires Resting(slot, t)
    ensures Waiting(slot.w, t) || slot.w.row.state.IsTerminal()
  {}

  /** A run that does wake a job early: its row is read while it runs, it suspends, and recovery
      restores it by the row it has read. */
  lemma WokenEarly(s: Sys, id: string, suspend: int, token: string, ch: Chan, env: Env, setup: Setup, own: Chan, again: Env)
    requires !s.recovered && id in s.slots && SlotInv(s.slots[id]) && s.slots[id].InMap()
    requires !s.slots[id].mem.value.stopped && s.slots[id].mem.value.r.job.state == Running
    requires CheckpointAdmitted(s.slots[id].mem.value.r, token) && suspend > 0 && env.capture.Captured?
    requires Reliable(env) && env.now == s.clock && Reliable(again) && again.now == s.clock && again.launch.Launched?
    requires s.slots[id].w.row.checkpointCount > 0
    requires setup.definition && setup.runtime && setup.file && setup.reconstruct
    ensures var suspends := Command(Message(Checkpoint(suspend, token), Some(ch)), env, true);
            var moves := [ReadRows, At(id, suspends), Stale(id, setup, own, again, None)];
            && CanRun(s, moves) && id in Run(s, moves[..2]).slots && id in Run(s, moves).slots
            && Waiting(Run(s, moves[..2]).slots[id].w, s.clock + suspend)
            && Run(s, moves).clock == s.clock
            && Run(s, moves).slots[id].w.launches != Run(s, moves[..2]).slots[id].w.launches
  {
    hide Run, CanRun, SlotInv, SlotStep, Enabled, ActOn, RecoverPlan, Waiting, CheckpointAdmitted, Next, CanMove, Reliable;
    var suspends := Command(Message(Checkpoint(suspend, token), Some(ch)), env, true);
    var slot := s.slots[id];
    SuspendedSinceRead(slot, suspend, token, ch, env, setup, s.clock);
    RecoverPlanIsShaped(slot.w.row, setup);
    TurnLaunches(SlotStep(slot, suspends), RecoverPlan(slot.w.row, setup), setup.policy, own, again, None);
    ReadThenActed(s, id, suspends, setup, own, again);
  }

  /** A row is read, the job changes it, and recovery comes to its turn. */
  lemma ReadThenActed(s: Sys, id: string, action: Action, setup: Setup, ch: Chan, env: Env)
    requires !s.recovered && id in s.slots && !s.slots[id].w.row.state.IsTerminal() && !IsRecovery(action)
    requires Enabled(s.slots[id], action, s.clock) && OnTime(action, s.clock) && ReliableAction(action)
    requires Reliable(env) && env.now == s.clock
    requires var after := SlotStep(s.slots[id], action); after.w.row != s.slots[id].w.row && !after.hung
    ensures var moves := [ReadRows, At(id, action), Stale(id, setup, ch, env, None)];
            && CanRun(s, moves) && Run(s, moves).clock == s.clock
            && id in Run(s, moves[..2]).slots && id in Run(s, moves).slots
            && Run(s, moves[..2]).slots[id] == SlotStep(s.slots[id], action)
            && Run(s, moves).slots[id] ==
               ActOn(SlotStep(s.slots[id], action), RecoverPlan(s.slots[id].w.row, setup), setup.policy, ch, env, None)
  {
    hide SlotStep, Enabled, ActOn, RecoverPlan, Run, CanRun, ReliableAction, Reliable, OnTime;
    ThreeMoves(s, ReadRows, At(id, action), Stale(id, setup, ch, env, None));
    var s1 := Next(s, ReadRows);
    assert s1.slots == s.slots && id in s1.todo && s1.todo[id] == s.slots[id].w.row;
    var s2 := Next(s1, At(id, action));
    assert s2.slots[id] == SlotStep(s.slots[id], action) && s2.todo == s1.todo;
  }

  lemma ThreeMoves(s: Sys, a: Move, b: Move, c: Move)
    ensures Run(s, [a, b, c][..2]) == Next(Next(s, a), b)
    ensures Run(s, [a, b, c]) == Next(Next(Next(s, a), b), c)
    ensures CanRun(s, [a, b, c]) <==> CanMove(s, a) && CanMove(Next(s, a), b) && CanMove(Next(Next(s, a), b), c)
  {
    hide Next, CanMove;
    assert [a, b, c][..2] == [a, b] && [a, b][..1] == [a] && [a][..0] == [];
    assert Run(s, [a]) == Next(s, a);
    assert CanRun(s, [a]) <==> CanMove(s, a);
  }

  /** In particular nothing wakes it early in a run that upsets nobody. */
  lemma {:induction false} CalmRunsDoNotWake(s: Sys, moves: seq<Move>, id: string, t: int)
    requires CanRun(s, moves) && Calm(s, moves, id)
    requires id in s.slots && SlotInv(s.slots[id]) && Waiting(s.slots[id].w, t)
    ensures NobodyWakes(s, moves, id, t)
  {
    hide Next, CanMove, SlotInv, Resting, WakesBy, Upsetting;
    if moves != [] {
      var before, move := Run(s, moves[..|moves| - 1]), moves[|moves| - 1];
      CalmRunsDoNotWake(s, moves[..|moves| - 1], id, t);
      NeverLaunchedEarly(s, moves[..|moves| - 1], id, t);
      if before.clock < t {
        CalmMoveDoesNotWake(before, move, id, t);
      }
    }
  }

  lemma CalmMoveDoesNotWake(s: Sys, move: Move, id: string, t: int)
    requires id in s.slots && Resting(s.slots[id], t) && !Upsetting(s, move, id)
    ensures !WakesBy(s, move, id)
  {
    hide RecoverPlan;
  }

  /** The hypervisor lives through the move: it does not crash, nor die inside a step of any
      job or inside a spawn. */
  ghost predicate Survives(move: Move) {
    && !move.Crash?
    && (move.At? ==> !move.action.Cut?)
    && (move.Begin? || move.Stale? ==> move.cut.None?)
  }

  /** Along the run the hypervisor lives and no command of this job loses its pursuit. */
  ghost predicate KeepsPursuit(s: Sys, moves: seq<Move>, id: string) {
    moves == [] ||
    (var before, move := Run(s, moves[..|moves| - 1]), moves[|moves| - 1];
     && KeepsPursuit(s, moves[..|moves| - 1], id) && Survives(move)
     && (move.At? && move.id == id && id in before.slots ==> !LosesPursuit(before.slots[id], move.action)))
  }

  ghost predicate KeepsReach(s: Sys, moves: seq<Move>, id: string) {
    moves == [] ||
    (var before, move := Run(s, moves[..|moves| - 1]), moves[|moves| - 1];
     && KeepsReach(s, moves[..|moves| - 1], id) && Survives(move)
     && (move.At? && move.id == id && id in before.slots ==> !LosesReach(before.slots[id], move.action))
     && (move.Stale? && move.id == id && CanMove(before, move) ==> !StaleTakesOver(before, move)))
  }

  /** No orphans: along such a run a pursued job stays pursued. */
  lemma {:induction false} PursuitContinues(s: Sys, moves: seq<Move>, id: string)
    requires CanRun(s, moves) && Calm(s, moves, id) && KeepsPursuit(s, moves, id)
    requires id in s.slots && SlotInv(s.slots[id]) && Pursued(s.slots[id])
    ensures id in Run(s, moves).slots && Pursued(Run(s, moves).slots[id])
  {
    hide SlotStep, Next, SlotInv, Enabled, Upsetting, StaleTurn, BeginTurn, Pursued, LosesPursuit;
    if moves != [] {
      var before, move := Run(s, moves[..|moves| - 1]), moves[|moves| - 1];
      PursuitContinues(s, moves[..|moves| - 1], id);
      RunKeepsInvariant(s, moves[..|moves| - 1], id);
      MoveOnJob(before, move, id);
      if move.At? && move.id == id {
        PursuitIsLostExactlyWhen(before.slots[id], move.action, before.clock);
      } else if move.Stale? && move.id == id {
        IdleTurn(before, move);
      } else if move.Begin? && move.id == id {
        CalmBegin(before, move);
      }
    }
  }

  /** Along such a run a runner at work stays in the map. */
  lemma {:induction false} ReachContinues(s: Sys, moves: seq<Move>, id: string)
    requires CanRun(s, moves) && Calm(s, moves, id) && KeepsReach(s, moves, id)
    requires id in s.slots && SlotInv(s.slots[id]) && Reachable(s.slots[id])
    ensures id in Run(s, moves).slots && Reachable(Run(s, moves).slots[id])
  {
    hide SlotStep, Next, SlotInv, Enabled, Upsetting, StaleTurn, BeginTurn, Reachable, LosesReach;
    if moves != [] {
      var before, move := Run(s, moves[..|moves| - 1]), moves[|moves| - 1];
      ReachContinues(s, moves[..|moves| - 1], id);
      RunKeepsInvariant(s, moves[..|moves| - 1], id);
      MoveOnJob(before, move, id);
      if move.At? && move.id == id {
        ReachIsLostExactlyWhen(before.slots[id], move.action, before.clock);
      } else if move.Stale? && move.id == id {
        IdleTurn(before, move);
      } else if move.Begin? && move.id == id {
        CalmBegin(before, move);
      }
    }
  }

  lemma ServiceContinues(s: Sys, moves: seq<Move>, id: string)
    requires CanRun(s, moves) && Calm(s, moves, id) && id in s.slots && SlotInv(s.slots[id]) && Served(s.slots[id])
    requires KeepsPursuit(s, moves, id) && KeepsReach(s, moves, id)
    ensures id in Run(s, moves).slots && Served(Run(s, moves).slots[id])
  {
    hide SlotInv, Calm, CanRun, Run, Pursued, Reachable, KeepsPursuit, KeepsReach;
    PursuitContinues(s, moves, id);
    ReachContinues(s, moves, id);
  }

  /** The other side: until its spawn goes on, a recovery turns to the job or somebody asks for it,
      an unpursued one is never written or launched, however long the run. */
  lemma {:induction false} UnpursuedUntilAsked(s: Sys, moves: seq<Move>, id: string)
    requires CanRun(s, moves) && id in s.slots && SlotInv(s.slots[id]) && !Pursued(s.slots[id])
    requires forall move :: move in moves ==>
               && !move.Crash? && (move.At? && move.id == id ==> Unasked(move.action))
               && !((move.Stale? || move.Begin?) && move.id == id)
    ensures var s' := Run(s, moves);
            && id in s'.slots && SlotInv(s'.slots[id]) && !Pursued(s'.slots[id])
            && s'.slots[id].w.row == s.slots[id].w.row && s'.slots[id].w.launches == s.slots[id].w.launches
  {
    hide SlotStep, Next, SlotInv, Enabled, Pursued, Unasked;
    if moves != [] {
      var before, move := Run(s, moves[..|moves| - 1]), moves[|moves| - 1];
      UnpursuedUntilAsked(s, moves[..|moves| - 1], id);
      MoveOnJob(before, move, id);
      assert move in moves;
      assert !Upsetting(before, move, id) by { UnaskedDoesNotUpset(move, id, before); }
      MoveKeepsInvariant(before, move, id);
      if move.At? && move.id == id {
        UnpursuedIsStuck(before.slots[id], move.action, before.clock);
      }
    }
  }

  lemma UnaskedDoesNotUpset(move: Move, id: string, s: Sys)
    requires (move.At? && move.id == id ==> Unasked(move.action)) && !((move.Stale? || move.Begin?) && move.id == id)
    ensures !Upsetting(s, move, id)
  {}

  /** The same of all jobs together. */
  ghost predicate KeepsAll(s: Sys, moves: seq<Move>) {
    moves == [] ||
    (var before, move := Run(s, moves[..|moves| - 1]), moves[|moves| - 1];
     && KeepsAll(s, moves[..|moves| - 1]) && Survives(move)
     && (move.At? && move.id in before.slots ==>
           !LosesPursuit(before.slots[move.id], move.action) && !LosesReach(before.slots[move.id], move.action))
     && (move.Stale? && CanMove(before, move) ==> !StaleTakesOver(before, move)))
  }

  /** From an empty table, as long as the hypervisor lives, nothing upsets the job, and no step
      loses pursuit or reach, every job ever spawned is in service. */
  lemma {:induction false} NoJobIsForgotten(clock: int, moves: seq<Move>, id: string)
    requires CanRun(Boot(clock), moves) && KeepsAll(Boot(clock), moves) && Calm(Boot(clock), moves, id)
    requires id in Run(Boot(clock), moves).slots && id !in Run(Boot(clock), moves).spawning
    ensures Served(Run(Boot(clock), moves).slots[id])
  {
    hide SlotStep, SlotInv, Enabled, BeginTurn, StaleTurn, Pursued, Reachable, Upsetting, LosesPursuit, LosesReach;
    if moves != [] {
      var init, move := moves[..|moves| - 1], moves[|moves| - 1];
      var before := Run(Boot(clock), init);
      if id in before.slots {
        BootIsSound(clock, init, id);
        if id !in before.spawning {
          NoJobIsForgotten(clock, init, id);
        }
        MoveOnJob(before, move, id);
        if move.Begin? && move.id == id {
          CalmBegin(before, move);
        } else if move.At? && move.id == id {
          ServiceIsLostExactlyWhen(before.slots[id], move.action, before.clock);
        } else if move.Stale? && move.id == id {
          IdleTurn(before, move);
        }
      }
    }
  }

  /** Without such readings whatever launches a job, launches it alone. */
  lemma QuietLaunchesAreAlone(clock: int, moves: seq<Move>, id: string, move: Move)
    requires CanRun(Boot(clock), moves) && QuietReadings(Boot(clock), moves, id)
    requires CanMove(Run(Boot(clock), moves), move) && id in Run(Boot(clock), moves).slots
    ensures var s := Run(Boot(clock), moves);
            id in Next(s, move).slots && LaunchesAlone(s, move, id)
  {
    hide Run, CanRun, Calm, QuietReadings, LaunchesAlone, LaunchesOver, SlotStep, SlotInv, Enabled, ReliableAction, StaleTurn,
      BeginTurn, AsInserted, Interrupted, RecoverPlan, AtWork, Upsetting, GoesThrough;
    var s := Run(Boot(clock), moves);
    QuietReadingsAreCalm(clock, moves, id);
    BootIsSound(clock, moves, id);
    EveryLaunchIsAlone(clock, moves, id, move);
    if move.At? && move.id == id {
      DueTurnFindsNobody(s, move);
    } else if move.Stale? && move.id == id {
      DueTurnIsNotStale(s, move);
      IdlePlansGoNowhere(s.slots[id].w, s.todo[id], move.setup, move.env, move.cut);
    } else if move.Begin? && move.id == id {
      InsertedIsInterrupted(s.slots[id]);
    }
  }

  lemma DueTurnFindsNobody(s: Sys, move: Move)
    requires move.At? && CanMove(s, move) && TurnsAreDue(s, move.id)
    ensures !LaunchesOver(s.slots[move.id], move.action)
  {
    hide SlotInv, Enabled;
    if IsRecovery(move.action) && !Interrupted(s.todo[move.id]) {
      NothingToRecover(s.todo[move.id]);
    }
  }

  lemma DueTurnIsNotStale(s: Sys, move: Move)
    requires move.Stale? && CanMove(s, move) && TurnsAreDue(s, move.id)
    ensures !Upsetting(s, move, move.id) && !Acts(RecoverPlan(s.todo[move.id], move.setup))
  {
    NothingToRecover(s.todo[move.id]);
  }

  // ----- the retry budget over runs -----

  /** The policies attached to the job's runners over the run keep to a bound, and no step of it
      overruns that. */
  ghost predicate KeepsBudget(s: Sys, moves: seq<Move>, id: string, cap: int) {
    moves == [] ||
    (var before, move := Run(s, moves[..|moves| - 1]), moves[|moves| - 1];
     && KeepsBudget(s, moves[..|moves| - 1], id, cap)
     && (move.Begin? && move.id == id ==> move.policy.maxRetries <= cap)
     && (move.At? && move.id == id && id in before.slots ==>
           WithinCap(move.action, cap) && !OverrunsBudget(before.slots[id], move.action, cap))
     && (move.Stale? && move.id == id ==> move.setup.policy.maxRetries <= cap))
  }

  /** From an empty table, over every run with crashes anywhere, a row never counts more retries
      than the largest of the policies its runners were given, as long as no step is the last
      delayed retry failing to restore or cut short. */
  lemma {:induction false} RetriesStayInBudget(clock: int, moves: seq<Move>, id: string, cap: int)
    requires CanRun(Boot(clock), moves) && KeepsBudget(Boot(clock), moves, id, cap) && Calm(Boot(clock), moves, id)
    requires IsInt32(cap) && id in Run(Boot(clock), moves).slots
    ensures Budgeted(Run(Boot(clock), moves).slots[id], cap)
  {
    hide SlotStep, SlotInv, Enabled, BeginTurn, Inserted, AsInserted, StaleTurn, Budgeted, OverrunsBudget, WithinCap;
    if moves != [] {
      var init, move := moves[..|moves| - 1], moves[|moves| - 1];
      var before := Run(Boot(clock), init);
      if id in before.slots {
        BootIsSound(clock, init, id);
        RetriesStayInBudget(clock, init, id, cap);
        MoveOnJob(before, move, id);
        if move.At? && move.id == id {
          BudgetIsKeptExactlyWhen(before.slots[id], move.action, before.clock, cap);
        } else if move.Stale? && move.id == id {
          IdleTurnKeepsBudget(before, move, cap);
        } else if move.Begin? && move.id == id {
          BeginIsBudgeted(before.slots[id], move.policy, move.ch, move.env, move.cut, cap);
        } else if move.Crash? {
          CrashKeepsBudget(before.slots[id], cap);
        }
      } else {
        assert move.Insert? && move.id == id;
        InsertedIsBudgeted(before.clock, cap);
      }
    }
  }

  lemma IdleTurnKeepsBudget(s: Sys, move: Move, cap: int)
    requires move.Stale? && CanMove(s, move) && SlotInv(s.slots[move.id]) && !Upsetting(s, move, move.id)
    requires Budgeted(s.slots[move.id], cap) && move.setup.policy.maxRetries <= cap
    ensures Budgeted(StaleTurn(s, move), cap)
  {
    var slot, plan := s.slots[move.id], RecoverPlan(s.todo[move.id], move.setup);
    IdlePlanKeepsSlot(slot, s.todo[move.id], move.setup, move.ch, move.env, move.cut);
    UnderKeeps(slot, plan, move.setup.policy);
    hide SlotInv, RecoverPlan, Acts, Enabled;
  }

  /** And the first such step of a run does end it. */
  lemma FirstOverrunBreaksBudget(clock: int, moves: seq<Move>, id: string, action: Action, cap: int)
    requires CanRun(Boot(clock), moves) && KeepsBudget(Boot(clock), moves, id, cap) && Calm(Boot(clock), moves, id)
    requires IsInt32(cap) && CanMove(Run(Boot(clock), moves), At(id, action)) && WithinCap(action, cap)
    requires OverrunsBudget(Run(Boot(clock), moves).slots[id], action, cap)
    ensures var s := Next(Run(Boot(clock), moves), At(id, action));
            id in s.slots && !Budgeted(s.slots[id], cap)
  {
    hide SlotStep, SlotInv, Enabled, Budgeted, OverrunsBudget, WithinCap, Run, CanRun, KeepsBudget, Calm;
    var before := Run(Boot(clock), moves);
    BootIsSound(clock, moves, id);
    RetriesStayInBudget(clock, moves, id, cap);
    BudgetIsKeptExactlyWhen(before.slots[id], action, before.clock, cap);
  }
}
