/** The loops of recovery and of the poller as runs of the system, and what they leave behind. */
module HypervisorLaws {
  import opened Wrappers
  import opened Jobs
  import opened Rows
  import opened Machine
  import opened RunnerSpec
  import opened RowLaws
  import opened Slots
  import opened SlotLaws
  import opened SlotTheorems
  import opened SystemTheorems
  import opened Effects
  import opened System
  import opened Hypervisor
  import Registry

  /** What a loop over distinct jobs does is a run of the system, one move a job, whatever the
      order; so everything proved of runs holds of it. */
  lemma {:induction false} SteppedIsARun(s: Sys, after: map<string, Slot>, done: set<string>, actions: string -> Action)
    returns (moves: seq<Move>)
    requires Stepped(s.slots, after, done, actions)
    requires forall id :: id in done ==> CanMove(s, At(id, actions(id)))
    ensures CanRun(s, moves)
    ensures var s' := Run(s, moves);
            && s'.slots == after && s'.clock == s.clock
            && forall id :: id in s.todo && id !in done ==> id in s'.todo && s'.todo[id] == s.todo[id]
    decreases |done|
  {
    hide SlotStep, CanMove, Next, Run, CanRun;
    if done == {} {
      moves := [];
      NothingDone(s, after, actions);
      assert Run(s, moves) == s && CanRun(s, moves) by { NoMoves(s); }
    } else {
      var id :| id in done;
      assert CanMove(s, At(id, actions(id)));
      MovesOnJob(s, id, actions(id));
      LastStep(s.slots, after, done, actions, id);
      hide Stepped;
      var init := SteppedIsARun(s, after[id := s.slots[id]], done - {id}, actions);
      SameTurn(s, Run(s, init), id, actions(id));
      OneMoreMove(s, init, At(id, actions(id)));
      moves := init + [At(id, actions(id))];
    }
  }

  lemma NoMoves(s: Sys)
    ensures Run(s, []) == s && CanRun(s, [])
  {}

  lemma NothingDone(s: Sys, after: map<string, Slot>, actions: string -> Action)
    requires Stepped(s.slots, after, {}, actions)
    ensures after == s.slots
  {
    hide SlotStep;
  }

  lemma MovesOnJob(s: Sys, id: string, action: Action)
    requires CanMove(s, At(id, action))
    ensures id in s.slots
  {}

  lemma OneMoreMove(s: Sys, init: seq<Move>, move: Move)
    requires CanRun(s, init) && CanMove(Run(s, init), move)
    ensures CanRun(s, init + [move]) && Run(s, init + [move]) == Next(Run(s, init), move)
  {
    hide CanMove, Next;
    assert (init + [move])[..|init|] == init;
  }

  /** A job's move does not depend on what has happened to others. */
  lemma SameTurn(s: Sys, s': Sys, id: string, action: Action)
    requires CanMove(s, At(id, action)) && s'.clock == s.clock && id in s'.slots && s'.slots[id] == s.slots[id]
    requires id in s.todo ==> id in s'.todo && s'.todo[id] == s.todo[id]
    ensures CanMove(s', At(id, action))
    ensures var next := Next(s', At(id, action));
            && next.slots == s'.slots[id := SlotStep(s.slots[id], action)] && next.clock == s'.clock
            && forall other :: other in s'.todo && other != id ==> other in next.todo && next.todo[other] == s'.todo[other]
  {
    hide SlotStep, Enabled, OnTime, ReliableAction, IsRecovery;
  }

  lemma LastStep(before: map<string, Slot>, after: map<string, Slot>, done: set<string>, actions: string -> Action,
                 id: string)
    requires Stepped(before, after, done, actions) && id in done && id in before
    ensures Stepped(before, after[id := before[id]], done - {id}, actions)
    ensures after == after[id := before[id]][id := SlotStep(before[id], actions(id))]
  {
    hide SlotStep;
  }

  /** Good answers to every lookup's follow-up: writes succeed and the clock is the system's. */
  ghost predicate ReliableAnswers(answers: string -> Answers, clock: int) {
    forall id :: Reliable(answers(id).env) && answers(id).env.now == clock
  }

  lemma RecoveryCanMove(s: Sys, id: string, a: Answers)
    requires id in Unsettled(s.slots) && !s.slots[id].hung && Reliable(a.env) && a.env.now == s.clock
    ensures CanMove(Next(s, ReadRows), At(id, RecoverAction(a)))
  {}

  /** recoverJobs, over all rows it reads, in any order, is a run of the system. */
  lemma RecoveryIsARun(s: Sys, after: map<string, Slot>, answers: string -> Answers) returns (moves: seq<Move>)
    requires !s.recovered && ReliableAnswers(answers, s.clock) && forall id :: id in s.slots ==> !s.slots[id].hung
    requires Stepped(s.slots, after, Unsettled(s.slots), RecoverActions(answers))
    ensures CanMove(s, ReadRows) && CanRun(Next(s, ReadRows), moves) && Run(Next(s, ReadRows), moves).slots == after
  {
    hide SlotStep, Reliable;
    var read := Next(s, ReadRows);
    var actions := RecoverActions(answers);
    forall id | id in Unsettled(s.slots) ensures CanMove(read, At(id, actions(id))) {
      RecoveryCanMove(s, id, answers(id));
    }
    hide CanMove;
    moves := SteppedIsARun(read, after, Unsettled(s.slots), actions);
  }

  lemma RecoveredJobServes(slot: Slot, a: Answers, clock: int)
    requires SlotInv(slot) && !slot.hung && Reliable(a.env)
    ensures var slot' := if slot.w.row.state.IsTerminal() then slot else SlotStep(slot, RecoverAction(a));
            && (SlotInv(slot') <==> !Upsets(slot, RecoverAction(a)))
            && (Reachable(slot') <==> Reachable(slot) && !TakesOver(slot, RecoverAction(a)))
            && (Pursued(slot') <==>
                  Pursued(slot) || (Interrupted(slot.w.row) && !RecoveryStrands(slot.w.row, a.setup)))
  {
    hide Pursued, Reachable, SlotInv, Reliable, RecoverPlan;
    if slot.w.row.state.IsTerminal() {
      SettledHasNoRunner(slot);
    } else {
      RecoveryServesExactlyTheRest(slot, a.setup, a.ch, a.env, clock);
      ActionKeepsSlot(slot, RecoverAction(a), clock);
    }
  }

  lemma SettledHasNoRunner(slot: Slot)
    requires SlotInv(slot) && slot.w.row.state.IsTerminal()
    ensures !AtWork(slot)
  {
    if AtWork(slot) {
      LiveRowOf(slot);
    }
  }

  /** A recovery of all jobs, whatever the servers and the poller have begun before it: the
      invariant holds of a job again unless its runner was upset; a runner at work is in the map
      unless it was there before and was launched over; and a job is pursued if it was, or if it
      was interrupted and is not stranded. */
  lemma RecoveryServesAllBut(s: Sys, after: map<string, Slot>, answers: string -> Answers, id: string)
    requires ReliableAnswers(answers, s.clock)
    requires Stepped(s.slots, after, Unsettled(s.slots), RecoverActions(answers))
    requires id in s.slots && SlotInv(s.slots[id]) && !s.slots[id].hung
    ensures var slot, action := s.slots[id], RecoverAction(answers(id));
            && id in after
            && (SlotInv(after[id]) <==> !Upsets(slot, action))
            && (Reachable(after[id]) <==> Reachable(slot) && !TakesOver(slot, action))
            && (Pursued(after[id]) <==>
                  Pursued(slot) || (Interrupted(slot.w.row) && !RecoveryStrands(slot.w.row, answers(id).setup)))
  {
    assert Reliable(answers(id).env);
    hide Pursued, Reachable, SlotInv, Reliable, SlotStep, RecoveryStrands, Upsets, TakesOver;
    RecoveredJobServes(s.slots[id], answers(id), s.clock);
  }

  /** A look into the map at its turn, such as the poller takes, together with one at the spawns
      under way, would make a recovery by the job's current row safe. */
  lemma LookingFirstIsSafe(s: Sys, id: string, setup: Setup, ch: Chan, env: Env)
    requires Sound(s, id) && CanMove(s, At(id, Recover(setup, ch, env)))
    requires !s.slots[id].InMap() && id !in s.spawning
    ensures var move := At(id, Recover(setup, ch, env));
            Sound(Next(s, move), id) && LaunchesAlone(s, move, id)
  {
    NotInMapIsIdle(s.slots[id]);
    hide Sound, CanMove, RecoverPlan, LaunchesAlone;
    RecoveryTurnIsSafeExactlyWhen(s, id, setup, ch, env);
  }

  lemma NotInMapIsIdle(slot: Slot)
    requires Reachable(slot) && !slot.InMap()
    ensures !AtWork(slot)
  {}

  /** One tick of the poller, over a batch of due jobs without a runner, is a run of the
      system, and leaves each of them in service. */
  lemma PollTickServes(s: Sys, after: map<string, Slot>, batch: set<string>, answers: string -> Answers)
    returns (moves: seq<Move>)
    requires SysInv(s) && ReliableAnswers(answers, s.clock)
    requires forall id :: id in batch ==>
               id in s.slots && !s.slots[id].hung && s.slots[id].w.row.Due(s.clock) && !s.slots[id].InMap()
    requires Stepped(s.slots, after, batch, PollActions(answers))
    ensures CanRun(s, moves) && Run(s, moves).slots == after
    ensures forall id :: id in batch ==> Served(after[id])
  {
    hide SlotStep, CanMove, Reliable, SysInv, Served;
    var actions := PollActions(answers);
    forall id | id in batch ensures CanMove(s, At(id, actions(id))) && Served(after[id]) {
      PolledJobServes(s, id, answers(id));
    }
    moves := SteppedIsARun(s, after, batch, actions);
  }

  /** And the tick makes progress: every job of the batch is woken or retried exactly when its
      lookups and the runtime let it be. */
  lemma PollTickLaunches(s: Sys, after: map<string, Slot>, batch: set<string>, answers: string -> Answers, id: string)
    requires SysInv(s) && ReliableAnswers(answers, s.clock) && Stepped(s.slots, after, batch, PollActions(answers))
    requires id in batch && id in s.slots && !s.slots[id].hung && s.slots[id].w.row.Due(s.clock) && !s.slots[id].InMap()
    ensures var slot, a := s.slots[id], answers(id);
            && slot.w.recorded <= |slot.w.images| && id in after
            && if slot.w.row.state == Suspended then PolledSleeper(slot, after[id], a.setup, a.env)
               else slot.w.row.state == PendingRetry && PolledRetry(slot, after[id], a.setup, a.env)
  {
    var slot, a := s.slots[id], answers(id);
    assert Reliable(a.env);
    hide SlotInv, SlotStep, Reliable, ReliableAnswers, PolledSleeper, PolledRetry;
    if slot.w.row.state == Suspended {
      PollWakesExactlyWhen(slot, a.setup, a.ch, a.env, s.clock);
    } else {
      PollRetriesExactlyWhen(slot, a.setup, a.ch, a.env, s.clock);
    }
  }

  lemma PolledJobServes(s: Sys, id: string, a: Answers)
    requires SysInv(s) && Reliable(a.env) && a.env.now == s.clock
    requires id in s.slots && !s.slots[id].hung && s.slots[id].w.row.Due(s.clock) && !s.slots[id].InMap()
    ensures CanMove(s, At(id, PollAction(a))) && Served(SlotStep(s.slots[id], PollAction(a)))
  {
    hide Served, SlotStep, SlotInv;
    PollServes(s.slots[id], a.setup, a.ch, a.env, s.clock);
  }

  // ----- RecoverState -----

  /** setupRetryCallback: the policy of a definition, with its delay parsed. */
  function PolicyOf(jd: Registry.JobDefinition, parseDuration: string -> int): Policy {
    match jd.retryPolicy
    case None => Policy(0, 0)
    case Some(p) => Policy(p.maxRetries, if p.retryDelay == "" then 0 else parseDuration(p.retryDelay))
  }

  /** What the policy of a definition means for its jobs: a failed process is retried if and only if
      the definition has a policy that allows one more, after the delay it names, or at once when it
      names none that can be waited for. */
  lemma DefinitionDecidesRetry(jd: Registry.JobDefinition, parseDuration: string -> int, slot: Slot, pid: Pid, code: int,
                               exitError: Option<string>, env: Env)
    requires Live(slot) && Reliable(env) && slot.mem.value.r.job.state == Running && slot.mem.value.r.exitWatchers.Has(pid)
    requires slot.w.policy == PolicyOf(jd, parseDuration) && ExitError(code, exitError).Some?
    requires slot.mem.value.r.job.retryCount >= 0
    ensures var slot' := After(slot, ProcessExited(pid, code, exitError), None, env);
            match jd.retryPolicy
            case None => slot'.w.row.state == Failed && !AtWork(slot')
            case Some(p) =>
              var delay := if p.retryDelay == [] then 0 else parseDuration(p.retryDelay);
              if slot.mem.value.r.job.retryCount >= p.maxRetries then slot'.w.row.state == Failed && !AtWork(slot')
              else if delay > 0 then Waiting(slot'.w, env.later + delay) && slot'.w.row.state == PendingRetry
              else slot'.w.row == slot.w.row && AtWork(slot')
  {
    hide Live, After, Waiting, Reliable;
    ProcessExitSettlesOrRetries(slot, pid, code, exitError, env);
  }

  ghost function PolicyFound(table: Registry.Table, key: Registry.Key, parseDuration: string -> int): Option<Policy> {
    match Registry.Lookup(table, key.name, key.version)
    case Ok(jd) => Some(PolicyOf(jd, parseDuration))
    case Err(_) => None
  }

  /** The retry policies of the jobs whose definition the registry finds, by the name and version
      on their rows. */
  method FindDefinitions(jobs: set<string>, registry: Registry.JobDefinitionRegistry,
                         definitionOf: string -> Registry.Key, parseDuration: string -> int)
    returns (found: map<string, Policy>)
    requires registry.Valid()
    ensures forall id :: id in jobs ==>
              (if id in found then Some(found[id]) else None) == PolicyFound(registry.table, definitionOf(id), parseDuration)
  {
    found := map[];
    var todo := jobs;
    while todo != {}
      invariant todo <= jobs && found.Keys <= jobs - todo
      invariant forall id :: id in jobs - todo ==>
                  (if id in found then Some(found[id]) else None) == PolicyFound(registry.table, definitionOf(id), parseDuration)
    {
      hide Registry.Lookup, PolicyOf;
      var id :| id in todo;
      var r := registry.Get(definitionOf(id).name, definitionOf(id).version);
      if r.Ok? {
        found := found[id := PolicyOf(r.value, parseDuration)];
      }
      todo := todo - {id};
    }
  }

  /** What the lookups answer for a job once its definition is looked up. */
  function WithDefinition(setup: Setup, found: Option<Policy>): Setup {
    setup.(definition := found.Some?, policy := found.GetOr(setup.policy))
  }

  function Completed(answers: string -> Answers, found: map<string, Policy>): string -> Answers {
    id => answers(id).(setup := WithDefinition(answers(id).setup, if id in found then Some(found[id]) else None))
  }

  lemma CompletedIsReliable(answers: string -> Answers, found: map<string, Policy>, clock: int)
    requires ReliableAnswers(answers, clock)
    ensures ReliableAnswers(Completed(answers, found), clock)
  {
    forall id ensures Reliable(Completed(answers, found)(id).env) && Completed(answers, found)(id).env.now == clock {
      assert Reliable(answers(id).env);
    }
  }

  /** RecoverState: first the definitions, then the jobs, some of which may have runners by then.
      The registry, the invariant, the reach and the pursuit of every job are as
      RecoveryServesAllBut says, with the definitions the registry finds. */
  method RecoverState(h: Hypervisor, registry: Registry.JobDefinitionRegistry, dbDefs: seq<Registry.StoredDefinition>,
                      definitionOf: string -> Registry.Key, parseDuration: string -> int, answers: string -> Answers,
                      ghost s: Sys)
    requires h.Valid() && registry.Valid()
    requires SysInv(s) && h.Slots() == s.slots && ReliableAnswers(answers, s.clock)
    requires forall id :: id in s.slots ==> !s.slots[id].hung
    modifies h, registry
    ensures h.Valid() && registry.Valid()
    ensures registry.table == Registry.ApplyOn(old(registry.table), Registry.RecoveryOps(dbDefs))
    ensures h.Slots().Keys == s.slots.Keys
    ensures forall id :: id in s.slots ==>
              Recovered(s.slots[id], h.Slots()[id],
                        WithDefinition(answers(id).setup, PolicyFound(registry.table, definitionOf(id), parseDuration)),
                        answers(id))
  {
    hide Recovered, SysInv, SlotStep, PolicyFound;
    Registry.RecoverJobDefinitions(registry, dbDefs);
    var found := FindDefinitions(h.worlds.Keys, registry, definitionOf, parseDuration);
    CompletedIsReliable(answers, found, s.clock);
    assert h.worlds.Keys == h.Slots().Keys == s.slots.Keys;
    hide ReliableAnswers, Stepped, Unsettled;
    h.RecoverJobs(Completed(answers, found));
    RecoveryServesAll(s, h.Slots(), Completed(answers, found));
    forall id | id in s.slots
      ensures Recovered(s.slots[id], h.Slots()[id],
                        WithDefinition(answers(id).setup, PolicyFound(registry.table, definitionOf(id), parseDuration)),
                        answers(id))
    {
      OnlySetupMatters(s.slots[id], h.Slots()[id], Completed(answers, found)(id), answers(id));
    }
  }

  /** What a recovery with these lookups leaves of a job. */
  ghost predicate Recovered(before: Slot, after: Slot, setup: Setup, a: Answers) {
    var action := Recover(setup, a.ch, a.env);
    && (SlotInv(after) <==> !Upsets(before, action))
    && (Reachable(after) <==> Reachable(before) && !TakesOver(before, action))
    && (Pursued(after) <==>
          Pursued(before) || (Interrupted(before.w.row) && !RecoveryStrands(before.w.row, setup)))
  }

  lemma OnlySetupMatters(before: Slot, after: Slot, a: Answers, b: Answers)
    requires Recovered(before, after, a.setup, a)
    ensures Recovered(before, after, a.setup, b)
  {
    hide SlotInv, Reachable, Pursued, AtWork, RecoverPlan;
  }

  lemma RecoveryServesAll(s: Sys, after: map<string, Slot>, answers: string -> Answers)
    requires SysInv(s) && ReliableAnswers(answers, s.clock) && forall id :: id in s.slots ==> !s.slots[id].hung
    requires Stepped(s.slots, after, Unsettled(s.slots), RecoverActions(answers))
    ensures after.Keys == s.slots.Keys
    ensures forall id :: id in s.slots ==> Recovered(s.slots[id], after[id], answers(id).setup, answers(id))
  {
    hide SlotInv, SlotStep, ReliableAnswers, Stepped, Upsets, TakesOver, Pursued, Reachable, RecoveryStrands;
    assert after.Keys == s.slots.Keys by { SteppedKeys(s.slots, after, Unsettled(s.slots), RecoverActions(answers)); }
    forall id | id in s.slots ensures Recovered(s.slots[id], after[id], answers(id).setup, answers(id)) {
      RecoveryServesAllBut(s, after, answers, id);
    }
  }

  lemma SteppedKeys(before: map<string, Slot>, after: map<string, Slot>, done: set<string>, actions: string -> Action)
    requires Stepped(before, after, done, actions)
    ensures after.Keys == before.Keys
  {
    hide SlotStep;
  }

  /** Right after a crash there is no runner to upset: every job is sound and reachable again,
      and pursued except exactly the stranded ones. */
  lemma RecoveryAfterCrash(s: Sys, after: map<string, Slot>, answers: string -> Answers, id: string)
    requires SysInv(s) && ReliableAnswers(answers, s.clock) && id in s.slots
    requires var crashed := Next(s, Crash);
             Stepped(crashed.slots, after, Unsettled(crashed.slots), RecoverActions(answers))
    ensures id in after && SlotInv(after[id]) && Reachable(after[id])
    ensures Pursued(after[id]) <==> !RecoveryStrands(s.slots[id].w.row, answers(id).setup)
  {
    hide SlotStep, RecoveryStrands, SlotInv, ReliableAnswers, Stepped, Unsettled;
    EvictKeepsSlot(s.slots[id]);
    CrashedSlot(s.slots[id], RecoverAction(answers(id)));
    StrandedIsInterrupted(s.slots[id].w, answers(id).setup);
    hide Pursued, Reachable, Upsets, TakesOver, CrashSlot;
    RecoveryServesAllBut(Next(s, Crash), after, answers, id);
  }

  lemma CrashedSlot(slot: Slot, action: Action)
    requires SlotInv(slot)
    ensures var crashed := CrashSlot(slot);
            && crashed.w == slot.w && !crashed.hung && Reachable(crashed)
            && !Upsets(crashed, action) && !TakesOver(crashed, action)
            && (Pursued(crashed) <==> !Interrupted(slot.w.row))
  {}

  lemma StrandedIsInterrupted(w: World, setup: Setup)
    ensures RecoveryStrands(w.row, setup) ==> Interrupted(w.row)
  {}
}
