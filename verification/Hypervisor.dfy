/** hypervisor/hypervisor.go: the hypervisor object with its `runners` map. Each method is
    proved to take every job it touches through the step Slots.SlotStep describes, and to
    leave every other job alone; the loops of recovery and of the poller included. */
module Hypervisor {
  import opened Wrappers
  import opened Jobs
  import opened Rows
  import opened Machine
  import opened RunnerSpec
  import opened RunnerLaws
  import opened Slots
  import opened Polling

  /** What the lookups, the clock, the runtime and the database answer for one job. */
  datatype Answers = Answers(setup: Setup, ch: Chan, env: Env)

  datatype HypervisorError =
    | JobNotFound
    | DefinitionMissing
    | RuntimeMissing
    | NoCheckpointPath
    | CheckpointFileMissing
    | ReconstructFailed
    | FirstCommandFailed
    | JobNotPersisted

  /** The runners of a job that are not in the map: one taken out of it, and those published
      over. */
  datatype Others = Others(detached: Option<Attached>, overwritten: seq<Attached>)

  function OthersOf(others: map<string, Others>, id: string): Others {
    if id in others then others[id] else Others(None, [])
  }

  /** A job's slot, put together from the hypervisor's maps. */
  function SlotOf(worlds: map<string, World>, runners: map<string, Attached>, others: map<string, Others>,
                  id: string): Slot
    requires id in worlds
  {
    var o := OthersOf(others, id);
    Slot(worlds[id],
         if id in runners then Some(runners[id].(published := true))
         else if o.detached.Some? then Some(o.detached.value.(published := false))
         else None,
         false, o.overwritten)
  }

  function OthersIn(slot: Slot): Others {
    Others(if slot.InMap() then None else slot.mem, slot.overwritten)
  }

  ghost function SlotsOf(worlds: map<string, World>, runners: map<string, Attached>, others: map<string, Others>):
    map<string, Slot>
  {
    map id | id in worlds :: SlotOf(worlds, runners, others, id)
  }

  /** Changing the entries of one job changes that job's slot alone. */
  lemma OnlyOneChanges(worlds: map<string, World>, runners: map<string, Attached>, others: map<string, Others>,
                       id: string, slot: Slot)
    requires !slot.hung
    requires id !in worlds ==> id !in runners
    ensures SlotsOf(worlds[id := slot.w], if slot.InMap() then runners[id := slot.mem.value] else runners - {id},
                    others[id := OthersIn(slot)])
            == SlotsOf(worlds, runners, others)[id := slot]
  {}

  /** The reply a command gets; a stopped runner only drains its queue. */
  function ReplyOf(w: World, a: Attached, msg: Message, env: Env): Option<Response> {
    if a.stopped then Some(Error(RunnerStopped)) else CommandOutcome(w, a, msg, env).reply
  }

  lemma BatchIsDistinct(rows: map<string, Row>, now: int, limit: nat, batch: seq<string>)
    requires IsBatch(rows, now, limit, batch)
    ensures forall i, j :: 0 <= i < j < |batch| ==> batch[i] != batch[j]
    ensures forall id :: id in batch ==> id in rows
  {
    BatchIsTheEarliestDue(rows, now, limit, batch);
  }

  lemma OneAppears(worlds: map<string, World>, runners: map<string, Attached>, others: map<string, Others>,
                   id: string, slot: Slot)
    requires id !in worlds && id !in runners && slot.mem.None? && !slot.hung
    ensures SlotsOf(worlds[id := slot.w], runners, others[id := OthersIn(slot)]) == SlotsOf(worlds, runners, others)[id := slot]
  {
    OnlyOneChanges(worlds, runners, others, id, slot);
    assert runners - {id} == runners;
  }

  lemma LaunchOutcome(slot: Slot, plan: Plan, ch: Chan, env: Env)
    requires plan.Launch? && !slot.hung
    ensures var l := Enter(plan.entry, plan.job, plan.checkpoint, slot.w, Some(ch), env);
            var after := Execute(slot, plan, ch, env);
            && after.w == l.m.w && !after.hung
            && after.InMap() == !Refused(FirstOutcome(slot.w, plan, ch, env))
            && (after.InMap() ==> after.mem.value == Attached(l.m.r, l.m.h, l.stopped, true))
  {
    hide Enter, FirstOutcome;
  }

  lemma SpawnIsLaunch(createdAt: int, policy: Policy, ch: Chan, env: Env)
    ensures var plan := Launch(ByStart, Load(Inserted(createdAt).w.row), None);
            SpawnSlot(createdAt, policy, ch, env) == Execute(Under(Inserted(createdAt), plan, policy), plan, ch, env)
  {
    hide Execute;
  }

  function RecoverAction(a: Answers): Action {
    Recover(a.setup, a.ch, a.env)
  }

  function PollAction(a: Answers): Action {
    Poll(a.setup, a.ch, a.env)
  }

  function RecoverActions(answers: string -> Answers): string -> Action {
    id => RecoverAction(answers(id))
  }

  function PollActions(answers: string -> Answers): string -> Action {
    id => PollAction(answers(id))
  }

  /** The rows GetNonTerminalJobs reads. */
  function Unsettled(slots: map<string, Slot>): set<string> {
    set id | id in slots && !slots[id].w.row.state.IsTerminal()
  }

  lemma UnsettledRows(worlds: map<string, World>, runners: map<string, Attached>, others: map<string, Others>,
                      rows: set<string>)
    requires rows == set id | id in worlds && !worlds[id].row.state.IsTerminal()
    ensures rows == Unsettled(SlotsOf(worlds, runners, others))
    ensures forall id :: id in rows ==> id in SlotsOf(worlds, runners, others)
  {}

  /** Each of these jobs has taken its step, all others are as they were. */
  ghost predicate Stepped(before: map<string, Slot>, after: map<string, Slot>, done: set<string>,
                          actions: string -> Action)
  {
    && after.Keys == before.Keys
    && forall id :: id in before ==> after[id] == if id in done then SlotStep(before[id], actions(id)) else before[id]
  }

  lemma SteppedNone(slots: map<string, Slot>, done: set<string>, actions: string -> Action)
    requires done == {}
    ensures Stepped(slots, slots, done, actions)
  {
    hide SlotStep;
  }

  lemma SteppedOnce(before: map<string, Slot>, after: map<string, Slot>, done: set<string>,
                    actions: string -> Action, id: string)
    requires Stepped(before, after, done, actions) && id in before && id !in done
    ensures Stepped(before, after[id := SlotStep(after[id], actions(id))], done + {id}, actions)
  {
    hide SlotStep;
  }

  lemma OneDone(all: set<string>, todo: set<string>, id: string)
    requires id in all
    ensures all - (todo - {id}) == all - todo + {id}
  {}

  /** The jobs of a batch that have no runner in the map. */
  ghost function Unheld(batch: seq<string>, runners: map<string, Attached>): set<string> {
    set id | id in batch && id !in runners
  }

  lemma UnheldNext(batch: seq<string>, i: nat, runners: map<string, Attached>)
    requires i < |batch| && forall i, j :: 0 <= i < j < |batch| ==> batch[i] != batch[j]
    ensures batch[i] !in Unheld(batch[..i], runners)
    ensures Unheld(batch[..i + 1], runners) ==
            Unheld(batch[..i], runners) + if batch[i] in runners then {} else {batch[i]}
  {
    assert batch[..i + 1] == batch[..i] + [batch[i]];
  }

  lemma InMapEverywhere(worlds: map<string, World>, runners: map<string, Attached>, others: map<string, Others>)
    ensures forall id :: id in worlds ==> (SlotsOf(worlds, runners, others)[id].InMap() <==> id in runners)
    ensures SlotsOf(worlds, runners, others).Keys == worlds.Keys
  {}

  lemma StillHeld(before: map<string, Slot>, after: map<string, Slot>, done: set<string>, actions: string -> Action, id: string)
    requires Stepped(before, after, done, actions) && id in before && id !in done
    ensures id in after && after[id] == before[id]
  {
    hide SlotStep;
  }

  lemma InMapMeansPublished(worlds: map<string, World>, runners: map<string, Attached>,
                            others: map<string, Others>, id: string)
    requires id in worlds
    ensures SlotsOf(worlds, runners, others)[id].InMap() <==> id in runners
  {}

  /** A command's step is the loop's turn and then, for a checkpoint, the eviction. */
  lemma CommandThenEvict(slot: Slot, msg: Message, env: Env, callerWaits: bool)
    requires slot.InMap()
    ensures var a := slot.mem.value;
            var l := LoopStep(LoopOf(slot.w, a), Deliver(msg, env));
            SlotStep(slot, Command(msg, env, callerWaits)) ==
            if EvictsAfter(CommandOutcome(slot.w, a, msg, env), callerWaits)
            then Attach(slot, l, false)
            else Attach(slot, l, true)
  {
    hide LoopStep, CommandOutcome;
  }

  class Hypervisor {
    /** The jobs table, with what each job's runner left running and on disk. */
    var worlds: map<string, World>
    var runners: map<string, Attached>
    /** The runners that are not in the map. */
    var others: map<string, Others>

    ghost function Slots(): map<string, Slot>
      reads this
    {
      SlotsOf(worlds, runners, others)
    }

    /** A runner in the map belongs to a job of the table. */
    ghost predicate Valid()
      reads this
    {
      runners.Keys <= worlds.Keys
    }

    constructor (worlds: map<string, World>)
      ensures Valid()
      ensures Slots() == map id | id in worlds :: Slot(worlds[id], None, false, [])
    {
      this.worlds, runners, others := worlds, map[], map[];
    }

    /** Publish a fresh runner, send it its first command, and take it out again on an error
        reply: the common end of Spawn, restartPendingJob, wakeJob and retryJob. */
    method LaunchRunner(id: string, entry: Entry, job: JobRecord, checkpoint: Option<string>, policy: Policy, ch: Chan, env: Env)
      returns (err: Option<HypervisorError>)
      requires Valid() && id in worlds
      modifies this
      ensures Valid()
      ensures var plan := Launch(entry, job, checkpoint);
              var found := Under(old(Slots())[id], plan, policy);
              && Slots() == old(Slots())[id := Execute(found, plan, ch, env)]
              && err == if Refused(FirstOutcome(found.w, plan, ch, env)) then Some(FirstCommandFailed) else None
    {
      hide Enter, FirstOutcome, Execute;
      var plan := Launch(entry, job, checkpoint);
      var found := Under(SlotOf(worlds, runners, others, id), plan, policy);
      var l := Enter(entry, job, checkpoint, found.w, Some(ch), env);
      var refused := Refused(FirstOutcome(found.w, plan, ch, env));
      var slot := Execute(found, plan, ch, env);
      LaunchOutcome(found, plan, ch, env);
      OnlyOneChanges(worlds, runners, others, id, slot);
      hide SlotsOf, SlotOf, Under, Valid;
      runners := runners[id := Attached(l.m.r, l.m.h, l.stopped, true)];
      worlds := worlds[id := l.m.w];
      others := others[id := OthersIn(slot)];
      if refused {
        assert runners - {id} == old(runners) - {id};
        runners := runners - {id};
        return Some(FirstCommandFailed);
      }
      return None;
    }

    method MarkJobAsFailed(id: string, failure: Failure, env: Env)
      requires Valid() && id in worlds
      modifies this`worlds
      ensures Valid()
      ensures Slots() == old(Slots())[id := old(Slots())[id].(w := Store(old(worlds)[id], FailureWrite(failure, env)))]
    {
      var w := Store(worlds[id], FailureWrite(failure, env));
      var slot := SlotOf(worlds, runners, others, id).(w := w);
      OnlyOneChanges(worlds, runners, others, id, slot);
      assert id in runners ==> runners[id := slot.mem.value] == runners[id := runners[id].(published := true)];
      worlds := worlds[id := w];
    }

    method RestartPendingJob(id: string, dbJob: Row, setup: Setup, ch: Chan, env: Env)
      returns (err: Option<HypervisorError>)
      requires Valid() && id in worlds
      modifies this
      ensures Valid()
      ensures Slots() == old(Slots())[id := CarryOut(old(Slots())[id], RestartPlan(dbJob, setup), setup.policy, ch, env)]
    {
      err := None;
      if !setup.definition {
        MarkJobAsFailed(id, DefinitionNotFound, env);
      } else if !setup.runtime {
        MarkJobAsFailed(id, RuntimeNotFound, env);
      } else {
        err := LaunchRunner(id, ByStart, Load(dbJob), None, setup.policy, ch, env);
      }
    }

    method WakeJob(id: string, dbJob: Row, setup: Setup, ch: Chan, env: Env)
      returns (err: Option<HypervisorError>)
      requires Valid() && id in worlds
      modifies this
      ensures Valid()
      ensures Slots() == old(Slots())[id := CarryOut(old(Slots())[id], WakePlan(dbJob, setup), setup.policy, ch, env)]
      ensures WakePlan(dbJob, setup) == GiveUp ==> err.Some?
    {
      ghost var slots := Slots();
      assert slots[id := slots[id]] == slots;
      if !setup.definition {
        return Some(DefinitionMissing);
      }
      if !setup.runtime {
        return Some(RuntimeMissing);
      }
      if !UsablePath(dbJob) {
        return Some(NoCheckpointPath);
      }
      if !setup.file {
        return Some(CheckpointFileMissing);
      }
      if !setup.reconstruct {
        return Some(ReconstructFailed);
      }
      err := LaunchRunner(id, ByWake, Load(dbJob).(state := Suspended), dbJob.checkpointPath, setup.policy, ch, env);
    }

    method RetryJob(id: string, dbJob: Row, setup: Setup, ch: Chan, env: Env)
      returns (err: Option<HypervisorError>)
      requires Valid() && id in worlds
      modifies this
      ensures Valid()
      ensures Slots() == old(Slots())[id := CarryOut(old(Slots())[id], RetryPlan(dbJob, setup), setup.policy, ch, env)]
    {
      err := None;
      if !setup.definition {
        MarkJobAsFailed(id, DefinitionNotFound, env);
      } else if !setup.runtime {
        MarkJobAsFailed(id, RuntimeNotFound, env);
      } else {
        var checkpoint := None;
        if UsablePath(dbJob) && setup.reconstruct {
          checkpoint := dbJob.checkpointPath;
        }
        err := LaunchRunner(id, ByRetry, Load(dbJob).(state := Failed), checkpoint, setup.policy, ch, env);
      }
    }

    method RecoverRunningJob(id: string, dbJob: Row, setup: Setup, ch: Chan, env: Env)
      returns (err: Option<HypervisorError>)
      requires Valid() && id in worlds
      modifies this
      ensures Valid()
      ensures Slots() == old(Slots())[id := CarryOut(old(Slots())[id], RecoverRunningPlan(dbJob, setup), setup.policy, ch, env)]
    {
      err := None;
      if dbJob.checkpointCount > 0 && UsablePath(dbJob) {
        err := WakeJob(id, dbJob, setup, ch, env);
      } else if !setup.definition {
        MarkJobAsFailed(id, InterruptedWithoutDefinition, env);
      } else if dbJob.retryCount < setup.policy.maxRetries {
        err := RestartPendingJob(id, dbJob, setup, ch, env);
      } else {
        MarkJobAsFailed(id, InterruptedWithoutRetries, env);
      }
    }

    /** One row of recoverJobs. */
    method RecoverJob(id: string, setup: Setup, ch: Chan, env: Env)
      requires Valid() && id in worlds
      modifies this
      ensures Valid()
      ensures Slots() == old(Slots())[id := SlotStep(old(Slots())[id], Recover(setup, ch, env))]
    {
      hide CarryOut;
      var w := worlds[id];
      ghost var slots := Slots();
      assert slots[id := slots[id]] == slots;
      assert CarryOut(slots[id], GiveUp, setup.policy, ch, env) == slots[id] by { GiveUpDoesNothing(slots[id], setup.policy, ch, env); }
      match w.row.state {
        case Running => var err := RecoverRunningJob(id, w.row, setup, ch, env);
        case Pending => var err := RestartPendingJob(id, w.row, setup, ch, env);
        case _ =>
      }
    }

    /** recoverJobs, over the rows in whatever order the database yields them: each row not
        yet settled takes its recovery step. */
    method RecoverJobs(answers: string -> Answers)
      requires Valid()
      modifies this
      ensures Valid()
      ensures Stepped(old(Slots()), Slots(), Unsettled(old(Slots())), RecoverActions(answers))
    {
      ghost var slots := Slots();
      ghost var actions := RecoverActions(answers);
      var dbJobs := set id | id in worlds && !worlds[id].row.state.IsTerminal();
      var todo := dbJobs;
      UnsettledRows(worlds, runners, others, dbJobs);
      SteppedNone(slots, dbJobs - todo, actions);
      hide *;
      while todo != {}
        invariant Valid() && todo <= dbJobs
        invariant Stepped(slots, Slots(), dbJobs - todo, actions)
      {
        var id :| id in todo;
        var a := answers(id);
        StillHeld(slots, Slots(), dbJobs - todo, actions, id);
        SteppedOnce(slots, Slots(), dbJobs - todo, actions, id);
        InMapEverywhere(worlds, runners, others);
        RecoverJob(id, a.setup, a.ch, a.env);
        OneDone(dbJobs, todo, id);
        todo := todo - {id};
      }
      assert dbJobs - todo == dbJobs;
    }

    ghost function Rows(): map<string, Row>
      reads this
    {
      map id | id in worlds :: worlds[id].row
    }

    /** One row of the poller's batch. */
    method ResumeJob(id: string, setup: Setup, ch: Chan, env: Env)
      requires Valid() && id in worlds
      modifies this
      ensures Valid()
      ensures Slots() == old(Slots())[id := SlotStep(old(Slots())[id], Poll(setup, ch, env))]
    {
      hide CarryOut;
      var dbJob := worlds[id].row;
      ghost var slots := Slots();
      assert slots[id := slots[id]] == slots;
      assert CarryOut(slots[id], GiveUp, setup.policy, ch, env) == slots[id] by { GiveUpDoesNothing(slots[id], setup.policy, ch, env); }
      match dbJob.state {
        case Suspended => var err := WakeJob(id, dbJob, setup, ch, env);
        case PendingRetry => var err := RetryJob(id, dbJob, setup, ch, env);
        case _ =>
      }
    }

    /** resumeReadyJobs: every job of the batch without a runner in the map takes its poll
        step. */
    method ResumeReadyJobs(now: int, dbJobs: seq<string>, answers: string -> Answers)
      requires Valid() && IsBatch(Rows(), now, BATCH, dbJobs)
      modifies this
      ensures Valid()
      ensures Stepped(old(Slots()), Slots(), Unheld(dbJobs, old(runners)),
                      PollActions(answers))
    {
      BatchIsDistinct(Rows(), now, BATCH, dbJobs);
      ghost var slots, held := Slots(), runners;
      ghost var actions := PollActions(answers);
      assert forall id :: id in dbJobs ==> id in slots;
      assert Stepped(slots, slots, Unheld(dbJobs[..0], held), actions);
      InMapEverywhere(worlds, runners, others);
      hide IsBatch, Rows, SlotStep, SlotOf, SlotsOf, Unheld, Valid, Stepped;
      for i := 0 to |dbJobs|
        invariant Valid() && Stepped(slots, Slots(), Unheld(dbJobs[..i], held), actions)
      {
        UnheldNext(dbJobs, i, held);
        StillHeld(slots, Slots(), Unheld(dbJobs[..i], held), actions, dbJobs[i]);
        SteppedOnce(slots, Slots(), Unheld(dbJobs[..i], held), actions, dbJobs[i]);
        assert Unheld(dbJobs[..i], held) + {} == Unheld(dbJobs[..i], held);
        ResumeUnlessHeld(dbJobs[i], answers(dbJobs[i]));
      }
      assert dbJobs[..|dbJobs|] == dbJobs;
    }

    /** One turn of the loop: a job with a runner in the map is passed over. */
    method ResumeUnlessHeld(id: string, a: Answers)
      requires Valid() && id in Slots()
      modifies this
      ensures Valid()
      ensures Slots() == if old(Slots())[id].InMap() then old(Slots())
                         else old(Slots())[id := SlotStep(old(Slots())[id], PollAction(a))]
    {
      InMapMeansPublished(worlds, runners, others, id);
      if id in runners {
        return;
      }
      hide SlotStep, SlotOf;
      ResumeJob(id, a.setup, a.ch, a.env);
    }

    /** Spawn, once the definition and its runtime are found and an id is generated. */
    method Spawn(id: string, policy: Policy, insertOk: bool, ch: Chan, env: Env)
      returns (err: Option<HypervisorError>)
      requires Valid() && id !in worlds
      modifies this
      ensures Valid()
      ensures Slots() == if insertOk then old(Slots())[id := SpawnSlot(env.now, policy, ch, env)] else old(Slots())
    {
      hide *;
      if !insertOk {
        return Some(JobNotPersisted);
      }
      InsertJob(id, env.now);
      SpawnIsLaunch(env.now, policy, ch, env);
      err := LaunchRunner(id, ByStart, Load(worlds[id].row), None, policy, ch, env);
    }

    method InsertJob(id: string, now: int)
      requires Valid() && id !in worlds
      modifies this`worlds, this`others
      ensures Valid() && id in worlds && worlds[id] == Inserted(now).w
      ensures Slots() == old(Slots())[id := Inserted(now)]
    {
      var slot := Inserted(now);
      OneAppears(worlds, runners, others, id, slot);
      hide SlotOf, SlotsOf, OthersIn, NewWorld;
      worlds := worlds[id := NewWorld(now)];
      others := others[id := OthersIn(slot)];
    }

    /** maybeEvictJob. */
    method MaybeEvictJob(id: string, job: JobRecord)
      requires Valid()
      modifies this`runners, this`others
      ensures Valid()
      ensures Slots() == if Evictable(job) && id in old(runners)
                         then old(Slots())[id := old(Slots())[id].(mem := Some(old(runners)[id].(published := false)))]
                         else old(Slots())
    {
      if Evictable(job) && id in runners {
        var slot := SlotOf(worlds, runners, others, id).(mem := Some(runners[id].(published := false)));
        OnlyOneChanges(worlds, runners, others, id, slot);
        assert worlds[id := worlds[id]] == worlds;
        others := others[id := OthersIn(slot)];
        runners := runners - {id};
      }
    }

    /** The goroutine that waits for a runner to end and evicts its job. If the map names it no
        more there is nothing to take out. */
    method RunnerDone(id: string)
      requires Valid()
      modifies this`runners, this`others
      ensures Valid()
      ensures Slots() == if id in old(runners) && old(runners)[id].stopped && Evictable(old(runners)[id].r.job)
                         then old(Slots())[id := SlotStep(old(Slots())[id], Evict)] else old(Slots())
    {
      if id in runners && runners[id].stopped && Evictable(runners[id].r.job) {
        var slot := SlotOf(worlds, runners, others, id).(mem := None);
        OnlyOneChanges(worlds, runners, others, id, slot);
        assert worlds[id := worlds[id]] == worlds;
        runners := runners - {id};
        others := others[id := OthersIn(slot)];
      }
    }

    /** A request to a job's runner, found through the map, with its reply. */
    method SendCommand(id: string, msg: Message, env: Env)
      returns (reply: Option<Response>, err: Option<HypervisorError>)
      requires Valid()
      modifies this
      ensures Valid()
      ensures err == if id in old(runners) then None else Some(JobNotFound)
      ensures err.Some? ==> Slots() == old(Slots()) && reply == None && worlds == old(worlds)
      ensures err.None? ==>
                var a := old(runners)[id].(published := true);
                && reply == ReplyOf(old(worlds)[id], a, msg, env)
                && Slots() == old(Slots())[id := Attach(old(Slots())[id], LoopStep(LoopOf(old(worlds)[id], a), Deliver(msg, env)), true)]
                && id in runners && id in worlds
    {
      if id !in runners {
        return None, Some(JobNotFound);
      }
      hide LoopStep;
      var a := runners[id].(published := true);
      var l := LoopStep(LoopOf(worlds[id], a), Deliver(msg, env));
      var slot := Attach(SlotOf(worlds, runners, others, id), l, true);
      OnlyOneChanges(worlds, runners, others, id, slot);
      reply := ReplyOf(worlds[id], a, msg, env);
      err := None;
      runners := runners[id := Attached(l.m.r, l.m.h, l.stopped, true)];
      worlds := worlds[id := l.m.w];
      others := others[id := OthersIn(slot)];
    }

    /** CheckpointJob: a successful reply goes to maybeEvictJob, unless the caller has gone. */
    method CheckpointJob(id: string, suspend: int, token: string, ch: Chan, env: Env, callerWaits: bool)
      returns (reply: Option<Response>, err: Option<HypervisorError>)
      requires Valid()
      modifies this
      ensures Valid()
      ensures err == if id in old(runners) then None else Some(JobNotFound)
      ensures id !in old(runners) ==> Slots() == old(Slots())
      ensures id in old(runners) ==>
                reply == ReplyOf(old(worlds)[id], old(runners)[id].(published := true),
                                 Message(Checkpoint(suspend, token), Some(ch)), env)
      ensures id in old(runners) && !old(runners)[id].stopped ==>
                Slots() == old(Slots())[id := SlotStep(old(Slots())[id],
                             Command(Message(Checkpoint(suspend, token), Some(ch)), env, callerWaits))]
    {
      if id in runners {
        CommandThenEvict(Slots()[id], Message(Checkpoint(suspend, token), Some(ch)), env, callerWaits);
      }
      hide LoopStep, CommandOutcome, SlotStep;
      reply, err := SendCommand(id, Message(Checkpoint(suspend, token), Some(ch)), env);
      if callerWaits && reply.Some? && reply.value.CheckpointDone? {
        MaybeEvictJob(id, reply.value.job);
      }
    }
  }

  lemma GiveUpDoesNothing(slot: Slot, policy: Policy, ch: Chan, env: Env)
    ensures CarryOut(slot, GiveUp, policy, ch, env) == slot
  {}
}