/** The whole hypervisor: every job's slot, the clock, the rows its recovery has read and still
    has to go through, and the spawns that have inserted their row and not gone on. The servers
    and the poller are up before recovery reads the rows, so jobs may have runners by then. Any
    step may be cut short anywhere, and the process may crash at any time. */
module System {
  import opened Wrappers
  import opened Jobs
  import opened Rows
  import opened Machine
  import opened RunnerSpec
  import opened RunnerLaws
  import opened RowLaws
  import opened Slots
  import opened SlotLaws

  datatype Sys = Sys(slots: map<string, Slot>, clock: int, todo: map<string, Row>, recovered: bool, spawning: set<string>)

  /** `Insert` and `Begin` are the two parts of Spawn. `cut` says after how many parts of the first
      command the hypervisor dies, if it does. `Stale` is a turn of recovery whose job's row has
      changed since it was read; while it has not, the turn is the job's action. */
  datatype Move =
    | Tick(to: int)
    | Insert(id: string)
    | Begin(id: string, policy: Policy, ch: Chan, env: Env, cut: Option<nat>)
    | At(id: string, action: Action)
    | ReadRows
    | Stale(id: string, setup: Setup, ch: Chan, env: Env, cut: Option<nat>)
    | Crash

  predicate IsRecovery(action: Action) {
    action.Recover? || (action.Cut? && action.action.Recover?)
  }

  /** The clock a handler reads is the system's. */
  ghost predicate OnTime(action: Action, clock: int) {
    match action
    case Command(_, env, _) => env.now == clock
    case Poll(_, _, env) => env.now == clock
    case Recover(_, _, env) => env.now == clock
    case Cut(inner, _) => OnTime(inner, clock)
    case _ => true
  }

  ghost predicate CanMove(s: Sys, move: Move) {
    match move
    case Tick(to) => s.clock <= to
    case Insert(id) => id !in s.slots
    case Begin(id, _, _, env, _) =>
      id in s.slots && id in s.spawning && !s.slots[id].hung && env.now == s.clock && Reliable(env)
    case At(id, action) =>
      && id in s.slots && Enabled(s.slots[id], action, s.clock)
      && OnTime(action, s.clock) && ReliableAction(action)
      && (IsRecovery(action) ==> id in s.todo && s.todo[id] == s.slots[id].w.row)
    case ReadRows => !s.recovered
    case Stale(id, _, _, env, _) =>
      && id in s.slots && id in s.todo && s.todo[id] != s.slots[id].w.row && !s.slots[id].hung
      && env.now == s.clock && Reliable(env)
    case Crash => true
  }

  /** recoverJobs carries out what it plans from the row it has read. */
  function StaleTurn(s: Sys, move: Move): Slot
    requires move.Stale? && move.id in s.slots && move.id in s.todo
  {
    ActOn(s.slots[move.id], RecoverPlan(s.todo[move.id], move.setup), move.setup.policy, move.ch, move.env, move.cut)
  }

  function Next(s: Sys, move: Move): Sys {
    match move
    case Tick(to) => s.(clock := to)
    case Insert(id) => s.(slots := s.slots[id := Inserted(s.clock)], spawning := s.spawning + {id})
    case Begin(id, policy, ch, env, cut) =>
      if id !in s.slots then s
      else s.(slots := s.slots[id := BeginTurn(s.slots[id], policy, ch, env, cut)], spawning := s.spawning - {id})
    case At(id, action) =>
      if id !in s.slots then s
      else
        s.(slots := s.slots[id := SlotStep(s.slots[id], action)],
           todo := if IsRecovery(action) then s.todo - {id} else s.todo)
    case Stale(id, _, _, _, _) =>
      if id !in s.slots || id !in s.todo then s
      else s.(slots := s.slots[id := StaleTurn(s, move)], todo := s.todo - {id})
    case ReadRows =>
      s.(todo := (map id | id in s.slots && !s.slots[id].w.row.state.IsTerminal() :: s.slots[id].w.row), recovered := true)
    case Crash => Sys(map id | id in s.slots :: CrashSlot(s.slots[id]), s.clock, map[], false, {})
  }

  function Run(s: Sys, moves: seq<Move>): Sys {
    if moves == [] then s else Next(Run(s, moves[..|moves| - 1]), moves[|moves| - 1])
  }

  ghost predicate CanRun(s: Sys, moves: seq<Move>) {
    moves == [] ||
    (CanRun(s, moves[..|moves| - 1]) && CanMove(Run(s, moves[..|moves| - 1]), moves[|moves| - 1]))
  }

  /** An empty jobs table. */
  function Boot(clock: int): Sys {
    Sys(map[], clock, map[], false, {})
  }

  ghost predicate SysInv(s: Sys) {
    forall id :: id in s.slots ==> SlotInv(s.slots[id])
  }

  /** A turn of recovery that upsets this job's runner at work, or acts on a row the job no
      longer has, or a spawn that goes on after something has happened to its row. */
  predicate Upsetting(s: Sys, move: Move, id: string) {
    || (move.At? && move.id == id && id in s.slots && Upsets(s.slots[id], move.action))
    || (move.Stale? && move.id == id && id in s.todo && Acts(RecoverPlan(s.todo[id], move.setup)))
    || (move.Begin? && move.id == id && id in s.slots && !AsInserted(s.slots[id]))
  }

  /** No move of the run upsets this job. */
  predicate Calm(s: Sys, moves: seq<Move>, id: string) {
    moves == [] ||
    (Calm(s, moves[..|moves| - 1], id) && !Upsetting(Run(s, moves[..|moves| - 1]), moves[|moves| - 1], id))
  }

  lemma MoveKeepsInvariant(s: Sys, move: Move, id: string)
    requires CanMove(s, move) && (id in s.slots ==> SlotInv(s.slots[id]))
    requires id in Next(s, move).slots
    ensures !Upsetting(s, move, id) ==> SlotInv(Next(s, move).slots[id])
    ensures Upsetting(s, move, id) && move.At? ==> !SlotInv(Next(s, move).slots[id])
    ensures Upsetting(s, move, id) && move.Begin? && move.cut.None? && AtWork(s.slots[id]) ==>
              !SlotInv(Next(s, move).slots[id])
  {
    hide SlotInv, SlotStep, CrashSlot, Inserted, AsInserted, BeginTurn, Enabled, Upsets, ActOn, Acts, RecoverPlan, AtWork;
    match move
    case Tick(_) =>
    case Insert(_) => InsertedIsSound(s.clock);
    case Begin(other, policy, ch, env, cut) =>
      if other == id {
        if AsInserted(s.slots[id]) {
          BeginKeepsSlot(s.slots[id], policy, ch, env, cut);
        } else if AtWork(s.slots[id]) {
          BeginOverRunner(s.slots[id], policy, ch, env);
        }
      }
    case At(other, action) =>
      if other == id {
        ActionKeepsSlot(s.slots[id], action, s.clock);
      }
    case ReadRows =>
    case Stale(other, setup, ch, env, cut) =>
      if other == id && !Acts(RecoverPlan(s.todo[id], setup)) {
        IdlePlanKeepsSlot(s.slots[id], s.todo[id], setup, ch, env, cut);
      }
    case Crash => EvictKeepsSlot(s.slots[id]);
  }

  /** In every state of every run, with crashes anywhere, the invariant holds of a job unless a
      move has upset it. */
  lemma {:induction false} RunKeepsInvariant(s: Sys, moves: seq<Move>, id: string)
    requires (id in s.slots ==> SlotInv(s.slots[id])) && CanRun(s, moves) && Calm(s, moves, id)
    requires id in Run(s, moves).slots
    ensures SlotInv(Run(s, moves).slots[id])
  {
    hide SlotInv, Next, CanMove, Upsetting;
    if moves != [] {
      var init, move := moves[..|moves| - 1], moves[|moves| - 1];
      if id in Run(s, init).slots {
        RunKeepsInvariant(s, init, id);
      }
      MoveKeepsInvariant(Run(s, init), move, id);
    }
  }

  /** And the first recovery that meets its runner at work and upsets it, breaks the invariant. */
  lemma FirstUpsetBreaksInvariant(s: Sys, moves: seq<Move>, move: Move, id: string)
    requires (id in s.slots ==> SlotInv(s.slots[id])) && CanRun(s, moves) && Calm(s, moves, id)
    requires CanMove(Run(s, moves), move) && Upsetting(Run(s, moves), move, id) && move.At?
    ensures id in Next(Run(s, moves), move).slots && !SlotInv(Next(Run(s, moves), move).slots[id])
  {
    hide SlotInv, CanMove, Calm, CanRun, Run, SlotStep, Upsets;
    RunKeepsInvariant(s, moves, id);
    MoveKeepsInvariant(Run(s, moves), move, id);
  }
}
