/** The state one runner works on: its own memory, the durable world of its job, and the
    history the theorems talk about. */
module Machine {
  import opened Wrappers
  import opened Jobs
  import opened Rows

  type Pid = nat   // a runtime process handle
  type Chan = nat  // a result channel; every request brings its own

  /** A lock id as it comes in a request: `lock-<n>`, or a text no runner ever issues. */
  datatype LockID = Numbered(n: nat) | Foreign(text: string)

  /** The retry policy captured by `setupRetryCallback`. */
  datatype Policy = Policy(maxRetries: int, retryDelay: int)

  /** A checkpoint the runtime took: where it is, and the token it was taken for. */
  datatype Image = Image(path: string, token: string)

  /** What survives the hypervisor: the row, the live processes of the job's execution id,
      and every image taken. `recorded` is how many images existed when the row last named
      one; `acked` is how many existed when a caller was last told a checkpoint succeeded. */
  datatype World = World(
    row: Row,
    policy: Policy,
    live: set<Pid>,
    images: seq<Image>,
    recorded: nat,
    acked: nat,
    launches: nat
  )

  /** A runtime call that succeeded. */
  datatype Call =
    | Started(pid: Pid)
    | Restored(pid: Pid)
    | Imaged(keepRunning: bool, image: Image)
    | Killed(pid: Pid)
    | Cleaned(pid: Pid)

  /** The runtime's contract: a suspending checkpoint leaves no live process, a restore
      replaces whatever runs under the same execution id. */
  function Perform(w: World, call: Call): World {
    match call
    case Started(pid) => w.(live := w.live + {pid}, launches := w.launches + 1)
    case Restored(pid) => w.(live := {pid}, launches := w.launches + 1)
    case Imaged(keepRunning, image) =>
      w.(images := w.images + [image], live := if keepRunning then w.live else {})
    case Killed(pid) => w.(live := w.live - {pid})
    case Cleaned(pid) => w.(live := w.live - {pid})
  }

  /** One attempted UPDATE of the job's row; a failed one is only logged. */
  datatype Write = Write(u: RowUpdate, ok: bool)

  function Store(w: World, write: Write): World {
    if write.ok then
      w.(row := Update(w.row, write.u),
         recorded := if write.u.UpdateCheckpointed? then |w.images| else w.recorded)
    else w
  }

  /** The goroutines blocked in waitForProcessExit, each on one process. */
  datatype Watchers = Nobody | Watcher(pid: Pid, others: Watchers) {
    predicate Has(p: Pid) {
      Watcher? && (pid == p || others.Has(p))
    }

    /** One goroutine waiting on `p` is done. */
    function Without(p: Pid): Watchers {
      if Nobody? then this else if pid == p then others else Watcher(pid, others.Without(p))
    }
  }

  /** The fields of JobRunner. `exitWatchers` and `retrySenders` are the goroutines it has
      started: those blocked in waitForProcessExit, and those about to send cmdRetry. */
  datatype Runner = Runner(
    job: JobRecord,
    process: Option<Pid>,
    checkpoint: Option<string>,
    onFailure: Option<Policy>,
    resultWaiters: seq<Option<Chan>>,
    activeLocks: set<LockID>,
    lockCounter: nat,
    checkpointTokens: set<string>,
    pendingCheckpointRequests: seq<Option<Chan>>,
    retryPending: bool,
    cancelled: bool,
    exitWatchers: Watchers,
    retrySenders: nat
  )

  /** NewJobRunner, setupRetryCallback and SetCheckpoint. */
  function NewRunner(job: JobRecord, policy: Policy, checkpoint: Option<string>): Runner {
    Runner(job, None, checkpoint, Some(policy), [], {}, 0, {}, [], false, false, Nobody, 0)
  }

  /** The errors a command can be answered with, by what their texts report. */
  datatype Refusal =
    | CannotStart(state: JobState)
    | CannotKill(state: JobState)
    | CannotExit(state: JobState)
    | CannotRetry(state: JobState)
    | CannotCheckpoint(state: JobState)
    | NotSuspended
    | HasTerminated
    | TokenRequired
    | LocksHeld(count: nat)
    | NoSuchLock(lockID: LockID)
    | LaunchError(err: string)
    | CheckpointError(err: string)
    | KillError(err: string)
    | RunnerStopped

  datatype Response =
    | JobInfo(job: JobRecord)
    | CheckpointDone(job: JobRecord)
    | LockTaken(lockID: LockID)
    | Empty
    | Error(reason: Refusal)

  /** What the history records of a command besides its writes and replies. */
  datatype Note = Nothing | Issued(lockID: LockID) | Released(lockID: LockID) | AttemptFailed | Capture

  /** Everything one command does. All handlers follow one order: a row write, a runtime
      call, a second row write, the reply; each of them may be absent. A crash can fall
      between any two. */
  datatype Outcome = Outcome(
    r: Runner,
    before: Option<Write>,
    call: Option<Call>,
    after: Option<Write>,
    reply: Option<Response>,
    note: Note
  )

  /** The durable world once the first `k` of the four parts have happened. */
  function WorldAt(w: World, o: Outcome, k: nat): World {
    var w1 := if k >= 1 && o.before.Some? then Store(w, o.before.value) else w;
    var w2 := if k >= 2 && o.call.Some? then Perform(w1, o.call.value) else w1;
    var w3 := if k >= 3 && o.after.Some? then Store(w2, o.after.value) else w2;
    if k >= 4 && o.reply.Some? && o.reply.value.CheckpointDone? then w3.(acked := |w3.images|) else w3
  }

  /** What one runner has done since it was created. */
  datatype History = History(
    delivered: multiset<Chan>,  // channels of the commands taken from the queue
    answered: multiset<Chan>,   // channels that got a reply
    told: Option<JobRecord>,    // the job that released waiters were shown
    issued: seq<LockID>,        // lock ids handed out, oldest first
    released: set<LockID>,      // lock ids given back
    finals: nat,                // terminal row writes attempted
    late: nat,                  // row writes attempted after a terminal one
    failures: nat,              // failed process exits handled
    captures: nat,              // runtime checkpoints invoked
    retries0: int,              // retry count when the runner was created
    checkpoints0: int,          // checkpoint count when the runner was created
    images0: nat                // images that existed when the runner was created
  )

  function NewHistory(retries: int, checkpoints: int, images: nat): History {
    History(multiset{}, multiset{}, None, [], {}, 0, 0, 0, 0, retries, checkpoints, images)
  }

  function NoteWrite(h: History, write: Option<Write>): History {
    if write.None? then h
    else h.(finals := h.finals + if write.value.u.UpdateCompleted? then 1 else 0,
            late := h.late + if h.finals > 0 then 1 else 0)
  }

  function NoteCommand(h: History, note: Note): History {
    match note
    case Nothing => h
    case Issued(lockID) => h.(issued := h.issued + [lockID])
    case Released(lockID) => h.(released := h.released + {lockID})
    case AttemptFailed => h.(failures := h.failures + 1)
    case Capture => h.(captures := h.captures + 1)
  }

  function SomeChan(ch: Option<Chan>): multiset<Chan> {
    if ch.Some? then multiset{ch.value} else multiset{}
  }

  function SomeChans(chs: seq<Option<Chan>>): multiset<Chan> {
    if chs == [] then multiset{} else SomeChans(chs[..|chs| - 1]) + SomeChan(chs[|chs| - 1])
  }

  /** The channels a command's reply goes to: its own, and after a runtime checkpoint also
      those of the requests collapsed into it. */
  function RepliedTo(r: Runner, ch: Option<Chan>, o: Outcome): multiset<Chan> {
    if o.reply.None? then multiset{}
    else SomeChan(ch) + if o.note.Capture? then SomeChans(r.pendingCheckpointRequests) else multiset{}
  }

  datatype Machine = Machine(r: Runner, w: World, h: History)

  function Commit(m: Machine, ch: Option<Chan>, o: Outcome): Machine {
    var h := NoteWrite(NoteWrite(NoteCommand(m.h, o.note), o.before), o.after);
    Machine(o.r, WorldAt(m.w, o, 4), h.(answered := h.answered + RepliedTo(m.r, ch, o)))
  }
}
