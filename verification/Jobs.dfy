/** hypervisor/job.go: the job record and its states. */
module Jobs {
  import opened Wrappers

  datatype JobState = Pending | Running | Suspended | PendingRetry | Completed | Failed {
    predicate IsTerminal() {
      this == Completed || this == Failed
    }
  }

  datatype JobOperation = Idle | Checkpointing | Terminating | Exiting | Restarting

  datatype JobResult = JobResult(exitCode: int, output: Option<string>)

  /** The texts the source stores as a job's error, by what they report. */
  datatype Failure =
    | StartFailed(err: string)
    | RestoreFailed(err: string)
    | ExitCode(code: int)
    | WaitFailed(err: string)
    | KilledByCaller
    | DefinitionNotFound
    | RuntimeNotFound
    | InterruptedWithoutDefinition
    | InterruptedWithoutRetries

  /** The value of a job at one moment. `Clone` hands one out, so a reply can never be
      changed by a later command. The source's empty error text is None. */
  datatype JobRecord = JobRecord(
    state: JobState,
    op: JobOperation,
    result: Option<JobResult>,
    error: Option<Failure>,
    startedAt: Option<int>,
    completedAt: Option<int>,
    checkpointCount: int,
    lastCheckpointAt: Option<int>,
    retryCount: int,
    resumeAt: Option<int>
  ) {
    /** No trace of a finished attempt is left. */
    predicate Clean() {
      result.None? && error.None? && completedAt.None?
    }
  }

  /** The mutable job a runner owns. */
  class Job {
    var state: JobState
    var op: JobOperation
    var result: Option<JobResult>
    var error: Option<Failure>
    var startedAt: Option<int>
    var completedAt: Option<int>
    var checkpointCount: int
    var lastCheckpointAt: Option<int>
    var retryCount: int
    var resumeAt: Option<int>

    constructor (j: JobRecord)
      ensures Clone() == j
    {
      state, op, result, error := j.state, j.op, j.result, j.error;
      startedAt, completedAt := j.startedAt, j.completedAt;
      checkpointCount, lastCheckpointAt := j.checkpointCount, j.lastCheckpointAt;
      retryCount, resumeAt := j.retryCount, j.resumeAt;
    }

    function Clone(): JobRecord
      reads this
    {
      JobRecord(state, op, result, error, startedAt, completedAt,
                checkpointCount, lastCheckpointAt, retryCount, resumeAt)
    }
  }
}
