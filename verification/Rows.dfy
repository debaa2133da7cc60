/** query/jobs.sql.go: a row of the jobs table, what each UPDATE does to it, and how a row
    is read back into a job (`dbJobToJob`). */
module Rows {
  import opened Wrappers
  import opened Jobs

  /** Nullable columns are options. */
  datatype Row = Row(
    createdAt: int,
    state: JobState,
    resultExitCode: Option<int>,
    resultOutput: Option<string>,
    error: Option<Failure>,
    startedAt: Option<int>,
    completedAt: Option<int>,
    checkpointCount: int,
    lastCheckpointAt: Option<int>,
    retryCount: int,
    resumeAt: Option<int>,
    checkpointPath: Option<string>
  ) {
    predicate Clean() {
      resultExitCode.None? && resultOutput.None? && error.None? && completedAt.None?
    }

    /** The WHERE clause of GetJobsToResume, without the clock. */
    predicate Scheduled() {
      (state == Suspended || state == PendingRetry) && resumeAt.Some?
    }

    predicate Due(now: int) {
      Scheduled() && resumeAt.value <= now
    }
  }

  /** Go's `int32(n)` on a 64-bit integer: keep the low 32 bits, read as two's complement. */
  function Int32(n: int): int {
    (n + 0x8000_0000) % 0x1_0000_0000 - 0x8000_0000
  }

  predicate IsInt32(n: int) {
    -0x8000_0000 <= n < 0x8000_0000
  }

  /** `sql.NullString{String: s, Valid: s != ""}`. */
  function NullString(s: string): Option<string> {
    if s == "" then None else Some(s)
  }

  datatype RowUpdate =
    | UpdateStarted(at: int)
    | UpdateCheckpointed(state: JobState, at: int, resumeAt: Option<int>, path: Option<string>)
    | UpdateCompleted(state: JobState, completedAt: Option<int>, exitCode: Option<int>,
                      output: Option<string>, error: Option<Failure>)
    | UpdatePendingRetry(resume: int)
    | UpdateRetryCount(retryCount: int)
    | UpdateState(state: JobState)

  /** The SET clause of each UPDATE statement. */
  function Update(row: Row, u: RowUpdate): Row {
    match u
    case UpdateStarted(at) => row.(state := Running, startedAt := Some(at))
    case UpdateCheckpointed(state, at, resumeAt, path) =>
      row.(state := state, checkpointCount := row.checkpointCount + 1,
           lastCheckpointAt := Some(at), resumeAt := resumeAt, checkpointPath := path)
    case UpdateCompleted(state, completedAt, exitCode, output, error) =>
      row.(state := state, completedAt := completedAt, resultExitCode := exitCode,
           resultOutput := output, error := error)
    case UpdatePendingRetry(resume) => row.(state := PendingRetry, resumeAt := Some(resume))
    case UpdateRetryCount(retryCount) => row.(retryCount := retryCount)
    case UpdateState(state) => row.(state := state)
  }

  /** InsertJob: the columns it does not name take their defaults. */
  function NewRow(createdAt: int): Row {
    Row(createdAt, Pending, None, None, None, None, None, 0, None, 0, None, None)
  }

  /** dbJobToJob. An output of length zero reads back as none. */
  function Load(row: Row): JobRecord {
    JobRecord(
      row.state, Idle,
      if row.resultExitCode.Some?
      then Some(JobResult(row.resultExitCode.value,
                          if row.resultOutput.Some? && row.resultOutput.value != "" then row.resultOutput else None))
      else None,
      row.error,
      row.startedAt, row.completedAt, row.checkpointCount, row.lastCheckpointAt,
      row.retryCount, row.resumeAt)
  }

  /** The arguments `persistJobCompleted` gives to UpdateJobCompleted. */
  function CompletedUpdate(state: JobState, completedAt: Option<int>, result: Option<JobResult>,
                           error: Option<Failure>): RowUpdate {
    UpdateCompleted(state, completedAt,
                    if result.Some? then Some(Int32(result.value.exitCode)) else None,
                    if result.Some? then result.value.output else None,
                    error)
  }
}
