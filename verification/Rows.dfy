/** Job rows and the operations that end an execution. */
module Rows {
  import opened Instants

  datatype State = Scheduled | Available | Running | Retryable | Completed | Cancelled | Dead {
    /** A state a job never leaves. */
    predicate Terminal() {
      this == Completed || this == Cancelled || this == Dead
    }
  }

  datatype AttemptError = AttemptError(at: Instant, attempt: int, err: string, stack: string)

  /** The metadata bytes of a row: none at all, or a JSON object whose "goque" key is the library's
      own record and whose remaining keys are opaque. */
  datatype Metadata = NoMetadata | Metadata(user: string, timeoutMs: int, snoozes: int)

  /** A backend-assigned identifier. */
  datatype JobId = JobId(n: int)

  datatype Row = Row(
    id: JobId, kind: string, queue: string, payload: string, state: State,
    priorityBoost: Duration, priorityAt: Instant,
    attempt: int, generation: int, maxAttempts: int,
    createdAt: Instant, scheduledAt: Instant, attemptedAt: Instant, finalizedAt: Instant, heartbeatAt: Instant,
    attemptedBy: seq<string>, cancelRequested: bool, metadata: Metadata, errors: seq<AttemptError>)

  type Jobs = map<JobId, Row>

  /** One execution of one job: what a claim issues and every later write must present. */
  datatype Token = Token(id: JobId, generation: int)

  /** How an execution ended, as it is handed to the backend. */
  datatype Op =
    | Complete(token: Token, metadata: Metadata)
    | Retry(token: Token, at: Instant, err: AttemptError, metadata: Metadata)
    | Cancel(token: Token, reason: string, metadata: Metadata)
    | Kill(token: Token, err: AttemptError, metadata: Metadata)
    | Snooze(token: Token, at: Instant, metadata: Metadata)
  {
    /** Whether the operation carries an instant, and if so a storable one. */
    predicate InRange() {
      Retry? || Snooze? ==> ValidInstant(at)
    }
  }

  function SnoozeCount(m: Metadata): int {
    if m.NoMetadata? then 0 else m.snoozes
  }

  /** Metadata replaces the stored metadata only when there is any. */
  function MergeMeta(stored: Metadata, given: Metadata): Metadata {
    if given.NoMetadata? then stored else given
  }

  /** The snooze count in the library's record goes up by one; an empty document gains the record. */
  function BumpSnoozes(m: Metadata): (r: Metadata)
    ensures SnoozeCount(r) == SnoozeCount(m) + 1
  {
    match m
    case NoMetadata => Metadata("", 0, 1)
    case Metadata(user, timeoutMs, snoozes) => Metadata(user, timeoutMs, snoozes + 1)
  }
}
