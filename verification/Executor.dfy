/** How an execution's result becomes the operation that ends it. */
module Executor {
  import opened Instants
  import opened Rows

  datatype Option<T> = None | Some(value: T)

  /** What unwrapping a worker's error finds in it. One error may carry several control errors. */
  datatype Failure = Failure(
    message: string, cancel: Option<string>, snooze: Option<Duration>, retryAt: Option<(Instant, string)>,
    stack: Option<string>)

  datatype Outcome = Succeeded | Failed(failure: Failure)

  /** The operation runJob pushes, for the row as the worker leaves it. The backoff delay is whatever
      the retry policy says. */
  function Conclude(row: Row, outcome: Outcome, now: Instant, delay: Duration): (op: Op)
  {
    var token := Token(row.id, row.generation);
    match outcome
    case Succeeded => Complete(token, row.metadata)
    case Failed(f) =>
      if f.cancel.Some? then Cancel(token, f.cancel.value, row.metadata)
      else if f.snooze.Some? then Snooze(token, now + f.snooze.value, BumpSnoozes(row.metadata))
      else if f.retryAt.Some? then
        var err := AttemptError(now, row.attempt, f.retryAt.value.1, "");
        if row.attempt >= row.maxAttempts then Kill(token, err, row.metadata)
        else Retry(token, f.retryAt.value.0, err, row.metadata)
      else
        var err := AttemptError(now, row.attempt, f.message, if f.stack.Some? then f.stack.value else "");
        if row.attempt >= row.maxAttempts then Kill(token, err, row.metadata)
        else Retry(token, now + delay, err, row.metadata)
  }

  /** The worker may rewrite the user's part of the metadata of its own copy, and nothing else. */
  function WorkedOn(row: Row, user: string): Row {
    if row.metadata.NoMetadata? then row else row.(metadata := row.metadata.(user := user))
  }

  /** What every later proof needs of an operation: it presents the execution's own token, records
      the execution's own attempt, retries only within the budget and kills only beyond it, and
      counts a snooze exactly when it snoozes. */
  ghost predicate Honest(row: Row, op: Op) {
    && op.token == Token(row.id, row.generation)
    && (op.Retry? ==> op.err.attempt == row.attempt && row.attempt < row.maxAttempts)
    && (op.Kill? ==> op.err.attempt == row.attempt && row.attempt >= row.maxAttempts)
    && (op.metadata.NoMetadata? ==> row.metadata.NoMetadata? && !op.Snooze?)
    && SnoozeCount(op.metadata) == SnoozeCount(row.metadata) + (if op.Snooze? then 1 else 0)
  }

  lemma ConclusionsAreHonest(row: Row, user: string, outcome: Outcome, now: Instant, delay: Duration)
    ensures Honest(row, Conclude(WorkedOn(row, user), outcome, now, delay))
  {
  }

  /** What a worker leaves behind: the user's part of the metadata, its outcome, and the delay that the retry
      policy answers with. */
  datatype Work = Work(user: string, outcome: Outcome, delay: Duration)

  predicate AsksForSnooze(outcome: Outcome) {
    outcome.Failed? && outcome.failure.cancel.None? && outcome.failure.snooze.Some?
  }

  /** The operation that ends an execution, by what its worker left behind: a request to cancel beats one to
      snooze, which beats one to retry at a given time; without any of them the failure waits out the backoff;
      and the last attempt of the budget kills instead of retrying. */
  ghost predicate EndsAs(row: Row, work: Work, ended: Instant, op: Op) {
    && op.token == Token(row.id, row.generation)
    && (op.Complete? <==> work.outcome.Succeeded?)
    && (op.Cancel? <==> work.outcome.Failed? && work.outcome.failure.cancel.Some?)
    && (op.Snooze? <==> AsksForSnooze(work.outcome))
    && (op.Cancel? ==> op.reason == work.outcome.failure.cancel.value)
    && (op.Snooze? ==> op.at - ended == work.outcome.failure.snooze.value)
    && (op.Kill? || op.Retry? ==> FailsAs(row, work.outcome.failure, work.delay, ended, op))
    && KeepsMetadata(row.metadata, work.user, op)
  }

  ghost predicate FailsAs(row: Row, f: Failure, delay: Duration, ended: Instant, op: Op)
    requires op.Kill? || op.Retry?
  {
    && op.err.at == ended && op.err.attempt == row.attempt
    && (op.Kill? <==> row.maxAttempts <= row.attempt)
    && (f.retryAt.Some? ==> op.err.err == f.retryAt.value.1 && op.err.stack == "")
    && (f.retryAt.None? ==> op.err.err == f.message && (f.stack.Some? ==> op.err.stack == f.stack.value))
    && (f.retryAt.None? && f.stack.None? ==> op.err.stack == "")
    && (op.Retry? && f.retryAt.Some? ==> op.at == f.retryAt.value.0)
    && (op.Retry? && f.retryAt.None? ==> op.at - ended == delay)
  }

  /** The user's part is what the worker left there, the timeout is kept, and a snooze is counted. */
  ghost predicate KeepsMetadata(was: Metadata, user: string, op: Op) {
    && (was.Metadata? ==>
          && op.metadata.Metadata? && op.metadata.user == user && op.metadata.timeoutMs == was.timeoutMs
          && op.metadata.snoozes - was.snoozes == if op.Snooze? then 1 else 0)
    && (was.NoMetadata? && op.Snooze? ==> op.metadata == Metadata("", 0, 1))
    && (was.NoMetadata? && !op.Snooze? ==> op.metadata.NoMetadata?)
  }

  lemma ConclusionsByPrecedence(row: Row, work: Work, ended: Instant)
    ensures EndsAs(row, work, ended, Conclude(WorkedOn(row, work.user), work.outcome, ended, work.delay))
  {
    var op := Conclude(WorkedOn(row, work.user), work.outcome, ended, work.delay);
    match op {
      case Complete(_, _) =>
      case Retry(_, _, _, _) =>
      case Cancel(_, _, _) =>
      case Kill(_, _, _) =>
      case Snooze(_, _, _) =>
    }
  }

  /** There is one such operation. */
  lemma EndsOneWay(row: Row, work: Work, ended: Instant, a: Op, b: Op)
    requires EndsAs(row, work, ended, a) && EndsAs(row, work, ended, b)
    ensures a == b
  {
    match a {
      case Complete(_, _) =>
      case Retry(_, _, _, _) =>
      case Cancel(_, _, _) =>
      case Kill(_, _, _) =>
      case Snooze(_, _, _) =>
    }
  }

  lemma EndingsAreHonest(row: Row, work: Work, ended: Instant, op: Op)
    requires EndsAs(row, work, ended, op)
    ensures Honest(row, op)
  {
  }
}
