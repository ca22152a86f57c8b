/** From what a worker returns to what is stored: whichever way the outcome of an execution travels, and whenever
it arrives, if it settles a row then the row becomes what the worker returned.
*/
module Outcomes {
  import opened Instants
  import opened Rows
  import opened Store
  import opened Executor
  import opened Runs
  import opened Guarantees
  import opened Histories

  // ---------- Where an operation comes from ----------

  /** Step k is the end of the execution of t: its worker left this behind, and op says so. */
  ghost predicate EndedAt(ws: seq<World>, ls: seq<Label>, k: int, t: Token, work: Work, op: Op) {
    && 0 <= k < |ls| < |ws| && ls[k].Concludes? && ls[k].token == t && t in ws[k].execs
    && work == Work(ls[k].user, ls[k].outcome, ls[k].delay)
    && EndsAs(ws[k].execs[t], work, ls[k].now, op)
  }

  /** Every operation is that of an execution that ended. */
  lemma {:induction false} OperationsHaveAnEnd(ws: seq<World>, ls: seq<Label>, i: nat, t: Token)
    returns (k: nat, work: Work)
    requires IsRun(ws, ls) && i < |ws| && t in ws[i].ops
    ensures k < i && EndedAt(ws, ls, k, t, work, ws[i].ops[t])
  {
    var j := i - 1;
    ToState(ws, ls, j, i);
    if t in ws[j].ops {
      k, work := OperationsHaveAnEnd(ws, ls, j, t);
      OperationStays(ws[j], ls[j], ws[i], t);
    } else {
      k := j;
      work := OperationAppears(ws[j], ls[j], ws[i], t);
    }
  }

  lemma OperationStays(w: World, l: Label, w': World, t: Token)
    requires Step(w, l, w') && t in w.ops
    ensures t in w'.ops && w'.ops[t] == w.ops[t]
  {
  }

  lemma OperationAppears(w: World, l: Label, w': World, t: Token) returns (work: Work)
    requires Step(w, l, w') && t !in w.ops && t in w'.ops
    ensures l.Concludes? && l.token == t && t in w.execs && work == Work(l.user, l.outcome, l.delay)
    ensures EndsAs(w.execs[t], work, l.now, w'.ops[t])
  {
    work := Work(l.user, l.outcome, l.delay);
    ConclusionsByPrecedence(w.execs[t], work, l.now);
  }

  /** Every execution began with a claim, whose worker was handed the row as claimed. */
  lemma {:induction false} ExecutionsHaveAClaim(ws: seq<World>, ls: seq<Label>, i: nat, t: Token) returns (k: nat)
    requires IsRun(ws, ls) && i < |ws| && t in ws[i].execs
    ensures k < i && ls[k].Fetches? && ws[i].execs[t] in ls[k].out
  {
    var j := i - 1;
    ToState(ws, ls, j, i);
    if t in ws[j].execs {
      k := ExecutionsHaveAClaim(ws, ls, j, t);
      StepKeepsExecs(ws[j], ls[j], ws[i], t);
    } else {
      k := j;
      HandedOut(ws[j], ls[j], ws[i], t);
    }
  }

  lemma HandedOut(w: World, l: Label, w': World, t: Token)
    requires Step(w, l, w') && t !in w.execs && t in w'.execs
    ensures l.Fetches? && w'.execs[t] in l.out
  {
    assert t in Issued(l.out);
    var r :| r in l.out && t == Token(r.id, r.generation);
    assert r.id in w.jobs && r == Claim(w.jobs[r.id], l.client, l.now);
  }

  // ---------- What becomes of the job ----------

  /** The row after an execution, by what its worker left behind at ended, written at now. */
  ghost predicate Becomes(was: Row, after: Row, work: Work, ended: Instant, now: Instant) {
    && after.metadata.Metadata? && after.metadata.user == work.user
    && (was.metadata.Metadata? ==>
          && after.metadata.timeoutMs == was.metadata.timeoutMs
          && after.metadata.snoozes - was.metadata.snoozes == if AsksForSnooze(work.outcome) then 1 else 0)
    && (work.outcome.Succeeded? ==>
          && after.state == Completed && after.finalizedAt == now
          && after.attempt == was.attempt && after.errors == was.errors)
    && (AsksForSnooze(work.outcome) ==>
          && after.state == Retryable && after.scheduledAt == ended + work.outcome.failure.snooze.value
          && after.attempt == was.attempt - 1 && after.finalizedAt == ZERO_TIME && after.errors == was.errors)
    && (work.outcome.Failed? && work.outcome.failure.cancel.Some? ==>
          && after.state == Cancelled && after.finalizedAt == now && after.attempt == was.attempt
          && (work.outcome.failure.cancel.value == "" ==> after.errors == was.errors)
          && (work.outcome.failure.cancel.value != "" ==>
                after.errors == was.errors + [AttemptError(now, was.attempt, work.outcome.failure.cancel.value, "")]))
    && (work.outcome.Failed? && work.outcome.failure.cancel.None? && work.outcome.failure.snooze.None? ==>
          FailsTo(was, after, work.outcome.failure, work.delay, ended, now))
  }

  /** A failure goes on record under the attempt that failed, with its text and, after a panic, its stack; the
      job waits for the instant the worker named, or for its backoff, or is dead when this was its last
      attempt. */
  ghost predicate FailsTo(was: Row, after: Row, f: Failure, delay: Duration, ended: Instant, now: Instant) {
    && after.attempt == was.attempt && |after.errors| == |was.errors| + 1 && was.errors <= after.errors
    && after.errors[|was.errors|].at == ended && after.errors[|was.errors|].attempt == was.attempt
    && (f.retryAt.Some? ==> after.errors[|was.errors|].err == f.retryAt.value.1)
    && (f.retryAt.None? ==> after.errors[|was.errors|].err == f.message)
    && (f.retryAt.None? && f.stack.Some? ==> after.errors[|was.errors|].stack == f.stack.value)
    && (was.attempt >= was.maxAttempts ==> after.state == Dead && after.finalizedAt == now)
    && (was.attempt < was.maxAttempts ==>
          && after.state == Retryable && after.finalizedAt == ZERO_TIME
          && after.scheduledAt == if f.retryAt.Some? then f.retryAt.value.0 else ended + delay)
  }

  lemma SettledAsReturned(was: Row, handed: Row, after: Row, work: Work, ended: Instant, op: Op, now: Instant)
    requires Matches(was, handed) && handed.metadata.Metadata? && EndsAs(handed, work, ended, op)
    requires after == Settle(was, op, now)
    ensures Becomes(was, after, work, ended, now)
  {
    match op {
      case Complete(_, _) =>
      case Retry(_, _, _, _) =>
      case Cancel(_, _, _) =>
      case Kill(_, _, _) =>
      case Snooze(_, _, _) =>
    }
  }

  lemma SettledByItsOwn(w: World, l: Label, w': World, id: JobId, op: Op, now: Instant)
    requires WorldOk(w) && Step(w, l, w') && id in w.jobs && id in w'.jobs && Happened(w, l, id) == Settled(op, now)
    ensures op.token in w.ops && w.ops[op.token] == op && op.token in w.execs
    ensures Matches(w.jobs[id], w.execs[op.token]) && w.execs[op.token].metadata.Metadata?
    ensures w'.jobs[id] == Settle(w.jobs[id], op, now)
  {
    HappenedSo(w, l, w', id);
    assert RunningMatches(w, w.jobs[id]) && RowOk(w.jobs[id], w.baseline[id]);
  }

  /** A row that is settled becomes what the worker of its own execution returned, however the outcome got
      there. */
  lemma JobsBecomeWhatWorkersReturn(ws: seq<World>, ls: seq<Label>, i: nat, j: nat, id: JobId, op: Op, now: Instant)
    returns (claim: nat, end: nat, work: Work)
    requires IsRun(ws, ls) && j == i + 1 < |ws| && id in ws[i].jobs && id in ws[j].jobs
    requires Happened(ws[i], ls[i], id) == Settled(op, now)
    ensures claim < end < i && EndedAt(ws, ls, end, op.token, work, op)
    ensures ls[claim].Fetches? && ws[end].execs[op.token] in ls[claim].out
    ensures Matches(ws[i].jobs[id], ws[end].execs[op.token])
    ensures Becomes(ws[i].jobs[id], ws[j].jobs[id], work, ls[end].now, now)
  {
    ToState(ws, ls, i, j);
    SettledByItsOwn(ws[i], ls[i], ws[j], id, op, now);
    end, work := OperationsHaveAnEnd(ws, ls, i, op.token);
    claim := ExecutionsHaveAClaim(ws, ls, end, op.token);
    ExecsPersist(ws, ls, end, i, op.token);
    SettledAsReturned(ws[i].jobs[id], ws[end].execs[op.token], ws[j].jobs[id], work, ls[end].now, op, now);
  }
}
