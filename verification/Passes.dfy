/** What a synchronous pass does to the stored jobs, as relations on values: who has been claimed in it,
what an execution leaves behind, and how many executions a job still has in it.
*/
module Passes {
  import opened Instants
  import opened Rows
  import opened Store
  import opened Executor
  import opened Flushing
  import opened MemoryBackend
  import opened Completer

  /** One execution of a pass: the row as the worker was handed it, the operation it ended with and when it
      did, and when, and whether, the call reached the store. */
  datatype Run = Run(row: Row, op: Op, ended: Instant, at: Instant, reached: bool)

  /** What the caller is told of an execution. */
  datatype JobResult = JobResult(job: Row, outcome: Kind, err: string)

  function ResultOf(row: Row, op: Op): JobResult {
    JobResult(row, KindOf(op),
      match op
      case Retry(_, _, err, _) => err.err
      case Cancel(_, reason, _) => reason
      case Kill(_, err, _) => err.err
      case _ => "")
  }

  // ---------- One execution ----------

  /** What happens to the jobs while one of them is run: its row is settled unless the call is lost, or
      refused for its instant, or superseded; and unless the surroundings are quiet new jobs may
      appear. */
  ghost predicate Ran(before: Jobs, after: Jobs, id: JobId, op: Op, at: Instant, reached: bool, quiet: bool) {
    && before.Keys <= after.Keys && (quiet ==> after.Keys == before.Keys)
    && (forall x :: x in before && x != id ==> after[x] == before[x])
    && (id in before ==>
          after[id] == if reached && op.InRange() && Live(before, op.token) then Settle(before[id], op, at)
                       else before[id])
  }

  lemma OfKindOfOne(op: Op, k: Kind)
    ensures OfKind([op], k) == if KindOf(op) == k then [op] else []
  {
    assert [op][..0] == [];
  }

  lemma EmptyBatch(jobs: Jobs, now: Instant)
    ensures Batch(jobs, [], now) == jobs
  {
  }

  lemma GroupOfOne(jobs: Jobs, op: Op, k: Kind, now: Instant, reached: bool)
    ensures BatchIf(jobs, OfKind([op], k), now, reached)
      == if k == KindOf(op) then BatchIf(jobs, [op], now, reached) else jobs
  {
    OfKindOfOne(op, k);
    EmptyBatch(jobs, now);
  }

  /** A flush of one operation is one call, with the one operation. */
  lemma FlushOfOne(jobs: Jobs, op: Op, now: Instant, reached: Reach)
    ensures FlushReaching(jobs, [op], now, reached) == BatchIf(jobs, [op], now, reached.For(KindOf(op)))
  {
    var a := BatchIf(jobs, OfKind([op], Completes), now, reached.completes);
    GroupOfOne(jobs, op, Completes, now, reached.completes);
    var b := BatchIf(a, OfKind([op], Retries), now, reached.retries);
    GroupOfOne(a, op, Retries, now, reached.retries);
    var c := BatchIf(b, OfKind([op], Cancels), now, reached.cancels);
    GroupOfOne(b, op, Cancels, now, reached.cancels);
    var d := BatchIf(c, OfKind([op], Kills), now, reached.kills);
    GroupOfOne(c, op, Kills, now, reached.kills);
    GroupOfOne(d, op, Snoozes, now, reached.snoozes);
  }

  // ---------- At most once ----------

  /** The rows claimed in a pass are claimed once each, and none of them is claimable any more. */
  ghost predicate ClaimedOnce(jobs: Jobs, claimed: seq<Row>) {
    && (forall i, j :: 0 <= i < j < |claimed| ==> claimed[i].id != claimed[j].id)
    && (forall i :: 0 <= i < |claimed| ==> claimed[i].id in jobs && jobs[claimed[i].id].state != Available)
  }

  /** From the k-th on the claimed rows are still as they were handed out. */
  ghost predicate Pending(jobs: Jobs, claimed: seq<Row>, k: int) {
    forall i :: 0 <= k <= i < |claimed| ==>
      claimed[i].id in jobs && jobs[claimed[i].id] == claimed[i] && claimed[i].state == Running
  }

  lemma FetchClaimsOnce(
      jobs: Jobs, claimed: seq<Row>, queue: string, limit: nat, client: string, now: Instant, out: seq<Row>)
    requires ClaimedOnce(jobs, claimed) && FetchedRows(jobs, queue, limit, client, now, out)
    requires forall id :: id in jobs ==> jobs[id].id == id
    ensures ClaimedOnce(ClaimAll(jobs, Ids(out), client, now), claimed + out)
    ensures Pending(ClaimAll(jobs, Ids(out), client, now), claimed + out, |claimed|)
  {
    var after := ClaimAll(jobs, Ids(out), client, now);
    var all := claimed + out;
    forall i | 0 <= i < |out|
      ensures out[i].id in jobs && jobs[out[i].id].state == Available && after[out[i].id] == out[i]
    {
      assert out[i] in out;
    }
    forall i, j | 0 <= i < j < |all| ensures all[i].id != all[j].id {
      if |claimed| <= i {
        assert Before(out[i - |claimed|], out[j - |claimed|]);
        assert all[i] == out[i - |claimed|] && all[j] == out[j - |claimed|];
      }
    }
    forall i | 0 <= i < |all| ensures all[i].id in after && after[all[i].id].state != Available {
      if |claimed| <= i { assert all[i] == out[i - |claimed|]; }
    }
  }

  lemma RunKeepsClaims(
      before: Jobs, after: Jobs, claimed: seq<Row>, k: nat, op: Op, at: Instant, reached: bool, quiet: bool)
    requires ClaimedOnce(before, claimed) && k < |claimed| && Pending(before, claimed, k)
    requires Ran(before, after, claimed[k].id, op, at, reached, quiet)
    ensures ClaimedOnce(after, claimed) && Pending(after, claimed, k + 1)
  {
  }

  /** What the store holds of a job that ran: its row as settled, or as claimed if the outcome never got
      there or was refused. */
  ghost predicate Recorded(jobs: Jobs, log: seq<Run>) {
    forall i :: 0 <= i < |log| ==> RecordedRun(jobs, log[i])
  }

  ghost predicate RecordedRun(jobs: Jobs, r: Run) {
    && r.row.id in jobs && r.row.state == Running
    && jobs[r.row.id] == if r.reached && r.op.InRange() then Settle(r.row, r.op, r.at) else r.row
  }

  lemma RunIsRecorded(before: Jobs, after: Jobs, log: seq<Run>, r: Run, quiet: bool)
    requires Recorded(before, log) && forall i :: 0 <= i < |log| ==> log[i].row.id != r.row.id
    requires r.row.id in before && before[r.row.id] == r.row && r.row.state == Running && Honest(r.row, r.op)
    requires Ran(before, after, r.row.id, r.op, r.at, r.reached, quiet)
    ensures Recorded(after, log + [r])
  {
    forall i | 0 <= i < |log| ensures RecordedRun(after, log[i]) {
      assert RecordedRun(before, log[i]);
    }
  }

  /** The state that a reported outcome speaks of. */
  function StateOf(outcome: Kind): State {
    match outcome
    case Completes => Completed
    case Retries => Retryable
    case Cancels => Cancelled
    case Kills => Dead
    case Snoozes => Retryable
  }

  /** A pass reports an outcome even when the store refused it: the job is in the state reported exactly
      when the call got there and the instant, if any, was storable. */
  lemma ReportsAreTrueOfStorableInstants(jobs: Jobs, r: Run)
    requires RecordedRun(jobs, r)
    ensures jobs[r.row.id].state == StateOf(ResultOf(r.row, r.op).outcome) <==> r.reached && r.op.InRange()
  {
  }

  /** The error text reported is the one that the call added to the job's history, and none is reported
      when the history did not grow. */
  lemma ReportedErrorsAreRecorded(jobs: Jobs, r: Run)
    requires RecordedRun(jobs, r) && Honest(r.row, r.op) && r.reached && r.op.InRange()
    ensures var text := ResultOf(r.row, r.op).err;
      var was, errors := r.row.errors, jobs[r.row.id].errors;
      || (errors == was && text == "")
      || (|errors| == |was| + 1 && errors[..|was|] == was
          && errors[|was|].err == text && errors[|was|].attempt == r.row.attempt)
  {
    var was, errors := r.row.errors, jobs[r.row.id].errors;
    if errors != was { assert errors[..|was|] == was; }
  }

  // ---------- Quiet passes ----------

  /** What is left of a claimed row that was never snoozed: it runs, it is finished, or it waits for its
      next attempt with budget to spare. */
  predicate Spent(was: Row, row: Row) {
    && row.queue == was.queue && row.maxAttempts == was.maxAttempts
    && row.state != Available && row.state != Scheduled
    && (!row.state.Terminal() ==> row.attempt == was.attempt + 1)
    && (row.state == Retryable ==> row.attempt < row.maxAttempts)
  }

  /** Since the drains of a pass began, the claimed rows were spent and no other row was touched. */
  ghost predicate Touching(base: Jobs, jobs: Jobs, claimed: seq<Row>) {
    && jobs.Keys == base.Keys
    && (forall id :: id in Ids(claimed) ==> id in base && base[id].state == Available && Spent(base[id], jobs[id]))
    && (forall id :: id in base && id !in Ids(claimed) ==> jobs[id] == base[id])
  }

  /** In a quiet pass a fetch finds what was claimable when the drains began. */
  lemma FetchedSinceTheStart(
      base: Jobs, jobs: Jobs, claimed: seq<Row>, queue: string, limit: nat, client: string, now: Instant,
      out: seq<Row>)
    requires Touching(base, jobs, claimed) && FetchedRows(jobs, queue, limit, client, now, out)
    ensures Ids(out) <= Candidates(base, queue, now) && Ids(out) !! Ids(claimed)
    ensures forall id :: id in Ids(out) ==> jobs[id] == base[id]
  {
  }

  lemma FetchTouches(
      base: Jobs, jobs: Jobs, claimed: seq<Row>, queue: string, limit: nat, client: string, now: Instant,
      out: seq<Row>)
    requires Touching(base, jobs, claimed) && FetchedRows(jobs, queue, limit, client, now, out)
    ensures Touching(base, ClaimAll(jobs, Ids(out), client, now), claimed + out)
    ensures Ids(out) <= Candidates(base, queue, now)
  {
    FetchedSinceTheStart(base, jobs, claimed, queue, limit, client, now, out);
    assert Ids(claimed + out) == Ids(claimed) + Ids(out);
    ClaimingTouches(base, jobs, claimed, claimed + out, Ids(out), client, now);
  }

  lemma ClaimingTouches(
      base: Jobs, jobs: Jobs, claimed: seq<Row>, more: seq<Row>, ids: set<JobId>, client: string, now: Instant)
    requires Touching(base, jobs, claimed) && Ids(more) == Ids(claimed) + ids && ids !! Ids(claimed)
    requires forall id :: id in ids ==> id in base && base[id].state == Available && jobs[id] == base[id]
    ensures Touching(base, ClaimAll(jobs, ids, client, now), more)
  {
  }

  lemma SettlingSpends(was: Row, row: Row, op: Op, at: Instant)
    requires Spent(was, row) && row.state == Running && Honest(row, op) && !op.Snooze?
    ensures Spent(was, Settle(row, op, at))
  {
  }

  lemma RunTouches(base: Jobs, before: Jobs, after: Jobs, claimed: seq<Row>, k: nat, op: Op, at: Instant, reached: bool)
    requires Touching(base, before, claimed) && k < |claimed| && Pending(before, claimed, k)
    requires Ran(before, after, claimed[k].id, op, at, reached, true) && Honest(claimed[k], op) && !op.Snooze?
    ensures Touching(base, after, claimed)
  {
    var id := claimed[k].id;
    assert claimed[k] in claimed && id in Ids(claimed);
    SettlingSpends(base[id], before[id], op, at);
  }

  /** A quiet pass makes no job claimable. */
  lemma NothingBecomesClaimable(base: Jobs, jobs: Jobs, claimed: seq<Row>, queue: string, now: Instant)
    requires Touching(base, jobs, claimed)
    ensures Candidates(jobs, queue, now) == Candidates(base, queue, now) - Ids(claimed)
  {
  }

  // ---------- How often a job can still run ----------

  function Named(queues: seq<string>): set<string> {
    set q | q in queues
  }

  /** The job is waiting in one of the queues, and its time has come. */
  predicate Ready(row: Row, queues: set<string>, now: Instant) {
    && row.queue in queues && row.scheduledAt <= now
    && (row.state == Available || row.state == Scheduled || row.state == Retryable)
  }

  /** While the clock stands still and nobody snoozes, a ready job can run at most this often. */
  function RunsLeft(row: Row, queues: set<string>, now: Instant): nat {
    if !Ready(row, queues, now) then 0
    else if row.maxAttempts - row.attempt < 1 then 1
    else row.maxAttempts - row.attempt
  }

  /** In the fields of the row: nothing is left exactly when it does not wait in these queues for a time that
      has come, and else as many attempts as its budget has left, but one at least. */
  lemma RunsLeftInNumbers(row: Row, queues: set<string>, now: Instant)
    ensures RunsLeft(row, queues, now) == 0 <==>
      || row.queue !in queues || now < row.scheduledAt
      || row.state in {Running, Completed, Cancelled, Dead}
    ensures RunsLeft(row, queues, now) > 0 ==>
      RunsLeft(row, queues, now) == if row.attempt < row.maxAttempts then row.maxAttempts - row.attempt else 1
  {
  }

  /** Everything that was due is available. */
  ghost predicate Promoted(was: Jobs, base: Jobs, now: Instant) {
    base == MoveAll(was, DueIds(was, now))
  }

  /** A pass over these queues that claimed rows from them only, and left nothing to claim. */
  ghost predicate Drained(base: Jobs, jobs: Jobs, claimed: seq<Row>, queues: set<string>, now: Instant) {
    && Touching(base, jobs, claimed)
    && (forall id :: id in Ids(claimed) ==> base[id].queue in queues && base[id].scheduledAt <= now)
    && (forall q :: q in queues ==> Candidates(jobs, q, now) == {})
  }

  function OneIf(b: bool): nat { if b then 1 else 0 }

  /** A job that runs in a pass can run once less afterwards; every job that can run at all afterwards
      did run in it. */
  lemma PassSpends(was: Jobs, base: Jobs, jobs: Jobs, claimed: seq<Row>, queues: set<string>, now: Instant, id: JobId)
    requires Promoted(was, base, now) && Drained(base, jobs, claimed, queues, now) && id in was
    ensures id in jobs && jobs[id].queue == was[id].queue
    ensures OneIf(id in Ids(claimed)) + RunsLeft(jobs[id], queues, now) <= RunsLeft(was[id], queues, now)
    ensures RunsLeft(jobs[id], queues, now) > 0 ==> id in Ids(claimed)
  {
    var row := jobs[id];
    assert row.queue in queues ==> (id in Candidates(jobs, row.queue, now) <==> Claimable(row, row.queue, now));
  }

  // ---------- Counting claims ----------

  lemma {:induction false} DistinctRows(rows: seq<Row>, ids: set<JobId>)
    requires forall i, j :: 0 <= i < j < |rows| ==> rows[i].id != rows[j].id
    requires Ids(rows) <= ids
    ensures |rows| <= |ids|
  {
    if rows != [] {
      var n := |rows| - 1;
      assert rows == rows[..n] + [rows[n]];
      assert rows[n].id in Ids(rows);
      forall r | r in rows[..n] ensures r.id in ids - {rows[n].id} {
        assert r in rows && r.id in Ids(rows);
      }
      DistinctRows(rows[..n], ids - {rows[n].id});
    }
  }

  /** The jobs of one queue that are ready. */
  function ReadyIn(jobs: Jobs, queue: string, now: Instant): set<JobId> {
    set id | id in jobs && Ready(jobs[id], {queue}, now)
  }

  /** Promotion makes exactly the ready jobs of a queue claimable. */
  lemma PromotedAreClaimable(was: Jobs, base: Jobs, queue: string, now: Instant)
    requires Promoted(was, base, now)
    ensures Candidates(base, queue, now) == ReadyIn(was, queue, now)
  {
  }

  // ---------- Promotion ----------

  lemma {:induction false} EqualBySize(a: set<JobId>, b: set<JobId>)
    requires a <= b && |b| <= |a|
    ensures a == b
  {
    if x :| x in b && x !in a {
      SubsetSize(a + {x}, b);
    }
  }

  /** A further batch of promotions. */
  lemma MoveMore(was: Jobs, moved: set<JobId>, picked: set<JobId>, now: Instant)
    requires moved <= was.Keys
    ensures MoveAll(MoveAll(was, moved), picked) == MoveAll(was, moved + picked)
    ensures DueIds(MoveAll(was, moved), now) == DueIds(was, now) - moved
  {
  }

  /** After a batch that moved fewer than it might, everything due has been moved. */
  lemma LastBatch(due: set<JobId>, moved: set<JobId>, picked: set<JobId>, limit: int)
    requires moved <= due && BoundedPick(picked, due - moved, limit)
    ensures |moved + picked| == |moved| + |picked| && moved + picked <= due
    ensures |picked| < limit ==> moved + picked == due
  {
    if |picked| < limit { EqualBySize(picked, due - moved); }
  }

  // ---------- Executions of one job ----------

  datatype RanJob = RanJob(result: JobResult, round: nat)

  function Times(ran: seq<RanJob>, id: JobId): nat {
    if ran == [] then 0 else Times(ran[..|ran| - 1], id) + OneIf(ran[|ran| - 1].result.job.id == id)
  }

  lemma {:induction false} TimesAppend(a: seq<RanJob>, b: seq<RanJob>, id: JobId)
    ensures Times(a + b, id) == Times(a, id) + Times(b, id)
  {
    if b == [] {
      assert a + b == a;
    } else {
      assert (a + b)[..|a + b| - 1] == a + b[..|b| - 1];
      TimesAppend(a, b[..|b| - 1], id);
    }
  }

  /** In one pass a job shows up as often as it was claimed: once or not at all. */
  lemma {:induction false} TimesInRound(ran: seq<RanJob>, rows: seq<Row>, id: JobId)
    requires |ran| == |rows| && forall i :: 0 <= i < |rows| ==> ran[i].result.job == rows[i]
    requires forall i, j :: 0 <= i < j < |rows| ==> rows[i].id != rows[j].id
    ensures Times(ran, id) == OneIf(id in Ids(rows))
  {
    if rows != [] {
      var n := |rows| - 1;
      TimesInRound(ran[..n], rows[..n], id);
      assert rows == rows[..n] + [rows[n]];
      forall r | r in rows[..n] ensures r.id != rows[n].id {}
    }
  }

  /** The stores that a fake can work off: few enough due jobs to promote at once, and few enough ready
      ones in each queue not to be taken for a loop. */
  ghost predicate Modest(jobs: Jobs, queues: set<string>, now: Instant, due: nat, perQueue: nat) {
    && |jobs.Keys| <= due
    && forall q :: q in queues ==> |ReadyIn(jobs, q, now)| <= perQueue
  }

  /** Every job of the second store can run less often than in the first, by as often as it was claimed in
      between; and those that still can were claimed. */
  ghost predicate Spends(was: Jobs, jobs: Jobs, claimed: seq<Row>, queues: set<string>, now: Instant) {
    && jobs.Keys == was.Keys && Ids(claimed) <= was.Keys
    && forall id :: id in was ==>
         && jobs[id].queue == was[id].queue
         && OneIf(id in Ids(claimed)) + RunsLeft(jobs[id], queues, now) <= RunsLeft(was[id], queues, now)
         && (RunsLeft(jobs[id], queues, now) > 0 ==> id in Ids(claimed))
  }

  lemma StaysModest(
      was: Jobs, jobs: Jobs, claimed: seq<Row>, queues: set<string>, now: Instant, due: nat, perQueue: nat)
    requires Modest(was, queues, now, due, perQueue) && Spends(was, jobs, claimed, queues, now)
    ensures Modest(jobs, queues, now, due, perQueue)
  {
    forall q | q in queues ensures |ReadyIn(jobs, q, now)| <= perQueue {
      forall id | id in ReadyIn(jobs, q, now) ensures id in ReadyIn(was, q, now) {
        assert RunsLeft(jobs[id], queues, now) > 0;
      }
      SubsetSize(ReadyIn(jobs, q, now), ReadyIn(was, q, now));
    }
  }

  /** After so many rounds: no job has run more often than it could, and what can still run can do so at
      most as often as there are rounds left. */
  ghost predicate WithinBounds(
      was: Jobs, jobs: Jobs, ran: seq<RanJob>, queues: set<string>, now: Instant, most: nat, rounds: nat)
  {
    && jobs.Keys == was.Keys
    && forall id :: id in was ==>
         && Times(ran, id) + RunsLeft(jobs[id], queues, now) <= RunsLeft(was[id], queues, now)
         && (RunsLeft(jobs[id], queues, now) > 0 ==> RunsLeft(jobs[id], queues, now) + rounds <= most)
  }

  lemma OneMoreRound(
      was: Jobs, before: Jobs, after: Jobs, ran: seq<RanJob>, round: seq<RanJob>, rows: seq<Row>,
      queues: set<string>, now: Instant, most: nat, rounds: nat)
    requires WithinBounds(was, before, ran, queues, now, most, rounds) && Spends(before, after, rows, queues, now)
    requires |round| == |rows| && forall i :: 0 <= i < |rows| ==> round[i].result.job == rows[i]
    requires forall i, j :: 0 <= i < j < |rows| ==> rows[i].id != rows[j].id
    ensures WithinBounds(was, after, ran + round, queues, now, most, rounds + 1)
    ensures rows != [] ==> rounds + 1 <= most
    ensures rows == [] ==> forall id :: id in after ==> RunsLeft(after[id], queues, now) == 0
  {
    forall id | id in was
      ensures Times(ran + round, id) + RunsLeft(after[id], queues, now) <= RunsLeft(was[id], queues, now)
      ensures RunsLeft(after[id], queues, now) > 0 ==> RunsLeft(after[id], queues, now) + rounds + 1 <= most
    {
      TimesAppend(ran, round, id);
      TimesInRound(round, rows, id);
    }
    if rows != [] {
      assert rows[0] in rows && rows[0].id in Ids(rows);
    }
  }
}
