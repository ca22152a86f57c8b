/** The synchronous engine: passes over queues on the calling goroutine, and the fake that repeats them
until nothing is left to do.

Workers, clocks, contexts and everybody else who enqueues are arbitrary. A quiet pass is one during which
the clock stands still, the context stays alive, and workers neither enqueue nor snooze.
*/
module Process {
  import opened Instants
  import opened Rows
  import opened Store
  import opened Executor
  import opened Flushing
  import opened MemoryBackend
  import opened Completer
  import opened Passes
  import opened Traces

  const MOVE_DUE_BATCH: nat := 1000
  const MOVE_DUE_MAX_BATCHES: nat := 1000
  const PROMOTION_LIMIT: nat := MOVE_DUE_MAX_BATCHES * MOVE_DUE_BATCH
  const QUEUE_JOB_BUDGET: nat := 10000
  const FETCH_LIMIT: nat := 100

  datatype PassError = NoFailure | ContextDone | BudgetExceeded(queue: string)

  function RowsOf(log: seq<Run>): (r: seq<Row>)
    ensures |r| == |log| && forall i :: 0 <= i < |r| ==> r[i] == log[i].row
  {
    seq(|log|, i requires 0 <= i < |log| => log[i].row)
  }

  function ResultsOf(log: seq<Run>): (r: seq<JobResult>)
    ensures |r| == |log| && forall i :: 0 <= i < |r| ==> r[i] == ResultOf(log[i].row, log[i].op)
  {
    seq(|log|, i requires 0 <= i < |log| => ResultOf(log[i].row, log[i].op))
  }

  /** A finalizer that writes each outcome at once and remembers it. */
  class SyncFinalizer {
    const cp: Completer
    var last: Option<Op>

    ghost predicate Valid()
      reads this, cp, cp.backend
    {
      cp.backend.Valid()
    }

    constructor (backend: Backend)
      requires backend.Valid()
      ensures Valid() && cp.backend == backend && fresh(cp) && last == None
    {
      cp := new Completer(backend, 1);
      last := None;
    }

    method Push(op: Op, now: Instant) returns (ghost reached: bool)
      requires Valid()
      modifies this`last, cp`dropped, cp`sent, cp`calls, cp.backend`jobs
      ensures Valid() && last == Some(op)
      ensures cp.backend.jobs == BatchIf(old(cp.backend.jobs), [op], now, reached)
    {
      ghost var more, kinds := cp.Flush([op], now);
      FlushOfOne(old(cp.backend.jobs), op, now, kinds);
      reached := kinds.For(KindOf(op));
      last := Some(op);
    }

    method Take(row: Row) returns (res: Option<JobResult>)
      modifies this`last
      ensures last == None
      ensures res == if old(last).Some? then Some(ResultOf(row, old(last).value)) else None
    {
      var op := last;
      last := None;
      res := if op.None? then None else Some(ResultOf(row, op.value));
    }
  }

  class Engine {
    const backend: Backend
    const client: string
    const clock: nat -> Instant
    const worker: Row -> Work
    var now: Instant
    var readings: nat
    ghost var trace: seq<Moment>

    constructor (backend: Backend, client: string, clock: nat -> Instant, worker: Row -> Work, now: Instant)
      ensures this.backend == backend && this.client == client && this.clock == clock && this.worker == worker
      ensures this.now == now
    {
      this.backend, this.client, this.clock, this.worker, this.now := backend, client, clock, worker, now;
      readings, trace := 0, [];
    }

    ghost function Around(quiet: bool): Env
      reads this
    {
      Env(quiet, now, clock, worker, client, 100, 1_000)
    }

    /** In quiet surroundings no worker asks to be snoozed. */
    ghost predicate Calm(quiet: bool) {
      quiet ==> forall row {:trigger worker(row)} :: !AsksForSnooze(worker(row).outcome)
    }

    /** The history of the pass is gapless and has come to the present. */
    ghost predicate Recording(quiet: bool)
      reads this, backend
    {
      && backend.Valid() && Calm(quiet) && Gapless(Around(quiet), trace)
      && Last(trace).jobs == backend.jobs && Last(trace).readings == readings
    }

    /** And no reading of the clock is left over. */
    ghost predicate Tracing(quiet: bool)
      reads this, backend
    {
      Recording(quiet) && Last(trace).recent == []
    }

    /** What has run so far: exactly what was claimed, each job once, and as it is recorded. */
    ghost predicate Going(quiet: bool, fin: SyncFinalizer, results: seq<JobResult>, log: seq<Run>, base: Jobs)
      reads this, backend, fin, fin.cp, fin.cp.backend
    {
      InOrder(quiet, fin, results, log, RowsOf(log), base)
    }

    /** The same with rows that are claimed and still wait for their turn. */
    ghost predicate InOrder(
        quiet: bool, fin: SyncFinalizer, results: seq<JobResult>, log: seq<Run>, claimed: seq<Row>, base: Jobs)
      reads this, backend, fin, fin.cp, fin.cp.backend
    {
      && Tracing(quiet) && RunsIn(trace) == log && RowsIn(trace) == claimed
      && fin.Valid() && fin.cp.backend == backend && results == ResultsOf(log)
      && |log| <= |claimed| && RowsOf(log) == claimed[..|log|]
      && Accounted(backend.jobs, log, claimed) && (quiet ==> Touching(base, backend.jobs, claimed))
      && AllReturned(Around(quiet), log)
    }

    static ghost predicate AllReturned(env: Env, log: seq<Run>) {
      forall i {:trigger env.Returned(log[i])} :: 0 <= i < |log| ==> env.Returned(log[i])
    }

    static ghost predicate Accounted(jobs: Jobs, log: seq<Run>, claimed: seq<Row>) {
      ClaimedOnce(jobs, claimed) && Pending(jobs, claimed, |log|) && Recorded(jobs, log)
    }

    /** The history went on, without promotions. */
    twostate predicate WentOn()
      reads this
    {
      old(trace) <= trace && NoPromotion(trace, |old(trace)|)
    }

    /** The history went on with readings and with what others stored. */
    twostate predicate NothingRun()
      reads this
    {
      WentOn() && RunsIn(trace) == RunsIn(old(trace)) && RowsIn(trace) == RowsIn(old(trace))
    }

    ghost method Note(event: Event, quiet: bool)
      requires trace != [] && Gapless(Around(quiet), trace) && backend.Valid() && Calm(quiet)
      requires Follows(Around(quiet), Last(trace), Moment(event, backend.jobs, Last(trace).clock, [], readings))
      modifies this`trace
      ensures Tracing(quiet)
      ensures trace == old(trace) + [Moment(event, backend.jobs, Last(old(trace)).clock, [], readings)]
      ensures RunsIn(trace) == RunsIn(old(trace)) + if event.Wrote? then [event.run] else []
      ensures RowsIn(trace) == RowsIn(old(trace)) + if event.Fetched? then event.out else []
      ensures Promotions(trace) == Promotions(old(trace)) + if event.MovedDue? then 1 else 0
    {
      var m := Moment(event, backend.jobs, Last(trace).clock, [], readings);
      StaysGapless(Around(quiet), trace, m);
      OneMoment(trace, m);
      trace := trace + [m];
    }

    method Clock(quiet: bool) returns (t: Instant)
      requires Recording(quiet)
      modifies this`readings, this`trace
      ensures Recording(quiet) && NothingRun() && t == Last(trace).clock == Around(quiet).Reading(old(readings))
      ensures Promotions(trace) == Promotions(old(trace)) && Last(trace).recent == Last(old(trace)).recent + [t]
    {
      t := if quiet then now else clock(readings);
      ghost var m := Moment(Read, backend.jobs, t, Last(trace).recent + [t], readings + 1);
      StaysGapless(Around(quiet), trace, m);
      OneMoment(trace, m);
      readings, trace := readings + 1, trace + [m];
    }

    /** A worker, and anybody else, may store new jobs while a job runs. */
    method Work(quiet: bool)
      requires Tracing(quiet)
      modifies backend, this`trace
      ensures Tracing(quiet) && NothingRun() && old(backend.jobs).Keys <= backend.jobs.Keys
      ensures forall id :: id in old(backend.jobs) ==> backend.jobs[id] == old(backend.jobs)[id]
      ensures quiet ==> backend.jobs == old(backend.jobs)
    {
      if quiet { return; }
      var batches: nat := *;
      while batches > 0
        invariant Tracing(quiet) && NothingRun() && old(backend.jobs).Keys <= backend.jobs.Keys
        invariant forall id :: id in old(backend.jobs) ==> backend.jobs[id] == old(backend.jobs)[id]
      {
        StoreSome();
        batches := batches - 1;
      }
    }

    method StoreSome()
      requires Tracing(false)
      modifies backend, this`trace
      ensures Tracing(false) && NothingRun() && old(backend.jobs).Keys <= backend.jobs.Keys
      ensures forall id :: id in old(backend.jobs) ==> backend.jobs[id] == old(backend.jobs)[id]
    {
      var rows: seq<Row> := *;
      var t: Instant := *;
      var ok, stored := backend.Enqueue(rows, t);
      if ok { Note(Enqueued(old(backend.nextID), rows, t), false); }
    }

    /** Runs one claimed job and writes its outcome, which is what its worker returned. */
    method RunJob(row: Row, fin: SyncFinalizer, quiet: bool) returns (ghost run: Run)
      requires fin.Valid() && fin.cp.backend == backend && Tracing(quiet)
      modifies fin`last, fin.cp`dropped, fin.cp`sent, fin.cp`calls, backend, this`readings, this`trace
      ensures fin.Valid() && run.row == row && fin.last == Some(run.op) && Around(quiet).Returned(run)
      ensures Tracing(quiet) && WentOn()
      ensures RunsIn(trace) == RunsIn(old(trace)) + [run] && RowsIn(trace) == RowsIn(old(trace))
      ensures Ran(old(backend.jobs), backend.jobs, row.id, run.op, run.at, run.reached, quiet)
      ensures quiet ==> !run.op.Snooze?
    {
      Work(quiet);
      ghost var during := backend.jobs;
      var op; ghost var ended;
      op, ended := Outcome(row, quiet);
      EndingsAreHonest(row, worker(row), ended, op);
      run := Write(row, op, ended, fin, quiet);
      RanOnce(old(backend.jobs), during, backend.jobs, run, quiet);
    }

    /** Writes an outcome at once, at the clock as just read. */
    method Write(row: Row, op: Op, ghost ended: Instant, fin: SyncFinalizer, quiet: bool) returns (ghost run: Run)
      requires fin.Valid() && fin.cp.backend == backend && Recording(quiet) && Last(trace).recent == [ended]
      requires EndsAs(row, worker(row), ended, op)
      modifies fin`last, fin.cp`dropped, fin.cp`sent, fin.cp`calls, backend`jobs, this`readings, this`trace
      ensures fin.Valid() && fin.last == Some(op) && run == Run(row, op, ended, run.at, run.reached)
      ensures Tracing(quiet) && WentOn()
      ensures RunsIn(trace) == RunsIn(old(trace)) + [run] && RowsIn(trace) == RowsIn(old(trace))
      ensures backend.jobs == BatchIf(old(backend.jobs), [op], run.at, run.reached)
    {
      var at := Clock(quiet);
      ghost var reached := fin.Push(op, at);
      run := Run(row, op, ended, at, reached);
      Note(Wrote(run), quiet);
    }

    static lemma RanOnce(before: Jobs, during: Jobs, after: Jobs, run: Run, quiet: bool)
      requires before.Keys <= during.Keys && (quiet ==> during == before)
      requires forall id :: id in before ==> during[id] == before[id]
      requires after == BatchIf(during, [run.op], run.at, run.reached) && run.op.token.id == run.row.id
      ensures Ran(before, after, run.row.id, run.op, run.at, run.reached, quiet)
    {
      OneEntryBatch(during, run.op, run.at);
    }

    /** What the worker makes of a job, and the operation that it becomes. */
    method Outcome(row: Row, quiet: bool) returns (op: Op, ghost ended: Instant)
      requires Tracing(quiet)
      modifies this`readings, this`trace
      ensures Recording(quiet) && NothingRun() && Last(trace).recent == [ended]
      ensures EndsAs(row, worker(row), ended, op) && (quiet ==> !op.Snooze?)
    {
      var work := worker(row);
      var now := Clock(quiet);
      op, ended := Conclude(WorkedOn(row, work.user), work.outcome, now, work.delay), now;
      ConclusionsByPrecedence(row, work, now);
    }

    /** Runs a batch of claimed jobs one after the other. */
    method RunBatch(
        rows: seq<Row>, fin: SyncFinalizer, quiet: bool, results0: seq<JobResult>, ghost log0: seq<Run>,
        ghost base: Jobs)
      returns (results: seq<JobResult>, ghost log: seq<Run>)
      requires InOrder(quiet, fin, results0, log0, RowsOf(log0) + rows, base)
      modifies fin`last, fin.cp`dropped, fin.cp`sent, fin.cp`calls, backend, this`readings, this`trace
      ensures Going(quiet, fin, results, log, base) && WentOn()
      ensures log0 <= log && RowsOf(log) == RowsOf(log0) + rows
    {
      ghost var claimed := RowsOf(log0) + rows;
      results, log := results0, log0;
      for i := 0 to |rows|
        invariant InOrder(quiet, fin, results, log, claimed, base) && WentOn()
        invariant log0 <= log && |log| == |log0| + i
      {
        ghost var run;
        results, run := RunNext(rows[i], fin, quiet, results, log, claimed, base);
        log := log + [run];
      }
      assert claimed[..|log|] == claimed;
    }

    /** Runs the next of the claimed jobs. */
    method RunNext(
        row: Row, fin: SyncFinalizer, quiet: bool, results0: seq<JobResult>, ghost log0: seq<Run>,
        ghost claimed: seq<Row>, ghost base: Jobs)
      returns (results: seq<JobResult>, ghost run: Run)
      requires InOrder(quiet, fin, results0, log0, claimed, base)
      requires |log0| < |claimed| && row == claimed[|log0|]
      modifies fin`last, fin.cp`dropped, fin.cp`sent, fin.cp`calls, backend, this`readings, this`trace
      ensures InOrder(quiet, fin, results, log0 + [run], claimed, base) && WentOn()
    {
      run := RunJob(row, fin, quiet);
      EndingsAreHonest(row, worker(row), run.ended, run.op);
      StillInOrder(base, old(backend.jobs), backend.jobs, claimed, log0, run, quiet);
      results := results0;
      var res := fin.Take(row);
      if res.Some? { results := results + [res.value]; }
    }

    static lemma StillInOrder(
        base: Jobs, before: Jobs, after: Jobs, claimed: seq<Row>, log: seq<Run>, run: Run, quiet: bool)
      requires Accounted(before, log, claimed)
      requires |log| < |claimed| && claimed[..|log|] == RowsOf(log) && claimed[|log|] == run.row
      requires Ran(before, after, run.row.id, run.op, run.at, run.reached, quiet) && Honest(run.row, run.op)
      requires quiet ==> Touching(base, before, claimed) && !run.op.Snooze?
      ensures Accounted(after, log + [run], claimed) && RowsOf(log + [run]) == claimed[..|log| + 1]
      ensures quiet ==> Touching(base, after, claimed)
    {
      RunKeepsClaims(before, after, claimed, |log|, run.op, run.at, run.reached, quiet);
      forall i | 0 <= i < |log| ensures log[i].row.id != run.row.id {
        assert log[i].row == RowsOf(log)[i] == claimed[i];
      }
      RunIsRecorded(before, after, log, run, quiet);
      if quiet { RunTouches(base, before, after, claimed, |log|, run.op, run.at, run.reached); }
    }

    /** The execution is of queue q; and in quiet surroundings its job was claimable there already when the
        drains began. */
    static ghost predicate Drawn(run: Run, q: string, base: Jobs, now: Instant, quiet: bool) {
      run.row.queue == q && (quiet ==> run.row.id in Candidates(base, q, now))
    }

    /** The executions since position n are. */
    static ghost predicate DrawnFrom(log: seq<Run>, n: nat, q: string, base: Jobs, now: Instant, quiet: bool) {
      forall i {:trigger Drawn(log[i], q, base, now, quiet)} :: n <= i < |log| ==> Drawn(log[i], q, base, now, quiet)
    }

    static lemma StillDrawn(was: seq<Run>, log: seq<Run>, n: nat, q: string, base: Jobs, now: Instant, quiet: bool)
      requires was <= log && DrawnFrom(was, n, q, base, now, quiet) && DrawnFrom(log, |was|, q, base, now, quiet)
      ensures DrawnFrom(log, n, q, base, now, quiet)
    {
      forall i | n <= i < |log| ensures Drawn(log[i], q, base, now, quiet) {
        if i < |was| { assert Drawn(was[i], q, base, now, quiet); }
      }
    }

    /** Fetches from a queue at the clock as just read. */
    method FetchSome(q: string, quiet: bool) returns (rows: seq<Row>, ghost t: Instant)
      requires Tracing(quiet)
      modifies backend, this`readings, this`trace
      ensures Tracing(quiet) && WentOn() && t == Last(trace).clock && (quiet ==> t == now)
      ensures |old(trace)| < |trace| && Last(trace).event == Fetched(q, rows)
      ensures RunsIn(trace) == RunsIn(old(trace)) && RowsIn(trace) == RowsIn(old(trace)) + rows
      ensures FetchedRows(old(backend.jobs), q, FETCH_LIMIT, client, t, rows)
      ensures backend.jobs == ClaimAll(old(backend.jobs), Ids(rows), client, t)
      ensures rows == [] ==> FoundNothing(q)
    {
      var at := Clock(quiet);
      t := at;
      rows := backend.Fetch(q, FETCH_LIMIT, client, at);
      Note(Fetched(q, rows), quiet);
      if rows == [] { NothingFetched(old(backend.jobs), backend.jobs, q, client, t, rows); }
    }

    /** Claims and runs one batch of a queue; how many came tells whether there was anything left. */
    method DrainBatch(
        q: string, fin: SyncFinalizer, quiet: bool, results0: seq<JobResult>, ghost log0: seq<Run>,
        ghost base: Jobs)
      returns (results: seq<JobResult>, n: nat, ghost log: seq<Run>)
      requires Going(quiet, fin, results0, log0, base)
      modifies fin`last, fin.cp`dropped, fin.cp`sent, fin.cp`calls, backend, this`readings, this`trace
      ensures Going(quiet, fin, results, log, base) && WentOn() && log0 <= log
      ensures |log| == |log0| + n && n <= FETCH_LIMIT && DrawnFrom(log, |log0|, q, base, now, quiet)
      ensures n == 0 ==> |old(trace)| < |trace| && FoundNothing(q) && (quiet ==> Last(trace).clock == now)
    {
      ghost var before := backend.jobs;
      var rows; ghost var t;
      rows, t := FetchSome(q, quiet);
      n := |rows|;
      FetchedInOrder(base, before, log0, q, client, t, rows, quiet);
      if n == 0 {
        assert RowsOf(log0) + rows == RowsOf(log0);
        return results0, n, log0;
      }
      assert (RowsOf(log0) + rows)[..|log0|] == RowsOf(log0);
      results, log := RunBatch(rows, fin, quiet, results0, log0, base);
      BatchDrawn(base, before, q, client, t, rows, log0, log, now, quiet);
    }

    static lemma FetchedInOrder(
        base: Jobs, before: Jobs, log: seq<Run>, q: string, client: string, t: Instant, rows: seq<Row>, quiet: bool)
      requires Accounted(before, log, RowsOf(log)) && FetchedRows(before, q, FETCH_LIMIT, client, t, rows)
      requires forall id :: id in before ==> before[id].id == id
      requires quiet ==> Touching(base, before, RowsOf(log))
      ensures Accounted(ClaimAll(before, Ids(rows), client, t), log, RowsOf(log) + rows)
      ensures quiet ==> Touching(base, ClaimAll(before, Ids(rows), client, t), RowsOf(log) + rows)
      ensures quiet ==> Ids(rows) <= Candidates(base, q, t)
    {
      FetchClaimsOnce(before, RowsOf(log), q, FETCH_LIMIT, client, t, rows);
      FetchKeepsRecord(before, log, q, FETCH_LIMIT, client, t, rows);
      if quiet { FetchTouches(base, before, RowsOf(log), q, FETCH_LIMIT, client, t, rows); }
    }

    /** The last fetch came back empty, and the queue has nothing claimable at the clock as just read. */
    ghost predicate FoundNothing(q: string)
      reads this, backend
    {
      && trace != [] && Last(trace).event == Fetched(q, []) && Last(trace).jobs == backend.jobs
      && Candidates(backend.jobs, q, Last(trace).clock) == {}
    }

    /** Works one queue until a fetch of it comes back empty, the context is done, or too much was run. */
    method Drain(
        q: string, fin: SyncFinalizer, quiet: bool, results0: seq<JobResult>, ghost log0: seq<Run>,
        ghost base: Jobs)
      returns (results: seq<JobResult>, err: PassError, ghost log: seq<Run>)
      requires Going(quiet, fin, results0, log0, base)
      modifies fin`last, fin.cp`dropped, fin.cp`sent, fin.cp`calls, backend, this`readings, this`trace
      ensures Going(quiet, fin, results, log, base) && WentOn() && log0 <= log
      ensures DrawnFrom(log, |log0|, q, base, now, quiet) && |log| - |log0| <= QUEUE_JOB_BUDGET + FETCH_LIMIT
      ensures err.NoFailure? ==> |old(trace)| < |trace| && FoundNothing(q) && (quiet ==> Last(trace).clock == now)
      ensures err.BudgetExceeded? ==> |log| - |log0| > QUEUE_JOB_BUDGET && err.queue == q
      ensures quiet ==> !err.ContextDone?
    {
      var processed := 0;
      results, log := results0, log0;
      while true
        invariant Going(quiet, fin, results, log, base) && WentOn() && log0 <= log
        invariant DrawnFrom(log, |log0|, q, base, now, quiet) && 0 <= processed == |log| - |log0| <= QUEUE_JOB_BUDGET
        decreases QUEUE_JOB_BUDGET - processed
      {
        var done: bool := *;
        if done && !quiet { return results, ContextDone, log; }
        var n; ghost var before := log;
        results, n, log := DrainBatch(q, fin, quiet, results, log, base);
        if n == 0 { return results, NoFailure, log; }
        StillDrawn(before, log, |log0|, q, base, now, quiet);
        processed := processed + n;
        if processed > QUEUE_JOB_BUDGET { return results, BudgetExceeded(q), log; }
      }
    }

    static lemma FetchKeepsRecord(
        jobs: Jobs, log: seq<Run>, q: string, limit: nat, client: string, t: Instant, rows: seq<Row>)
      requires Recorded(jobs, log) && ClaimedOnce(jobs, RowsOf(log)) && FetchedRows(jobs, q, limit, client, t, rows)
      ensures Recorded(ClaimAll(jobs, Ids(rows), client, t), log)
    {
      forall i | 0 <= i < |log| ensures RecordedRun(ClaimAll(jobs, Ids(rows), client, t), log[i]) {
        assert RecordedRun(jobs, log[i]) && RowsOf(log)[i] == log[i].row;
      }
    }

    static lemma NothingFetched(before: Jobs, after: Jobs, q: string, client: string, t: Instant, rows: seq<Row>)
      requires FetchedRows(before, q, FETCH_LIMIT, client, t, rows) && rows == []
      requires after == ClaimAll(before, Ids(rows), client, t)
      ensures after == before && Candidates(before, q, t) == {}
    {
    }

    static lemma BatchDrawn(
        base: Jobs, jobs: Jobs, q: string, client: string, t: Instant, rows: seq<Row>, was: seq<Run>,
        log: seq<Run>, now: Instant, quiet: bool)
      requires FetchedRows(jobs, q, FETCH_LIMIT, client, t, rows) && was <= log && RowsOf(log) == RowsOf(was) + rows
      requires quiet ==> t == now && Ids(rows) <= Candidates(base, q, t)
      ensures DrawnFrom(log, |was|, q, base, now, quiet)
    {
      forall i | |was| <= i < |log| ensures Drawn(log[i], q, base, now, quiet) {
        assert log[i].row == RowsOf(log)[i] == rows[i - |was|];
        assert rows[i - |was|] in rows;
      }
    }

    /** Makes due jobs available, batch after batch, a thousand times at most. */
    method Promote(quiet: bool) returns (ghost moved: set<JobId>)
      requires Tracing(quiet) && RunsIn(trace) == [] && RowsIn(trace) == [] && Promotions(trace) == 0
      modifies backend`jobs, this`readings, this`trace
      ensures Tracing(quiet) && old(trace) <= trace && RunsIn(trace) == []
      ensures PromotedFully(Around(quiet), trace, MOVE_DUE_MAX_BATCHES)
      ensures moved <= old(backend.jobs).Keys && backend.jobs == MoveAll(old(backend.jobs), moved)
      ensures quiet ==> moved <= DueIds(old(backend.jobs), now)
      ensures quiet ==> moved == DueIds(old(backend.jobs), now) || |moved| == PROMOTION_LIMIT
    {
      moved := {};
      ghost var was := backend.jobs;
      assert MoveAll(was, {}) == was;
      for i := 0 to MOVE_DUE_MAX_BATCHES
        invariant Tracing(quiet) && old(trace) <= trace && RunsIn(trace) == [] && RowsIn(trace) == []
        invariant Promotions(trace) == i
        invariant Moving(was, backend.jobs, moved, now, quiet, i)
      {
        var n; ghost var picked, t;
        n, picked, t := PromoteSome(quiet);
        MovedMore(was, moved, picked, t, now, quiet, i);
        moved := moved + picked;
        if n < MOVE_DUE_BATCH { return moved; }
      }
    }

    /** What i full batches have moved. */
    static ghost predicate Moving(was: Jobs, jobs: Jobs, moved: set<JobId>, now: Instant, quiet: bool, i: nat) {
      && moved <= was.Keys && jobs == MoveAll(was, moved)
      && (quiet ==> moved <= DueIds(was, now) && |moved| == i * MOVE_DUE_BATCH)
    }

    static lemma MovedMore(
        was: Jobs, moved: set<JobId>, picked: set<JobId>, t: Instant, now: Instant, quiet: bool, i: nat)
      requires Moving(was, MoveAll(was, moved), moved, now, quiet, i) && (quiet ==> t == now)
      requires BoundedPick(picked, DueIds(MoveAll(was, moved), t), MOVE_DUE_BATCH)
      ensures moved + picked <= was.Keys && MoveAll(MoveAll(was, moved), picked) == MoveAll(was, moved + picked)
      ensures quiet ==> moved + picked <= DueIds(was, now)
      ensures |picked| == MOVE_DUE_BATCH ==>
        Moving(was, MoveAll(was, moved + picked), moved + picked, now, quiet, i + 1)
      ensures quiet && |picked| < MOVE_DUE_BATCH ==> moved + picked == DueIds(was, now)
    {
      MoveMore(was, moved, picked, t);
      if quiet { LastBatch(DueIds(was, now), moved, picked, MOVE_DUE_BATCH); }
    }

    method PromoteSome(quiet: bool) returns (n: int, ghost picked: set<JobId>, ghost t: Instant)
      requires Tracing(quiet)
      modifies backend`jobs, this`readings, this`trace
      ensures Tracing(quiet) && old(trace) <= trace && Last(trace).event == MovedDue(picked) && n == |picked|
      ensures RunsIn(trace) == RunsIn(old(trace)) && RowsIn(trace) == RowsIn(old(trace))
      ensures Promotions(trace) == Promotions(old(trace)) + 1
      ensures BoundedPick(picked, DueIds(old(backend.jobs), t), MOVE_DUE_BATCH) && (quiet ==> t == now)
      ensures backend.jobs == MoveAll(old(backend.jobs), picked)
    {
      var at := Clock(quiet);
      t := at;
      n, picked := backend.MoveDue(at, MOVE_DUE_BATCH);
      Note(MovedDue(picked), quiet);
    }

    /** Every job run so far was claimable in one of these queues when the drains began, and of those that
        were none is missing. */
    static ghost predicate WorkedOff(queues: seq<string>, base: Jobs, log: seq<Run>, now: Instant) {
      && (forall i :: 0 <= i < |log| ==>
            && log[i].row.id in base
            && base[log[i].row.id].queue in queues && base[log[i].row.id].scheduledAt <= now)
      && (forall q :: q in queues ==> Candidates(base, q, now) <= Ids(RowsOf(log)))
    }

    static lemma OneMoreWorkedOff(
        queues: seq<string>, q: string, base: Jobs, jobs: Jobs, log0: seq<Run>, log: seq<Run>, now: Instant)
      requires WorkedOff(queues, base, log0, now) && log0 <= log && DrawnFrom(log, |log0|, q, base, now, true)
      requires Touching(base, jobs, RowsOf(log)) && Candidates(jobs, q, now) == {}
      ensures WorkedOff(queues + [q], base, log, now)
    {
      NothingBecomesClaimable(base, jobs, RowsOf(log), q, now);
      forall i | |log0| <= i < |log| ensures log[i].row.id in Candidates(base, q, now) {
        assert Drawn(log[i], q, base, now, true);
      }
      forall id | id in Ids(RowsOf(log0)) ensures id in Ids(RowsOf(log)) {
        var i :| 0 <= i < |log0| && RowsOf(log0)[i].id == id;
        assert RowsOf(log)[i] in RowsOf(log) && log[i] == log0[i];
      }
      forall k | k in queues + [q] ensures Candidates(base, k, now) <= Ids(RowsOf(log)) {
        if k in queues {
          assert Candidates(base, k, now) <= Ids(RowsOf(log0));
        } else {
          assert k == q && Candidates(base, k, now) - Ids(RowsOf(log)) == {};
          forall id | id in Candidates(base, k, now) ensures id in Ids(RowsOf(log)) {
            assert id !in Candidates(base, k, now) - Ids(RowsOf(log));
          }
        }
      }
    }

    /** In quiet surroundings a queue yields no more than was ready in it. */
    static lemma YieldsWhatIsReady(
        was: Jobs, base: Jobs, jobs: Jobs, log0: seq<Run>, log: seq<Run>, q: string, now: Instant)
      requires Promoted(was, base, now) && ClaimedOnce(jobs, RowsOf(log)) && log0 <= log
      requires DrawnFrom(log, |log0|, q, base, now, true)
      ensures |log| - |log0| <= |ReadyIn(was, q, now)|
    {
      PromotedAreClaimable(was, base, q, now);
      var rows := RowsOf(log)[|log0|..];
      forall r | r in rows ensures r.id in ReadyIn(was, q, now) {
        var i :| 0 <= i < |rows| && rows[i] == r;
        assert rows[i] == log[|log0| + i].row && Drawn(log[|log0| + i], q, base, now, true);
      }
      DistinctRows(rows, ReadyIn(was, q, now));
    }

    /** The queues have been worked in the order given, within their budgets; the turn of each ended with a
        fetch that came back empty, the last one just now. */
    static ghost predicate Turns(queues: seq<string>, trace: seq<Moment>, log: seq<Run>, ss: seq<Section>) {
      && InSections(queues, log, ss, 10_100) && Emptied(queues, trace, ss)
      && (ss != [] ==> ss[|ss| - 1].end == |trace| - 1)
    }

    /** How a pass may end: with every queue emptied, or early, and then for the reason it gives. */
    static ghost predicate Ended(
        queues: seq<string>, trace: seq<Moment>, log: seq<Run>, ss: seq<Section>, err: PassError)
    {
      && InSections(queues, log, ss, 10_100)
      && match err
         case NoFailure => |ss| == |queues| && Turns(queues, trace, log, ss)
         case BudgetExceeded(q) => ss != [] && |ss[|ss| - 1].runs| > 10_000 && q == queues[|ss| - 1]
         case ContextDone => true
    }

    /** One synchronous pass over the queues. Its history is gapless, from the store it found to the store it
        leaves: first due jobs are promoted, until a batch is not full; then nothing is promoted any more, and
        exactly what is claimed is run, each job at most once. The queues are worked in the order given, within
        their budgets; and when there is no error each one's turn ended with a fetch that came back empty. What is
        written and reported of each execution is what its worker returned. */
    method ProcessReady(queues: seq<string>, quiet: bool)
      returns (results: seq<JobResult>, err: PassError, ghost log: seq<Run>, ghost ss: seq<Section>, ghost start: nat)
      requires backend.Valid() && Calm(quiet)
      modifies backend, this`readings, this`trace
      ensures Tracing(quiet) && trace[0].jobs == old(backend.jobs) && trace[0].readings == old(readings)
      ensures start <= |trace| && NoPromotion(trace, start)
      ensures !err.ContextDone? ==> PromotedFully(Around(quiet), trace[..start], 1_000)
      ensures results == ResultsOf(log) && Recorded(backend.jobs, log) && AllReturned(Around(quiet), log)
      ensures RunsIn(trace) == log && RowsIn(trace) == RowsOf(log)
      ensures forall i, j :: 0 <= i < j < |results| ==> results[i].job.id != results[j].job.id
      ensures Ended(queues, trace, log, ss, err)
      ensures quiet && Modest(old(backend.jobs), Named(queues), now, PROMOTION_LIMIT, QUEUE_JOB_BUDGET) ==>
        err.NoFailure? && Spends(old(backend.jobs), backend.jobs, RowsOf(log), Named(queues), now)
    {
      results, log, ss, start := [], [], [], 1;
      Begin(quiet);
      var done: bool := *;
      if done && !quiet { return results, ContextDone, log, ss, start; }
      ghost var modest := quiet && Modest(backend.jobs, Named(queues), now, PROMOTION_LIMIT, QUEUE_JOB_BUDGET);
      results, err, log, ss, start := PromoteAndWork(queues, quiet, modest);
      EachOnce(backend.jobs, log);
    }

    ghost method Begin(quiet: bool)
      requires backend.Valid() && Calm(quiet)
      modifies this`trace
      ensures Tracing(quiet) && trace == [Moment(Started, backend.jobs, now, [], readings)]
      ensures RunsIn(trace) == [] && RowsIn(trace) == [] && Promotions(trace) == 0
    {
      trace := [Moment(Started, backend.jobs, now, [], readings)];
      OneMoment([], trace[0]);
    }

    static lemma EachOnce(jobs: Jobs, log: seq<Run>)
      requires ClaimedOnce(jobs, RowsOf(log))
      ensures forall i, j :: 0 <= i < j < |log| ==> ResultsOf(log)[i].job.id != ResultsOf(log)[j].job.id
    {
      forall i, j | 0 <= i < j < |log| ensures ResultsOf(log)[i].job.id != ResultsOf(log)[j].job.id {
        assert RowsOf(log)[i].id != RowsOf(log)[j].id;
      }
    }

    /** The two halves of a pass. A modest store is one that gives a quiet pass no reason to stop early. */
    method PromoteAndWork(queues: seq<string>, quiet: bool, ghost modest: bool)
      returns (results: seq<JobResult>, err: PassError, ghost log: seq<Run>, ghost ss: seq<Section>, ghost start: nat)
      requires Tracing(quiet) && RunsIn(trace) == [] && RowsIn(trace) == [] && Promotions(trace) == 0
      requires modest ==> quiet && Modest(backend.jobs, Named(queues), now, PROMOTION_LIMIT, QUEUE_JOB_BUDGET)
      modifies backend, this`readings, this`trace
      ensures Tracing(quiet) && old(trace) <= trace
      ensures start <= |trace| && NoPromotion(trace, start)
      ensures PromotedFully(Around(quiet), trace[..start], 1_000)
      ensures results == ResultsOf(log) && Recorded(backend.jobs, log) && AllReturned(Around(quiet), log)
      ensures RunsIn(trace) == log && RowsIn(trace) == RowsOf(log)
      ensures ClaimedOnce(backend.jobs, RowsOf(log))
      ensures Ended(queues, trace, log, ss, err)
      ensures modest ==> err.NoFailure? && Spends(old(backend.jobs), backend.jobs, RowsOf(log), Named(queues), now)
    {
      ghost var was := backend.jobs;
      ghost var moved := Promote(quiet);
      ghost var base, promoted := backend.jobs, trace;
      if modest { EverythingPromoted(was, moved, now); }
      var fin := new SyncFinalizer(backend);
      results, err, log, ss := WorkQueues(queues, fin, quiet, was, modest);
      start := |promoted|;
      BeginsWith(promoted, trace);
      if modest { PassSpendsAll(was, base, backend.jobs, log, queues, now); }
    }

    static lemma BeginsWith(was: seq<Moment>, trace: seq<Moment>)
      requires was <= trace
      ensures trace[..|was|] == was
    {
    }

    static lemma EverythingPromoted(was: Jobs, moved: set<JobId>, now: Instant)
      requires moved <= DueIds(was, now) && |was.Keys| <= PROMOTION_LIMIT
      requires moved == DueIds(was, now) || |moved| == PROMOTION_LIMIT
      ensures Promoted(was, MoveAll(was, moved), now)
    {
      SubsetSize(DueIds(was, now), was.Keys);
      if moved != DueIds(was, now) { EqualBySize(moved, DueIds(was, now)); }
    }

    static lemma PassSpendsAll(was: Jobs, base: Jobs, jobs: Jobs, log: seq<Run>, queues: seq<string>, now: Instant)
      requires Promoted(was, base, now) && Touching(base, jobs, RowsOf(log)) && WorkedOff(queues, base, log, now)
      ensures Spends(was, jobs, RowsOf(log), Named(queues), now)
    {
      forall q | q in queues ensures Candidates(jobs, q, now) == {} {
        NothingBecomesClaimable(base, jobs, RowsOf(log), q, now);
      }
      forall id | id in Ids(RowsOf(log)) ensures base[id].queue in queues && base[id].scheduledAt <= now {
        var i :| 0 <= i < |log| && RowsOf(log)[i].id == id;
        assert log[i].row.id == id;
      }
      forall id | id in was
        ensures jobs[id].queue == was[id].queue
        ensures OneIf(id in Ids(RowsOf(log))) + RunsLeft(jobs[id], Named(queues), now)
          <= RunsLeft(was[id], Named(queues), now)
        ensures RunsLeft(jobs[id], Named(queues), now) > 0 ==> id in Ids(RowsOf(log))
      {
        PassSpends(was, base, jobs, RowsOf(log), Named(queues), now, id);
      }
    }

    /** The section that one more queue entry adds to the course of a pass. */
    static lemma EntryWorked(
        queues: seq<string>, was: seq<Moment>, trace: seq<Moment>, log0: seq<Run>, log: seq<Run>, ss: seq<Section>,
        base: Jobs, now: Instant, quiet: bool)
      returns (s: Section)
      requires Turns(queues, was, log0, ss)
      requires |ss| < |queues| && was <= trace && trace != [] && RunsIn(trace) == log
      requires log0 <= log && DrawnFrom(log, |log0|, queues[|ss|], base, now, quiet)
      requires |log| - |log0| <= QUEUE_JOB_BUDGET + FETCH_LIMIT
      ensures |s.runs| == |log| - |log0| && InSections(queues, log, ss + [s], QUEUE_JOB_BUDGET + FETCH_LIMIT)
      ensures (|was| < |trace| && Last(trace).event == Fetched(queues[|ss|], [])
               && Candidates(Last(trace).jobs, queues[|ss|], Last(trace).clock) == {})
        ==> Turns(queues, trace, log, ss + [s])
    {
      s := Section(log[|log0|..], |trace| - 1);
      forall i | 0 <= i < |s.runs| ensures s.runs[i].row.queue == queues[|ss|] {
        assert Drawn(log[|log0| + i], queues[|ss|], base, now, quiet);
      }
      SectionAdded(queues, log0, log, ss, s, QUEUE_JOB_BUDGET + FETCH_LIMIT);
      if |was| < |trace| && Last(trace).event == Fetched(queues[|ss|], [])
        && Candidates(Last(trace).jobs, queues[|ss|], Last(trace).clock) == {}
      {
        SectionEmptied(queues, was, trace, ss, s);
      }
    }

    /** The drains of a pass. */
    method WorkQueues(queues: seq<string>, fin: SyncFinalizer, quiet: bool, ghost was: Jobs, ghost modest: bool)
      returns (results: seq<JobResult>, err: PassError, ghost log: seq<Run>, ghost ss: seq<Section>)
      requires fin.Valid() && fin.cp.backend == backend && Tracing(quiet) && RunsIn(trace) == [] && RowsIn(trace) == []
      requires modest ==> quiet && Promoted(was, backend.jobs, now)
      requires modest ==> forall q :: q in queues ==> |ReadyIn(was, q, now)| <= QUEUE_JOB_BUDGET
      modifies fin`last, fin.cp`dropped, fin.cp`sent, fin.cp`calls, backend, this`readings, this`trace
      ensures Going(quiet, fin, results, log, old(backend.jobs)) && WentOn()
      ensures Ended(queues, trace, log, ss, err)
      ensures modest ==> err.NoFailure? && WorkedOff(queues, old(backend.jobs), log, now)
    {
      ghost var base := backend.jobs;
      results, err, log, ss := [], NoFailure, [], [];
      NothingRunYet(quiet, fin);
      NoTurnYet(queues, trace, base, now);
      for e := 0 to |queues|
        invariant Going(quiet, fin, results, log, base) && WentOn()
        invariant Turns(queues, trace, log, ss) && |ss| == e && err.NoFailure?
        invariant quiet ==> WorkedOff(queues[..e], base, log, now)
      {
        results, err, log, ss := WorkQueue(queues, queues[e], fin, quiet, was, modest, results, log, ss, base);
        if !err.NoFailure? { return results, err, log, ss; }
      }
      AllTurns(queues, trace, base, log, ss, now);
    }

    lemma NothingRunYet(quiet: bool, fin: SyncFinalizer)
      requires fin.Valid() && fin.cp.backend == backend && Tracing(quiet) && RunsIn(trace) == [] && RowsIn(trace) == []
      ensures Going(quiet, fin, [], [], backend.jobs)
    {
    }

    static lemma NoTurnYet(queues: seq<string>, trace: seq<Moment>, base: Jobs, now: Instant)
      ensures Turns(queues, trace, [], []) && WorkedOff(queues[..0], base, [], now)
    {
    }

    static lemma AllTurns(
        queues: seq<string>, trace: seq<Moment>, base: Jobs, log: seq<Run>, ss: seq<Section>, now: Instant)
      requires Turns(queues, trace, log, ss) && |ss| == |queues|
      ensures Ended(queues, trace, log, ss, NoFailure)
      ensures WorkedOff(queues[..|ss|], base, log, now) ==> WorkedOff(queues, base, log, now)
    {
      assert queues[..|queues|] == queues;
    }

    /** The drain of one queue entry. */
    method WorkQueue(
        ghost queues: seq<string>, q: string, fin: SyncFinalizer, quiet: bool, ghost was: Jobs, ghost modest: bool,
        results0: seq<JobResult>, ghost log0: seq<Run>, ghost ss0: seq<Section>, ghost base: Jobs)
      returns (results: seq<JobResult>, err: PassError, ghost log: seq<Run>, ghost ss: seq<Section>)
      requires Going(quiet, fin, results0, log0, base) && Turns(queues, trace, log0, ss0)
      requires |ss0| < |queues| && q == queues[|ss0|] && (quiet ==> WorkedOff(queues[..|ss0|], base, log0, now))
      requires modest ==> quiet && Promoted(was, base, now) && |ReadyIn(was, q, now)| <= QUEUE_JOB_BUDGET
      modifies fin`last, fin.cp`dropped, fin.cp`sent, fin.cp`calls, backend, this`readings, this`trace
      ensures Going(quiet, fin, results, log, base) && WentOn() && |ss| == |ss0| + 1
      ensures if err.NoFailure? then Turns(queues, trace, log, ss) else Ended(queues, trace, log, ss, err)
      ensures modest ==> err.NoFailure?
      ensures quiet && err.NoFailure? ==> WorkedOff(queues[..|ss|], base, log, now)
    {
      results, err, log := Drain(q, fin, quiet, results0, log0, base);
      ghost var s := EntryWorked(queues, old(trace), trace, log0, log, ss0, base, now, quiet);
      ss := ss0 + [s];
      if modest { YieldsWhatIsReady(was, base, backend.jobs, log0, log, q, now); }
      if quiet && err.NoFailure? {
        OneMoreWorkedOff(queues[..|ss0|], q, base, backend.jobs, log0, log, now);
        assert queues[..|ss0| + 1] == queues[..|ss0|] + [q];
      }
    }
  }
}
