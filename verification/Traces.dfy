/** The history of a pass: every reading of the clock and everything that happened to the stored jobs, moment
after moment. The clock is given from outside, so a pass cannot choose what it reads.
*/
module Traces {
  import opened Instants
  import opened Rows
  import opened Store
  import opened Executor
  import opened Completer
  import opened Passes
  import opened Flushing

  /** What a pass finds around it: the clock, and what a worker makes of a row. In quiet surroundings the clock
      stands still, and workers neither enqueue nor snooze. */
  datatype Env = Env(
    quiet: bool, now: Instant, clock: nat -> Instant, worker: Row -> Work, client: string, fetchLimit: nat,
    moveLimit: nat)
  {
    /** The n-th reading of the clock. */
    function Reading(n: nat): Instant {
      if quiet then now else clock(n)
    }

    /** The worker was handed the row, and the operation says what it left behind. */
    ghost predicate Returned(run: Run) {
      EndsAs(run.row, worker(run.row), run.ended, run.op)
    }
  }

  datatype Event =
    | Started
    | Read
    | MovedDue(picked: set<JobId>)
    | Fetched(queue: string, out: seq<Row>)
    | Enqueued(last: int, rows: seq<Row>, at: Instant)
    | Wrote(run: Run)

  /** The jobs after an event, the clock as last read, what has been read since the last call to the store, and
      how often the clock has been read in all. */
  datatype Moment = Moment(event: Event, jobs: Jobs, clock: Instant, recent: seq<Instant>, readings: nat)

  /** What may follow what. A promotion and a fetch are made at the clock as just read; an outcome is written
      after two readings, one when the worker returned, and one for the call. */
  ghost predicate Follows(env: Env, was: Moment, m: Moment) {
    if m.event.Read? then
      && m.jobs == was.jobs && m.clock == env.Reading(was.readings) && m.readings == was.readings + 1
      && m.recent == was.recent + [m.clock]
    else
      && m.clock == was.clock && m.readings == was.readings && m.recent == []
      && match m.event
         case MovedDue(picked) =>
           && was.recent == [m.clock] && BoundedPick(picked, DueIds(was.jobs, m.clock), env.moveLimit)
           && m.jobs == MoveAll(was.jobs, picked)
         case Fetched(queue, out) =>
           && was.recent == [m.clock] && FetchedRows(was.jobs, queue, env.fetchLimit, env.client, m.clock, out)
           && m.jobs == ClaimAll(was.jobs, Ids(out), env.client, m.clock)
         case Enqueued(last, rows, at) =>
           && !env.quiet && Enqueueable(rows, at) && (forall id :: id in was.jobs ==> id.n <= last)
           && m.jobs == EnqueueAll(was.jobs, last, rows, at)
         case Wrote(run) =>
           && was.recent == [run.ended, run.at] && env.Returned(run)
           && m.jobs == BatchIf(was.jobs, [run.op], run.at, run.reached)
         case _ => false
  }

  ghost predicate FollowsAt(env: Env, trace: seq<Moment>, i: int) {
    0 < i < |trace| && Follows(env, trace[i - 1], trace[i])
  }

  /** A gapless history from its first moment on. */
  ghost predicate Gapless(env: Env, trace: seq<Moment>) {
    && trace != [] && trace[0].event.Started?
    && forall i {:trigger FollowsAt(env, trace, i)} :: 0 < i < |trace| ==> FollowsAt(env, trace, i)
  }

  function Last<T>(trace: seq<T>): T
    requires trace != []
  {
    trace[|trace| - 1]
  }

  /** The executions of a history, and the rows it claimed. */
  function RunsIn(trace: seq<Moment>): seq<Run> {
    if trace == [] then []
    else RunsIn(trace[..|trace| - 1]) + if Last(trace).event.Wrote? then [Last(trace).event.run] else []
  }

  function RowsIn(trace: seq<Moment>): seq<Row> {
    if trace == [] then []
    else RowsIn(trace[..|trace| - 1]) + if Last(trace).event.Fetched? then Last(trace).event.out else []
  }

  /** How many batches were promoted. */
  function Promotions(trace: seq<Moment>): nat {
    if trace == [] then 0
    else Promotions(trace[..|trace| - 1]) + if Last(trace).event.MovedDue? then 1 else 0
  }

  /** Promotion went on until a batch was not full, or the number of batches was used up; and nothing was
      claimed before. */
  ghost predicate PromotedFully(env: Env, trace: seq<Moment>, batches: nat) {
    && trace != [] && RowsIn(trace) == [] && Promotions(trace) <= batches
    && (Promotions(trace) == batches
        || (Last(trace).event.MovedDue? && |Last(trace).event.picked| < env.moveLimit))
  }

  lemma OneMoment(trace: seq<Moment>, m: Moment)
    ensures Promotions(trace + [m]) == Promotions(trace) + if m.event.MovedDue? then 1 else 0
    ensures RunsIn(trace + [m]) == RunsIn(trace) + if m.event.Wrote? then [m.event.run] else []
    ensures RowsIn(trace + [m]) == RowsIn(trace) + if m.event.Fetched? then m.event.out else []
  {
    assert (trace + [m])[..|trace|] == trace;
  }

  lemma StaysGapless(env: Env, trace: seq<Moment>, m: Moment)
    requires Gapless(env, trace) && Follows(env, Last(trace), m)
    ensures Gapless(env, trace + [m])
  {
    var more := trace + [m];
    forall i | 0 < i < |more| ensures FollowsAt(env, more, i) {
      if i < |trace| { assert FollowsAt(env, trace, i); }
    }
  }

  /** Nothing was promoted from position n on. */
  ghost predicate NoPromotion(trace: seq<Moment>, n: nat) {
    forall i :: n <= i < |trace| ==> !trace[i].event.MovedDue?
  }

  /** A fetch that came back empty says that nothing of its queue was claimable just then. */
  lemma EmptyFetch(env: Env, trace: seq<Moment>, i: int)
    requires Gapless(env, trace) && 0 < i < |trace| && trace[i].event.Fetched? && trace[i].event.out == []
    requires env.fetchLimit > 0
    ensures trace[i].jobs == trace[i - 1].jobs
    ensures Candidates(trace[i].jobs, trace[i].event.queue, trace[i].clock) == {}
  {
    assert FollowsAt(env, trace, i);
  }

  // ---------- The course of a pass ----------

  /** The drain of one queue entry: what was run, and the moment at which it ended. */
  datatype Section = Section(runs: seq<Run>, end: nat)

  function Flat(ss: seq<Section>): seq<Run> {
    if ss == [] then [] else Flat(ss[..|ss| - 1]) + ss[|ss| - 1].runs
  }

  /** The section ran jobs of its own queue only, and not too many. */
  ghost predicate SectionOk(s: Section, queue: string, most: nat) {
    |s.runs| <= most && forall i :: 0 <= i < |s.runs| ==> s.runs[i].row.queue == queue
  }

  /** The queue entries were worked one after the other, in the order given. */
  ghost predicate InSections(queues: seq<string>, log: seq<Run>, ss: seq<Section>, most: nat) {
    && |ss| <= |queues| && log == Flat(ss)
    && forall e :: 0 <= e < |ss| ==> SectionOk(ss[e], queues[e], most)
  }

  /** Section e ended with a fetch of its queue that came back empty, later than section e - 1 did, and its
      runs are those between the two. */
  ghost predicate EmptiedAt(queues: seq<string>, trace: seq<Moment>, ss: seq<Section>, e: int) {
    && 0 <= e < |ss| && e < |queues| && ss[e].end < |trace|
    && trace[ss[e].end].event == Fetched(queues[e], [])
    && Candidates(trace[ss[e].end].jobs, queues[e], trace[ss[e].end].clock) == {}
    && RunsIn(trace[..ss[e].end + 1]) == Flat(ss[..e + 1])
    && (e > 0 ==> ss[e - 1].end < ss[e].end)
  }

  ghost predicate Emptied(queues: seq<string>, trace: seq<Moment>, ss: seq<Section>) {
    && |ss| <= |queues|
    && forall e {:trigger EmptiedAt(queues, trace, ss, e)} :: 0 <= e < |ss| ==> EmptiedAt(queues, trace, ss, e)
  }

  lemma SectionAdded(queues: seq<string>, was: seq<Run>, log: seq<Run>, ss: seq<Section>, s: Section, most: nat)
    requires InSections(queues, was, ss, most) && |ss| < |queues| && was <= log && s.runs == log[|was|..]
    requires SectionOk(s, queues[|ss|], most)
    ensures InSections(queues, log, ss + [s], most)
  {
    assert (ss + [s])[..|ss|] == ss;
  }

  lemma SectionEmptied(
      queues: seq<string>, was: seq<Moment>, trace: seq<Moment>, ss: seq<Section>, s: Section)
    requires Emptied(queues, was, ss) && |ss| < |queues| && was <= trace
    requires s.end == |trace| - 1 && |was| < |trace| && Last(trace).event == Fetched(queues[|ss|], [])
    requires Candidates(Last(trace).jobs, queues[|ss|], Last(trace).clock) == {}
    requires RunsIn(trace) == Flat(ss + [s])
    ensures Emptied(queues, trace, ss + [s])
  {
    forall e | 0 <= e < |ss| + 1 ensures EmptiedAt(queues, trace, ss + [s], e) {
      if e < |ss| {
        EmptiedStays(queues, was, trace, ss, s, e);
      } else {
        assert (ss + [s])[..e + 1] == ss + [s] && trace[..s.end + 1] == trace;
        if e > 0 { assert EmptiedAt(queues, was, ss, e - 1); }
      }
    }
  }

  lemma EmptiedStays(
      queues: seq<string>, was: seq<Moment>, trace: seq<Moment>, ss: seq<Section>, s: Section, e: nat)
    requires EmptiedAt(queues, was, ss, e) && was <= trace
    ensures EmptiedAt(queues, trace, ss + [s], e)
  {
    assert (ss + [s])[..e + 1] == ss[..e + 1];
    assert trace[..ss[e].end + 1] == was[..ss[e].end + 1];
  }

  // ---------- How often jobs are claimed ----------

  /** How many of these rows are of this job. */
  function TimesIn(rows: seq<Row>, id: JobId): nat {
    if rows == [] then 0 else TimesIn(rows[..|rows| - 1], id) + OneIf(rows[|rows| - 1].id == id)
  }

  lemma {:induction false} TimesConcat(a: seq<Row>, b: seq<Row>, id: JobId)
    ensures TimesIn(a + b, id) == TimesIn(a, id) + TimesIn(b, id)
  {
    if b == [] {
      assert a + b == a;
    } else {
      var n := |b| - 1;
      assert (a + b)[..|a + b| - 1] == a + b[..n];
      TimesConcat(a, b[..n], id);
    }
  }

  lemma {:induction false} ClaimedOnceCounts(rows: seq<Row>, id: JobId)
    requires forall i, j :: 0 <= i < j < |rows| ==> rows[i].id != rows[j].id
    ensures TimesIn(rows, id) == OneIf(id in Ids(rows))
  {
    if rows != [] {
      var n := |rows| - 1;
      ClaimedOnceCounts(rows[..n], id);
      assert Ids(rows) == Ids(rows[..n]) + {rows[n].id};
    }
  }

  lemma FetchRaisesGeneration(
      was: Jobs, queue: string, limit: nat, client: string, now: Instant, out: seq<Row>, id: JobId)
    requires FetchedRows(was, queue, limit, client, now, out) && id in was && forall x :: x in was ==> was[x].id == x
    ensures ClaimAll(was, Ids(out), client, now)[id].generation == was[id].generation + TimesIn(out, id)
  {
    forall i, j | 0 <= i < j < |out| ensures out[i].id != out[j].id { assert Before(out[i], out[j]); }
    ClaimedOnceCounts(out, id);
  }

  /** The rows are stored under their own ids. */
  ghost predicate OwnIds(jobs: Jobs) {
    forall id :: id in jobs ==> jobs[id].id == id
  }

  lemma EventKeepsIds(env: Env, was: Moment, m: Moment)
    requires Follows(env, was, m) && OwnIds(was.jobs)
    ensures OwnIds(m.jobs)
  {
    match m.event
    case Wrote(run) => OneEntryBatch(was.jobs, run.op, run.at);
    case _ =>
  }

  lemma EventCountsClaims(env: Env, was: Moment, m: Moment, id: JobId)
    requires Follows(env, was, m) && id in was.jobs && OwnIds(was.jobs)
    ensures id in m.jobs
    ensures m.jobs[id].generation
      == was.jobs[id].generation + if m.event.Fetched? then TimesIn(m.event.out, id) else 0
  {
    match m.event
    case Fetched(queue, out) =>
      FetchRaisesGeneration(was.jobs, queue, env.fetchLimit, env.client, m.clock, out, id);
    case Wrote(run) => OneEntryBatch(was.jobs, run.op, run.at);
    case Enqueued(last, rows, _) => assert id.n <= last;
    case _ =>
  }

  /** Every claim of a pass, and nothing else in it, raises the generation of its job by one. */
  lemma {:induction false} ClaimsAreCounted(env: Env, trace: seq<Moment>, id: JobId)
    requires Gapless(env, trace) && OwnIds(trace[0].jobs) && id in trace[0].jobs
    ensures OwnIds(Last(trace).jobs) && id in Last(trace).jobs
    ensures Last(trace).jobs[id].generation == trace[0].jobs[id].generation + TimesIn(RowsIn(trace), id)
  {
    var n := |trace| - 1;
    if n == 0 {
      assert trace[..0] == [];
    } else {
      var before := trace[..n];
      forall i | 0 < i < n ensures FollowsAt(env, before, i) { assert FollowsAt(env, trace, i); }
      ClaimsAreCounted(env, before, id);
      assert FollowsAt(env, trace, n);
      EventKeepsIds(env, trace[n - 1], trace[n]);
      EventCountsClaims(env, trace[n - 1], trace[n], id);
      OneMoment(before, trace[n]);
      assert trace == before + [trace[n]];
      TimesConcat(RowsIn(before), if trace[n].event.Fetched? then trace[n].event.out else [], id);
    }
  }
}
