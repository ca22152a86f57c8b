/** The fake: a clock that only the test moves, the queues it has seen, and rounds of synchronous passes
over them.
*/
module FakeClient {
  import opened Instants
  import opened Rows
  import opened Store
  import opened MemoryBackend
  import opened Passes
  import opened Process
  import opened Traces
  import opened Executor
  import Credits
  import Sorting

  /** What a round reports of its executions. */
  function RanIn(log: seq<Run>, round: nat): (r: seq<RanJob>)
    ensures |r| == |log| && forall i :: 0 <= i < |r| ==> r[i] == RanJob(ResultOf(log[i].row, log[i].op), round)
  {
    seq(|log|, i requires 0 <= i < |log| => RanJob(ResultOf(log[i].row, log[i].op), round))
  }

  /** What rounds with these histories report, counted from 1. */
  function RanOver(traces: seq<seq<Moment>>): seq<RanJob> {
    if traces == [] then []
    else RanOver(traces[..|traces| - 1]) + RanIn(RunsIn(traces[|traces| - 1]), |traces|)
  }

  class Fake {
    const engine: Engine
    var queues: set<string>

    /** The tracked queues begin as the configured ones and those of the jobs already stored. */
    constructor (engine: Engine, configured: set<string>)
      requires engine.backend.Valid()
      ensures this.engine == engine
      ensures queues == configured + set id | id in engine.backend.jobs :: engine.backend.jobs[id].queue
    {
      this.engine := engine;
      queues := configured + set id | id in engine.backend.jobs :: engine.backend.jobs[id].queue;
    }

    /** The clock never goes back: a test that tries is failed, and the clock stays. */
    method Advance(d: Duration) returns (failed: bool)
      modifies engine`now
      ensures failed <==> d < 0
      ensures engine.now == if failed then old(engine.now) else old(engine.now) + d
      ensures old(engine.now) <= engine.now
    {
      if d < 0 { return true; }
      engine.now := engine.now + d;
      failed := false;
    }

    method SetNow(t: Instant) returns (failed: bool)
      modifies engine`now
      ensures failed <==> t < old(engine.now)
      ensures engine.now == if failed then old(engine.now) else t
      ensures old(engine.now) <= engine.now
    {
      failed := t < engine.now;
      if !failed { engine.now := t; }
    }

    method TrackQueue(name: string)
      modifies this`queues
      ensures queues == old(queues) + {name}
    {
      queues := queues + {name};
    }

    /** The tracked queues in the order of their names. */
    method TrackedQueues() returns (out: seq<string>)
      ensures Named(out) == queues
      ensures Sorting.SortedBy(out, Credits.NameLe) && Sorting.NoRepeats(out)
    {
      var listed: seq<string> := [];
      var rest := queues;
      while rest != {}
        invariant rest <= queues && Sorting.NoRepeats(listed)
        invariant forall q :: q in listed <==> q in queues && q !in rest
        decreases |rest|
      {
        var name :| name in rest;
        listed := listed + [name];
        rest := rest - {name};
      }
      NamesAreOrdered();
      Sorting.SortKeepsDistinct(listed, Credits.NameLe);
      out := Sorting.Sort(listed, Credits.NameLe);
      Sorting.SortSorts(listed, Credits.NameLe);
      forall q ensures q in out <==> q in listed {
        assert q in out <==> q in multiset(out);
        assert q in listed <==> q in multiset(listed);
      }
    }

    static lemma NamesAreOrdered()
      ensures Sorting.TotalPreorder(Credits.NameLe)
    {
      forall a: string, b: string ensures Credits.NameLe(a, b) || Credits.NameLe(b, a) { Credits.NameLeTotal(a, b); }
      forall a: string, b: string, c: string | Credits.NameLe(a, b) && Credits.NameLe(b, c)
        ensures Credits.NameLe(a, c)
      {
        Credits.NameLeTransitive(a, b, c);
      }
    }

    /** One pass over the tracked queues, and what it ran. A pass that ends in an error fails the test. */
    method RunRound(round: nat, quiet: bool) returns (ran: seq<RanJob>, failed: bool, ghost log: seq<Run>)
      requires engine.backend.Valid() && engine.Calm(quiet)
      modifies engine.backend, engine`readings, engine`trace, this`queues
      ensures engine.Tracing(quiet) && engine.trace[0].jobs == old(engine.backend.jobs)
      ensures RunsIn(engine.trace) == log && RowsIn(engine.trace) == RowsOf(log)
      ensures ran == if failed then [] else RanIn(log, round)
      ensures forall i, j :: 0 <= i < j < |log| ==> log[i].row.id != log[j].row.id
      ensures quiet ==> queues == old(queues)
      ensures quiet && Workable(old(engine.backend.jobs), old(queues), engine.now) ==>
        !failed && Spends(old(engine.backend.jobs), engine.backend.jobs, RowsOf(log), queues, engine.now)
    {
      var names := TrackedQueues();
      var results, err; ghost var ss, start;
      results, err, log, ss, start := engine.ProcessReady(names, quiet);
      EachRowOnce(log);
      if !quiet {
        var more: set<string> := *;
        queues := queues + more;
      }
      if !err.NoFailure? { return [], true, log; }
      ran := InRound(results, round);
      failed := false;
      SameRound(results, ran, log, round);
    }

    static method InRound(results: seq<JobResult>, round: nat) returns (ran: seq<RanJob>)
      ensures |ran| == |results| && forall k :: 0 <= k < |ran| ==> ran[k] == RanJob(results[k], round)
    {
      ran := [];
      for i := 0 to |results|
        invariant |ran| == i && forall k :: 0 <= k < i ==> ran[k] == RanJob(results[k], round)
      {
        ran := ran + [RanJob(results[i], round)];
      }
    }

    static lemma SameRound(results: seq<JobResult>, ran: seq<RanJob>, log: seq<Run>, round: nat)
      requires results == ResultsOf(log) && |ran| == |results|
      requires forall k :: 0 <= k < |ran| ==> ran[k] == RanJob(results[k], round)
      ensures ran == RanIn(log, round)
    {
    }

    static lemma EachRowOnce(log: seq<Run>)
      requires forall i, j :: 0 <= i < j < |log| ==> ResultsOf(log)[i].job.id != ResultsOf(log)[j].job.id
      ensures forall i, j :: 0 <= i < j < |log| ==> log[i].row.id != log[j].row.id
    {
      forall i, j | 0 <= i < j < |log| ensures log[i].row.id != log[j].row.id {
        assert ResultsOf(log)[i].job == log[i].row && ResultsOf(log)[j].job == log[j].row;
      }
    }

    /** One round, as tests ask for it. */
    method RunReady(quiet: bool) returns (ran: seq<RanJob>, failed: bool, ghost log: seq<Run>)
      requires engine.backend.Valid() && engine.Calm(quiet)
      modifies engine.backend, engine`readings, engine`trace, this`queues
      ensures engine.Tracing(quiet) && engine.trace[0].jobs == old(engine.backend.jobs)
      ensures RunsIn(engine.trace) == log && ran == if failed then [] else RanIn(log, 1)
    {
      ran, failed, log := RunRound(1, quiet);
    }

    /** Rounds until one of them runs nothing. What is returned is what the histories of the rounds show, round
        after round, but for the last one if its pass failed; and a job's generation rises by the number of its
        executions. With the clock standing still, workers that neither enqueue nor snooze, and job counts
        within the budgets of a pass, a bound on the rounds that is larger than the most often any ready job can
        still run is never exceeded; each job runs at most as often as it still can; and in the end none is left
        that could run. */
    method RunUntilIdle(maxRounds: int, quiet: bool, ghost most: nat)
      returns (ran: seq<RanJob>, failed: bool, ghost lost: bool, ghost traces: seq<seq<Moment>>)
      requires engine.backend.Valid() && engine.Calm(quiet)
      modifies engine.backend, engine`readings, engine`trace, this`queues
      ensures engine.backend.Valid()
      ensures InRounds(engine.Around(quiet), old(engine.backend.jobs), engine.backend.jobs, traces)
      ensures lost ==> failed && traces != []
      ensures ran == RanOver(if lost then traces[..|traces| - 1] else traces)
      ensures !failed ==> traces != [] && Busy(traces, |traces| - 1) && RunsIn(traces[|traces| - 1]) == []
      ensures failed && !lost ==> maxRounds <= |traces| && Busy(traces, |traces|)
      ensures !lost ==> CountedRuns(old(engine.backend.jobs), engine.backend.jobs, ran)
      ensures quiet && Workable(old(engine.backend.jobs), old(queues), engine.now) ==>
        !lost && WithinRunsLeft(old(engine.backend.jobs), engine.backend.jobs, ran, old(queues), engine.now, !failed)
      ensures (quiet && Workable(old(engine.backend.jobs), old(queues), engine.now)
               && RunsLeftAtMost(old(engine.backend.jobs), old(queues), engine.now, most) && most < maxRounds)
        ==> !failed
    {
      ghost var was, qs := engine.backend.jobs, queues;
      ghost var workable := quiet && Workable(was, qs, engine.now);
      ghost var bound := MostRuns(was, qs, engine.now, most);
      if workable { NothingRanYet(was, qs, engine.now, bound); }
      assert RanOver([]) == [] && CountedRuns(was, was, []);
      ran, failed, lost, traces := Rounds(maxRounds, quiet, was, qs, bound, workable);
    }

    method Rounds(
        maxRounds: int, quiet: bool, ghost was: Jobs, ghost qs: set<string>, ghost bound: nat, ghost workable: bool)
      returns (ran: seq<RanJob>, failed: bool, ghost lost: bool, ghost traces: seq<seq<Moment>>)
      requires engine.backend.Valid() && engine.Calm(quiet) && (workable ==> quiet && queues == qs)
      requires Shown(engine.Around(quiet), was, engine.backend.jobs, [], [])
      requires workable ==> StillBounded(was, engine.backend.jobs, [], qs, engine.now, bound, 0)
      modifies engine.backend, engine`readings, engine`trace, this`queues
      ensures engine.backend.Valid() && (lost ==> failed && traces != [])
      ensures InRounds(engine.Around(quiet), was, engine.backend.jobs, traces)
      ensures ran == RanOver(if lost then traces[..|traces| - 1] else traces)
      ensures !failed ==> traces != [] && Busy(traces, |traces| - 1) && RunsIn(traces[|traces| - 1]) == []
      ensures failed && !lost ==> maxRounds <= |traces| && Busy(traces, |traces|)
      ensures !lost ==> CountedRuns(was, engine.backend.jobs, ran)
      ensures workable ==>
        && !lost && WithinRunsLeft(was, engine.backend.jobs, ran, qs, engine.now, !failed)
        && (failed ==> maxRounds <= bound)
    {
      ran, lost, traces := [], false, [];
      var round := 1;
      while true
        invariant engine.backend.Valid() && round == |traces| + 1 && Busy(traces, |traces|)
        invariant Shown(engine.Around(quiet), was, engine.backend.jobs, traces, ran)
        invariant workable ==>
          queues == qs && StillBounded(was, engine.backend.jobs, ran, qs, engine.now, bound, round - 1)
        decreases maxRounds - round
      {
        if round > maxRounds {
          if workable { SoFarWithin(was, engine.backend.jobs, ran, qs, engine.now, bound, round - 1); }
          return ran, true, false, traces;
        }
        var more;
        more, failed, lost, traces := NextRound(round, quiet, ran, traces, was, qs, bound, workable);
        if failed { return ran, true, true, traces; }
        ran := ran + more;
        if |more| == 0 { return ran, false, false, traces; }
        round := round + 1;
      }
    }

    static lemma NothingRanYet(was: Jobs, qs: set<string>, now: Instant, bound: nat)
      requires Workable(was, qs, now) && RunsLeftAtMost(was, qs, now, bound)
      ensures StillBounded(was, was, [], qs, now, bound, 0)
    {
      forall id | id in was ensures RunsLeft(was[id], qs, now) <= bound { assert LeftAtMost(was, id, qs, now, bound); }
    }

    /** One more round, its history, and what is left after it. */
    method NextRound(
        round: nat, quiet: bool, ghost ran: seq<RanJob>, ghost shown: seq<seq<Moment>>, ghost was: Jobs,
        ghost qs: set<string>, ghost bound: nat, ghost workable: bool)
      returns (more: seq<RanJob>, failed: bool, ghost lost: bool, ghost traces: seq<seq<Moment>>)
      requires engine.backend.Valid() && engine.Calm(quiet) && round == |shown| + 1 && Busy(shown, |shown|)
      requires Shown(engine.Around(quiet), was, engine.backend.jobs, shown, ran) && (workable ==> quiet)
      requires workable ==>
        queues == qs && StillBounded(was, engine.backend.jobs, ran, qs, engine.now, bound, round - 1)
      modifies engine.backend, engine`readings, engine`trace, this`queues
      ensures engine.backend.Valid() && |traces| == |shown| + 1 && traces[..|shown|] == shown && lost == failed
      ensures InRounds(engine.Around(quiet), was, engine.backend.jobs, traces) && Busy(traces, |shown|)
      ensures !failed ==> Shown(engine.Around(quiet), was, engine.backend.jobs, traces, ran + more)
      ensures !failed && more != [] ==> Busy(traces, |traces|)
      ensures !failed && more == [] ==> RunsIn(traces[|shown|]) == []
      ensures workable ==>
        && !failed && queues == qs
        && WithinRunsLeft(was, engine.backend.jobs, ran + more, qs, engine.now, more == [])
        && (more != [] ==> StillBounded(was, engine.backend.jobs, ran + more, qs, engine.now, bound, round))
    {
      ghost var log;
      more, failed, log := RunRound(round, quiet);
      ghost var before, trace := old(engine.backend.jobs), engine.trace;
      lost, traces := failed, shown + [trace];
      BeginsWith(shown, trace);
      OneMoreHistory(engine.Around(quiet), was, before, engine.backend.jobs, shown, trace);
      StillBusy(shown, trace);
      if failed { return; }
      ShowsOneMore(engine.Around(quiet), was, before, engine.backend.jobs, shown, trace, ran, log, round);
      if workable {
        BoundedOnceMore(was, before, engine.backend.jobs, ran, more, log, qs, engine.now, bound, round);
      }
    }

    static lemma StillBusy(shown: seq<seq<Moment>>, trace: seq<Moment>)
      requires Busy(shown, |shown|)
      ensures Busy(shown + [trace], |shown|)
      ensures RunsIn(trace) != [] ==> Busy(shown + [trace], |shown| + 1)
    {
      forall k | 0 <= k < |shown| ensures RanSome(shown + [trace], k) { assert RanSome(shown, k); }
    }

    static lemma SoFarWithin(
        was: Jobs, jobs: Jobs, ran: seq<RanJob>, qs: set<string>, now: Instant, bound: nat, rounds: nat)
      requires WithinBounds(was, jobs, ran, qs, now, bound, rounds)
      ensures WithinRunsLeft(was, jobs, ran, qs, now, false)
    {
    }

    static lemma BeginsWith(shown: seq<seq<Moment>>, trace: seq<Moment>)
      ensures (shown + [trace])[..|shown|] == shown
    {
    }

    // What the rounds ran, from their histories.

    static ghost predicate RoundAt(env: Env, was: Jobs, traces: seq<seq<Moment>>, k: int) {
      && 0 <= k < |traces| && Gapless(env, traces[k])
      && (k == 0 ==> traces[k][0].jobs == was)
      && (k > 0 ==> traces[k - 1] != [] && traces[k][0].jobs == Last(traces[k - 1]).jobs)
    }

    /** One history follows the other, from the first store to the last. */
    static ghost predicate InRounds(env: Env, was: Jobs, jobs: Jobs, traces: seq<seq<Moment>>) {
      && (forall k {:trigger RoundAt(env, was, traces, k)} :: 0 <= k < |traces| ==> RoundAt(env, was, traces, k))
      && (traces == [] ==> jobs == was)
      && (traces != [] ==> traces[|traces| - 1] != [] && Last(traces[|traces| - 1]).jobs == jobs)
    }

    /** The first n rounds all ran something. */
    static ghost predicate Busy(traces: seq<seq<Moment>>, n: int) {
      forall k {:trigger RanSome(traces, k)} :: 0 <= k < n <= |traces| ==> RanSome(traces, k)
    }

    static ghost predicate RanSome(traces: seq<seq<Moment>>, k: int) {
      0 <= k < |traces| && RunsIn(traces[k]) != []
    }

    /** Each job ran at most as often as it still could; and when the rounds came to rest none can any more. */
    static ghost predicate WithinRunsLeft(
        was: Jobs, jobs: Jobs, ran: seq<RanJob>, qs: set<string>, now: Instant, atRest: bool)
    {
      && jobs.Keys == was.Keys
      && (forall id {:trigger RanAtMost(was, ran, id, qs, now)} :: id in was ==> RanAtMost(was, ran, id, qs, now))
      && (atRest ==> RunsLeftAtMost(jobs, qs, now, 0))
    }

    static ghost predicate RanAtMost(was: Jobs, ran: seq<RanJob>, id: JobId, qs: set<string>, now: Instant) {
      id in was && Times(ran, id) <= RunsLeft(was[id], qs, now)
    }

    /** No job can run more often than that. */
    static ghost predicate RunsLeftAtMost(jobs: Jobs, qs: set<string>, now: Instant, most: nat) {
      forall id {:trigger LeftAtMost(jobs, id, qs, now, most)} :: id in jobs ==> LeftAtMost(jobs, id, qs, now, most)
    }

    static ghost predicate LeftAtMost(jobs: Jobs, id: JobId, qs: set<string>, now: Instant, most: nat) {
      id in jobs && RunsLeft(jobs[id], qs, now) <= most
    }

    /** What has been returned so far is what the histories show. */
    static ghost predicate Shown(env: Env, was: Jobs, jobs: Jobs, traces: seq<seq<Moment>>, ran: seq<RanJob>) {
      InRounds(env, was, jobs, traces) && ran == RanOver(traces) && CountedRuns(was, jobs, ran)
    }

    static lemma OneMoreHistory(
        env: Env, was: Jobs, before: Jobs, jobs: Jobs, traces: seq<seq<Moment>>, trace: seq<Moment>)
      requires InRounds(env, was, before, traces) && Gapless(env, trace)
      requires trace[0].jobs == before && Last(trace).jobs == jobs
      ensures InRounds(env, was, jobs, traces + [trace])
    {
      var more := traces + [trace];
      forall k | 0 <= k < |more| ensures RoundAt(env, was, more, k) {
        if k < |traces| { assert RoundAt(env, was, traces, k); }
      }
    }

    static lemma OverOneMore(traces: seq<seq<Moment>>, trace: seq<Moment>, n: nat)
      requires n == |traces| + 1
      ensures RanOver(traces + [trace]) == RanOver(traces) + RanIn(RunsIn(trace), n)
    {
      var more := traces + [trace];
      var shown, last := LastRound(more, n);
      assert shown == traces && last == trace;
    }

    static lemma LastRound(traces: seq<seq<Moment>>, n: nat) returns (shown: seq<seq<Moment>>, last: seq<Moment>)
      requires traces != [] && n == |traces|
      ensures shown == traces[..|traces| - 1] && last == traces[|traces| - 1]
      ensures RanOver(traces) == RanOver(shown) + RanIn(RunsIn(last), n)
    {
      shown, last := traces[..|traces| - 1], traces[|traces| - 1];
    }

    static lemma ShowsOneMore(
        env: Env, was: Jobs, before: Jobs, jobs: Jobs, traces: seq<seq<Moment>>, trace: seq<Moment>,
        ran: seq<RanJob>, log: seq<Run>, round: nat)
      requires Shown(env, was, before, traces, ran) && Gapless(env, trace) && OwnIds(before) && round == |traces| + 1
      requires trace[0].jobs == before && Last(trace).jobs == jobs
      requires RunsIn(trace) == log && RowsIn(trace) == RowsOf(log) && Busy(traces, |traces|)
      ensures Shown(env, was, jobs, traces + [trace], ran + RanIn(log, round))
      ensures Busy(traces + [trace], |traces|) && (log != [] ==> Busy(traces + [trace], |traces| + 1))
    {
      OneMoreHistory(env, was, before, jobs, traces, trace);
      OverOneMore(traces, trace, round);
      CountOneMore(env, was, before, trace, ran, log, round);
      StillBusy(traces, trace);
    }

    /** In quiet surroundings: what every job may still run, and within how many rounds. */
    static ghost predicate StillBounded(
        was: Jobs, jobs: Jobs, ran: seq<RanJob>, qs: set<string>, now: Instant, bound: nat, rounds: int)
    {
      Workable(jobs, qs, now) && 0 <= rounds <= bound && WithinBounds(was, jobs, ran, qs, now, bound, rounds)
    }

    static lemma BoundedOnceMore(
        was: Jobs, before: Jobs, jobs: Jobs, ran: seq<RanJob>, more: seq<RanJob>, log: seq<Run>, qs: set<string>,
        now: Instant, bound: nat, round: nat)
      requires StillBounded(was, before, ran, qs, now, bound, round - 1) && Spends(before, jobs, RowsOf(log), qs, now)
      requires more == RanIn(log, round) && forall i, j :: 0 <= i < j < |log| ==> log[i].row.id != log[j].row.id
      ensures WithinRunsLeft(was, jobs, ran + more, qs, now, more == [])
      ensures more != [] ==> StillBounded(was, jobs, ran + more, qs, now, bound, round)
    {
      OneMoreRound(was, before, jobs, ran, more, RowsOf(log), qs, now, bound, round - 1);
      StaysModest(before, jobs, RowsOf(log), qs, now, PROMOTION_LIMIT, QUEUE_JOB_BUDGET);
      SoFarWithin(was, jobs, ran + more, qs, now, bound, round);
    }

    /** The generation of a job rises by one with every execution. */
    static ghost predicate CountedRuns(was: Jobs, jobs: Jobs, ran: seq<RanJob>) {
      forall id {:trigger CountedFor(was, jobs, ran, id)} :: id in was ==> CountedFor(was, jobs, ran, id)
    }

    static ghost predicate CountedFor(was: Jobs, jobs: Jobs, ran: seq<RanJob>, id: JobId) {
      id in was && id in jobs && jobs[id].generation == was[id].generation + Times(ran, id)
    }

    static lemma CountOneMore(
        env: Env, was: Jobs, before: Jobs, trace: seq<Moment>, ran: seq<RanJob>, log: seq<Run>, round: nat)
      requires CountedRuns(was, before, ran) && Gapless(env, trace) && trace[0].jobs == before && OwnIds(before)
      requires RowsIn(trace) == RowsOf(log)
      ensures CountedRuns(was, Last(trace).jobs, ran + RanIn(log, round))
    {
      forall id | id in was ensures CountedFor(was, Last(trace).jobs, ran + RanIn(log, round), id) {
        assert CountedFor(was, before, ran, id);
        ClaimsAreCounted(env, trace, id);
        TimesRan(log, round, id);
        TimesAppend(ran, RanIn(log, round), id);
      }
    }

    static lemma {:induction false} TimesRan(log: seq<Run>, round: nat, id: JobId)
      ensures Times(RanIn(log, round), id) == TimesIn(RowsOf(log), id)
    {
      if log != [] {
        var n := |log| - 1;
        TimesRan(log[..n], round, id);
        assert RanIn(log, round)[..n] == RanIn(log[..n], round) && RowsOf(log)[..n] == RowsOf(log[..n]);
      }
    }

    /** Few enough jobs for a pass to promote all that are due and to work every queue off. */
    static ghost predicate Workable(jobs: Jobs, queues: set<string>, now: Instant) {
      Modest(jobs, queues, now, 1_000_000, 10_000)
    }

    /** A bound on the runs left: the given one if it is one, and otherwise any. */
    static lemma MostRuns(jobs: Jobs, queues: set<string>, now: Instant, most: nat) returns (bound: nat)
      ensures RunsLeftAtMost(jobs, queues, now, bound)
      ensures RunsLeftAtMost(jobs, queues, now, most) ==> bound == most
    {
      if RunsLeftAtMost(jobs, queues, now, most) {
        bound := most;
      } else {
        bound := AnyBound(jobs, queues, now, jobs.Keys);
      }
    }

    static lemma AnyBound(jobs: Jobs, queues: set<string>, now: Instant, ids: set<JobId>) returns (bound: nat)
      requires ids <= jobs.Keys
      ensures forall id :: id in ids ==> RunsLeft(jobs[id], queues, now) <= bound
      decreases |ids|
    {
      bound := 0;
      if ids != {} {
        var x :| x in ids;
        var rest := AnyBound(jobs, queues, now, ids - {x});
        bound := rest + RunsLeft(jobs[x], queues, now);
      }
    }
  }
}
