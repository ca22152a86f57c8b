/** What an unstorable instant can do, on runs that any deployment may see: two jobs are claimed, the worker
of one asks to be snoozed for the longest duration there is, that of the other for no time at all, and later
the first execution is taken for dead and rescued.
*/
module Spoilt {
  import opened Instants
  import opened Rows
  import opened Store
  import opened Executor
  import opened Flushing
  import opened Completer
  import opened Runs
  import opened Passes

  /** A row as a client builds it for a job that is due at once and not boosted. */
  predicate DueAtOnce(r: Row) {
    ClientBuilt(r) && r.scheduledAt == ZERO_TIME && r.priorityBoost == 0
  }

  function Snoozed(d: Duration): Outcome {
    Failed(Failure("", None, Some(d), None, None))
  }

  /** The operation of an execution that is snoozed for d. */
  function Ending(row: Row, d: Duration, now: Instant): (op: Op)
    ensures op.Snooze? && op.token == Token(row.id, row.generation) && op.at == now + d
  {
    Conclude(WorkedOn(row, ""), Snoozed(d), now, 0)
  }

  function Start(): World { World(map[], 0, map[], map[], map[]) }

  function Enqueued(r: Row, now: Instant): World {
    Start().(jobs := EnqueueAll(map[], 0, [r, r], now), nextID := 2,
      baseline := map id | id in NewIds(0, 2) :: SnoozeCount(r.metadata))
  }

  /** The row of job id as its worker is handed it. */
  function Handed(r: Row, id: JobId, client: string, now: Instant): (h: Row)
    ensures h.id == id && h.state == Running && h.heartbeatAt == now
  {
    Claim(Stored(r, id, now), client, now)
  }

  function Both(a: Row, b: Row): Jobs {
    map[JobId(1) := a, JobId(2) := b]
  }

  function Claimed(r: Row, client: string, now: Instant): World {
    var a, b := Handed(r, JobId(1), client, now), Handed(r, JobId(2), client, now);
    Enqueued(r, now).(jobs := Both(a, b), execs := map[Token(a.id, a.generation) := a, Token(b.id, b.generation) := b])
  }

  lemma BothEnqueued(r: Row, now: Instant)
    requires DueAtOnce(r) && ValidInstant(now)
    ensures EnqueueStep(Start(), [r, r], now, Enqueued(r, now))
    ensures Enqueued(r, now).jobs == Both(Stored(r, JobId(1), now), Stored(r, JobId(2), now))
  {
  }

  /** A fetch of two may answer with two jobs that are equally urgent, in the order of their ids. */
  lemma BothFetched(a: Row, b: Row, client: string, now: Instant)
    requires a.id == JobId(1) && b.id == JobId(2) && a.priorityAt == b.priorityAt && a.queue == b.queue
    requires Claimable(a, a.queue, now) && Claimable(b, b.queue, now)
    ensures FetchedRows(Both(a, b), a.queue, 2, client, now, [Claim(a, client, now), Claim(b, client, now)])
    ensures ClaimAll(Both(a, b), Ids([Claim(a, client, now), Claim(b, client, now)]), client, now)
      == Both(Claim(a, client, now), Claim(b, client, now))
  {
    var jobs, out := Both(a, b), [Claim(a, client, now), Claim(b, client, now)];
    forall id ensures id in Candidates(jobs, a.queue, now) <==> id in {a.id, b.id} {}
    assert Candidates(jobs, a.queue, now) == {a.id, b.id};
    assert out[0] in out && out[1] in out;
    assert Ids(out) == {a.id, b.id};
  }

  lemma BothClaimed(r: Row, client: string, now: Instant)
    requires DueAtOnce(r) && ValidInstant(now)
    ensures FetchStep(Enqueued(r, now), r.queue, 2, client, now,
      [Handed(r, JobId(1), client, now), Handed(r, JobId(2), client, now)], Claimed(r, client, now))
  {
    BothEnqueued(r, now);
    BothFetched(Stored(r, JobId(1), now), Stored(r, JobId(2), now), client, now);
    BothIssued(Handed(r, JobId(1), client, now), Handed(r, JobId(2), client, now));
  }

  lemma BothIssued(a: Row, b: Row)
    ensures Issued([a, b]) == {Token(a.id, a.generation), Token(b.id, b.generation)}
  {
    var t, u := Token(a.id, a.generation), Token(b.id, b.generation);
    assert [a, b][0] in [a, b] && [a, b][1] in [a, b];
    assert Issued([a, b]) <= {t, u} && t in Issued([a, b]) && u in Issued([a, b]);
  }

  // ---------- The run ----------

  /** The two outcomes: one with an instant past the end of the range, and one that can be stored. */
  function TooLate(r: Row, client: string, now: Instant): Op {
    Ending(Handed(r, JobId(1), client, now), MAX_INT64, now)
  }

  function InTime(r: Row, client: string, now: Instant): Op {
    Ending(Handed(r, JobId(2), client, now), 0, now)
  }

  function Ended(r: Row, client: string, now: Instant): World {
    Claimed(r, client, now).(ops := map[TooLate(r, client, now).token := TooLate(r, client, now),
                                        InTime(r, client, now).token := InTime(r, client, now)])
  }

  function Rescued(r: Row, client: string, now: Instant): World {
    var w := Ended(r, client, now);
    w.(jobs := RescueAll(w.jobs, {JobId(1)}, now + 2))
  }

  lemma FirstConcludes(r: Row, client: string, now: Instant) returns (l: Label, w: World)
    ensures Step(Claimed(r, client, now), l, w)
    ensures w == Claimed(r, client, now).(ops := map[TooLate(r, client, now).token := TooLate(r, client, now)])
  {
    l := Concludes(TooLate(r, client, now).token, "", Snoozed(MAX_INT64), now, 0);
    w := Claimed(r, client, now).(ops := map[TooLate(r, client, now).token := TooLate(r, client, now)]);
  }

  lemma SecondConcludes(r: Row, client: string, now: Instant, w: World) returns (l: Label)
    requires w == Claimed(r, client, now).(ops := map[TooLate(r, client, now).token := TooLate(r, client, now)])
    ensures Step(w, l, Ended(r, client, now))
  {
    l := Concludes(InTime(r, client, now).token, "", Snoozed(0), now, 0);
  }

  lemma FirstRescued(r: Row, client: string, now: Instant) returns (l: Label)
    requires 0 < now <= MAX_INT64 - 2
    ensures Step(Ended(r, client, now), l, Rescued(r, client, now))
  {
    l := Rescues(now + 2, 1, {JobId(1)});
    assert JobId(1) in AbandonedIds(Ended(r, client, now).jobs, 1, now + 2);
  }

  /** When both executions have ended, and after the rescue. */
  lemma Course(r: Row, client: string, now: Instant) returns (ws: seq<World>, ls: seq<Label>)
    requires DueAtOnce(r) && 0 < now <= MAX_INT64 - 2
    ensures IsRun(ws, ls) && |ws| == 6 && ws[4] == Ended(r, client, now) && ws[5] == Rescued(r, client, now)
  {
    ws, ls := [Start()], [];
    BothEnqueued(r, now);
    RunGoesOn(ws, ls, Enqueues([r, r], now), Enqueued(r, now));
    ws, ls := ws + [Enqueued(r, now)], ls + [Enqueues([r, r], now)];
    BothClaimed(r, client, now);
    var out := [Handed(r, JobId(1), client, now), Handed(r, JobId(2), client, now)];
    RunGoesOn(ws, ls, Fetches(r.queue, 2, client, now, out), Claimed(r, client, now));
    ws, ls := ws + [Claimed(r, client, now)], ls + [Fetches(r.queue, 2, client, now, out)];
    var first, w := FirstConcludes(r, client, now);
    RunGoesOn(ws, ls, first, w);
    ws, ls := ws + [w], ls + [first];
    var second := SecondConcludes(r, client, now, w);
    RunGoesOn(ws, ls, second, Ended(r, client, now));
    ws, ls := ws + [Ended(r, client, now)], ls + [second];
    var last := FirstRescued(r, client, now);
    RunGoesOn(ws, ls, last, Rescued(r, client, now));
    ws, ls := ws + [Rescued(r, client, now)], ls + [last];
  }

  // ---------- What it shows ----------

  lemma Spoils(jobs: Jobs, late: Op, other: Op, at: Instant)
    requires late.Snooze? && other.Snooze? && !late.InRange() && other.InRange() && late.token != other.token
    requires Live(jobs, other.token)
    ensures Batch(jobs, [late, other], at) == jobs && Batch(jobs, [other], at) != jobs
  {
    assert [late, other][0] in [late, other];
    OneEntryBatch(jobs, other, at);
  }

  lemma FlushLoses(jobs: Jobs, late: Op, other: Op, at: Instant)
    requires late.Snooze? && other.Snooze? && !late.InRange() && other.InRange() && late.token != other.token
    requires Live(jobs, other.token)
    ensures FlushAll(jobs, [late, other], at) == jobs && OneByOne(jobs, [late, other], at) != jobs
  {
    var ops := [late, other];
    assert ops[0] == late && ops[1] == other && late in OfKind(ops, Snoozes) && other in OfKind(ops, Snoozes);
    assert !NothingSpoilt(jobs, ops, Snoozes);
    FlushEqualsOneByOne(jobs, ops, at);
    FlushAppliesTheGroups(jobs, ops, at);
    NothingGrouped(ops);
  }

  lemma NothingGrouped(ops: seq<Op>)
    requires forall op :: op in ops ==> op.Snooze?
    requires exists op :: op in ops && !op.InRange()
    ensures Grouped(ops) == []
  {
    var late :| late in ops && !late.InRange();
    var groups := Grouped(ops);
    assert groups == [] || groups[0] in groups;
    forall op ensures op !in groups {
      InGrouped(ops, op);
      assert op in ops ==> late in OfKind(ops, KindOf(op));
    }
  }

  /** When both executions have ended their operations may wait in one buffer. Flushed together, the one that
      could be stored is lost beside the one that could not; sent one by one it is not. */
  lemma GroupingCanLose(r: Row, client: string, now: Instant, at: Instant) returns (ws: seq<World>, ls: seq<Label>)
    requires DueAtOnce(r) && 0 < now <= MAX_INT64 - 2
    ensures IsRun(ws, ls) && |ws| == 6
    ensures var w, buf := ws[4], [TooLate(r, client, now), InTime(r, client, now)];
      && (forall op :: op in buf ==> op.token in w.ops && w.ops[op.token] == op)
      && FlushAll(w.jobs, buf, at) == w.jobs && OneByOne(w.jobs, buf, at) != w.jobs
  {
    ws, ls := Course(r, client, now);
    FlushLoses(ws[4].jobs, TooLate(r, client, now), InTime(r, client, now), at);
  }

  /** The call for the first of them gets to the store and is refused. A pass would report the job as
      snoozed, and the store still has it running. */
  lemma ReportsCanBeFalse(r: Row, client: string, now: Instant) returns (ws: seq<World>, ls: seq<Label>, run: Run)
    requires DueAtOnce(r) && 0 < now <= MAX_INT64 - 2
    ensures IsRun(ws, ls) && |ws| == 6 && JobId(1) in ws[4].jobs
    ensures run == Run(ws[4].jobs[JobId(1)], TooLate(r, client, now), now, now, true) && Honest(run.row, run.op)
    ensures Batch(ws[4].jobs, [run.op], run.at) == ws[4].jobs && RecordedRun(ws[4].jobs, run)
    ensures ResultOf(run.row, run.op).outcome == Snoozes && ws[4].jobs[run.row.id].state == Running
  {
    ws, ls := Course(r, client, now);
    run := Run(Handed(r, JobId(1), client, now), TooLate(r, client, now), now, now, true);
    assert [run.op][0] in [run.op];
    ConclusionsAreHonest(run.row, "", Snoozed(MAX_INT64), now, 0);
  }

  /** The rescued execution holds nothing any more, and yet its outcome keeps that of the other from being
      written. */
  lemma SupersededCanSpoil(r: Row, client: string, now: Instant, at: Instant)
    returns (ws: seq<World>, ls: seq<Label>)
    requires DueAtOnce(r) && 0 < now <= MAX_INT64 - 2
    ensures IsRun(ws, ls) && |ws| == 6
    ensures var w, late, other := ws[5], TooLate(r, client, now), InTime(r, client, now);
      && late.token in w.execs && !Live(w.jobs, late.token)
      && late.token in w.ops && w.ops[late.token] == late && other.token in w.ops && w.ops[other.token] == other
      && Without([late, other], late.token) == [other]
      && Batch(w.jobs, [late, other], at) == w.jobs && Batch(w.jobs, [other], at) != w.jobs
  {
    ws, ls := Course(r, client, now);
    var late, other := TooLate(r, client, now), InTime(r, client, now);
    Spoils(ws[5].jobs, late, other, at);
    DropsTheFirst(late, other);
  }

  lemma DropsTheFirst(late: Op, other: Op)
    requires late.token != other.token
    ensures Without([late, other], late.token) == [other]
  {
    assert [late, other][..1] == [late];
    assert Without([late], late.token) == Without([], late.token);
  }
}
