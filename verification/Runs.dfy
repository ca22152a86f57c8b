/** Whole runs: any number of clients enqueueing, claiming, executing, finalizing, heartbeating and
maintaining one store, in any interleaving.

An execution that ends leaves its operation in ops for good. From there any batch of operations may
reach the store at any time and any number of times, which covers late deliveries, regrouped batches
and replays by a retry loop; an operation that never arrives covers crashes and drops.
*/
module Runs {
  import opened Instants
  import opened Rows
  import opened Store
  import opened Executor

  datatype World = World(
    jobs: Jobs, nextID: int,
    execs: map<Token, Row>,     // every execution ever claimed, with the row it was handed
    ops: map<Token, Op>,        // how the executions that ended did so
    baseline: map<JobId, int>)  // the snooze count the caller's own metadata carried at enqueue

  datatype Label =
    | Enqueues(rows: seq<Row>, now: Instant)
    | Fetches(queue: string, limit: nat, client: string, now: Instant, out: seq<Row>)
    | Concludes(token: Token, user: string, outcome: Outcome, now: Instant, delay: Duration)
    | Finalizes(batch: seq<Op>, now: Instant)
    | Heartbeats(tokens: seq<Token>, now: Instant)
    | Moves(now: Instant, picked: set<JobId>)
    | Rescues(now: Instant, ttl: Duration, picked: set<JobId>)
    | Cleans(now: Instant, keep: Retention, picked: set<JobId>)
    | Flags(id: JobId)
    | Resets

  /** A row as a client builds it: nothing about its execution is filled in. */
  predicate ClientBuilt(r: Row) {
    && r.attempt == 0 && r.generation == 0 && r.attemptedBy == [] && r.errors == []
    && r.finalizedAt == ZERO_TIME && r.metadata.Metadata?
  }

  function Issued(out: seq<Row>): set<Token> {
    set r | r in out :: Token(r.id, r.generation)
  }

  ghost predicate Init(w: World) {
    w == World(map[], 0, map[], map[], map[])
  }

  ghost predicate EnqueueStep(w: World, rows: seq<Row>, now: Instant, w': World) {
    && ValidInstant(now) && (forall r :: r in rows ==> ClientBuilt(r)) && Enqueueable(rows, now)
    && w'.jobs == EnqueueAll(w.jobs, w.nextID, rows, now) && w'.nextID == w.nextID + |rows|
    && w'.execs == w.execs && w'.ops == w.ops
    && w'.baseline.Keys == w.baseline.Keys + NewIds(w.nextID, |rows|)
    && (forall id :: id in w'.baseline ==>
          w'.baseline[id] == if w.nextID < id.n <= w.nextID + |rows|
                             then SnoozeCount(rows[id.n - w.nextID - 1].metadata)
                             else w.baseline[id])
  }

  ghost predicate FetchStep(
      w: World, queue: string, limit: nat, client: string, now: Instant, out: seq<Row>, w': World)
  {
    && FetchedRows(w.jobs, queue, limit, client, now, out)
    && w'.jobs == ClaimAll(w.jobs, Ids(out), client, now)
    && w'.execs.Keys == w.execs.Keys + Issued(out)
    && (forall t :: t in w'.execs ==> w'.execs[t] == if t in Issued(out) then w'.jobs[t.id] else w.execs[t])
    && w'.nextID == w.nextID && w'.ops == w.ops && w'.baseline == w.baseline
  }

  ghost predicate FinalizeStep(w: World, batch: seq<Op>, now: Instant, w': World) {
    && ValidInstant(now) && (forall op :: op in batch ==> op.token in w.ops && w.ops[op.token] == op)
    && w' == w.(jobs := Batch(w.jobs, batch, now))
  }

  ghost predicate Step(w: World, l: Label, w': World) {
    match l
    case Enqueues(rows, now) => EnqueueStep(w, rows, now, w')
    case Fetches(queue, limit, client, now, out) => FetchStep(w, queue, limit, client, now, out, w')
    case Concludes(t, user, outcome, now, delay) =>
      && t in w.execs && t !in w.ops
      && w' == w.(ops := w.ops[t := Conclude(WorkedOn(w.execs[t], user), outcome, now, delay)])
    case Finalizes(batch, now) => FinalizeStep(w, batch, now, w')
    case Heartbeats(tokens, now) => w' == w.(jobs := Beat(w.jobs, tokens, now))
    case Moves(now, picked) => picked <= DueIds(w.jobs, now) && w' == w.(jobs := MoveAll(w.jobs, picked))
    case Rescues(now, ttl, picked) =>
      ValidInstant(now) && picked <= AbandonedIds(w.jobs, ttl, now) && w' == w.(jobs := RescueAll(w.jobs, picked, now))
    case Cleans(now, keep, picked) => picked <= ExpiredIds(w.jobs, keep, now) && w' == w.(jobs := w.jobs - picked)
    case Flags(id) => w' == w.(jobs := Flag(w.jobs, id))
    case Resets => w' == w.(jobs := map[])
  }

  ghost predicate IsRun(ws: seq<World>, ls: seq<Label>) {
    && |ws| == |ls| + 1
    && Init(ws[0])
    && forall i :: 0 <= i < |ls| ==> StepAt(ws, ls, i)
  }

  ghost predicate StepAt(ws: seq<World>, ls: seq<Label>, i: int) {
    0 <= i < |ls| < |ws| && Step(ws[i], ls[i], ws[i + 1])
  }

  lemma RunGoesOn(ws: seq<World>, ls: seq<Label>, l: Label, w: World)
    requires IsRun(ws, ls) && Step(ws[|ls|], l, w)
    ensures IsRun(ws + [w], ls + [l])
  {
    forall i | 0 <= i < |ls| + 1 ensures StepAt(ws + [w], ls + [l], i) {
      if i < |ls| { assert StepAt(ws, ls, i); }
    }
  }

  // ---------- What happens to one row in one step ----------

  datatype Event =
    | Untouched | Claimed(client: string, now: Instant) | Settled(op: Op, now: Instant) | Beaten(now: Instant)
    | Flagged | Moved | Rescued(now: Instant)

  function After(row: Row, e: Event): Row {
    match e
    case Untouched => row
    case Claimed(client, now) => Claim(row, client, now)
    case Settled(op, now) => Settle(row, op, now)
    case Beaten(now) => row.(heartbeatAt := now)
    case Flagged => row.(cancelRequested := true)
    case Moved => Move(row)
    case Rescued(now) => Rescue(row, now)
  }

  /** The event may happen to the row: only a running row is settled, by its own execution's
      operation. */
  ghost predicate MayHappen(w: World, row: Row, e: Event) {
    match e
    case Claimed(_, now) => row.state == Available
    case Settled(op, now) =>
      row.state == Running && op.token == Token(row.id, row.generation) && op.token in w.ops && w.ops[op.token] == op
      && ValidInstant(now) && op.InRange()
    case Beaten(_) => row.state == Running
    case Moved => row.state == Scheduled || row.state == Retryable
    case Rescued(now) => row.state == Running && ValidInstant(now)
    case _ => true
  }

  ghost predicate SelfNamed(w: World) {
    forall id :: id in w.jobs ==> w.jobs[id].id == id
  }

  lemma ClaimEvent(
      w: World, queue: string, limit: nat, client: string, now: Instant, out: seq<Row>, w': World, id: JobId)
    returns (e: Event)
    requires FetchStep(w, queue, limit, client, now, out, w') && id in w.jobs
    ensures MayHappen(w, w.jobs[id], e) && w'.jobs[id] == After(w.jobs[id], e)
    ensures e == if id in Ids(out) then Claimed(client, now) else Untouched
  {
    e := if id in Ids(out) then Claimed(client, now) else Untouched;
  }

  lemma FinalizeEvent(w: World, batch: seq<Op>, now: Instant, w': World, id: JobId) returns (e: Event)
    requires SelfNamed(w) && FinalizeStep(w, batch, now, w') && id in w.jobs && id in w'.jobs
    ensures MayHappen(w, w.jobs[id], e) && w'.jobs[id] == After(w.jobs[id], e)
    ensures e.Untouched? || (e.Settled? && e.op in batch)
  {
    FirstLiveEntryWins(w.jobs, batch, now);
    if i :| AllInRange(batch) && Wins(w.jobs, batch, i) && batch[i].token.id == id {
      assert batch[i] in batch;
      e := Settled(batch[i], now);
    } else {
      e := Untouched;
    }
  }

  lemma OldRowsStay(jobs: Jobs, last: int, rows: seq<Row>, now: Instant, id: JobId)
    requires id in jobs && id.n <= last
    ensures id in EnqueueAll(jobs, last, rows, now) && EnqueueAll(jobs, last, rows, now)[id] == jobs[id]
  {
  }

  /** Every step changes a row that outlives it by one event. */
  lemma RowEvent(w: World, l: Label, w': World, id: JobId) returns (e: Event)
    requires SelfNamed(w) && Step(w, l, w') && id in w.jobs && id in w'.jobs && id.n <= w.nextID
    ensures MayHappen(w, w.jobs[id], e) && w'.jobs[id] == After(w.jobs[id], e)
    ensures e.Claimed? <==> l.Fetches? && id in Ids(l.out)
    ensures e.Settled? ==> l.Finalizes? && e.op in l.batch
    ensures e.Rescued? ==> l.Rescues? && e.now == l.now
  {
    match l
    case Fetches(queue, limit, client, now, out) => e := ClaimEvent(w, queue, limit, client, now, out, w', id);
    case Enqueues(rows, now) =>
      e := Untouched;
      OldRowsStay(w.jobs, w.nextID, rows, now, id);
    case Finalizes(batch, now) => e := FinalizeEvent(w, batch, now, w', id);
    case Heartbeats(tokens, now) =>
      e := if w.jobs[id].state == Running && Token(id, w.jobs[id].generation) in tokens then Beaten(now) else Untouched;
    case Moves(now, picked) => e := if id in picked then Moved else Untouched;
    case Rescues(now, ttl, picked) => e := if id in picked then Rescued(now) else Untouched;
    case Flags(f) => e := if id == f then Flagged else Untouched;
    case _ => e := Untouched;
  }

  // ---------- What holds of every row ----------

  /** Entry i is the one that ended the job: the last failure of a dead job, or the reason of a cancelled
      one, recorded under the attempt the job ended with. */
  predicate EndedBy(row: Row, i: int)
    requires 0 <= i < |row.errors|
  {
    (row.state == Dead || row.state == Cancelled) && i == |row.errors| - 1 && row.errors[i].attempt == row.attempt
  }

  /** Attempt numbers rise along the history, none is above the row's own, and only the entry that
      ended the job may have spent the budget. */
  ghost predicate HistoryOk(row: Row) {
    var es := row.errors;
    && (forall i, j :: 0 <= i < j < |es| ==> es[i].attempt < es[j].attempt)
    && (forall i :: 0 <= i < |es| ==> 1 <= es[i].attempt <= row.attempt)
    && (row.state == Running ==> forall i :: 0 <= i < |es| ==> es[i].attempt < row.attempt)
    && (forall i :: 0 <= i < |es| ==> es[i].attempt < row.maxAttempts || EndedBy(row, i))
  }

  ghost predicate CountersOk(row: Row, baseline: int) {
    && row.generation == |row.attemptedBy|
    && row.generation == row.attempt + SnoozeCount(row.metadata) - baseline
    && row.metadata.Metadata?
    && 0 <= row.attempt
    && (row.state == Running ==> 1 <= row.attempt)
  }

  ghost predicate RowOk(row: Row, baseline: int) {
    && CountersOk(row, baseline) && HistoryOk(row)
    && (row.finalizedAt != ZERO_TIME <==> row.state.Terminal())
  }

  /** The row still is what its current execution was handed, as far as executions care. */
  predicate Matches(row: Row, exec: Row) {
    && exec.id == row.id && exec.generation == row.generation && exec.attempt == row.attempt
    && exec.maxAttempts == row.maxAttempts && exec.metadata == row.metadata
  }

  ghost predicate WorldOk(w: World) {
    0 <= w.nextID && SelfNamed(w) && JobsOk(w) && ExecsOk(w)
  }

  ghost predicate JobsOk(w: World) {
    && (forall id :: id in w.jobs ==> 0 < id.n <= w.nextID && id in w.baseline && RowOk(w.jobs[id], w.baseline[id]))
    && (forall id :: id in w.jobs ==> RunningMatches(w, w.jobs[id]))
  }

  ghost predicate ExecsOk(w: World) {
    && (forall t :: t in w.execs ==>
          0 < t.id.n <= w.nextID && (t.id in w.jobs ==> t.generation <= w.jobs[t.id].generation))
    && (forall t :: t in w.execs ==> w.execs[t].id == t.id && w.execs[t].generation == t.generation)
    && (forall t :: t in w.ops ==> t in w.execs && Honest(w.execs[t], w.ops[t]))
  }

  ghost predicate RunningMatches(w: World, row: Row) {
    row.state == Running ==>
      Token(row.id, row.generation) in w.execs && Matches(row, w.execs[Token(row.id, row.generation)])
  }

  /** A row keeps its promises under any event that may happen to it. */
  lemma EventKeepsRow(w: World, row: Row, e: Event, baseline: int)
    requires RowOk(row, baseline) && MayHappen(w, row, e) && RunningMatches(w, row)
    requires forall t :: t in w.ops ==> t in w.execs && Honest(w.execs[t], w.ops[t])
    ensures RowOk(After(row, e), baseline)
  {
    match e
    case Settled(op, now) =>
      assert Honest(w.execs[op.token], op);
      SettleKeepsRow(row, op, now, baseline);
    case Claimed(client, now) => ClaimKeepsRow(row, client, now, baseline);
    case _ =>
  }

  lemma ClaimKeepsRow(row: Row, client: string, now: Instant, baseline: int)
    requires RowOk(row, baseline) && row.state == Available
    ensures RowOk(Claim(row, client, now), baseline)
  {
  }

  lemma SettleKeepsRow(row: Row, op: Op, now: Instant, baseline: int)
    requires RowOk(row, baseline) && row.state == Running && ValidInstant(now)
    requires op.Retry? ==> op.err.attempt == row.attempt && row.attempt < row.maxAttempts
    requires op.Kill? ==> op.err.attempt == row.attempt
    requires op.metadata.NoMetadata? ==> !op.Snooze?
    requires SnoozeCount(op.metadata) == SnoozeCount(row.metadata) + (if op.Snooze? then 1 else 0)
    ensures RowOk(Settle(row, op, now), baseline)
  {
    SettleKeepsHistory(row, op, now);
  }

  lemma SettleKeepsHistory(row: Row, op: Op, now: Instant)
    requires HistoryOk(row) && row.state == Running && 1 <= row.attempt
    requires op.Retry? ==> op.err.attempt == row.attempt && row.attempt < row.maxAttempts
    requires op.Kill? ==> op.err.attempt == row.attempt
    ensures HistoryOk(Settle(row, op, now))
  {
    var after := Settle(row, op, now);
    if after.errors != row.errors {
      HistoryGrows(row, after, after.errors[|row.errors|]);
    }
  }

  /** A failure of the attempt that ran goes on record. */
  lemma HistoryGrows(row: Row, after: Row, e: AttemptError)
    requires HistoryOk(row) && row.state == Running && 1 <= row.attempt
    requires after.errors == row.errors + [e] && e.attempt == row.attempt == after.attempt
    requires after.state != Running && after.maxAttempts == row.maxAttempts
    requires row.attempt < row.maxAttempts || after.state == Dead || after.state == Cancelled
    ensures HistoryOk(after)
  {
  }

  lemma OnlyEnqueueAdds(w: World, l: Label, w': World)
    requires SelfNamed(w) && Step(w, l, w') && !l.Enqueues?
    ensures w'.jobs.Keys <= w.jobs.Keys
  {
    if l.Finalizes? { FirstLiveEntryWins(w.jobs, l.batch, l.now); }
  }

  lemma EnqueuedRow(w: World, rows: seq<Row>, now: Instant, w': World, id: JobId)
    requires EnqueueStep(w, rows, now, w') && id in w'.jobs && id !in w.jobs
    ensures w.nextID < id.n <= w'.nextID && id in w'.baseline
    ensures var r := rows[id.n - w.nextID - 1];
      r in rows && ClientBuilt(r) && w'.jobs[id] == Stored(r, id, now) && w'.baseline[id] == SnoozeCount(r.metadata)
  {
    var r := NewlyStored(w.jobs, w.nextID, rows, now, id);
    assert w'.baseline[id] == SnoozeCount(rows[id.n - w.nextID - 1].metadata);
  }

  lemma NewlyStored(jobs: Jobs, last: int, rows: seq<Row>, now: Instant, id: JobId) returns (r: Row)
    requires id in EnqueueAll(jobs, last, rows, now) && id !in jobs
    ensures last < id.n <= last + |rows| && id in NewIds(last, |rows|)
    ensures r == rows[id.n - last - 1] && r in rows && EnqueueAll(jobs, last, rows, now)[id] == Stored(r, id, now)
  {
    assert id in NewIds(last, |rows|);
    r := rows[id.n - last - 1];
  }

  /** A row that is there after a step and was not there before has just been enqueued. */
  lemma NewRow(w: World, l: Label, w': World, id: JobId)
    requires SelfNamed(w) && Step(w, l, w') && id in w'.jobs && id !in w.jobs
    ensures l.Enqueues? && w.nextID < id.n <= w'.nextID && id in w'.baseline
    ensures var r := l.rows[id.n - w.nextID - 1];
      r in l.rows && ClientBuilt(r) && w'.jobs[id] == Stored(r, id, l.now) && w'.baseline[id] == SnoozeCount(r.metadata)
  {
    if !l.Enqueues? { OnlyEnqueueAdds(w, l, w'); }
    EnqueuedRow(w, l.rows, l.now, w', id);
  }

  lemma EnqueuedRowOk(r: Row, id: JobId, now: Instant)
    requires ClientBuilt(r)
    ensures RowOk(Stored(r, id, now), SnoozeCount(r.metadata))
  {
  }

  lemma BaselineStays(w: World, l: Label, w': World, id: JobId)
    requires Step(w, l, w') && id in w.baseline && id.n <= w.nextID
    ensures id in w'.baseline && w'.baseline[id] == w.baseline[id] && w.nextID <= w'.nextID
  {
  }

  lemma OldRowOk(w: World, l: Label, w': World, id: JobId)
    requires WorldOk(w) && Step(w, l, w') && id in w.jobs && id in w'.jobs
    ensures RowOk(w'.jobs[id], w.baseline[id])
    ensures w'.jobs[id].id == id
  {
    var e := RowEvent(w, l, w', id);
    EventKeepsRow(w, w.jobs[id], e, w.baseline[id]);
  }

  lemma StepKeepsRows(w: World, l: Label, w': World, id: JobId)
    requires WorldOk(w) && Step(w, l, w') && id in w'.jobs
    ensures 0 < id.n <= w'.nextID && w'.jobs[id].id == id
    ensures id in w'.baseline && RowOk(w'.jobs[id], w'.baseline[id])
  {
    if id in w.jobs {
      BaselineStays(w, l, w', id);
      OldRowOk(w, l, w', id);
    } else {
      NewRow(w, l, w', id);
      EnqueuedRowOk(l.rows[id.n - w.nextID - 1], id, l.now);
    }
  }

  lemma ClaimedRowMatches(
      w: World, queue: string, limit: nat, client: string, now: Instant, out: seq<Row>, w': World, id: JobId)
    requires WorldOk(w) && FetchStep(w, queue, limit, client, now, out, w') && id in w.jobs
    ensures RunningMatches(w', w'.jobs[id])
  {
    if id in Ids(out) {
      var r :| r in out && r.id == id;
      assert Token(id, r.generation) in Issued(out);
    } else {
      assert RunningMatches(w, w.jobs[id]);
      forall t | t in Issued(out) ensures t !in w.execs { IssuedIsFresh(w, queue, limit, client, now, out, t); }
    }
  }

  lemma StepKeepsMatch(w: World, l: Label, w': World, id: JobId)
    requires WorldOk(w) && Step(w, l, w') && id in w'.jobs
    ensures RunningMatches(w', w'.jobs[id])
  {
    if id !in w.jobs {
      NewRow(w, l, w', id);
    } else if l.Fetches? {
      ClaimedRowMatches(w, l.queue, l.limit, l.client, l.now, l.out, w', id);
    } else {
      var e := RowEvent(w, l, w', id);
      EventKeepsMatch(w, w.jobs[id], e, w');
    }
  }

  lemma EventKeepsMatch(w: World, row: Row, e: Event, w': World)
    requires RunningMatches(w, row) && MayHappen(w, row, e) && !e.Claimed? && w'.execs == w.execs
    ensures RunningMatches(w', After(row, e))
  {
  }

  lemma GenerationsRise(w: World, l: Label, w': World, id: JobId)
    requires WorldOk(w) && Step(w, l, w') && id in w.jobs && id in w'.jobs
    ensures w.jobs[id].generation <= w'.jobs[id].generation
  {
    var e := RowEvent(w, l, w', id);
  }

  /** A claim's tokens were never issued before. */
  lemma IssuedIsFresh(w: World, queue: string, limit: nat, client: string, now: Instant, out: seq<Row>, t: Token)
    requires WorldOk(w) && FetchedRows(w.jobs, queue, limit, client, now, out) && t in Issued(out)
    ensures t !in w.execs && !Live(w.jobs, t) && Live(ClaimAll(w.jobs, Ids(out), client, now), t)
  {
    var r :| r in out && t == Token(r.id, r.generation);
    assert r == Claim(w.jobs[r.id], client, now);
  }

  lemma FreshTokens(w: World, l: Label, w': World, t: Token)
    requires WorldOk(w) && Step(w, l, w') && l.Fetches?
    ensures t in Issued(l.out) ==> t !in w.execs && Live(w'.jobs, t)
  {
    if t in Issued(l.out) { IssuedIsFresh(w, l.queue, l.limit, l.client, l.now, l.out, t); }
  }

  lemma StepKeepsExecs(w: World, l: Label, w': World, t: Token)
    requires WorldOk(w) && Step(w, l, w') && t in w'.execs
    ensures 0 < t.id.n <= w'.nextID && (t.id in w'.jobs ==> t.generation <= w'.jobs[t.id].generation)
    ensures w'.execs[t].id == t.id && w'.execs[t].generation == t.generation
    ensures t in w'.ops ==> Honest(w'.execs[t], w'.ops[t])
    ensures t in w.execs ==> w'.execs[t] == w.execs[t]
  {
    if t in w.execs { OldExecStays(w, l, w', t); } else { NewExec(w, l, w', t); }
  }

  lemma OldExecStays(w: World, l: Label, w': World, t: Token)
    requires WorldOk(w) && Step(w, l, w') && t in w.execs && t in w'.execs
    ensures t.id in w'.jobs ==> t.generation <= w'.jobs[t.id].generation
    ensures w.nextID <= w'.nextID && w'.execs[t] == w.execs[t]
    ensures t in w'.ops ==> Honest(w'.execs[t], w'.ops[t])
  {
    if t.id in w'.jobs {
      if t.id in w.jobs { GenerationsRise(w, l, w', t.id); } else { NewRow(w, l, w', t.id); }
    }
    if l.Fetches? { FreshTokens(w, l, w', t); }
    if l.Concludes? && l.token == t {
      ConclusionsAreHonest(w.execs[t], l.user, l.outcome, l.now, l.delay);
    }
  }

  lemma NewExec(w: World, l: Label, w': World, t: Token)
    requires WorldOk(w) && Step(w, l, w') && t !in w.execs && t in w'.execs
    ensures 0 < t.id.n <= w'.nextID && t.id in w'.jobs && t.generation == w'.jobs[t.id].generation
    ensures w'.execs[t].id == t.id && w'.execs[t].generation == t.generation && t !in w'.ops
  {
    FreshTokens(w, l, w', t);
  }

  lemma StepKeepsJobs(w: World, l: Label, w': World)
    requires WorldOk(w) && Step(w, l, w')
    ensures SelfNamed(w') && JobsOk(w')
  {
    forall id | id in w'.jobs
      ensures 0 < id.n <= w'.nextID && w'.jobs[id].id == id && id in w'.baseline
      ensures RowOk(w'.jobs[id], w'.baseline[id]) && RunningMatches(w', w'.jobs[id])
    {
      StepKeepsRows(w, l, w', id);
      StepKeepsMatch(w, l, w', id);
    }
  }

  lemma StepKeepsAllExecs(w: World, l: Label, w': World)
    requires WorldOk(w) && Step(w, l, w')
    ensures 0 <= w'.nextID && ExecsOk(w')
  {
    forall t | t in w'.execs
      ensures 0 < t.id.n <= w'.nextID && (t.id in w'.jobs ==> t.generation <= w'.jobs[t.id].generation)
      ensures w'.execs[t].id == t.id && w'.execs[t].generation == t.generation
      ensures t in w'.ops ==> Honest(w'.execs[t], w'.ops[t])
    {
      StepKeepsExecs(w, l, w', t);
    }
  }

  lemma StepKeepsWorld(w: World, l: Label, w': World)
    requires WorldOk(w) && Step(w, l, w')
    ensures WorldOk(w')
  {
    StepKeepsJobs(w, l, w');
    StepKeepsAllExecs(w, l, w');
  }

  lemma {:induction false} RunKeepsWorld(ws: seq<World>, ls: seq<Label>, i: nat)
    requires IsRun(ws, ls) && i < |ws|
    ensures WorldOk(ws[i])
  {
    if i > 0 {
      RunKeepsWorld(ws, ls, i - 1);
      assert StepAt(ws, ls, i - 1);
      StepKeepsWorld(ws[i - 1], ls[i - 1], ws[i]);
    }
  }

  /** Step i of a run, and the state it starts from. */
  lemma At(ws: seq<World>, ls: seq<Label>, i: nat)
    requires IsRun(ws, ls) && i < |ls|
    ensures WorldOk(ws[i]) && Step(ws[i], ls[i], ws[i + 1]) && WorldOk(ws[i + 1])
  {
    RunKeepsWorld(ws, ls, i);
    RunKeepsWorld(ws, ls, i + 1);
    assert StepAt(ws, ls, i);
  }
}
