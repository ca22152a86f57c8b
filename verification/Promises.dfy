/** What callers and workers may count on, over whole runs: nobody runs a job before its time or out of turn,
nobody is declared dead while it shows signs of life, what a worker returns is what becomes of its job, and a
finished job stays for as long as it is to be kept.
*/
module Promises {
  import opened Instants
  import opened Rows
  import opened Store
  import opened Executor
  import opened Runs
  import opened Guarantees
  import opened Histories
  import opened MemoryBackend

  // ---------- Not before its time ----------

  /** The steps from i on do not claim the job until step k. */
  ghost predicate Unclaimed(ls: seq<Label>, i: nat, k: nat, id: JobId) {
    forall m {:trigger ls[m]} :: i <= m < k < |ls| ==> !(ls[m].Fetches? && id in Ids(ls[m].out))
  }

  /** It waits: it neither runs nor is finished, and is scheduled for that instant. */
  predicate WaitsFor(w: World, id: JobId, at: Instant) {
    id in w.jobs && w.jobs[id].state != Running && !w.jobs[id].state.Terminal() && w.jobs[id].scheduledAt == at
  }

  lemma WaitsOneMore(w: World, l: Label, w': World, id: JobId, at: Instant)
    requires WorldOk(w) && Step(w, l, w') && WaitsFor(w, id, at) && id in w'.jobs
    requires !(l.Fetches? && id in Ids(l.out))
    ensures WaitsFor(w', id, at)
  {
    var e := RowEvent(w, l, w', id);
  }

  lemma {:induction false} StillWaits(ws: seq<World>, ls: seq<Label>, i: nat, k: nat, id: JobId, at: Instant)
    requires IsRun(ws, ls) && i <= k < |ls| && WaitsFor(ws[i], id, at) && Unclaimed(ls, i, k, id)
    requires id in ws[k].jobs
    ensures WaitsFor(ws[k], id, at)
    decreases k - i
  {
    if i < k {
      At(ws, ls, i);
      if id !in ws[i + 1].jobs { IdsAreNeverReused(ws, ls, i + 1, k, id); }
      WaitsOneMore(ws[i], ls[i], ws[i + 1], id, at);
      StillWaits(ws, ls, i + 1, k, id, at);
    }
  }

  /** A waiting job is promoted, and claimed, only at a clock that has reached the instant it waits for. */
  lemma NotBeforeItsTime(ws: seq<World>, ls: seq<Label>, i: nat, k: nat, id: JobId, at: Instant)
    requires IsRun(ws, ls) && i <= k < |ls| && WaitsFor(ws[i], id, at) && Unclaimed(ls, i, k, id)
    ensures ls[k].Fetches? && id in Ids(ls[k].out) ==> at <= ls[k].now
    ensures ls[k].Moves? && id in ls[k].picked ==> at <= ls[k].now
  {
    At(ws, ls, k);
    if (ls[k].Fetches? && id in Ids(ls[k].out)) || (ls[k].Moves? && id in ls[k].picked) {
      StillWaits(ws, ls, i, k, id, at);
    }
  }

  lemma WaitsAgain(w: World, l: Label, w': World, id: JobId, op: Op, now: Instant)
    requires WorldOk(w) && Step(w, l, w') && id in w.jobs && id in w'.jobs
    requires (op.Retry? || op.Snooze?) && Happened(w, l, id) == Settled(op, now)
    ensures WaitsFor(w', id, op.at)
  {
    HappenedSo(w, l, w', id);
    SettledFor(w.jobs[id], w'.jobs[id], op, now);
  }

  lemma SettledFor(row: Row, after: Row, op: Op, now: Instant)
    requires (op.Retry? || op.Snooze?) && after == After(row, Settled(op, now))
    ensures after.state == Retryable && after.scheduledAt == op.at
  {
  }

  /** A job that was retried or snoozed until an instant is next promoted, and next claimed, when that instant
      has come. */
  lemma BackoffIsWaitedFor(ws: seq<World>, ls: seq<Label>, i: nat, j: nat, k: nat, id: JobId, op: Op, now: Instant)
    requires IsRun(ws, ls) && j == i + 1 <= k < |ls| && id in ws[i].jobs && id in ws[j].jobs
    requires (op.Retry? || op.Snooze?) && Happened(ws[i], ls[i], id) == Settled(op, now)
    requires Unclaimed(ls, j, k, id)
    ensures WaitsFor(ws[j], id, op.at)
    ensures ls[k].Fetches? && id in Ids(ls[k].out) ==> op.at <= ls[k].now
    ensures ls[k].Moves? && id in ls[k].picked ==> op.at <= ls[k].now
  {
    ToState(ws, ls, i, j);
    WaitsAgain(ws[i], ls[i], ws[j], id, op, now);
    NotBeforeItsTime(ws, ls, j, k, id, op.at);
  }

  /** A job that was enqueued for an instant, or for none and so for the time of its enqueue, is first promoted,
      and first claimed, when that instant has come. */
  lemma DelayIsWaitedFor(ws: seq<World>, ls: seq<Label>, i: nat, j: nat, k: nat, id: JobId)
    returns (r: Row, now: Instant, starts: Instant)
    requires IsRun(ws, ls) && j == i + 1 <= k < |ls| && id !in ws[i].jobs && id in ws[j].jobs
    requires Unclaimed(ls, j, k, id)
    ensures ls[i].Enqueues? && r in ls[i].rows && now == ls[i].now
    ensures ws[j].jobs[id].createdAt == now && ws[j].jobs[id].payload == r.payload
    ensures starts == if r.scheduledAt == ZERO_TIME then now else r.scheduledAt
    ensures WaitsFor(ws[j], id, starts)
    ensures ls[k].Fetches? && id in Ids(ls[k].out) ==> starts <= ls[k].now
    ensures ls[k].Moves? && id in ls[k].picked ==> starts <= ls[k].now
  {
    ToState(ws, ls, i, j);
    r, now, starts := WaitsAtFirst(ws[i], ls[i], ws[j], id);
    NotBeforeItsTime(ws, ls, j, k, id, starts);
  }

  lemma WaitsAtFirst(w: World, l: Label, w': World, id: JobId) returns (r: Row, now: Instant, starts: Instant)
    requires WorldOk(w) && Step(w, l, w') && id !in w.jobs && id in w'.jobs
    ensures l.Enqueues? && r in l.rows && now == l.now
    ensures w'.jobs[id].createdAt == now && w'.jobs[id].payload == r.payload
    ensures starts == if r.scheduledAt == ZERO_TIME then now else r.scheduledAt
    ensures WaitsFor(w', id, starts)
  {
    var o := Begins(w, l, w', id);
    r, now, starts := o.row, o.at, o.Starts();
  }

  // ---------- In its turn ----------

  /** What a job is ranked by among those waiting in its queue: the instant it is scheduled for, less its
      boost; and among equals, which was enqueued first. */
  predicate GoesFirst(o: Origin, h: seq<Event>, id: JobId, o': Origin, h': seq<Event>, id': JobId) {
    var a, b := Clamp(ScheduledFor(o, h) - o.row.priorityBoost), Clamp(ScheduledFor(o', h') - o'.row.priorityBoost);
    a < b || (a == b && id.n < id'.n)
  }

  lemma EarlierInTheBatch(
      jobs: Jobs, queue: string, limit: nat, client: string, now: Instant, out: seq<Row>, id: JobId, b: nat)
    returns (a: nat)
    requires FetchedRows(jobs, queue, limit, client, now, out) && forall x :: x in jobs ==> jobs[x].id == x
    requires b < |out| && out[b].id in jobs && id in Candidates(jobs, queue, now)
    requires Before(jobs[id], jobs[out[b].id])
    ensures a < b && out[a].id == id
  {
    assert out[b] in out && id in Ids(out);
    a :| 0 <= a < |out| && out[a].id == id;
    assert out[a] in out && out[a] == Claim(jobs[id], client, now);
    assert out[b] == Claim(jobs[out[b].id], client, now);
    assert b < a ==> Before(out[b], out[a]);
  }

  lemma InTurn(w: World, l: Label, w': World, id: JobId, b: nat, o: Origin, h: seq<Event>, o': Origin, h': seq<Event>)
    returns (a: nat)
    requires WorldOk(w) && Step(w, l, w') && l.Fetches? && b < |l.out| && l.out[b].id in w.jobs
    requires id in Candidates(w.jobs, l.queue, l.now)
    requires Summarizes(w.jobs[id], o, h) && Summarizes(w.jobs[l.out[b].id], o', h')
    requires GoesFirst(o, h, id, o', h', l.out[b].id)
    ensures a < b && l.out[a].id == id
  {
    a := EarlierInTheBatch(w.jobs, l.queue, l.limit, l.client, l.now, l.out, id, b);
  }

  /** A fetch that claims a job has claimed before it every job of the queue that could be claimed and goes
      first. */
  lemma ClaimedInTurn(ws: seq<World>, ls: seq<Label>, i: nat, id: JobId, late: JobId, b: nat)
    returns (o: Origin, h: seq<Event>, o': Origin, h': seq<Event>, a: nat)
    requires IsRun(ws, ls) && i < |ls| && ls[i].Fetches? && b < |ls[i].out| && ls[i].out[b].id == late
    requires id in Candidates(ws[i].jobs, ls[i].queue, ls[i].now)
    ensures OriginOf(ws, ls, i, id) == Some(o) && h == History(ws, ls, i, id)
    ensures OriginOf(ws, ls, i, late) == Some(o') && h' == History(ws, ls, i, late)
    ensures GoesFirst(o, h, id, o', h', late) ==> a < b && ls[i].out[a].id == id
  {
    var j := i + 1;
    ToState(ws, ls, i, j);
    ClaimedAreStored(ws[i], ls[i], ws[j], b);
    o := RowIsItsHistory(ws, ls, i, id);
    o' := RowIsItsHistory(ws, ls, i, late);
    h, h', a := History(ws, ls, i, id), History(ws, ls, i, late), 0;
    if GoesFirst(o, h, id, o', h', late) { a := InTurn(ws[i], ls[i], ws[j], id, b, o, h, o', h'); }
  }

  lemma ClaimedAreStored(w: World, l: Label, w': World, b: nat)
    requires Step(w, l, w') && l.Fetches? && b < |l.out|
    ensures l.out[b].id in w.jobs
  {
    assert l.out[b] in l.out;
  }

  // ---------- While it shows signs of life ----------

  /** The instant that lies a duration before the clock. The least duration has no negation, and its wrapped
      one is itself. */
  function CutOff(now: Instant, d: Duration): Instant {
    if d == MIN_INT64 then now + MIN_INT64 else now - d
  }

  lemma CutOffWraps(now: Instant, d: Duration)
    ensures now + Wrap64(-(d as int)) == CutOff(now, d)
  {
  }

  /** What a rescue does, in the numbers of the call. It takes running jobs only, and only such as showed no
      sign of life for longer than the TTL; all of them, when the limit leaves room; and it sends them back to
      wait for their next attempt at once, whatever the TTL was. */
  lemma RescuedByTheTTL(jobs: Jobs, now: Instant, ttl: Duration, limit: int, picked: set<JobId>, id: JobId)
    requires BoundedPick(picked, AbandonedIds(jobs, ttl, now), limit) && id in jobs && ValidInstant(now)
    ensures var row, after := jobs[id], RescueAll(jobs, picked, now)[id];
      var late := row.state == Running && row.heartbeatAt < CutOff(now, ttl);
      && (!late ==> after == row)
      && (late && |AbandonedIds(jobs, ttl, now)| <= limit ==> after != row)
      && (after != row ==>
            && after.state == Retryable && after.scheduledAt == now
            && after.priorityAt == Clamp(now - row.priorityBoost)
            && after.(state := Running, scheduledAt := row.scheduledAt, priorityAt := row.priorityAt) == row)
  {
    CutOffWraps(now, ttl);
    if |AbandonedIds(jobs, ttl, now)| <= limit { AllPicked(picked, AbandonedIds(jobs, ttl, now), limit); }
  }

  lemma AllPicked(picked: set<JobId>, eligible: set<JobId>, limit: int)
    requires BoundedPick(picked, eligible, limit) && |eligible| <= limit
    ensures picked == eligible
  {
    var rest := eligible - picked;
    assert eligible == picked + rest;
  }

  /** The step is no end of the execution: neither a wipe nor a finalization of it, nor a rescue whose TTL
      reaches back no further than h, nor a heartbeat by a clock that went back behind h. */
  predicate LetsLive(jobs: Jobs, l: Label, t: Token, h: Instant) {
    match l
    case Finalizes(batch, _) => forall op :: op in batch ==> op.token != t
    case Heartbeats(tokens, now) => t in tokens ==> h <= now
    case Rescues(now, ttl, _) => CutOff(now, ttl) <= h
    case Resets => false
    case _ => true
  }

  lemma NotItsEnd(w: World, l: Label, t: Token, h: Instant) returns (e: Event)
    requires Live(w.jobs, t) && h <= w.jobs[t.id].heartbeatAt && LetsLive(w.jobs, l, t, h)
    requires l.Rescues? ==> l.picked <= AbandonedIds(w.jobs, l.ttl, l.now)
    ensures e == Happened(w, l, t.id) && !e.Settled? && !e.Rescued? && (e.Beaten? ==> h <= e.now)
  {
    e := Happened(w, l, t.id);
    if l.Rescues? { CutOffWraps(l.now, l.ttl); }
  }

  lemma StaysStored(w: World, l: Label, w': World, t: Token, h: Instant)
    requires Step(w, l, w') && Live(w.jobs, t) && LetsLive(w.jobs, l, t, h)
    ensures t.id in w'.jobs && (l.Rescues? ==> l.picked <= AbandonedIds(w.jobs, l.ttl, l.now))
  {
    if t.id !in w'.jobs { StepRemoves(w, l, w', t.id); }
  }

  lemma LivesOneMore(w: World, l: Label, w': World, t: Token, h: Instant)
    requires WorldOk(w) && Step(w, l, w') && Live(w.jobs, t) && h <= w.jobs[t.id].heartbeatAt
    requires LetsLive(w.jobs, l, t, h)
    ensures Live(w'.jobs, t) && h <= w'.jobs[t.id].heartbeatAt
  {
    StaysStored(w, l, w', t, h);
    var e := NotItsEnd(w, l, t, h);
    HappenedSo(w, l, w', t.id);
    LivesThrough(w, w.jobs[t.id], e, h);
  }

  lemma LivesThrough(w: World, row: Row, e: Event, h: Instant)
    requires row.state == Running && h <= row.heartbeatAt && MayHappen(w, row, e)
    requires !e.Settled? && !e.Rescued? && (e.Beaten? ==> h <= e.now)
    ensures After(row, e).state == Running && After(row, e).generation == row.generation
    ensures h <= After(row, e).heartbeatAt
  {
  }

  /** An execution that showed a sign of life at h keeps its job through every rescue whose clock is at most a
      TTL later, and through whatever else happens, until it is finalized, or everything is wiped. */
  lemma {:induction false} LeaseHolds(ws: seq<World>, ls: seq<Label>, i: nat, j: nat, t: Token, h: Instant)
    requires IsRun(ws, ls) && i <= j < |ws|
    requires Live(ws[i].jobs, t) && h <= ws[i].jobs[t.id].heartbeatAt
    requires forall k :: i <= k < j ==> LetsLive(ws[k].jobs, ls[k], t, h)
    ensures Live(ws[j].jobs, t) && h <= ws[j].jobs[t.id].heartbeatAt
  {
    if i < j {
      var k := j - 1;
      LeaseHolds(ws, ls, i, k, t, h);
      ToState(ws, ls, k, j);
      LivesOneMore(ws[k], ls[k], ws[j], t, h);
    }
  }

  /** A claim and a heartbeat are such signs. */
  lemma SignsOfLife(ws: seq<World>, ls: seq<Label>, i: nat, t: Token)
    requires IsRun(ws, ls) && i < |ls|
    requires || (ls[i].Fetches? && t in Issued(ls[i].out))
             || (ls[i].Heartbeats? && t in ls[i].tokens && Live(ws[i].jobs, t))
    ensures Live(ws[i + 1].jobs, t) && ws[i + 1].jobs[t.id].heartbeatAt == ls[i].now
  {
    At(ws, ls, i);
    if ls[i].Fetches? {
      var r :| r in ls[i].out && t == Token(r.id, r.generation);
      assert r == Claim(ws[i].jobs[r.id], ls[i].client, ls[i].now);
    }
  }

  // ---------- Asked to stop ----------

  /** The answer to a heartbeat names, in the order presented and as often, the jobs that run under a presented
      token and were asked to stop. */
  lemma {:induction false} AnswersInOrder(jobs: Jobs, tokens: seq<Token>, more: seq<Token>)
    ensures AskedToStop(jobs, tokens + more) == AskedToStop(jobs, tokens) + AskedToStop(jobs, more)
  {
    if more == [] {
      assert tokens + more == tokens;
    } else {
      var n := |more| - 1;
      assert (tokens + more)[..|tokens + more| - 1] == tokens + more[..n];
      AnswersInOrder(jobs, tokens, more[..n]);
    }
  }

  lemma AnswersOne(jobs: Jobs, t: Token)
    ensures AskedToStop(jobs, [t])
      == if t.id in jobs && jobs[t.id].state == Running && jobs[t.id].generation == t.generation
            && jobs[t.id].cancelRequested
         then [t.id] else []
  {
    assert [t][..0] == [];
  }

  lemma {:induction false} AnswersAll(jobs: Jobs, tokens: seq<Token>, t: Token)
    requires t in tokens && Live(jobs, t) && jobs[t.id].cancelRequested
    ensures t.id in AskedToStop(jobs, tokens)
  {
    var n := |tokens| - 1;
    if tokens[n] != t { AnswersAll(jobs, tokens[..n], t); }
  }

  lemma {:induction false} FlagStays(ws: seq<World>, ls: seq<Label>, i: nat, j: nat, id: JobId)
    requires IsRun(ws, ls) && i <= j < |ws| && id in ws[i].jobs && ws[i].jobs[id].cancelRequested && id in ws[j].jobs
    ensures ws[j].jobs[id].cancelRequested
    decreases j
  {
    if i < j {
      var k := j - 1;
      ToState(ws, ls, k, j);
      StoredBetween(ws, ls, i, k, j, id);
      FlagStays(ws, ls, i, k, id);
      FlagStaysOnce(ws[k], ls[k], ws[j], id);
    }
  }

  lemma FlagStaysOnce(w: World, l: Label, w': World, id: JobId)
    requires WorldOk(w) && Step(w, l, w') && id in w.jobs && w.jobs[id].cancelRequested && id in w'.jobs
    ensures w'.jobs[id].cancelRequested
  {
    var e := RowEvent(w, l, w', id);
  }

  /** Nothing comes back: what is stored before and after was stored in between. */
  lemma StoredBetween(ws: seq<World>, ls: seq<Label>, i: nat, k: nat, j: nat, id: JobId)
    requires IsRun(ws, ls) && i <= k <= j < |ws| && id in ws[i].jobs && id in ws[j].jobs
    ensures id in ws[k].jobs
  {
    RunKeepsWorld(ws, ls, i);
    IdsGrow(ws, ls, i, k);
    if id !in ws[k].jobs { IdsAreNeverReused(ws, ls, k, j, id); }
  }

  lemma {:induction false} IdsGrow(ws: seq<World>, ls: seq<Label>, i: nat, k: nat)
    requires IsRun(ws, ls) && i <= k < |ws|
    ensures ws[i].nextID <= ws[k].nextID
  {
    if i < k {
      var m := k - 1;
      IdsGrow(ws, ls, i, m);
      ToState(ws, ls, m, k);
    }
  }

  /** A job that was asked to stop is named by every later heartbeat of whoever runs it. */
  lemma StopRequestsArrive(ws: seq<World>, ls: seq<Label>, i: nat, j: nat, k: nat, id: JobId, t: Token)
    requires IsRun(ws, ls) && j == i + 1 <= k < |ls| && ls[i] == Flags(id) && id in ws[i].jobs
    requires ls[k].Heartbeats? && t in ls[k].tokens && t.id == id && Live(ws[k].jobs, t)
    ensures id in AskedToStop(ws[k].jobs, ls[k].tokens)
  {
    ToState(ws, ls, i, j);
    FlagStays(ws, ls, j, k, id);
    AnswersAll(ws[k].jobs, ls[k].tokens, t);
  }

  // ---------- For as long as it is to be kept ----------

  /** What a cleaning removes, in the numbers of the call: finished jobs only, and only such as were finished
      longer ago than jobs in their state are kept; all of them, when the limit leaves room. */
  lemma CleanedByRetention(jobs: Jobs, now: Instant, keep: Retention, limit: int, picked: set<JobId>, id: JobId)
    requires BoundedPick(picked, ExpiredIds(jobs, keep, now), limit) && id in jobs
    ensures var row := jobs[id];
      var past :=
        || (row.state == Completed && row.finalizedAt < CutOff(now, keep.completed))
        || (row.state == Cancelled && row.finalizedAt < CutOff(now, keep.cancelled))
        || (row.state == Dead && row.finalizedAt < CutOff(now, keep.dead));
      && (!past ==> id in jobs - picked)
      && (past && |ExpiredIds(jobs, keep, now)| <= limit ==> id !in jobs - picked)
      && (id in jobs - picked ==> (jobs - picked)[id] == row)
  {
    CutOffWraps(now, keep.completed);
    CutOffWraps(now, keep.cancelled);
    CutOffWraps(now, keep.dead);
    if |ExpiredIds(jobs, keep, now)| <= limit { AllPicked(picked, ExpiredIds(jobs, keep, now), limit); }
  }

  /** A finished job is still there until it has been kept for as long as jobs that ended like it are. */
  lemma KeptForItsRetention(ws: seq<World>, ls: seq<Label>, i: nat, j: nat, id: JobId)
    returns (o: Origin, h: seq<Event>)
    requires IsRun(ws, ls) && j == i + 1 < |ws| && id in ws[i].jobs && id !in ws[j].jobs && !ls[i].Resets?
    ensures OriginOf(ws, ls, i, id) == Some(o) && h == History(ws, ls, i, id) && ls[i].Cleans?
    ensures var keep, now := ls[i].keep, ls[i].now;
      || (StateIn(o, h) == Completed && FinishedAt(h) < CutOff(now, keep.completed))
      || (StateIn(o, h) == Cancelled && FinishedAt(h) < CutOff(now, keep.cancelled))
      || (StateIn(o, h) == Dead && FinishedAt(h) < CutOff(now, keep.dead))
  {
    ToState(ws, ls, i, j);
    StepRemoves(ws[i], ls[i], ws[j], id);
    o := RowIsItsHistory(ws, ls, i, id);
    h := History(ws, ls, i, id);
    CutOffWraps(ls[i].now, ls[i].keep.completed);
    CutOffWraps(ls[i].now, ls[i].keep.cancelled);
    CutOffWraps(ls[i].now, ls[i].keep.dead);
  }

  /** What a promotion does, in the numbers of the call. */
  lemma PromotedByTheClock(jobs: Jobs, now: Instant, limit: int, picked: set<JobId>, id: JobId)
    requires BoundedPick(picked, DueIds(jobs, now), limit) && id in jobs
    ensures var row, after := jobs[id], MoveAll(jobs, picked)[id];
      var due := (row.state == Scheduled || row.state == Retryable) && row.scheduledAt <= now;
      && (!due ==> after == row)
      && (due && |DueIds(jobs, now)| <= limit ==> after != row)
      && (after != row ==> after.state == Available && after.(state := row.state) == row)
  {
    if |DueIds(jobs, now)| <= limit { AllPicked(picked, DueIds(jobs, now), limit); }
  }

  /** What a fetch does, in the numbers of the call. It claims available jobs of its queue only, and only such
      as are scheduled for now or earlier; all of them, when the limit leaves room; and each goes to its worker
      as it is stored, with one attempt and one generation more. */
  lemma ClaimedByTheClock(
      jobs: Jobs, queue: string, limit: nat, client: string, now: Instant, out: seq<Row>, id: JobId)
    requires FetchedRows(jobs, queue, limit, client, now, out)
    requires id in jobs && forall x :: x in jobs ==> jobs[x].id == x
    ensures var row, after := jobs[id], ClaimAll(jobs, Ids(out), client, now)[id];
      var claimable := row.state == Available && row.queue == queue && row.scheduledAt <= now;
      && (!claimable ==> after == row)
      && (claimable && |Candidates(jobs, queue, now)| <= limit ==> after in out)
      && (after != row ==>
            && after in out && after.state == Running
            && after.attempt == row.attempt + 1 && after.generation == row.generation + 1
            && after.attemptedAt == now && after.heartbeatAt == now && after.attemptedBy == row.attemptedBy + [client]
            && after.(state := row.state, attempt := row.attempt, generation := row.generation,
                      attemptedAt := row.attemptedAt, heartbeatAt := row.heartbeatAt,
                      attemptedBy := row.attemptedBy) == row)
  {
    forall r | r in out && r.id == id ensures r == Claim(jobs[id], client, now) {}
    if |Candidates(jobs, queue, now)| <= limit { AllFetched(jobs, queue, limit, client, now, out); }
    if id in Ids(out) {
      var r :| r in out && r.id == id;
    }
  }

  lemma AllFetched(jobs: Jobs, queue: string, limit: nat, client: string, now: Instant, out: seq<Row>)
    requires FetchedRows(jobs, queue, limit, client, now, out) && forall x :: x in jobs ==> jobs[x].id == x
    requires |Candidates(jobs, queue, now)| <= limit
    ensures Ids(out) == Candidates(jobs, queue, now)
  {
    forall i, j | 0 <= i < j < |out| ensures out[i].id != out[j].id { assert Before(out[i], out[j]); }
    CountIds(out);
    var ids, all := Ids(out), Candidates(jobs, queue, now);
    assert all == ids + (all - ids);
  }

  lemma {:induction false} CountIds(rows: seq<Row>)
    requires forall i, j :: 0 <= i < j < |rows| ==> rows[i].id != rows[j].id
    ensures |Ids(rows)| == |rows|
  {
    if rows != [] {
      var n := |rows| - 1;
      CountIds(rows[..n]);
      assert Ids(rows) == Ids(rows[..n]) + {rows[n].id};
    }
  }

  // ---------- What is refused ----------

  /** A batch of rows is stored unless the time one of them is scheduled for, or that time less its boost, lies
      outside the years that 64 bits of nanoseconds around 1970 can tell. */
  lemma RowsRefused(rows: seq<Row>, now: Instant)
    ensures Enqueueable(rows, now) <==> forall r :: r in rows ==> Storable(r, now)
  {
    forall r | r in rows ensures SubDuration(EffectiveSchedule(r, now), r.priorityBoost).Ok? <==> Storable(r, now) {}
  }

  predicate Storable(r: Row, now: Instant) {
    var starts := if r.scheduledAt == ZERO_TIME then now else r.scheduledAt;
    && -0x8000_0000_0000_0000 <= starts < 0x8000_0000_0000_0000
    && -0x8000_0000_0000_0000 <= starts - r.priorityBoost < 0x8000_0000_0000_0000
  }

  /** A finalization is refused as a whole, and changes nothing, exactly when it carries an instant outside of
      these years; otherwise it answers with the ids of the entries that settled nothing, if there are any. */
  lemma BatchesAnswered(jobs: Jobs, ops: seq<Op>, now: Instant)
    ensures var refused := exists op :: op in ops && OutsideOf64Bits(op);
      && (refused ==> BatchError(jobs, ops, now) == OutOfRange && Batch(jobs, ops, now) == jobs)
      && (!refused ==>
            var losers := Losers(jobs, ops, |ops|);
            BatchError(jobs, ops, now) == if losers == [] then NoError else Stale(losers))
  {
    StaleAreTheLosers(jobs, ops, now);
    if op :| op in ops && OutsideOf64Bits(op) {
      assert !op.InRange();
    } else {
      forall op | op in ops ensures op.InRange() { assert !OutsideOf64Bits(op); }
    }
  }

  predicate OutsideOf64Bits(op: Op) {
    (op.Retry? || op.Snooze?) && !(-0x8000_0000_0000_0000 <= op.at < 0x8000_0000_0000_0000)
  }

  /** The time of a row that names none: midnight of 1 January of year 1, so many leap and other days before
      1970. */
  lemma TheZeroTime()
    ensures ZERO_TIME == -(1969 * 365 + 1969 / 4 - 1969 / 100 + 1969 / 400) * 86_400 * 1_000_000_000
  {
  }
}
