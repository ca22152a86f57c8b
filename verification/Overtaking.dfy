/** Why a boost is not a rank: boosts reorder a queue, but past a certain instant nobody can overtake a
waiting job any more, and every claim on its queue brings it closer.
*/
module Overtaking {
  import opened Instants
  import opened Rows
  import opened Store
  import opened MemoryBackend
  import opened Runs

  predicate Waiting(row: Row) {
    row.state == Scheduled || row.state == Available || row.state == Retryable
  }

  /** The waiting jobs that a fetch would prefer to this one. */
  function Ahead(jobs: Jobs, id: JobId): set<JobId>
    requires id in jobs
  {
    set i | i in jobs && jobs[i].queue == jobs[id].queue && Waiting(jobs[i]) && Before(jobs[i], jobs[id])
  }

  /** Everything the step schedules is scheduled at from or later, with a boost of at most boost. A
      step whose clock has passed from and that schedules nothing into the past qualifies. */
  predicate SchedulesFrom(l: Label, from: Instant, boost: int) {
    match l
    case Enqueues(rows, now) =>
      forall r :: r in rows ==> EffectiveSchedule(r, now) >= from && r.priorityBoost <= boost
    case Finalizes(batch, _) => forall op :: op in batch && (op.Retry? || op.Snooze?) ==> op.at >= from
    case Rescues(now, _, _) => now >= from
    case _ => true
  }

  predicate BoostsAtMost(jobs: Jobs, boost: int) {
    forall id :: id in jobs ==> jobs[id].priorityBoost <= boost
  }

  /** A row that comes to wait, or to wait elsewhere, sorts after p. */
  lemma RescheduledSortsLater(w: World, row: Row, e: Event, from: Instant, boost: int, p: Instant)
    requires MayHappen(w, row, e) && row.priorityBoost <= boost && 0 <= boost && p + boost < from
    requires e.Settled? && (e.op.Retry? || e.op.Snooze?) ==> e.op.at >= from
    requires e.Rescued? ==> e.now >= from
    requires Waiting(After(row, e))
    ensures After(row, e).priorityAt > p || (After(row, e).priorityAt == row.priorityAt && Waiting(row))
  {
  }

  lemma BoostsStay(w: World, l: Label, w': World, from: Instant, boost: int)
    requires WorldOk(w) && Step(w, l, w') && BoostsAtMost(w.jobs, boost) && SchedulesFrom(l, from, boost)
    ensures BoostsAtMost(w'.jobs, boost)
  {
    forall id | id in w'.jobs ensures w'.jobs[id].priorityBoost <= boost {
      if id in w.jobs {
        var e := RowEvent(w, l, w', id);
      } else {
        NewRow(w, l, w', id);
        assert l.rows[id.n - w.nextID - 1] in l.rows;
      }
    }
  }

  /** A waiting row keeps its place in the order while it waits. */
  lemma KeepsItsPlace(w: World, l: Label, w': World, id: JobId)
    requires WorldOk(w) && Step(w, l, w') && id in w.jobs && id in w'.jobs
    requires Waiting(w.jobs[id]) && Waiting(w'.jobs[id])
    ensures w'.jobs[id].priorityAt == w.jobs[id].priorityAt && w'.jobs[id].queue == w.jobs[id].queue
  {
    var e := RowEvent(w, l, w', id);
  }

  /** A row that waits after the step waited before it in the same place, or sorts after p now. */
  lemma WaitedOrSortsLater(w: World, l: Label, w': World, i: JobId, from: Instant, boost: int, p: Instant)
    requires WorldOk(w) && Step(w, l, w') && BoostsAtMost(w.jobs, boost) && SchedulesFrom(l, from, boost)
    requires 0 <= boost && p + boost < from && i in w'.jobs && Waiting(w'.jobs[i])
    ensures w'.jobs[i].id == i
    ensures w'.jobs[i].priorityAt > p
      || (i in w.jobs && Waiting(w.jobs[i]) && w'.jobs[i].priorityAt == w.jobs[i].priorityAt
          && w'.jobs[i].queue == w.jobs[i].queue)
  {
    if i in w.jobs {
      var e := RowEvent(w, l, w', i);
      RescheduledSortsLater(w, w.jobs[i], e, from, boost, p);
    } else {
      NewRow(w, l, w', i);
      var r := l.rows[i.n - w.nextID - 1];
      assert r in l.rows;
      assert SubDuration(EffectiveSchedule(r, l.now), r.priorityBoost).Ok?;
    }
  }

  /** Whoever is ahead after the step was ahead before it. */
  lemma WasAheadBefore(w: World, l: Label, w': World, id: JobId, from: Instant, boost: int, i: JobId)
    requires WorldOk(w) && Step(w, l, w') && BoostsAtMost(w.jobs, boost) && SchedulesFrom(l, from, boost)
    requires id in w.jobs && id in w'.jobs && Waiting(w.jobs[id]) && Waiting(w'.jobs[id])
    requires 0 <= boost && w.jobs[id].priorityAt + boost < from
    requires i in Ahead(w'.jobs, id)
    ensures i in Ahead(w.jobs, id)
  {
    KeepsItsPlace(w, l, w', id);
    WaitedOrSortsLater(w, l, w', i, from, boost, w.jobs[id].priorityAt);
    WaitedOrSortsLater(w, l, w', id, from, boost, w.jobs[id].priorityAt);
  }

  /** No step puts another job ahead of a waiting job once everything new is scheduled after its
      effective time plus the largest boost. */
  lemma NobodyCutsIn(w: World, l: Label, w': World, id: JobId, from: Instant, boost: int)
    requires WorldOk(w) && Step(w, l, w') && BoostsAtMost(w.jobs, boost) && SchedulesFrom(l, from, boost)
    requires id in w.jobs && id in w'.jobs && Waiting(w.jobs[id]) && Waiting(w'.jobs[id])
    requires 0 <= boost && w.jobs[id].priorityAt + boost < from
    ensures Ahead(w'.jobs, id) <= Ahead(w.jobs, id)
  {
    forall i | i in Ahead(w'.jobs, id) ensures i in Ahead(w.jobs, id) {
      WasAheadBefore(w, l, w', id, from, boost, i);
    }
  }

  /** The fetch would take the job if nothing sorted before it. */
  predicate CouldClaim(jobs: Jobs, l: Label, id: JobId) {
    l.Fetches? && l.limit >= 1 && id in jobs && Claimable(jobs[id], l.queue, l.now)
  }

  /** A fetch that leaves a candidate behind claims another one that sorts before it. */
  lemma SomebodyFirst(jobs: Jobs, queue: string, limit: nat, client: string, now: Instant, rows: seq<Row>, id: JobId)
    returns (first: JobId)
    requires FetchedRows(jobs, queue, limit, client, now, rows) && limit >= 1
    requires forall i :: i in jobs ==> jobs[i].id == i
    requires id in Candidates(jobs, queue, now) && id !in Ids(rows)
    ensures first in Ids(rows) && first in Candidates(jobs, queue, now) && Before(jobs[first], jobs[id])
  {
    assert |Candidates(jobs, queue, now)| >= 1;
    var r := rows[0];
    assert r in rows && r.id in Ids(rows);
    first := r.id;
    assert !Before(jobs[id], jobs[first]);
  }

  /** Such a fetch claims the job, or claims somebody who was ahead of it. */
  lemma ClaimedOrCloser(w: World, l: Label, w': World, id: JobId) returns (first: JobId)
    requires SelfNamed(w) && CouldClaim(w.jobs, l, id)
    requires FetchStep(w, l.queue, l.limit, l.client, l.now, l.out, w')
    ensures id in w'.jobs && first in w'.jobs && w'.jobs[first].state == Running
    ensures first == id || (first in Ahead(w.jobs, id) && first !in Ahead(w'.jobs, id))
    ensures first == id <==> id in Ids(l.out)
  {
    if id in Ids(l.out) {
      first := id;
    } else {
      first := SomebodyFirst(w.jobs, l.queue, l.limit, l.client, l.now, l.out, id);
    }
  }

  lemma ShrinksBy<T>(after: set<T>, before: set<T>, x: T)
    requires after <= before && x in before && x !in after
    ensures |after| + 1 <= |before|
  {
    SubsetSize(after, before - {x});
  }

  lemma ClaimsBringCloser(w: World, l: Label, w': World, id: JobId, from: Instant, boost: int)
    requires WorldOk(w) && Step(w, l, w') && BoostsAtMost(w.jobs, boost) && SchedulesFrom(l, from, boost)
    requires id in w.jobs && id in w'.jobs && Waiting(w.jobs[id]) && Waiting(w'.jobs[id])
    requires 0 <= boost && w.jobs[id].priorityAt + boost < from
    ensures |Ahead(w'.jobs, id)| + (if CouldClaim(w.jobs, l, id) then 1 else 0) <= |Ahead(w.jobs, id)|
  {
    var before, after := Ahead(w.jobs, id), Ahead(w'.jobs, id);
    NobodyCutsIn(w, l, w', id, from, boost);
    if CouldClaim(w.jobs, l, id) {
      var first := ClaimedOrCloser(w, l, w', id);
      ShrinksBy(after, before, first);
    } else {
      SubsetSize(after, before);
    }
  }

  /** The fetches among steps i to j - 1 that could have claimed the job. */
  function Chances(ws: seq<World>, ls: seq<Label>, i: nat, j: nat, id: JobId): nat
    requires i <= j <= |ls| < |ws|
    decreases j - i
  {
    if i == j then 0
    else Chances(ws, ls, i, j - 1, id) + if CouldClaim(ws[j - 1].jobs, ls[j - 1], id) then 1 else 0
  }

  ghost predicate WaitsThroughout(ws: seq<World>, i: nat, j: nat, id: JobId) {
    forall k :: i <= k <= j < |ws| ==> id in ws[k].jobs && Waiting(ws[k].jobs[id])
  }

  lemma PriorityStays(ws: seq<World>, ls: seq<Label>, i: nat, id: JobId)
    requires IsRun(ws, ls) && i < |ls| && id in ws[i].jobs && id in ws[i + 1].jobs
    requires Waiting(ws[i].jobs[id]) && Waiting(ws[i + 1].jobs[id])
    ensures ws[i + 1].jobs[id].priorityAt == ws[i].jobs[id].priorityAt
  {
    At(ws, ls, i);
    KeepsItsPlace(ws[i], ls[i], ws[i + 1], id);
  }

  lemma OneStepCloser(ws: seq<World>, ls: seq<Label>, i: nat, id: JobId, from: Instant, boost: int)
    requires IsRun(ws, ls) && i < |ls| && id in ws[i].jobs && id in ws[i + 1].jobs
    requires Waiting(ws[i].jobs[id]) && Waiting(ws[i + 1].jobs[id])
    requires BoostsAtMost(ws[i].jobs, boost) && SchedulesFrom(ls[i], from, boost)
    requires 0 <= boost && ws[i].jobs[id].priorityAt + boost < from
    ensures BoostsAtMost(ws[i + 1].jobs, boost)
    ensures |Ahead(ws[i + 1].jobs, id)| + (if CouldClaim(ws[i].jobs, ls[i], id) then 1 else 0)
      <= |Ahead(ws[i].jobs, id)|
  {
    At(ws, ls, i);
    BoostsStay(ws[i], ls[i], ws[i + 1], from, boost);
    ClaimsBringCloser(ws[i], ls[i], ws[i + 1], id, from, boost);
  }

  /** A job that waits from step i to step j, while everything new is scheduled after its effective
      time plus the largest boost, is passed over at most as often as there were jobs ahead of it at
      step i: by then every one of them has been served, and the next such fetch takes the job. */
  lemma {:induction false} OvertakingIsBounded(
      ws: seq<World>, ls: seq<Label>, i: nat, j: nat, id: JobId, from: Instant, boost: int)
    requires IsRun(ws, ls) && i <= j <= |ls| && WaitsThroughout(ws, i, j, id) && id in ws[i].jobs
    requires BoostsAtMost(ws[i].jobs, boost) && forall k :: i <= k < j ==> SchedulesFrom(ls[k], from, boost)
    requires 0 <= boost && ws[i].jobs[id].priorityAt + boost < from
    ensures id in ws[j].jobs && ws[j].jobs[id].priorityAt == ws[i].jobs[id].priorityAt
    ensures BoostsAtMost(ws[j].jobs, boost)
    ensures Chances(ws, ls, i, j, id) + |Ahead(ws[j].jobs, id)| <= |Ahead(ws[i].jobs, id)|
    decreases j - i
  {
    if i < j {
      OvertakingIsBounded(ws, ls, i, j - 1, id, from, boost);
      PriorityStays(ws, ls, j - 1, id);
      OneStepCloser(ws, ls, j - 1, id, from, boost);
    }
  }

  /** So after that many chances the next one claims the job. */
  lemma ChancesRunOut(ws: seq<World>, ls: seq<Label>, i: nat, j: nat, id: JobId, from: Instant, boost: int)
    requires IsRun(ws, ls) && i <= j < |ls| && WaitsThroughout(ws, i, j, id) && id in ws[i].jobs
    requires BoostsAtMost(ws[i].jobs, boost) && forall k :: i <= k < j ==> SchedulesFrom(ls[k], from, boost)
    requires 0 <= boost && ws[i].jobs[id].priorityAt + boost < from
    requires Chances(ws, ls, i, j, id) >= |Ahead(ws[i].jobs, id)| && CouldClaim(ws[j].jobs, ls[j], id)
    ensures id in Ids(ls[j].out) && id in ws[j + 1].jobs && ws[j + 1].jobs[id].state == Running
  {
    OvertakingIsBounded(ws, ls, i, j, id, from, boost);
    assert Ahead(ws[j].jobs, id) == {};
    At(ws, ls, j);
    var first := ClaimedOrCloser(ws[j], ls[j], ws[j + 1], id);
  }
}
