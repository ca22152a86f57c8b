/** What a stored job looks like, told from what happened to it: when it was last scheduled, who claimed it,
what its executions left behind. A row is the summary of its history, in every state of every run.
*/
module Histories {
  import opened Instants
  import opened Rows
  import opened Store
  import opened Executor
  import opened Runs

  /** How a job came into the store: the row as the caller built it, and the clock. */
  datatype Origin = Origin(row: Row, at: Instant) {
    /** A row that names no time is scheduled for the time of its enqueue. */
    function Starts(): Instant {
      if row.scheduledAt != ZERO_TIME then row.scheduledAt else at
    }
  }

  /** The first entry of a batch under a token. */
  function FirstAt(t: Token, batch: seq<Op>): (i: int)
    ensures -1 <= i < |batch|
    ensures i >= 0 ==> batch[i].token == t && forall k :: 0 <= k < i ==> batch[k].token != t
    ensures i == -1 ==> forall k :: 0 <= k < |batch| ==> batch[k].token != t
  {
    if batch == [] then -1
    else
      var n := |batch| - 1;
      var before := FirstAt(t, batch[..n]);
      assert forall k :: 0 <= k < n ==> batch[..n][k] == batch[k];
      if before >= 0 then before else if batch[n].token == t then n else -1
  }

  /** What a step does to a stored job that it leaves there. */
  function Happened(w: World, l: Label, id: JobId): Event
    requires id in w.jobs
  {
    var row := w.jobs[id];
    var t := Token(id, row.generation);
    match l
    case Fetches(_, _, client, now, out) => if id in Ids(out) then Claimed(client, now) else Untouched
    case Finalizes(batch, now) =>
      if AllInRange(batch) && row.state == Running && FirstAt(t, batch) >= 0 then Settled(batch[FirstAt(t, batch)], now)
      else Untouched
    case Heartbeats(tokens, now) => if row.state == Running && t in tokens then Beaten(now) else Untouched
    case Moves(_, picked) => if id in picked then Moved else Untouched
    case Rescues(now, _, picked) => if id in picked then Rescued(now) else Untouched
    case Flags(f) => if f == id then Flagged else Untouched
    case _ => Untouched
  }

  lemma NoWinner(jobs: Jobs, batch: seq<Op>, id: JobId)
    requires id in jobs && jobs[id].state == Running ==> FirstAt(Token(id, jobs[id].generation), batch) == -1
    ensures id in jobs ==> forall k :: Wins(jobs, batch, k) ==> batch[k].token.id != id
  {
    if id in jobs {
      var t := Token(id, jobs[id].generation);
      forall k | Wins(jobs, batch, k) ensures batch[k].token.id != id {
        assert batch[k].token != t || jobs[id].state != Running;
      }
    }
  }

  lemma FinalizationHappened(w: World, batch: seq<Op>, now: Instant, w': World, id: JobId)
    requires SelfNamed(w) && FinalizeStep(w, batch, now, w') && id in w.jobs && id in w'.jobs
    ensures var e := Happened(w, Finalizes(batch, now), id);
      MayHappen(w, w.jobs[id], e) && w'.jobs[id] == After(w.jobs[id], e)
  {
    var t := Token(id, w.jobs[id].generation);
    var i := FirstAt(t, batch);
    FirstLiveEntryWins(w.jobs, batch, now);
    if AllInRange(batch) && w.jobs[id].state == Running && i >= 0 {
      assert Wins(w.jobs, batch, i) && batch[i] in batch;
    } else if AllInRange(batch) {
      NoWinner(w.jobs, batch, id);
    }
  }

  lemma HappenedSo(w: World, l: Label, w': World, id: JobId)
    requires SelfNamed(w) && Step(w, l, w') && id in w.jobs && id in w'.jobs && id.n <= w.nextID
    ensures var e := Happened(w, l, id);
      MayHappen(w, w.jobs[id], e) && w'.jobs[id] == After(w.jobs[id], e)
  {
    match l
    case Finalizes(batch, now) => FinalizationHappened(w, batch, now, w', id);
    case _ => var e := RowEvent(w, l, w', id);
  }

  // ---------- Told from a history ----------

  /** When the job was last scheduled for. */
  function ScheduledFor(o: Origin, h: seq<Event>): Instant {
    if h == [] then o.Starts()
    else
      match h[|h| - 1]
      case Settled(Retry(_, at, _, _), _) => at
      case Settled(Snooze(_, at, _), _) => at
      case Rescued(now) => now
      case _ => ScheduledFor(o, h[..|h| - 1])
  }

  /** The clients that claimed it, in order. */
  function ClaimedBy(h: seq<Event>): seq<string> {
    if h == [] then []
    else ClaimedBy(h[..|h| - 1]) + if h[|h| - 1].Claimed? then [h[|h| - 1].client] else []
  }

  /** How many of its executions ended with a snooze. */
  function SnoozesIn(h: seq<Event>): nat {
    if h == [] then 0
    else SnoozesIn(h[..|h| - 1]) + if h[|h| - 1].Settled? && h[|h| - 1].op.Snooze? then 1 else 0
  }

  function AttemptsIn(h: seq<Event>): int { |ClaimedBy(h)| - SnoozesIn(h) }

  /** When it was last claimed. */
  function ClaimedAt(o: Origin, h: seq<Event>): Instant {
    if h == [] then o.row.attemptedAt
    else if h[|h| - 1].Claimed? then h[|h| - 1].now
    else ClaimedAt(o, h[..|h| - 1])
  }

  /** The last sign of life of whoever claimed it: a claim or a heartbeat. */
  function LastSign(o: Origin, h: seq<Event>): Instant {
    if h == [] then o.row.heartbeatAt
    else
      match h[|h| - 1]
      case Claimed(_, now) => now
      case Beaten(now) => now
      case _ => LastSign(o, h[..|h| - 1])
  }

  /** The failures on record: those that were retried, killed for, or cancelled with a reason. */
  function FailuresIn(h: seq<Event>): seq<AttemptError> {
    if h == [] then []
    else
      var before := h[..|h| - 1];
      match h[|h| - 1]
      case Settled(Retry(_, _, err, _), _) => FailuresIn(before) + [err]
      case Settled(Kill(_, err, _), _) => FailuresIn(before) + [err]
      case Settled(Cancel(_, reason, _), now) =>
        if reason == "" then FailuresIn(before)
        else FailuresIn(before) + [AttemptError(now, AttemptsIn(before), reason, "")]
      case _ => FailuresIn(before)
  }

  /** When it was finished, if its last execution to end finished it. */
  function FinishedAt(h: seq<Event>): Instant {
    if h == [] then ZERO_TIME
    else
      match h[|h| - 1]
      case Settled(op, now) => if op.Retry? || op.Snooze? then ZERO_TIME else now
      case _ => FinishedAt(h[..|h| - 1])
  }

  /** The metadata that the last execution to bring any left behind. */
  function MetadataIn(o: Origin, h: seq<Event>): Metadata {
    if h == [] then o.row.metadata
    else if h[|h| - 1].Settled? && h[|h| - 1].op.metadata.Metadata? then h[|h| - 1].op.metadata
    else MetadataIn(o, h[..|h| - 1])
  }

  predicate AskedToStopIn(o: Origin, h: seq<Event>) {
    o.row.cancelRequested || Flagged in h
  }

  function StateIn(o: Origin, h: seq<Event>): State {
    if h == [] then if o.Starts() <= o.at then Available else Scheduled
    else
      match h[|h| - 1]
      case Claimed(_, _) => Running
      case Settled(Complete(_, _), _) => Completed
      case Settled(Cancel(_, _, _), _) => Cancelled
      case Settled(Kill(_, _, _), _) => Dead
      case Settled(_, _) => Retryable
      case Rescued(_) => Retryable
      case Moved => Available
      case _ => StateIn(o, h[..|h| - 1])
  }

  // ---------- A row is the summary of its history ----------

  /** What nobody changes. */
  predicate SameJob(row: Row, o: Origin) {
    && row.kind == o.row.kind && row.queue == o.row.queue && row.payload == o.row.payload
    && row.priorityBoost == o.row.priorityBoost && row.maxAttempts == o.row.maxAttempts && row.createdAt == o.at
  }

  predicate Timed(row: Row, o: Origin, h: seq<Event>) {
    && row.scheduledAt == ScheduledFor(o, h) && row.priorityAt == Clamp(ScheduledFor(o, h) - o.row.priorityBoost)
    && row.attemptedAt == ClaimedAt(o, h) && row.heartbeatAt == LastSign(o, h) && row.finalizedAt == FinishedAt(h)
  }

  predicate Counted(row: Row, h: seq<Event>) {
    row.attemptedBy == ClaimedBy(h) && row.generation == |ClaimedBy(h)| && row.attempt == AttemptsIn(h)
  }

  predicate Told(row: Row, o: Origin, h: seq<Event>) {
    && row.state == StateIn(o, h) && row.errors == FailuresIn(h) && row.metadata == MetadataIn(o, h)
    && (row.cancelRequested <==> AskedToStopIn(o, h))
  }

  predicate Summarizes(row: Row, o: Origin, h: seq<Event>) {
    SameJob(row, o) && Timed(row, o, h) && Counted(row, h) && Told(row, o, h)
  }

  lemma NothingYet(r: Row, id: JobId, at: Instant)
    requires ClientBuilt(r) && Enqueueable([r], at)
    ensures Summarizes(Stored(r, id, at), Origin(r, at), [])
  {
    assert r in [r];
  }

  lemma OneMoreEvent(w: World, row: Row, o: Origin, h: seq<Event>, e: Event)
    requires Summarizes(row, o, h) && MayHappen(w, row, e)
    ensures Summarizes(After(row, e), o, h + [e])
  {
    assert (h + [e])[..|h|] == h;
    assert SameJob(After(row, e), o);
    TimedOnceMore(w, row, o, h, e);
    CountedOnceMore(row, o, h, e);
    ToldOnceMore(w, row, o, h, e);
  }

  lemma TimedOnceMore(w: World, row: Row, o: Origin, h: seq<Event>, e: Event)
    requires Summarizes(row, o, h) && MayHappen(w, row, e)
    ensures Timed(After(row, e), o, h + [e])
  {
    assert (h + [e])[..|h|] == h;
    if e.Settled? { TimedAfterwards(row, o, h, e.op, e.now); }
  }

  lemma TimedAfterwards(row: Row, o: Origin, h: seq<Event>, op: Op, now: Instant)
    requires Timed(row, o, h) && row.priorityBoost == o.row.priorityBoost && op.InRange()
    ensures Timed(Settle(row, op, now), o, h + [Settled(op, now)])
  {
    assert (h + [Settled(op, now)])[..|h|] == h;
    match op {
      case Complete(_, _) =>
      case Retry(_, _, _, _) =>
      case Cancel(_, _, _) =>
      case Kill(_, _, _) =>
      case Snooze(_, _, _) =>
    }
  }

  lemma CountedOnceMore(row: Row, o: Origin, h: seq<Event>, e: Event)
    requires Summarizes(row, o, h)
    ensures Counted(After(row, e), h + [e])
  {
    assert (h + [e])[..|h|] == h;
  }

  lemma ToldOnceMore(w: World, row: Row, o: Origin, h: seq<Event>, e: Event)
    requires Summarizes(row, o, h) && MayHappen(w, row, e)
    ensures Told(After(row, e), o, h + [e])
  {
    assert (h + [e])[..|h|] == h;
    if e.Settled? { ToldAfterwards(row, o, h, e.op, e.now); }
  }

  lemma ToldAfterwards(row: Row, o: Origin, h: seq<Event>, op: Op, now: Instant)
    requires Counted(row, h) && Told(row, o, h)
    ensures Told(Settle(row, op, now), o, h + [Settled(op, now)])
  {
    assert (h + [Settled(op, now)])[..|h|] == h;
    match op {
      case Complete(_, _) =>
      case Retry(_, _, _, _) =>
      case Cancel(_, _, _) =>
      case Kill(_, _, _) =>
      case Snooze(_, _, _) =>
    }
  }

  /** What has happened to a stored job since it was enqueued. */
  function History(ws: seq<World>, ls: seq<Label>, i: nat, id: JobId): seq<Event>
    requires i < |ws| == |ls| + 1
  {
    if i == 0 || id !in ws[i].jobs || id !in ws[i - 1].jobs then []
    else History(ws, ls, i - 1, id) + [Happened(ws[i - 1], ls[i - 1], id)]
  }

  /** How it was enqueued. */
  function OriginOf(ws: seq<World>, ls: seq<Label>, i: nat, id: JobId): (o: Option<Origin>)
    requires i < |ws| == |ls| + 1
  {
    if i == 0 || id !in ws[i].jobs then None
    else if id in ws[i - 1].jobs then OriginOf(ws, ls, i - 1, id)
    else if ls[i - 1].Enqueues? && ws[i - 1].nextID < id.n <= ws[i - 1].nextID + |ls[i - 1].rows| then
      Some(Origin(ls[i - 1].rows[id.n - ws[i - 1].nextID - 1], ls[i - 1].now))
    else None
  }

  /** In every state of every run, every stored job is the summary of its history. */
  lemma {:induction false} RowIsItsHistory(ws: seq<World>, ls: seq<Label>, i: nat, id: JobId) returns (o: Origin)
    requires IsRun(ws, ls) && i < |ws| && id in ws[i].jobs
    ensures OriginOf(ws, ls, i, id) == Some(o) && ClientBuilt(o.row)
    ensures Summarizes(ws[i].jobs[id], o, History(ws, ls, i, id))
  {
    var j := i - 1;
    ToState(ws, ls, j, i);
    if id in ws[j].jobs {
      o := RowIsItsHistory(ws, ls, j, id);
      HistoryGoesOn(ws, ls, j, i, id);
      StillSummarizes(ws[j], ls[j], ws[i], id, o, History(ws, ls, j, id));
    } else {
      o := Begins(ws[j], ls[j], ws[i], id);
      HistoryBegins(ws, ls, j, i, id);
    }
  }

  lemma HistoryGoesOn(ws: seq<World>, ls: seq<Label>, j: nat, i: nat, id: JobId)
    requires i < |ws| == |ls| + 1 && i == j + 1 && id in ws[j].jobs && id in ws[i].jobs
    ensures History(ws, ls, i, id) == History(ws, ls, j, id) + [Happened(ws[j], ls[j], id)]
    ensures OriginOf(ws, ls, i, id) == OriginOf(ws, ls, j, id)
  {
    assert i - 1 == j;
  }

  lemma HistoryBegins(ws: seq<World>, ls: seq<Label>, j: nat, i: nat, id: JobId)
    requires i < |ws| == |ls| + 1 && i == j + 1 && id !in ws[j].jobs && id in ws[i].jobs
    requires ls[j].Enqueues? && ws[j].nextID < id.n <= ws[j].nextID + |ls[j].rows|
    ensures History(ws, ls, i, id) == []
    ensures OriginOf(ws, ls, i, id) == Some(Origin(ls[j].rows[id.n - ws[j].nextID - 1], ls[j].now))
  {
    assert i - 1 == j;
  }

  lemma ToState(ws: seq<World>, ls: seq<Label>, j: nat, i: nat)
    requires IsRun(ws, ls) && i == j + 1 && i < |ws|
    ensures j < |ls| && WorldOk(ws[j]) && Step(ws[j], ls[j], ws[i])
  {
    At(ws, ls, j);
  }

  lemma StillSummarizes(w: World, l: Label, w': World, id: JobId, o: Origin, h: seq<Event>)
    requires WorldOk(w) && Step(w, l, w') && id in w.jobs && id in w'.jobs && Summarizes(w.jobs[id], o, h)
    ensures Summarizes(w'.jobs[id], o, h + [Happened(w, l, id)])
  {
    HappenedSo(w, l, w', id);
    OneMoreEvent(w, w.jobs[id], o, h, Happened(w, l, id));
  }

  lemma Begins(w: World, l: Label, w': World, id: JobId) returns (o: Origin)
    requires WorldOk(w) && Step(w, l, w') && id !in w.jobs && id in w'.jobs
    ensures l.Enqueues? && w.nextID < id.n <= w.nextID + |l.rows|
    ensures o == Origin(l.rows[id.n - w.nextID - 1], l.now) && ClientBuilt(o.row)
    ensures Summarizes(w'.jobs[id], o, [])
  {
    NewRow(w, l, w', id);
    o := Origin(l.rows[id.n - w.nextID - 1], l.now);
    assert EnqueueStep(w, l.rows, l.now, w');
    NothingYet(o.row, id, l.now);
  }
}
