/** What the library promises of whole runs: fencing, counters, histories and lifecycles. */
module Guarantees {
  import opened Instants
  import opened Rows
  import opened Store
  import opened Runs

  // ---------- Fencing ----------

  /** A superseded token stays superseded for one more step, and what was handed out stays known. */
  lemma SupersededOnceMore(ws: seq<World>, ls: seq<Label>, i: nat, t: Token)
    requires IsRun(ws, ls) && i < |ls| && t in ws[i].execs
    ensures t in ws[i + 1].execs && ws[i + 1].execs[t] == ws[i].execs[t]
    ensures !Live(ws[i].jobs, t) ==> !Live(ws[i + 1].jobs, t)
  {
    At(ws, ls, i);
    var w, l, w' := ws[i], ls[i], ws[i + 1];
    StepKeepsExecs(w, l, w', t);
    if t.id in w'.jobs {
      if t.id in w.jobs {
        var e := RowEvent(w, l, w', t.id);
      } else {
        NewRow(w, l, w', t.id);
      }
    }
  }

  /** Once an execution has been finalized, rescued, cleaned away or wiped, its token never becomes
      live again, whatever the clients do. */
  lemma {:induction false} SupersededForever(ws: seq<World>, ls: seq<Label>, i: nat, j: nat, t: Token)
    requires IsRun(ws, ls) && i <= j < |ws|
    requires t in ws[i].execs && !Live(ws[i].jobs, t)
    ensures t in ws[j].execs && !Live(ws[j].jobs, t)
  {
    if i < j {
      SupersededForever(ws, ls, i, j - 1, t);
      SupersededOnceMore(ws, ls, j - 1, t);
    }
  }

  function WithoutToken(tokens: seq<Token>, t: Token): (r: seq<Token>)
    ensures forall x :: x in r <==> x in tokens && x != t
  {
    if tokens == [] then []
    else if tokens[0] == t then WithoutToken(tokens[1..], t)
    else [tokens[0]] + WithoutToken(tokens[1..], t)
  }

  /** The call of a step would have left the same jobs without the entries presenting t. */
  ghost predicate SameWithout(w: World, l: Label, w': World, t: Token) {
    && (l.Finalizes? ==> w'.jobs == Batch(w.jobs, Without(l.batch, t), l.now))
    && (l.Heartbeats? ==> w'.jobs == Beat(w.jobs, WithoutToken(l.tokens, t), l.now))
  }

  lemma SupersededEntriesCountForNothing(w: World, l: Label, w': World, t: Token)
    requires SelfNamed(w) && Step(w, l, w') && !Live(w.jobs, t)
    ensures SameWithout(w, l, w', t) <==> !(l.Finalizes? && SpoiltBy(w.jobs, l.batch, t))
    ensures l.Finalizes? && !SameWithout(w, l, w', t) ==> w'.jobs == w.jobs
  {
    if l.Finalizes? { SupersededEntriesSpoilNothingElse(w.jobs, l.batch, l.now, t); }
    if l.Heartbeats? { SupersededBeatDropsOut(w.jobs, l.tokens, l.now, t); }
  }

  lemma SupersededBeatDropsOut(jobs: Jobs, tokens: seq<Token>, now: Instant, t: Token)
    requires !Live(jobs, t)
    ensures Beat(jobs, tokens, now) == Beat(jobs, WithoutToken(tokens, t), now)
  {
  }

  /** So from then on its finalizations and heartbeats, however late, batched or repeated, settle and renew
      nothing: a call leaves the store it would leave without them, unless one of them carries the only
      unstorable instant beside something live. Then, and only then, the whole call is refused and
      changes nothing at all. */
  lemma SupersededIsHarmless(ws: seq<World>, ls: seq<Label>, i: nat, j: nat, t: Token)
    requires IsRun(ws, ls) && i <= j < |ls|
    requires t in ws[i].execs && !Live(ws[i].jobs, t)
    ensures SameWithout(ws[j], ls[j], ws[j + 1], t) <==> !(ls[j].Finalizes? && SpoiltBy(ws[j].jobs, ls[j].batch, t))
    ensures ls[j].Finalizes? && SpoiltBy(ws[j].jobs, ls[j].batch, t) ==> ws[j + 1].jobs == ws[j].jobs
  {
    SupersededForever(ws, ls, i, j, t);
    At(ws, ls, j);
    SupersededEntriesCountForNothing(ws[j], ls[j], ws[j + 1], t);
  }

  /** The call at step i settles a row under this token. */
  ghost predicate TakesEffect(w: World, l: Label, t: Token) {
    l.Finalizes? && AllInRange(l.batch) && Live(w.jobs, t) && exists op :: op in l.batch && op.token == t
  }

  lemma EffectUsesUp(w: World, l: Label, w': World, t: Token)
    requires WorldOk(w) && Step(w, l, w') && TakesEffect(w, l, t)
    ensures t in w'.execs && !Live(w'.jobs, t)
  {
    var op :| op in l.batch && op.token == t;
    BatchUsesUpItsTokens(w.jobs, l.batch, l.now, op);
    assert t in w.ops;
  }

  /** However often an outcome is delivered, it takes effect at most once. */
  lemma TakesEffectOnce(ws: seq<World>, ls: seq<Label>, i: nat, j: nat, t: Token)
    requires IsRun(ws, ls) && i < j < |ls| && TakesEffect(ws[i], ls[i], t)
    ensures !TakesEffect(ws[j], ls[j], t)
  {
    At(ws, ls, i);
    EffectUsesUp(ws[i], ls[i], ws[i + 1], t);
    SupersededForever(ws, ls, i + 1, j, t);
  }

  lemma {:induction false} ExecsPersist(ws: seq<World>, ls: seq<Label>, i: nat, j: nat, t: Token)
    requires IsRun(ws, ls) && i <= j < |ws| && t in ws[i].execs
    ensures t in ws[j].execs && ws[j].execs[t] == ws[i].execs[t]
  {
    if i < j {
      ExecsPersist(ws, ls, i, j - 1, t);
      SupersededOnceMore(ws, ls, j - 1, t);
    }
  }

  lemma ClaimIssuesFreshTokens(ws: seq<World>, ls: seq<Label>, i: nat, t: Token)
    requires IsRun(ws, ls) && i < |ls| && ls[i].Fetches? && t in Issued(ls[i].out)
    ensures t !in ws[i].execs && t in ws[i + 1].execs
  {
    At(ws, ls, i);
    FreshTokens(ws[i], ls[i], ws[i + 1], t);
  }

  /** No two claims ever hand out the same token. */
  lemma TokensAreIssuedOnce(ws: seq<World>, ls: seq<Label>, i: nat, j: nat, t: Token)
    requires IsRun(ws, ls) && i < j < |ls| && ls[i].Fetches? && ls[j].Fetches?
    requires t in Issued(ls[i].out)
    ensures t !in Issued(ls[j].out)
  {
    ClaimIssuesFreshTokens(ws, ls, i, t);
    ExecsPersist(ws, ls, i + 1, j, t);
    if t in Issued(ls[j].out) { ClaimIssuesFreshTokens(ws, ls, j, t); }
  }

  // ---------- Counters and histories ----------

  /** Generation counts the claims: it is the length of AttemptedBy, and it is Attempt plus the
      snoozes recorded since the job was enqueued. */
  lemma CountersAreConserved(ws: seq<World>, ls: seq<Label>, i: nat, id: JobId)
    requires IsRun(ws, ls) && i < |ws| && id in ws[i].jobs
    ensures var row := ws[i].jobs[id];
      && row.generation == |row.attemptedBy|
      && id in ws[i].baseline
      && row.generation == row.attempt + (SnoozeCount(row.metadata) - ws[i].baseline[id])
      && 0 <= row.attempt
      && (row.state == Running ==> 1 <= row.attempt)
  {
    RunKeepsWorld(ws, ls, i);
  }

  /** A strictly increasing sequence of integers from 1 to m - 1 has at most m - 1 of them. */
  lemma {:induction false} IncreasingIsShort(es: seq<AttemptError>, m: int)
    requires forall i, j :: 0 <= i < j < |es| ==> es[i].attempt < es[j].attempt
    requires forall i :: 0 <= i < |es| ==> 1 <= es[i].attempt < m
    ensures es != [] ==> |es| <= m - 1
  {
    if es != [] {
      var n := |es| - 1;
      IncreasingIsShort(es[..n], es[n].attempt);
    }
  }

  /** The history of a job is bounded by its budget in every reachable state, rescues included, even
      though a rescue lets Attempt itself grow beyond MaxAttempts. */
  lemma HistoryIsBounded(ws: seq<World>, ls: seq<Label>, i: nat, id: JobId)
    requires IsRun(ws, ls) && i < |ws| && id in ws[i].jobs
    ensures var row := ws[i].jobs[id];
      && (forall a, b :: 0 <= a < b < |row.errors| ==> row.errors[a].attempt < row.errors[b].attempt)
      && (forall a :: 0 <= a < |row.errors| ==> row.errors[a].attempt < row.maxAttempts || EndedBy(row, a))
      && |row.errors| <= (if row.maxAttempts < 1 then 1 else row.maxAttempts)
      && (!row.state.Terminal() && row.errors != [] ==> |row.errors| < row.maxAttempts)
  {
    RunKeepsWorld(ws, ls, i);
    var row := ws[i].jobs[id];
    var n := |row.errors|;
    if row.state.Terminal() {
      if n > 0 { IncreasingIsShort(row.errors[..n - 1], row.maxAttempts); }
    } else {
      IncreasingIsShort(row.errors, row.maxAttempts);
    }
  }

  // ---------- Lifecycle ----------

  lemma StepRemoves(w: World, l: Label, w': World, id: JobId)
    requires Step(w, l, w') && id in w.jobs && id !in w'.jobs
    ensures Removes(w, l, id)
  {
    if l.Finalizes? { FirstLiveEntryWins(w.jobs, l.batch, l.now); }
  }

  lemma StepFreezes(w: World, l: Label, w': World, id: JobId)
    requires WorldOk(w) && Step(w, l, w') && id in w.jobs && id in w'.jobs && w.jobs[id].state.Terminal()
    ensures Frozen(w.jobs[id], w'.jobs[id])
  {
    var e := RowEvent(w, l, w', id);
  }

  lemma StepOnlyAddsNewIds(w: World, l: Label, w': World, id: JobId)
    requires WorldOk(w) && Step(w, l, w')
    ensures w.nextID <= w'.nextID
    ensures id.n <= w.nextID && id !in w.jobs ==> id !in w'.jobs
  {
    if id !in w.jobs && id in w'.jobs { NewRow(w, l, w', id); }
  }

  /** One step removes no unfinished job except by a wipe, revives no id, and changes no finished job
      except to record a request to cancel it. */
  lemma LifecycleOnce(ws: seq<World>, ls: seq<Label>, i: nat, id: JobId)
    requires IsRun(ws, ls) && i < |ls| && id.n <= ws[i].nextID
    ensures ws[i].nextID <= ws[i + 1].nextID
    ensures id !in ws[i].jobs ==> id !in ws[i + 1].jobs
    ensures id in ws[i].jobs && id !in ws[i + 1].jobs ==> Removes(ws[i], ls[i], id)
    ensures id in ws[i].jobs && id in ws[i + 1].jobs && ws[i].jobs[id].state.Terminal() ==>
      Frozen(ws[i].jobs[id], ws[i + 1].jobs[id])
  {
    At(ws, ls, i);
    var w, l, w' := ws[i], ls[i], ws[i + 1];
    StepOnlyAddsNewIds(w, l, w', id);
    if id in w.jobs {
      if id !in w'.jobs { StepRemoves(w, l, w', id); }
      else if w.jobs[id].state.Terminal() { StepFreezes(w, l, w', id); }
    }
  }

  predicate Frozen(before: Row, after: Row) {
    after.(cancelRequested := before.cancelRequested) == before
  }

  /** The step that removes this row cleans it when it is finished and past its retention, or wipes
      everything. */
  ghost predicate Removes(w: World, l: Label, id: JobId) {
    id in w.jobs && (l.Resets? || (l.Cleans? && id in l.picked && Expired(w.jobs[id], l.keep, l.now)))
  }

  /** An id that was assigned and is gone never names a row again. */
  lemma {:induction false} IdsAreNeverReused(ws: seq<World>, ls: seq<Label>, i: nat, j: nat, id: JobId)
    requires IsRun(ws, ls) && i <= j < |ws| && id.n <= ws[i].nextID && id !in ws[i].jobs
    ensures id.n <= ws[j].nextID && id !in ws[j].jobs
  {
    if i < j {
      IdsAreNeverReused(ws, ls, i, j - 1, id);
      LifecycleOnce(ws, ls, j - 1, id);
    }
  }

  /** Finished jobs are frozen: no step changes one, except to record a request to cancel it. */
  lemma {:induction false} TerminalIsForever(ws: seq<World>, ls: seq<Label>, i: nat, j: nat, id: JobId)
    requires IsRun(ws, ls) && i <= j < |ws|
    requires id in ws[i].jobs && ws[i].jobs[id].state.Terminal() && id in ws[j].jobs
    ensures Frozen(ws[i].jobs[id], ws[j].jobs[id])
    decreases j - i
  {
    if i < j {
      RunKeepsWorld(ws, ls, i);
      LifecycleOnce(ws, ls, i, id);
      if id !in ws[i + 1].jobs { IdsAreNeverReused(ws, ls, i + 1, j, id); }
      TerminalIsForever(ws, ls, i + 1, j, id);
    }
  }

  /** Nothing is lost: every id ever assigned is still stored, or such a step removed it. */
  lemma {:induction false} NothingIsLost(ws: seq<World>, ls: seq<Label>, j: nat, id: JobId) returns (k: nat)
    requires IsRun(ws, ls) && j < |ws| && 0 < id.n <= ws[j].nextID && id !in ws[j].jobs
    ensures k < j && Removes(ws[k], ls[k], id)
  {
    var i := j - 1;
    At(ws, ls, i);
    if id in ws[i].jobs {
      LifecycleOnce(ws, ls, i, id);
      k := i;
    } else {
      JustAssigned(ws[i], ls[i], ws[j], id);
      k := NothingIsLost(ws, ls, i, id);
    }
  }

  /** An id that a step assigns is stored by it. */
  lemma JustAssigned(w: World, l: Label, w': World, id: JobId)
    requires Step(w, l, w') && id !in w'.jobs && 0 <= w.nextID && id.n <= w'.nextID
    ensures id.n <= w.nextID
  {
    if l.Enqueues? { assert NewIds(w.nextID, |l.rows|) <= w'.jobs.Keys; }
  }

  /** FinalizedAt is set exactly on finished jobs. */
  lemma FinalizedMeansFinished(ws: seq<World>, ls: seq<Label>, i: nat, id: JobId)
    requires IsRun(ws, ls) && i < |ws| && id in ws[i].jobs
    ensures ws[i].jobs[id].finalizedAt != ZERO_TIME <==> ws[i].jobs[id].state.Terminal()
  {
    RunKeepsWorld(ws, ls, i);
  }
}
