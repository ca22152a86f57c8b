/** The in-memory backend: an id counter and a map of rows, changed in place under one mutex, so that
each method is one atomic step.
*/
module MemoryBackend {
  import opened Instants
  import opened Rows
  import opened Store
  import Sorting

  datatype FinalizeError = NoError | Stale(ids: seq<JobId>) | OutOfRange

  predicate RowLe(a: Row, b: Row) {
    a.priorityAt < b.priorityAt || (a.priorityAt == b.priorityAt && a.id.n <= b.id.n)
  }

  /** Every stored row is stored under its own id, and no id is beyond the last one assigned. */
  predicate Consistent(jobs: Jobs, nextID: int) {
    forall id :: id in jobs ==> 0 < id.n <= nextID && jobs[id].id == id
  }

  /** rows are the rows stored under ids, each once. */
  ghost predicate ListsRows(rows: seq<Row>, jobs: Jobs, ids: set<JobId>)
    requires ids <= jobs.Keys
  {
    && (forall r :: r in rows ==> r.id in ids && r == jobs[r.id])
    && (forall id :: id in ids ==> jobs[id].id == id && jobs[id] in rows)
    && (forall i, j :: 0 <= i < j < |rows| ==> rows[i].id != rows[j].id)
  }

  lemma {:induction false} ListCount(rows: seq<Row>, jobs: Jobs, ids: set<JobId>)
    requires ids <= jobs.Keys && ListsRows(rows, jobs, ids)
    ensures |rows| == |ids|
  {
    if rows == [] {
      if id :| id in ids { assert jobs[id] in rows; }
    } else {
      var n := |rows| - 1;
      var last := rows[n];
      var init := rows[..n];
      assert rows == init + [last];
      assert last in rows;
      forall id | id in ids - {last.id} ensures jobs[id] in init {
        assert jobs[id] in rows && jobs[id] != last;
      }
      forall r | r in init ensures r.id in ids - {last.id} && r == jobs[r.id] { assert r in rows; }
      ListCount(init, jobs, ids - {last.id});
    }
  }

  /** Sorting the candidates lists them in claim order, without ties. */
  method InClaimOrder(candidates: seq<Row>, ghost jobs: Jobs, ghost ids: set<JobId>) returns (sorted: seq<Row>)
    requires ids <= jobs.Keys && ListsRows(candidates, jobs, ids)
    ensures ListsRows(sorted, jobs, ids) && |sorted| == |ids|
    ensures forall i, j :: 0 <= i < j < |sorted| ==> Before(sorted[i], sorted[j])
  {
    sorted := Sorting.Sort(candidates, RowLe);
    assert Sorting.NoRepeats(candidates);
    Sorting.SortKeepsDistinct(candidates, RowLe);
    Sorting.SortSorts(candidates, RowLe);
    forall i, j | 0 <= i < j < |sorted| ensures sorted[i].id != sorted[j].id && Before(sorted[i], sorted[j]) {
      assert sorted[i] in candidates && sorted[j] in candidates;
      assert sorted[i] != sorted[j];
    }
    ListCount(candidates, jobs, ids);
  }

  function Report(stale: seq<JobId>): FinalizeError {
    if stale == [] then NoError else Stale(stale)
  }

  function BatchError(jobs: Jobs, ops: seq<Op>, now: Instant): FinalizeError {
    if AllInRange(ops) then Report(StaleIds(jobs, ops, now)) else OutOfRange
  }

  /** How far a bounded scan has come: of the eligible ids, the first ones met have been picked and
      the rest are still ahead. */
  ghost predicate Scanning(picked: set<JobId>, eligible: set<JobId>, rest: set<JobId>, limit: int) {
    && picked <= eligible && picked !! rest
    && eligible <= picked + rest
    && |picked| <= (if limit <= 0 then 0 else limit)
  }

  lemma ScanOneMore(picked: set<JobId>, eligible: set<JobId>, rest: set<JobId>, limit: int, id: JobId)
    requires Scanning(picked, eligible, rest, limit) && id in rest && |picked| < limit
    ensures id !in picked && |picked + {id}| == |picked| + 1
    ensures Scanning(if id in eligible then picked + {id} else picked, eligible, rest - {id}, limit)
  {
  }

  /** The scan stopped because it had looked everywhere, or because it had done enough. */
  lemma ScanDone(picked: set<JobId>, eligible: set<JobId>, rest: set<JobId>, limit: int)
    requires Scanning(picked, eligible, rest, limit) && (rest == {} || |picked| >= limit)
    ensures BoundedPick(picked, eligible, limit)
  {
    SubsetSize(picked, eligible);
    if rest == {} { assert picked == eligible; }
  }

  lemma DropOneMore(jobs: Jobs, ids: set<JobId>, id: JobId)
    requires id in jobs && id !in ids
    ensures (jobs - ids)[id] == jobs[id] && jobs - (ids + {id}) == (jobs - ids) - {id}
  {
  }

  lemma MoveOneMore(jobs: Jobs, ids: set<JobId>, id: JobId)
    requires id in jobs && id !in ids
    ensures MoveAll(jobs, ids)[id] == jobs[id]
    ensures MoveAll(jobs, ids + {id}) == MoveAll(jobs, ids)[id := Move(jobs[id])]
  {
  }

  lemma RescueOneMore(jobs: Jobs, ids: set<JobId>, id: JobId, now: Instant)
    requires id in jobs && id !in ids
    ensures RescueAll(jobs, ids, now)[id] == jobs[id]
    ensures RescueAll(jobs, ids + {id}, now) == RescueAll(jobs, ids, now)[id := Rescue(jobs[id], now)]
  {
  }

  lemma {:induction false} SubsetSize<T>(a: set<T>, b: set<T>)
    requires a <= b
    ensures |a| <= |b|
  {
    if a != {} {
      var x :| x in a;
      SubsetSize(a - {x}, b - {x});
    }
  }

  lemma EnqueueAppend(jobs: Jobs, last: int, front: seq<Row>, r: Row, now: Instant)
    requires forall id :: id in jobs ==> id.n <= last
    ensures var id := JobId(last + 1 + |front|);
      EnqueueAll(jobs, last, front + [r], now) == EnqueueAll(jobs, last, front, now)[id := Stored(r, id, now)]
  {
    assert NewIds(last, |front| + 1) == NewIds(last, |front|) + {JobId(last + 1 + |front|)};
  }

  lemma EnqueueOneMore(jobs: Jobs, last: int, rows: seq<Row>, i: nat, now: Instant)
    requires i < |rows| && forall id :: id in jobs ==> id.n <= last
    ensures EnqueueAll(jobs, last, rows[..i + 1], now) ==
      EnqueueAll(jobs, last, rows[..i], now)[JobId(last + 1 + i) := Stored(rows[i], JobId(last + 1 + i), now)]
  {
    assert rows[..i + 1] == rows[..i] + [rows[i]];
    EnqueueAppend(jobs, last, rows[..i], rows[i], now);
  }

  lemma EnqueueKeepsConsistency(jobs: Jobs, last: nat, rows: seq<Row>, now: Instant)
    requires Consistent(jobs, last)
    ensures Consistent(EnqueueAll(jobs, last, rows, now), last + |rows|)
  {
  }

  lemma ClaimOneMore(jobs: Jobs, sorted: seq<Row>, i: nat, client: string, now: Instant)
    requires i < |sorted| && sorted[i].id in jobs && jobs[sorted[i].id] == sorted[i]
    ensures ClaimAll(jobs, Ids(sorted[..i + 1]), client, now) ==
      ClaimAll(jobs, Ids(sorted[..i]), client, now)[sorted[i].id := Claim(sorted[i], client, now)]
  {
    assert sorted[..i + 1] == sorted[..i] + [sorted[i]];
    assert Ids(sorted[..i + 1]) == Ids(sorted[..i]) + {sorted[i].id};
  }

  ghost predicate ClaimsPrefix(all: seq<Row>, out: seq<Row>, client: string, now: Instant) {
    |out| <= |all| && forall k :: 0 <= k < |out| ==> out[k] == Claim(all[k], client, now)
  }

  lemma PrefixIds(all: seq<Row>, out: seq<Row>, client: string, now: Instant)
    requires ClaimsPrefix(all, out, client, now)
    ensures Ids(out) == Ids(all[..|out|])
  {
    var taken := all[..|out|];
    forall id | id in Ids(taken) ensures id in Ids(out) {
      var k :| 0 <= k < |taken| && taken[k].id == id;
      assert out[k] in out;
    }
    forall id | id in Ids(out) ensures id in Ids(taken) {
      var k :| 0 <= k < |out| && out[k].id == id;
      assert all[k] == taken[k] && taken[k] in taken;
    }
  }

  lemma EarlierIsTaken(all: seq<Row>, out: seq<Row>, client: string, now: Instant, row: Row, r: Row)
    requires ClaimsPrefix(all, out, client, now) && r in out && row in all
    requires forall i, j :: 0 <= i < j < |all| ==> Before(all[i], all[j])
    requires row.priorityAt < r.priorityAt || (row.priorityAt == r.priorityAt && row.id.n < r.id.n)
    ensures row.id in Ids(out)
  {
    var k :| 0 <= k < |out| && out[k] == r;
    var m :| 0 <= m < |all| && all[m] == row;
    assert Before(all[m], all[k]);
    assert !(k < m);
    assert out[m] in out;
  }

  /** Claiming a prefix of the sorted candidates is what a fetch may answer. */
  lemma FirstInOrder(jobs: Jobs, queue: string, limit: nat, client: string, now: Instant, all: seq<Row>, out: seq<Row>)
    requires ListsRows(all, jobs, Candidates(jobs, queue, now)) && |all| == |Candidates(jobs, queue, now)|
    requires forall i, j :: 0 <= i < j < |all| ==> Before(all[i], all[j])
    requires ClaimsPrefix(all, out, client, now) && |out| == UpTo(limit, |all|)
    ensures FetchedRows(jobs, queue, limit, client, now, out)
  {
    forall r | r in out ensures r.id in Candidates(jobs, queue, now) && r == Claim(jobs[r.id], client, now) {
      var k :| 0 <= k < |out| && out[k] == r;
      assert all[k] in all;
    }
    forall r, id | r in out && id in Candidates(jobs, queue, now) && Before(jobs[id], jobs[r.id])
      ensures id in Ids(out)
    {
      EarlierIsTaken(all, out, client, now, jobs[id], r);
    }
  }

  lemma FirstTaken(
      jobs: Jobs, queue: string, limit: nat, client: string, now: Instant, all: seq<Row>, taken: seq<Row>,
      out: seq<Row>)
    requires ListsRows(all, jobs, Candidates(jobs, queue, now)) && |all| == |Candidates(jobs, queue, now)|
    requires forall i, j :: 0 <= i < j < |all| ==> Before(all[i], all[j])
    requires taken == if |all| > limit then all[..limit] else all
    requires |out| == |taken| && forall k :: 0 <= k < |out| ==> out[k] == Claim(taken[k], client, now)
    ensures FetchedRows(jobs, queue, limit, client, now, out) && Ids(out) == Ids(taken)
  {
    assert taken == all[..|out|];
    FirstInOrder(jobs, queue, limit, client, now, all, out);
    PrefixIds(all, out, client, now);
  }

  /** One more lease: the row is beaten if its execution is live, and is otherwise as it was. */
  lemma BeatOneMore(jobs: Jobs, tokens: seq<Token>, i: nat, now: Instant)
    requires i < |tokens|
    ensures var t := tokens[i];
      var before := Beat(jobs, tokens[..i], now);
      && (Live(before, t) <==> Live(jobs, t))
      && (t.id in jobs ==> before[t.id].cancelRequested == jobs[t.id].cancelRequested)
      && Beat(jobs, tokens[..i + 1], now) ==
           (if Live(jobs, t) then before[t.id := before[t.id].(heartbeatAt := now)] else before)
    ensures tokens[..i + 1][..i] == tokens[..i]
  {
    assert tokens[..i + 1] == tokens[..i] + [tokens[i]];
  }

  // The bodies of the maintenance operations: one scan of the map, in no particular order, that
  // updates rows as it meets them and stops at the limit.

  method MoveLoop(was: Jobs, now: Instant, limit: int) returns (jobs: Jobs, moved: int, ghost picked: set<JobId>)
    ensures moved == UpTo(limit, |DueIds(was, now)|)
    ensures BoundedPick(picked, DueIds(was, now), limit) && moved == |picked|
    ensures jobs == MoveAll(was, picked)
  {
    ghost var due := DueIds(was, now);
    jobs, moved, picked := was, 0, {};
    var rest := jobs.Keys;
    while rest != {}
      invariant rest <= was.Keys && moved == |picked|
      invariant Scanning(picked, due, rest, limit)
      invariant jobs == MoveAll(was, picked)
    {
      if moved >= limit { break; }
      var id :| id in rest;
      ScanOneMore(picked, due, rest, limit, id);
      MoveOneMore(was, picked, id);
      var j := jobs[id];
      if (j.state == Scheduled || j.state == Retryable) && !(j.scheduledAt > now) {
        jobs := jobs[id := j.(state := Available)];
        moved, picked := moved + 1, picked + {id};
      }
      rest := rest - {id};
    }
    ScanDone(picked, due, rest, limit);
  }

  method RescueLoop(was: Jobs, now: Instant, ttl: Duration, limit: int)
    returns (jobs: Jobs, n: int, ghost picked: set<JobId>)
    ensures n == UpTo(limit, |AbandonedIds(was, ttl, now)|)
    ensures BoundedPick(picked, AbandonedIds(was, ttl, now), limit) && n == |picked|
    ensures jobs == RescueAll(was, picked, now)
  {
    var cutoff := now + Wrap64(-(ttl as int));
    ghost var abandoned := AbandonedIds(was, ttl, now);
    jobs, n, picked := was, 0, {};
    var rest := jobs.Keys;
    while rest != {}
      invariant rest <= was.Keys && n == |picked|
      invariant Scanning(picked, abandoned, rest, limit)
      invariant jobs == RescueAll(was, picked, now)
    {
      if n >= limit { break; }
      var id :| id in rest;
      ScanOneMore(picked, abandoned, rest, limit, id);
      RescueOneMore(was, picked, id, now);
      if jobs[id].state == Running && jobs[id].heartbeatAt < cutoff {
        jobs := jobs[id := jobs[id].(state := Retryable, scheduledAt := now,
                                     priorityAt := SubDurationClamped(now, jobs[id].priorityBoost))];
        n, picked := n + 1, picked + {id};
      }
      rest := rest - {id};
    }
    ScanDone(picked, abandoned, rest, limit);
  }

  /** Looks the retention of the state up; a state that has none is not cleaned. */
  method PastRetention(j: Row, keep: Retention, now: Instant) returns (past: bool)
    ensures past == Expired(j, keep, now)
  {
    var r: Duration;
    match j.state {
      case Completed => r := keep.completed;
      case Cancelled => r := keep.cancelled;
      case Dead => r := keep.dead;
      case _ => return false;
    }
    past := j.finalizedAt < now + Wrap64(-(r as int));
  }

  method CleanLoop(was: Jobs, now: Instant, keep: Retention, limit: int)
    returns (jobs: Jobs, n: int, ghost picked: set<JobId>)
    ensures n == UpTo(limit, |ExpiredIds(was, keep, now)|)
    ensures BoundedPick(picked, ExpiredIds(was, keep, now), limit) && n == |picked|
    ensures jobs == was - picked
  {
    ghost var expired := ExpiredIds(was, keep, now);
    jobs, n, picked := was, 0, {};
    var rest := jobs.Keys;
    while rest != {}
      invariant rest <= was.Keys && n == |picked|
      invariant Scanning(picked, expired, rest, limit)
      invariant jobs == was - picked
    {
      if n >= limit { break; }
      var id :| id in rest;
      ScanOneMore(picked, expired, rest, limit, id);
      DropOneMore(was, picked, id);
      var past := PastRetention(jobs[id], keep, now);
      if past {
        jobs := jobs - {id};
        n, picked := n + 1, picked + {id};
      }
      rest := rest - {id};
    }
    ScanDone(picked, expired, rest, limit);
  }

  class Backend {
    var nextID: int
    var jobs: Jobs

    predicate Valid()
      reads this
    {
      nextID >= 0 && Consistent(jobs, nextID)
    }

    constructor ()
      ensures Valid() && nextID == 0 && jobs == map[]
    {
      nextID, jobs := 0, map[];
    }

    /** Stores a batch or, when any row cannot be ordered, nothing. The caller reads the assigned
        fields back from stored. */
    method Enqueue(rows: seq<Row>, now: Instant) returns (ok: bool, stored: seq<Row>)
      requires Valid()
      modifies this
      ensures Valid()
      ensures ok <==> Enqueueable(rows, now)
      ensures !ok ==> nextID == old(nextID) && jobs == old(jobs) && stored == rows
      ensures ok ==> nextID == old(nextID) + |rows| && jobs == EnqueueAll(old(jobs), old(nextID), rows, now)
      ensures ok ==> |stored| == |rows| && forall i :: 0 <= i < |rows| ==>
        stored[i] == Stored(rows[i], JobId(old(nextID) + 1 + i), now)
    {
      stored := rows;
      var prio;
      ok, prio := Priorities(rows, now);
      if !ok { return; }
      for i := 0 to |rows|
        invariant nextID == old(nextID) + i && |stored| == |rows|
        invariant forall k :: 0 <= k < i ==> stored[k] == Stored(rows[k], JobId(old(nextID) + 1 + k), now)
        invariant jobs == EnqueueAll(old(jobs), old(nextID), rows[..i], now)
      {
        nextID := nextID + 1;
        var j := Assigned(rows[i], JobId(nextID), prio[i], now);
        stored := stored[i := j];
        jobs := jobs[j.id := j];
        EnqueueOneMore(old(jobs), old(nextID), rows, i, now);
      }
      assert rows[..|rows|] == rows;
      EnqueueKeepsConsistency(old(jobs), old(nextID), rows, now);
    }

    /** The fields Enqueue assigns to one row, given the priority it worked out beforehand. */
    static method Assigned(row: Row, id: JobId, priorityAt: Instant, now: Instant) returns (j: Row)
      requires SubDuration(EffectiveSchedule(row, now), row.priorityBoost) == Ok(priorityAt)
      ensures j == Stored(row, id, now)
    {
      j := row.(id := id, createdAt := now);
      if j.scheduledAt == ZERO_TIME { j := j.(scheduledAt := now); }
      if j.scheduledAt > now { j := j.(state := Scheduled); } else { j := j.(state := Available); }
      j := j.(priorityAt := priorityAt);
    }

    /** The first loop of Enqueue: every priority is worked out before anything is stored. */
    static method Priorities(rows: seq<Row>, now: Instant) returns (ok: bool, prio: seq<Instant>)
      ensures ok <==> Enqueueable(rows, now)
      ensures ok ==> |prio| == |rows| && forall i :: 0 <= i < |rows| ==>
        SubDuration(EffectiveSchedule(rows[i], now), rows[i].priorityBoost) == Ok(prio[i])
    {
      prio := [];
      for i := 0 to |rows|
        invariant |prio| == i
        invariant forall k :: 0 <= k < i ==>
          SubDuration(EffectiveSchedule(rows[k], now), rows[k].priorityBoost) == Ok(prio[k])
      {
        var p := SubDuration(EffectiveSchedule(rows[i], now), rows[i].priorityBoost);
        if p.TimeOutOfRange? {
          assert rows[i] in rows;
          return false, prio;
        }
        prio := prio + [p.at];
      }
      ok := true;
    }
    /** The first loop of Fetch: the map is scanned in no particular order. */
    method ListCandidates(queue: string, now: Instant) returns (candidates: seq<Row>)
      requires Valid()
      ensures ListsRows(candidates, jobs, Candidates(jobs, queue, now))
    {
      candidates := [];
      var rest := jobs.Keys;
      while rest != {}
        invariant rest <= jobs.Keys
        invariant ListsRows(candidates, jobs, Candidates(jobs, queue, now) - rest)
      {
        var id :| id in rest;
        var listed := candidates;
        rest := rest - {id};
        if Claimable(jobs[id], queue, now) {
          candidates := candidates + [jobs[id]];
          assert jobs[id] in candidates;
        }
        assert forall r :: r in listed ==> r in candidates;
      }
    }

    /** Claims up to limit due jobs of one queue. */
    method Fetch(queue: string, limit: nat, client: string, now: Instant) returns (out: seq<Row>)
      requires Valid()
      modifies this`jobs
      ensures Valid()
      ensures FetchedRows(old(jobs), queue, limit, client, now, out)
      ensures jobs == ClaimAll(old(jobs), Ids(out), client, now)
    {
      var candidates := ListCandidates(queue, now);
      var sorted := InClaimOrder(candidates, jobs, Candidates(jobs, queue, now));
      var taken := if |sorted| > limit then sorted[..limit] else sorted;
      ghost var before := jobs;
      assert forall r :: r in taken ==> r in sorted;
      out := ClaimEach(taken, client, now);
      FirstTaken(before, queue, limit, client, now, sorted, taken, out);
    }

    /** The second loop of Fetch. */
    method ClaimEach(sorted: seq<Row>, client: string, now: Instant) returns (out: seq<Row>)
      requires Valid()
      requires forall r :: r in sorted ==> r.id in jobs && jobs[r.id] == r
      modifies this`jobs
      ensures Valid()
      ensures |out| == |sorted| && forall k :: 0 <= k < |out| ==> out[k] == Claim(sorted[k], client, now)
      ensures jobs == ClaimAll(old(jobs), Ids(sorted), client, now)
    {
      out := [];
      for i := 0 to |sorted|
        invariant |out| == i
        invariant forall k :: 0 <= k < i ==> out[k] == Claim(sorted[k], client, now)
        invariant jobs == ClaimAll(old(jobs), Ids(sorted[..i]), client, now)
      {
        var j := sorted[i];
        ClaimOneMore(old(jobs), sorted, i, client, now);
        j := j.(state := Running, attempt := j.attempt + 1, generation := j.generation + 1,
                attemptedAt := now, heartbeatAt := now, attemptedBy := j.attemptedBy + [client]);
        assert j == Claim(sorted[i], client, now);
        jobs := jobs[j.id := j];
        out := out + [j];
      }
      assert sorted[..|sorted|] == sorted;
    }

    /** Settles a batch entry by entry; an entry that no longer matches is reported, not applied. */
    method Finalize(ops: seq<Op>, now: Instant) returns (err: FinalizeError)
      requires Valid()
      modifies this`jobs
      ensures Valid()
      ensures jobs == ApplyAll(old(jobs), ops, now)
      ensures err == Report(StaleIds(old(jobs), ops, now))
    {
      var stale: seq<JobId> := [];
      for i := 0 to |ops|
        invariant Valid()
        invariant jobs == ApplyAll(old(jobs), ops[..i], now)
        invariant stale == StaleIds(old(jobs), ops[..i], now)
      {
        assert ops[..i + 1][..i] == ops[..i];
        var t := ops[i].token;
        if t.id !in jobs || jobs[t.id].state != Running || jobs[t.id].generation != t.generation {
          stale := stale + [t.id];
        } else {
          jobs := jobs[t.id := Settle(jobs[t.id], ops[i], now)];
        }
      }
      assert ops[..|ops|] == ops;
      err := Report(stale);
    }

    method Complete(ops: seq<Op>, now: Instant) returns (err: FinalizeError)
      requires Valid() && forall op :: op in ops ==> op.Complete?
      modifies this`jobs
      ensures Valid()
      ensures jobs == Batch(old(jobs), ops, now) && err == BatchError(old(jobs), ops, now)
    {
      err := Finalize(ops, now);
    }

    method Cancel(ops: seq<Op>, now: Instant) returns (err: FinalizeError)
      requires Valid() && forall op :: op in ops ==> op.Cancel?
      modifies this`jobs
      ensures Valid()
      ensures jobs == Batch(old(jobs), ops, now) && err == BatchError(old(jobs), ops, now)
    {
      err := Finalize(ops, now);
    }

    method Kill(ops: seq<Op>, now: Instant) returns (err: FinalizeError)
      requires Valid() && forall op :: op in ops ==> op.Kill?
      modifies this`jobs
      ensures Valid()
      ensures jobs == Batch(old(jobs), ops, now) && err == BatchError(old(jobs), ops, now)
    {
      err := Finalize(ops, now);
    }

    /** Every instant is checked before anything is applied. */
    method Retry(ops: seq<Op>, now: Instant) returns (err: FinalizeError)
      requires Valid() && forall op :: op in ops ==> op.Retry?
      modifies this`jobs
      ensures Valid()
      ensures jobs == Batch(old(jobs), ops, now) && err == BatchError(old(jobs), ops, now)
    {
      for i := 0 to |ops|
        invariant AllInRange(ops[..i])
      {
        if !ValidInstant(ops[i].at) {
          assert ops[i] in ops && !ops[i].InRange();
          return OutOfRange;
        }
      }
      assert ops[..|ops|] == ops;
      err := Finalize(ops, now);
    }

    method Snooze(ops: seq<Op>, now: Instant) returns (err: FinalizeError)
      requires Valid() && forall op :: op in ops ==> op.Snooze?
      modifies this`jobs
      ensures Valid()
      ensures jobs == Batch(old(jobs), ops, now) && err == BatchError(old(jobs), ops, now)
    {
      for i := 0 to |ops|
        invariant AllInRange(ops[..i])
      {
        if !ValidInstant(ops[i].at) {
          assert ops[i] in ops && !ops[i].InRange();
          return OutOfRange;
        }
      }
      assert ops[..|ops|] == ops;
      err := Finalize(ops, now);
    }

    /** Renews leases. The answer names the renewed jobs that were asked to stop, in the order given. */
    method Heartbeat(tokens: seq<Token>, now: Instant) returns (cancels: seq<JobId>)
      requires Valid()
      modifies this`jobs
      ensures Valid()
      ensures jobs == Beat(old(jobs), tokens, now)
      ensures cancels == AskedToStop(old(jobs), tokens)
    {
      cancels := [];
      for i := 0 to |tokens|
        invariant jobs == Beat(old(jobs), tokens[..i], now)
        invariant cancels == AskedToStop(old(jobs), tokens[..i])
      {
        var t := tokens[i];
        BeatOneMore(old(jobs), tokens, i, now);
        if t.id !in jobs || jobs[t.id].state != Running || jobs[t.id].generation != t.generation {
          continue;
        }
        jobs := jobs[t.id := jobs[t.id].(heartbeatAt := now)];
        if jobs[t.id].cancelRequested { cancels := cancels + [t.id]; }
      }
      assert tokens[..|tokens|] == tokens;
    }

    /** Makes due jobs available. Which ones, when there are more than limit, is the map's choice. */
    method MoveDue(now: Instant, limit: int) returns (moved: int, ghost picked: set<JobId>)
      requires Valid()
      modifies this`jobs
      ensures Valid()
      ensures BoundedPick(picked, DueIds(old(jobs), now), limit) && moved == |picked|
      ensures jobs == MoveAll(old(jobs), picked)
    {
      jobs, moved, picked := MoveLoop(jobs, now, limit);
    }

    method RescueStale(now: Instant, ttl: Duration, limit: int) returns (n: int, ghost picked: set<JobId>)
      requires Valid()
      modifies this`jobs
      ensures Valid()
      ensures BoundedPick(picked, AbandonedIds(old(jobs), ttl, now), limit) && n == |picked|
      ensures jobs == RescueAll(old(jobs), picked, now)
    {
      jobs, n, picked := RescueLoop(jobs, now, ttl, limit);
    }

    /** Stands in for the cancellation API that does not exist yet. */
    method SetCancelRequested(id: JobId)
      requires Valid()
      modifies this`jobs
      ensures Valid()
      ensures jobs == Flag(old(jobs), id)
    {
      if id in jobs { jobs := jobs[id := jobs[id].(cancelRequested := true)]; }
    }

    method Clean(now: Instant, keep: Retention, limit: int) returns (n: int, ghost picked: set<JobId>)
      requires Valid()
      modifies this`jobs
      ensures Valid()
      ensures BoundedPick(picked, ExpiredIds(old(jobs), keep, now), limit) && n == |picked|
      ensures jobs == old(jobs) - picked
    {
      jobs, n, picked := CleanLoop(jobs, now, keep, limit);
    }

    /** Wipes every job; the id counter goes on. */
    method Reset()
      requires Valid()
      modifies this`jobs
      ensures Valid() && jobs == map[]
    {
      jobs := map[];
    }
  }
}
