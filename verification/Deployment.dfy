/** A backend in use: every call that a client can make of it is a step of the state machine that the theorems
about runs speak of, so whatever is made of the backend, in whatever order, is one of those runs.
*/
module Deployment {
  import opened Instants
  import opened Rows
  import opened Store
  import opened Executor
  import opened MemoryBackend
  import opened Flushing
  import opened Runs

  class Deployment {
    const backend: Backend
    ghost var worlds: seq<World>
    ghost var labels: seq<Label>

    ghost predicate Valid()
      reads this, backend
    {
      && backend.Valid() && IsRun(worlds, labels)
      && Present().jobs == backend.jobs && Present().nextID == backend.nextID
    }

    /** The state the run has come to. */
    ghost function Present(): World
      requires IsRun(worlds, labels)
      reads this
    {
      worlds[|labels|]
    }

    constructor ()
      ensures Valid() && labels == [] && fresh(backend)
    {
      backend := new Backend();
      worlds, labels := [World(map[], 0, map[], map[], map[])], [];
    }

    ghost method Went(l: Label, w: World)
      requires backend.Valid() && IsRun(worlds, labels) && Step(Present(), l, w)
      requires w.jobs == backend.jobs && w.nextID == backend.nextID
      modifies this`worlds, this`labels
      ensures Valid() && labels == old(labels) + [l] && worlds == old(worlds) + [w]
    {
      RunGoesOn(worlds, labels, l, w);
      worlds, labels := worlds + [w], labels + [l];
    }

    method Enqueue(rows: seq<Row>, now: Instant) returns (ok: bool, stored: seq<Row>)
      requires Valid() && ValidInstant(now) && forall r :: r in rows ==> ClientBuilt(r)
      modifies this`worlds, this`labels, backend
      ensures Valid() && labels == old(labels) + if ok then [Enqueues(rows, now)] else []
    {
      ghost var w := Present();
      ok, stored := backend.Enqueue(rows, now);
      if ok {
        ghost var next := Added(w, rows, now);
        Went(Enqueues(rows, now), next);
      }
    }

    static lemma Added(w: World, rows: seq<Row>, now: Instant) returns (next: World)
      requires ValidInstant(now) && (forall r :: r in rows ==> ClientBuilt(r)) && Enqueueable(rows, now)
      ensures EnqueueStep(w, rows, now, next)
      ensures next.jobs == EnqueueAll(w.jobs, w.nextID, rows, now) && next.nextID == w.nextID + |rows|
    {
      next := w.(jobs := EnqueueAll(w.jobs, w.nextID, rows, now), nextID := w.nextID + |rows|,
                 baseline := Baseline(w.baseline, w.nextID, rows));
    }

    static ghost function Baseline(was: map<JobId, int>, last: int, rows: seq<Row>): map<JobId, int> {
      map id | id in was.Keys + NewIds(last, |rows|) ::
        if last < id.n <= last + |rows| then SnoozeCount(rows[id.n - last - 1].metadata) else was[id]
    }

    method Fetch(queue: string, limit: nat, client: string, now: Instant) returns (out: seq<Row>)
      requires Valid()
      modifies this`worlds, this`labels, backend`jobs
      ensures Valid() && labels == old(labels) + [Fetches(queue, limit, client, now, out)]
    {
      ghost var w := Present();
      out := backend.Fetch(queue, limit, client, now);
      ghost var execs := Handed(w, queue, limit, client, now, out);
      Went(Fetches(queue, limit, client, now, out), w.(jobs := backend.jobs, execs := execs));
    }

    /** The claimed rows, by the tokens of their executions. */
    static lemma Handed(w: World, queue: string, limit: nat, client: string, now: Instant, out: seq<Row>)
      returns (execs: map<Token, Row>)
      requires FetchedRows(w.jobs, queue, limit, client, now, out) && forall id :: id in w.jobs ==> w.jobs[id].id == id
      ensures FetchStep(w, queue, limit, client, now, out,
                        w.(jobs := ClaimAll(w.jobs, Ids(out), client, now), execs := execs))
    {
      var jobs := ClaimAll(w.jobs, Ids(out), client, now);
      forall t | t in Issued(out) ensures t.id in jobs {
        var r :| r in out && t == Token(r.id, r.generation);
      }
      execs := map t | t in w.execs.Keys + Issued(out) :: if t in Issued(out) then jobs[t.id] else w.execs[t];
    }

    /** An execution, handed this row, ends. Its operation is nowhere but with the client yet. */
    method Conclude(t: Token, row: Row, user: string, outcome: Outcome, now: Instant, delay: Duration)
      returns (op: Op)
      requires Valid() && t in Present().execs && row == Present().execs[t] && t !in Present().ops
      modifies this`worlds, this`labels
      ensures Valid() && labels == old(labels) + [Concludes(t, user, outcome, now, delay)]
      ensures t in Present().ops && Present().ops[t] == op
    {
      ghost var w := Present();
      op := Executor.Conclude(WorkedOn(row, user), outcome, now, delay);
      Went(Concludes(t, user, outcome, now, delay), w.(ops := w.ops[t := op]));
    }

    /** A call with operations of one kind, from whichever executions, as late and as often as may be. */
    method Finalize(batch: seq<Op>, k: Kind, now: Instant) returns (err: FinalizeError)
      requires Valid() && ValidInstant(now) && forall op :: op in batch ==> KindOf(op) == k
      requires forall op :: op in batch ==> op.token in Present().ops && Present().ops[op.token] == op
      modifies this`worlds, this`labels, backend`jobs
      ensures Valid() && labels == old(labels) + [Finalizes(batch, now)]
    {
      ghost var w := Present();
      match k {
        case Completes => err := backend.Complete(batch, now);
        case Retries => err := backend.Retry(batch, now);
        case Cancels => err := backend.Cancel(batch, now);
        case Kills => err := backend.Kill(batch, now);
        case Snoozes => err := backend.Snooze(batch, now);
      }
      Went(Finalizes(batch, now), w.(jobs := backend.jobs));
    }

    method Heartbeat(tokens: seq<Token>, now: Instant) returns (cancels: seq<JobId>)
      requires Valid()
      modifies this`worlds, this`labels, backend`jobs
      ensures Valid() && labels == old(labels) + [Heartbeats(tokens, now)]
    {
      ghost var w := Present();
      cancels := backend.Heartbeat(tokens, now);
      Went(Heartbeats(tokens, now), w.(jobs := backend.jobs));
    }

    method MoveDue(now: Instant, limit: int) returns (moved: int, ghost picked: set<JobId>)
      requires Valid()
      modifies this`worlds, this`labels, backend`jobs
      ensures Valid() && labels == old(labels) + [Moves(now, picked)] && moved == |picked|
    {
      ghost var w := Present();
      moved, picked := backend.MoveDue(now, limit);
      Went(Moves(now, picked), w.(jobs := backend.jobs));
    }

    method RescueStale(now: Instant, ttl: Duration, limit: int) returns (n: int, ghost picked: set<JobId>)
      requires Valid() && ValidInstant(now)
      modifies this`worlds, this`labels, backend`jobs
      ensures Valid() && labels == old(labels) + [Rescues(now, ttl, picked)] && n == |picked|
    {
      ghost var w := Present();
      n, picked := backend.RescueStale(now, ttl, limit);
      Went(Rescues(now, ttl, picked), w.(jobs := backend.jobs));
    }

    method Clean(now: Instant, keep: Retention, limit: int) returns (n: int, ghost picked: set<JobId>)
      requires Valid()
      modifies this`worlds, this`labels, backend`jobs
      ensures Valid() && labels == old(labels) + [Cleans(now, keep, picked)] && n == |picked|
    {
      ghost var w := Present();
      n, picked := backend.Clean(now, keep, limit);
      Went(Cleans(now, keep, picked), w.(jobs := backend.jobs));
    }

    method SetCancelRequested(id: JobId)
      requires Valid()
      modifies this`worlds, this`labels, backend`jobs
      ensures Valid() && labels == old(labels) + [Flags(id)]
    {
      ghost var w := Present();
      backend.SetCancelRequested(id);
      Went(Flags(id), w.(jobs := backend.jobs));
    }

    method Reset()
      requires Valid()
      modifies this`worlds, this`labels, backend`jobs
      ensures Valid() && labels == old(labels) + [Resets]
    {
      ghost var w := Present();
      backend.Reset();
      Went(Resets, w.(jobs := backend.jobs));
    }
  }
}
