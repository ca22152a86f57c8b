/** What each backend operation does to the stored jobs, as functions and relations on values.

The finalizers are described twice: ApplyAll replays a batch entry by entry, as a loop does, and
Settled says at once what the batch does to a given row. FirstLiveEntryWins is the bridge between the
two, and the fencing facts follow from it.
*/
module Store {
  import opened Instants
  import opened Rows

  // ---------- Finalization ----------

  /** The token names the execution that currently holds the row. */
  predicate Live(jobs: Jobs, t: Token) {
    t.id in jobs && jobs[t.id].state == Running && jobs[t.id].generation == t.generation
  }

  /** The row after its own execution ended as op says. */
  function Settle(row: Row, op: Op, now: Instant): (r: Row)
    ensures r.state != Running
    ensures r.(state := row.state, attempt := row.attempt, scheduledAt := row.scheduledAt, priorityAt := row.priorityAt,
      finalizedAt := row.finalizedAt, errors := row.errors, metadata := row.metadata) == row
  {
    var row := row.(finalizedAt := now, metadata := MergeMeta(row.metadata, op.metadata));
    match op
    case Complete(_, _) => row.(state := Completed)
    case Retry(_, at, err, _) =>
      row.(state := Retryable, scheduledAt := at, priorityAt := SubDurationClamped(at, row.priorityBoost),
           finalizedAt := ZERO_TIME, errors := row.errors + [err])
    case Cancel(_, reason, _) =>
      row.(state := Cancelled,
           errors := if reason == "" then row.errors else row.errors + [AttemptError(now, row.attempt, reason, "")])
    case Kill(_, err, _) => row.(state := Dead, errors := row.errors + [err])
    case Snooze(_, at, _) =>
      row.(state := Retryable, attempt := row.attempt - 1, scheduledAt := at,
           priorityAt := SubDurationClamped(at, row.priorityBoost), finalizedAt := ZERO_TIME)
  }

  function ApplyOne(jobs: Jobs, op: Op, now: Instant): Jobs {
    if Live(jobs, op.token) then jobs[op.token.id := Settle(jobs[op.token.id], op, now)] else jobs
  }

  /** A batch, one entry after the other. */
  function ApplyAll(jobs: Jobs, ops: seq<Op>, now: Instant): Jobs {
    if ops == [] then jobs
    else ApplyOne(ApplyAll(jobs, ops[..|ops| - 1], now), ops[|ops| - 1], now)
  }

  /** The ids of the entries that found nothing to settle, in batch order. */
  function StaleIds(jobs: Jobs, ops: seq<Op>, now: Instant): seq<JobId> {
    if ops == [] then []
    else
      var before := ops[..|ops| - 1];
      var last := ops[|ops| - 1].token;
      StaleIds(jobs, before, now) + if Live(ApplyAll(jobs, before, now), last) then [] else [last.id]
  }

  predicate AllInRange(ops: seq<Op>) {
    forall op :: op in ops ==> op.InRange()
  }

  /** A whole backend call: one unstorable instant refuses the batch. */
  function Batch(jobs: Jobs, ops: seq<Op>, now: Instant): Jobs {
    if AllInRange(ops) then ApplyAll(jobs, ops, now) else jobs
  }

  /** Entry i is the first of its batch to present its token, and the token is live. */
  predicate Wins(jobs: Jobs, ops: seq<Op>, i: int) {
    && 0 <= i < |ops|
    && Live(jobs, ops[i].token)
    && forall k :: 0 <= k < i ==> ops[k].token != ops[i].token
  }

  /** Replaying a batch entry by entry settles a row with the first entry that presents its live
      token, and leaves every other row alone. */
  lemma {:induction false} FirstLiveEntryWins(jobs: Jobs, ops: seq<Op>, now: Instant)
    ensures ApplyAll(jobs, ops, now).Keys == jobs.Keys
    ensures forall i :: Wins(jobs, ops, i) ==>
      ApplyAll(jobs, ops, now)[ops[i].token.id] == Settle(jobs[ops[i].token.id], ops[i], now)
    ensures forall id :: id in jobs && (forall i :: Wins(jobs, ops, i) ==> ops[i].token.id != id) ==>
      ApplyAll(jobs, ops, now)[id] == jobs[id]
  {
    if ops != [] {
      var n := |ops| - 1;
      var before := ops[..n];
      FirstLiveEntryWins(jobs, before, now);
      forall i | 0 <= i < n ensures Wins(jobs, before, i) <==> Wins(jobs, ops, i) {}
      var mid := ApplyAll(jobs, before, now);
      var t := ops[n].token;
      // The last entry finds its token live exactly when no earlier entry has used it.
      assert Live(mid, t) <==> Wins(jobs, ops, n) by {
        if Live(jobs, t) && !Wins(jobs, ops, n) {
          FirstUse(jobs, ops, n);
        }
      }
    }
  }

  lemma {:induction false} FirstUse(jobs: Jobs, ops: seq<Op>, n: nat)
    requires n < |ops| && Live(jobs, ops[n].token)
    ensures exists i :: Wins(jobs, ops, i) && i <= n && ops[i].token == ops[n].token
  {
    if k :| 0 <= k < n && ops[k].token == ops[n].token {
      FirstUse(jobs, ops, k);
    } else {
      assert Wins(jobs, ops, n);
    }
  }

  /** The ids at the first n positions that do not win. */
  function Losers(jobs: Jobs, ops: seq<Op>, n: nat): seq<JobId>
    requires n <= |ops|
  {
    if n == 0 then [] else Losers(jobs, ops, n - 1) + if Wins(jobs, ops, n - 1) then [] else [ops[n - 1].token.id]
  }

  lemma {:induction false} LosersOfPrefix(jobs: Jobs, ops: seq<Op>, m: nat, n: nat)
    requires n <= m <= |ops|
    ensures Losers(jobs, ops[..m], n) == Losers(jobs, ops, n)
  {
    if n > 0 {
      LosersOfPrefix(jobs, ops, m, n - 1);
      assert Wins(jobs, ops[..m], n - 1) <==> Wins(jobs, ops, n - 1);
    }
  }

  /** Exactly the losing entries are reported stale, in batch order. */
  lemma {:induction false} StaleAreTheLosers(jobs: Jobs, ops: seq<Op>, now: Instant)
    ensures StaleIds(jobs, ops, now) == Losers(jobs, ops, |ops|)
  {
    if ops != [] {
      var n := |ops| - 1;
      StaleAreTheLosers(jobs, ops[..n], now);
      LosersOfPrefix(jobs, ops, n, n);
      LiveMeansUnused(jobs, ops, n, now);
    }
  }

  /** After the first n entries, entry n's token is live exactly when entry n wins. */
  lemma LiveMeansUnused(jobs: Jobs, ops: seq<Op>, n: nat, now: Instant)
    requires n < |ops|
    ensures Live(ApplyAll(jobs, ops[..n], now), ops[n].token) <==> Wins(jobs, ops, n)
  {
    var before := ops[..n];
    FirstLiveEntryWins(jobs, before, now);
    forall i | 0 <= i < n ensures Wins(jobs, before, i) <==> Wins(jobs, ops, i) {}
    if Live(jobs, ops[n].token) && !Wins(jobs, ops, n) {
      FirstUse(jobs, ops, n);
    }
  }

  /** A batch uses up every token it presents. */
  lemma BatchUsesUpItsTokens(jobs: Jobs, ops: seq<Op>, now: Instant, op: Op)
    requires op in ops
    ensures !Live(ApplyAll(jobs, ops, now), op.token)
  {
    FirstLiveEntryWins(jobs, ops, now);
    var n :| 0 <= n < |ops| && ops[n] == op;
    if Live(jobs, op.token) { FirstUse(jobs, ops, n); }
  }

  /** A finalization never makes a token live. */
  lemma BatchRevivesNothing(jobs: Jobs, ops: seq<Op>, now: Instant, t: Token)
    requires !Live(jobs, t)
    ensures !Live(ApplyAll(jobs, ops, now), t)
  {
    FirstLiveEntryWins(jobs, ops, now);
  }

  /** A batch none of whose tokens is live changes nothing. */
  lemma SupersededBatchIsHarmless(jobs: Jobs, ops: seq<Op>, now: Instant)
    requires forall op :: op in ops ==> !Live(jobs, op.token)
    ensures ApplyAll(jobs, ops, now) == jobs
  {
    FirstLiveEntryWins(jobs, ops, now);
    forall i | 0 <= i < |ops| ensures !Wins(jobs, ops, i) { assert ops[i] in ops; }
  }

  /** The entries of a batch other than those presenting t. */
  function Without(ops: seq<Op>, t: Token): seq<Op> {
    if ops == [] then []
    else
      var rest := Without(ops[..|ops| - 1], t);
      if ops[|ops| - 1].token == t then rest else rest + [ops[|ops| - 1]]
  }

  /** The entries of a superseded execution might as well not be in the batch. */
  lemma {:induction false} SupersededEntriesDropOut(jobs: Jobs, ops: seq<Op>, now: Instant, t: Token)
    requires !Live(jobs, t)
    ensures ApplyAll(jobs, ops, now) == ApplyAll(jobs, Without(ops, t), now)
  {
    if ops != [] {
      var n := |ops| - 1;
      SupersededEntriesDropOut(jobs, ops[..n], now, t);
      if ops[n].token == t {
        BatchRevivesNothing(jobs, ops[..n], now, t);
      } else {
        var rest := Without(ops[..n], t);
        assert (rest + [ops[n]])[..|rest|] == rest;
      }
    }
  }

  lemma {:induction false} WithoutKeepsTheRest(ops: seq<Op>, t: Token)
    ensures forall op :: op in Without(ops, t) <==> op in ops && op.token != t
  {
    if ops != [] {
      WithoutKeepsTheRest(ops[..|ops| - 1], t);
      assert ops == ops[..|ops| - 1] + [ops[|ops| - 1]];
    }
  }

  /** The entries of a superseded execution make a difference to a whole call exactly when they carry the
      call's only unstorable instants, which refuses it, and something beside them is live. */
  predicate SpoiltBy(jobs: Jobs, ops: seq<Op>, t: Token) {
    !AllInRange(ops) && AllInRange(Without(ops, t)) && exists op :: op in Without(ops, t) && Live(jobs, op.token)
  }

  lemma SupersededEntriesSpoilNothingElse(jobs: Jobs, ops: seq<Op>, now: Instant, t: Token)
    requires !Live(jobs, t)
    ensures Batch(jobs, ops, now) == Batch(jobs, Without(ops, t), now) <==> !SpoiltBy(jobs, ops, t)
    ensures Batch(jobs, ops, now) == Batch(jobs, Without(ops, t), now) || Batch(jobs, ops, now) == jobs
  {
    SupersededEntriesDropOut(jobs, ops, now, t);
    WithoutKeepsTheRest(ops, t);
    var rest := Without(ops, t);
    if SpoiltBy(jobs, ops, t) {
      var op :| op in rest && Live(jobs, op.token);
      BatchUsesUpItsTokens(jobs, rest, now, op);
    } else if !AllInRange(ops) && AllInRange(rest) {
      SupersededBatchIsHarmless(jobs, rest, now);
    }
  }

  /** Replaying a call whose reply was lost, at any later clock, changes nothing. */
  lemma ReplayIsHarmless(jobs: Jobs, ops: seq<Op>, now: Instant, later: Instant)
    ensures Batch(Batch(jobs, ops, now), ops, later) == Batch(jobs, ops, now)
  {
    forall op | op in ops ensures !Live(ApplyAll(jobs, ops, now), op.token) {
      BatchUsesUpItsTokens(jobs, ops, now, op);
    }
    SupersededBatchIsHarmless(ApplyAll(jobs, ops, now), ops, later);
  }

  /** No token is presented by two different operations. */
  ghost predicate OneOpPerToken(ops: seq<Op>) {
    forall a, b :: a in ops && b in ops && a.token == b.token ==> a == b
  }

  /** When each token has one operation, the order of a batch does not matter: a row is settled by
      the operation that presents its live token, if there is one. */
  lemma OrderIsIrrelevant(jobs: Jobs, ops: seq<Op>, now: Instant)
    requires OneOpPerToken(ops)
    ensures ApplyAll(jobs, ops, now).Keys == jobs.Keys
    ensures forall op :: op in ops && Live(jobs, op.token) ==>
      ApplyAll(jobs, ops, now)[op.token.id] == Settle(jobs[op.token.id], op, now)
    ensures forall id :: id in jobs && (forall op :: op in ops && op.token.id == id ==> !Live(jobs, op.token)) ==>
      ApplyAll(jobs, ops, now)[id] == jobs[id]
  {
    FirstLiveEntryWins(jobs, ops, now);
    forall op | op in ops && Live(jobs, op.token)
      ensures ApplyAll(jobs, ops, now)[op.token.id] == Settle(jobs[op.token.id], op, now)
    {
      var n :| 0 <= n < |ops| && ops[n] == op;
      FirstUse(jobs, ops, n);
      var i :| Wins(jobs, ops, i) && ops[i].token == op.token;
      assert ops[i] in ops;
    }
  }

  lemma {:induction false} ApplyAllConcat(jobs: Jobs, a: seq<Op>, b: seq<Op>, now: Instant)
    ensures ApplyAll(jobs, a + b, now) == ApplyAll(ApplyAll(jobs, a, now), b, now)
  {
    if b == [] {
      assert a + b == a;
    } else {
      assert (a + b)[..|a + b| - 1] == a + b[..|b| - 1];
      ApplyAllConcat(jobs, a, b[..|b| - 1], now);
    }
  }

  // ---------- Claims ----------

  predicate Claimable(row: Row, queue: string, now: Instant) {
    row.state == Available && row.queue == queue && row.scheduledAt <= now
  }

  /** The ids a fetch of the queue may claim. */
  function Candidates(jobs: Jobs, queue: string, now: Instant): set<JobId> {
    set id | id in jobs && Claimable(jobs[id], queue, now)
  }

  /** Effective time first, then id. */
  predicate Before(a: Row, b: Row) {
    a.priorityAt < b.priorityAt || (a.priorityAt == b.priorityAt && a.id.n < b.id.n)
  }

  function Claim(row: Row, client: string, now: Instant): Row {
    row.(state := Running, attempt := row.attempt + 1, generation := row.generation + 1,
         attemptedAt := now, heartbeatAt := now, attemptedBy := row.attemptedBy + [client])
  }

  function ClaimAll(jobs: Jobs, ids: set<JobId>, client: string, now: Instant): Jobs {
    map id | id in jobs :: if id in ids then Claim(jobs[id], client, now) else jobs[id]
  }

  /** What a fetch may answer: the limit first candidates in claim order, each handed out as claimed. */
  ghost predicate FetchedRows(jobs: Jobs, queue: string, limit: nat, client: string, now: Instant, rows: seq<Row>) {
    && |rows| == UpTo(limit, |Candidates(jobs, queue, now)|)
    && (forall r :: r in rows ==> r.id in Candidates(jobs, queue, now) && r == Claim(jobs[r.id], client, now))
    && (forall i, j :: 0 <= i < j < |rows| ==> Before(rows[i], rows[j]))
    && (forall r, id :: r in rows && id in Candidates(jobs, queue, now) && Before(jobs[id], jobs[r.id]) ==>
          id in Ids(rows))
  }

  function Ids(rows: seq<Row>): set<JobId> {
    set r | r in rows :: r.id
  }

  // ---------- Enqueue ----------

  function EffectiveSchedule(row: Row, now: Instant): Instant {
    if row.scheduledAt == ZERO_TIME then now else row.scheduledAt
  }

  predicate Enqueueable(rows: seq<Row>, now: Instant) {
    forall r :: r in rows ==> SubDuration(EffectiveSchedule(r, now), r.priorityBoost).Ok?
  }

  /** The row as stored: everything the caller filled in, and the five fields the backend assigns. */
  function Stored(row: Row, id: JobId, now: Instant): Row {
    var at := EffectiveSchedule(row, now);
    row.(id := id, createdAt := now, scheduledAt := at, state := if at > now then Scheduled else Available,
         priorityAt := at - row.priorityBoost)
  }

  function NewIds(last: int, n: nat): (ids: set<JobId>)
    ensures forall id :: id in ids <==> last < id.n <= last + n
  {
    if n == 0 then {} else NewIds(last, n - 1) + {JobId(last + n)}
  }

  /** The jobs after the given rows are stored under the ids following last. */
  function EnqueueAll(jobs: Jobs, last: int, rows: seq<Row>, now: Instant): Jobs {
    map id | id in jobs.Keys + NewIds(last, |rows|) ::
      if last < id.n <= last + |rows| then Stored(rows[id.n - last - 1], id, now) else jobs[id]
  }

  // ---------- Leases and maintenance ----------

  function Beat(jobs: Jobs, tokens: seq<Token>, now: Instant): Jobs {
    map id | id in jobs ::
      if jobs[id].state == Running && Token(id, jobs[id].generation) in tokens then jobs[id].(heartbeatAt := now)
      else jobs[id]
  }

  /** The beaten rows that carry a cancellation request, in the order presented. */
  function AskedToStop(jobs: Jobs, tokens: seq<Token>): seq<JobId> {
    if tokens == [] then []
    else
      var t := tokens[|tokens| - 1];
      AskedToStop(jobs, tokens[..|tokens| - 1]) + if Live(jobs, t) && jobs[t.id].cancelRequested then [t.id] else []
  }

  function Flag(jobs: Jobs, id: JobId): Jobs {
    if id in jobs then jobs[id := jobs[id].(cancelRequested := true)] else jobs
  }

  predicate Due(row: Row, now: Instant) {
    (row.state == Scheduled || row.state == Retryable) && row.scheduledAt <= now
  }

  function Move(row: Row): Row { row.(state := Available) }

  /** The cut-off is now plus the wrapped negation of the TTL. */
  predicate Abandoned(row: Row, ttl: Duration, now: Instant) {
    row.state == Running && row.heartbeatAt < now + Wrap64(-(ttl as int))
  }

  function Rescue(row: Row, now: Instant): Row {
    row.(state := Retryable, scheduledAt := now, priorityAt := SubDurationClamped(now, row.priorityBoost))
  }

  datatype Retention = Retention(completed: Duration, cancelled: Duration, dead: Duration) {
    function For(s: State): Duration
      requires s.Terminal()
    {
      match s
      case Completed => completed
      case Cancelled => cancelled
      case _ => dead
    }
  }

  predicate Expired(row: Row, keep: Retention, now: Instant) {
    row.state.Terminal() && row.finalizedAt < now + Wrap64(-(keep.For(row.state) as int))
  }

  function DueIds(jobs: Jobs, now: Instant): set<JobId> { set id | id in jobs && Due(jobs[id], now) }

  function AbandonedIds(jobs: Jobs, ttl: Duration, now: Instant): set<JobId> {
    set id | id in jobs && Abandoned(jobs[id], ttl, now)
  }

  function ExpiredIds(jobs: Jobs, keep: Retention, now: Instant): set<JobId> {
    set id | id in jobs && Expired(jobs[id], keep, now)
  }

  function MoveAll(jobs: Jobs, ids: set<JobId>): Jobs {
    map id | id in jobs :: if id in ids then Move(jobs[id]) else jobs[id]
  }

  function RescueAll(jobs: Jobs, ids: set<JobId>, now: Instant): Jobs {
    map id | id in jobs :: if id in ids then Rescue(jobs[id], now) else jobs[id]
  }

  /** A bounded maintenance pass touches as many eligible rows as its limit allows, in no promised
      order. */
  predicate BoundedPick(picked: set<JobId>, eligible: set<JobId>, limit: int) {
    picked <= eligible && |picked| == UpTo(limit, |eligible|)
  }

  function UpTo(limit: int, n: nat): nat {
    if limit <= 0 then 0 else Min(n, limit)
  }
}
