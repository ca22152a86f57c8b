/** The SQL finalizer: one statement settles a whole batch.

The statement is modelled as a relation between the table before and after, because SQL promises no
order of evaluation. It is then shown to have exactly one outcome, the one the in-memory loop computes.
*/
module SqlFinalizer {
  import opened Instants
  import opened Rows
  import opened Store
  import opened MemoryBackend

  /** The SET clauses. Arithmetic is on numeric, so it is clamped rather than wrapped, and the attempt
      recorded by a cancellation is written into the entry from the row. */
  function SetClause(j: Row, w: Op, now: Instant): Row {
    var metadata := if w.metadata.NoMetadata? then j.metadata else w.metadata;
    match w
    case Complete(_, _) => j.(state := Completed, finalizedAt := now, metadata := metadata)
    case Retry(_, atNS, err, _) =>
      j.(state := Retryable, scheduledAt := atNS, priorityAt := ClampNS(atNS - j.priorityBoost),
         finalizedAt := ZERO_TIME, errors := j.errors + [err], metadata := metadata)
    case Cancel(_, reason, _) =>
      j.(state := Cancelled, finalizedAt := now,
         errors := if reason == "" then j.errors
                   else j.errors + [AttemptError(now, 0, reason, "").(attempt := j.attempt)],
         metadata := metadata)
    case Kill(_, err, _) => j.(state := Dead, finalizedAt := now, errors := j.errors + [err], metadata := metadata)
    case Snooze(_, atNS, _) =>
      j.(state := Retryable, attempt := j.attempt - 1, scheduledAt := atNS,
         priorityAt := ClampNS(atNS - j.priorityBoost), finalizedAt := ZERO_TIME, metadata := metadata)
  }

  /** SELECT DISTINCT ON (id, generation) ... ORDER BY id, generation, ord. */
  predicate Winner(input: seq<Op>, i: int) {
    0 <= i < |input| && forall k :: 0 <= k < i ==> input[k].token != input[i].token
  }

  /** WHERE j.id = w.id AND j.generation = w.generation AND j.state = 'running'. */
  predicate Joins(table: Jobs, input: seq<Op>, i: int) {
    && Winner(input, i)
    && input[i].token.id in table
    && table[input[i].token.id].generation == input[i].token.generation
    && table[input[i].token.id].state == Running
  }

  /** UPDATE ... FROM winner ... RETURNING ord. A row that joins is set from one of the winners it
      joins; which one, and the order of the returned ordinals, SQL leaves open. */
  ghost predicate Statement(table: Jobs, input: seq<Op>, now: Instant, after: Jobs, ords: seq<int>) {
    && after.Keys == table.Keys
    && (forall ord :: ord in ords <==> Joins(table, input, ord - 1))
    && (forall id :: id in table ==>
          if exists i :: Joins(table, input, i) && input[i].token.id == id
          then exists i ::
            Joins(table, input, i) && input[i].token.id == id && after[id] == SetClause(table[id], input[i], now)
          else after[id] == table[id])
  }

  /** Clause by clause the SQL says what the loop body does, given a storable instant. */
  lemma SetClauseIsSettle(j: Row, w: Op, now: Instant)
    requires w.InRange()
    ensures SetClause(j, w, now) == Settle(j, w, now)
  {
    if w.Retry? || w.Snooze? {
      ClampedDifference(w.at, w.at, j.priorityBoost, j.priorityBoost);
    }
  }

  /** What a joining entry is set to is what the loop leaves there. */
  lemma JoinedRow(table: Jobs, input: seq<Op>, now: Instant, i: int)
    requires AllInRange(input) && Joins(table, input, i)
    ensures ApplyAll(table, input, now).Keys == table.Keys
    ensures ApplyAll(table, input, now)[input[i].token.id] == SetClause(table[input[i].token.id], input[i], now)
  {
    FirstLiveEntryWins(table, input, now);
    assert Wins(table, input, i) && input[i] in input;
    SetClauseIsSettle(table[input[i].token.id], input[i], now);
  }

  lemma UnjoinedRow(table: Jobs, input: seq<Op>, now: Instant, id: JobId)
    requires id in table && forall i :: Joins(table, input, i) ==> input[i].token.id != id
    ensures ApplyAll(table, input, now).Keys == table.Keys
    ensures ApplyAll(table, input, now)[id] == table[id]
  {
    FirstLiveEntryWins(table, input, now);
    assert forall i :: Wins(table, input, i) ==> Joins(table, input, i);
  }

  lemma EveryOutcomeIsTheLoops(table: Jobs, input: seq<Op>, now: Instant, after: Jobs, ords: seq<int>)
    requires AllInRange(input) && Statement(table, input, now, after, ords)
    ensures after == ApplyAll(table, input, now)
  {
    FirstLiveEntryWins(table, input, now);
    forall id | id in table ensures after[id] == ApplyAll(table, input, now)[id] {
      if i :| Joins(table, input, i) && input[i].token.id == id && after[id] == SetClause(table[id], input[i], now) {
        JoinedRow(table, input, now, i);
      } else {
        UnjoinedRow(table, input, now, id);
      }
    }
  }

  lemma LoopRow(table: Jobs, input: seq<Op>, now: Instant, loop: Jobs, id: JobId)
    requires AllInRange(input) && id in table && loop == ApplyAll(table, input, now) && loop.Keys == table.Keys
    ensures if exists i :: Joins(table, input, i) && input[i].token.id == id
      then exists i ::
        Joins(table, input, i) && input[i].token.id == id && loop[id] == SetClause(table[id], input[i], now)
      else loop[id] == table[id]
  {
    if i :| Joins(table, input, i) && input[i].token.id == id {
      JoinedRow(table, input, now, i);
    } else {
      UnjoinedRow(table, input, now, id);
    }
  }

  lemma TheLoopIsAnOutcome(table: Jobs, input: seq<Op>, now: Instant)
    requires AllInRange(input)
    ensures Statement(table, input, now, ApplyAll(table, input, now), Ordinals(table, input, |input|))
  {
    var loop := ApplyAll(table, input, now);
    assert loop.Keys == table.Keys by { FirstLiveEntryWins(table, input, now); }
    forall id | id in table
      ensures if exists i :: Joins(table, input, i) && input[i].token.id == id
        then exists i ::
          Joins(table, input, i) && input[i].token.id == id && loop[id] == SetClause(table[id], input[i], now)
        else loop[id] == table[id]
    {
      LoopRow(table, input, now, loop, id);
    }
  }

  /** The statement has the loop's outcome and no other, whatever duplicates and mixed generations
      the batch holds. */
  lemma StatementIsTheLoop(table: Jobs, input: seq<Op>, now: Instant, after: Jobs)
    requires AllInRange(input)
    ensures (exists ords :: Statement(table, input, now, after, ords)) <==> after == ApplyAll(table, input, now)
  {
    if ords :| Statement(table, input, now, after, ords) {
      EveryOutcomeIsTheLoops(table, input, now, after, ords);
    }
    TheLoopIsAnOutcome(table, input, now);
  }

  /** The ordinals among the first n that join, in order. */
  function Ordinals(table: Jobs, input: seq<Op>, n: nat): (ords: seq<int>)
    ensures forall ord :: ord in ords <==> ord <= n && Joins(table, input, ord - 1)
  {
    if n == 0 then []
    else Ordinals(table, input, n - 1) + if Joins(table, input, n - 1) then [n] else []
  }

  /** What the database answered: the table it left behind and the ordinals it returned. */
  datatype Answer = Answer(table: Jobs, ords: seq<int>)

  /** Reads the returned ordinals and reports every entry that has none. */
  method RunFinalize(
      table: Jobs, input: seq<Op>, now: Instant, answer: Answer)
    returns (err: FinalizeError, after: Jobs)
    requires AllInRange(input)
    requires input != [] ==> Statement(table, input, now, answer.table, answer.ords)
    ensures after == Batch(table, input, now) && err == BatchError(table, input, now)
  {
    if input == [] { return NoError, table; }
    EveryOutcomeIsTheLoops(table, input, now, answer.table, answer.ords);
    after := answer.table;
    var won := AsSet(answer.ords);
    var stale := Unreturned(table, input, won);
    StaleAreTheLosers(table, input, now);
    err := Report(stale);
  }

  method AsSet(ords: seq<int>) returns (won: set<int>)
    ensures forall ord :: ord in won <==> ord in ords
  {
    won := {};
    for k := 0 to |ords|
      invariant forall ord :: ord in won <==> ord in ords[..k]
    {
      won := won + {ords[k]};
    }
    assert ords[..|ords|] == ords;
  }

  /** The ids of the entries whose ordinal was not returned, in batch order. */
  method Unreturned(table: Jobs, input: seq<Op>, won: set<int>) returns (stale: seq<JobId>)
    requires forall i :: 0 <= i < |input| ==> (i + 1 in won <==> Joins(table, input, i))
    ensures stale == Losers(table, input, |input|)
  {
    stale := [];
    for i := 0 to |input|
      invariant stale == Losers(table, input, i)
    {
      assert Joins(table, input, i) <==> Wins(table, input, i);
      if i + 1 !in won { stale := stale + [input[i].token.id]; }
    }
  }

  /** Any of the five operations: an unstorable instant is refused while the batch is encoded, before
      the statement runs. Rows and reported ids are those of the in-memory backend. */
  method Finalize(table: Jobs, input: seq<Op>, now: Instant, answer: Answer) returns (err: FinalizeError, after: Jobs)
    requires input != [] && AllInRange(input) ==> Statement(table, input, now, answer.table, answer.ords)
    ensures after == Batch(table, input, now) && err == BatchError(table, input, now)
  {
    for i := 0 to |input|
      invariant AllInRange(input[..i])
    {
      if !input[i].InRange() {
        assert input[i] in input && !AllInRange(input);
        return OutOfRange, table;
      }
    }
    assert input[..|input|] == input;
    err, after := RunFinalize(table, input, now, answer);
  }
}
