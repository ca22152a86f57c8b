/** Why the completer may regroup what it buffers: grouping by kind changes the order in which
operations reach the store, and fencing makes the order immaterial.
*/
module Flushing {
  import opened Instants
  import opened Rows
  import opened Store
  import opened Runs

  datatype Kind = Completes | Retries | Cancels | Kills | Snoozes

  function KindOf(op: Op): Kind {
    match op
    case Complete(_, _) => Completes
    case Retry(_, _, _, _) => Retries
    case Cancel(_, _, _) => Cancels
    case Kill(_, _, _) => Kills
    case Snooze(_, _, _) => Snoozes
  }

  /** The operations of one kind, in buffer order. */
  function OfKind(ops: seq<Op>, k: Kind): (r: seq<Op>)
    ensures forall op :: op in r <==> op in ops && KindOf(op) == k
  {
    if ops == [] then []
    else
      assert ops == ops[..|ops| - 1] + [ops[|ops| - 1]];
      OfKind(ops[..|ops| - 1], k) + if KindOf(ops[|ops| - 1]) == k then [ops[|ops| - 1]] else []
  }

  /** A flush whose five calls all succeed: one batch per kind, in this order. */
  function FlushAll(jobs: Jobs, ops: seq<Op>, now: Instant): Jobs {
    var a := Batch(jobs, OfKind(ops, Completes), now);
    var b := Batch(a, OfKind(ops, Retries), now);
    var c := Batch(b, OfKind(ops, Cancels), now);
    var d := Batch(c, OfKind(ops, Kills), now);
    Batch(d, OfKind(ops, Snoozes), now)
  }

  /** Every operation sent on its own, in the order it was pushed. */
  function OneByOne(jobs: Jobs, ops: seq<Op>, now: Instant): Jobs {
    if ops == [] then jobs
    else Batch(OneByOne(jobs, ops[..|ops| - 1], now), [ops[|ops| - 1]], now)
  }

  function InRangeOf(ops: seq<Op>): (r: seq<Op>)
    ensures forall op :: op in r <==> op in ops && op.InRange()
  {
    if ops == [] then []
    else
      assert ops == ops[..|ops| - 1] + [ops[|ops| - 1]];
      InRangeOf(ops[..|ops| - 1]) + if ops[|ops| - 1].InRange() then [ops[|ops| - 1]] else []
  }

  lemma {:induction false} OneByOneAppliesTheStorable(jobs: Jobs, ops: seq<Op>, now: Instant)
    ensures OneByOne(jobs, ops, now) == ApplyAll(jobs, InRangeOf(ops), now)
  {
    if ops != [] {
      var n := |ops| - 1;
      OneByOneAppliesTheStorable(jobs, ops[..n], now);
      OneEntryBatch(OneByOne(jobs, ops[..n], now), ops[n], now);
      var before := InRangeOf(ops[..n]);
      assert (before + [ops[n]])[..|before|] == before;
      if !ops[n].InRange() { assert InRangeOf(ops) == before; }
    }
  }

  lemma OneEntryBatch(jobs: Jobs, op: Op, now: Instant)
    ensures Batch(jobs, [op], now) == if op.InRange() then ApplyOne(jobs, op, now) else jobs
  {
    assert [op][..0] == [];
    assert op in [op];
    assert ApplyAll(jobs, [], now) == jobs;
  }

  function GroupIfStorable(ops: seq<Op>, k: Kind): seq<Op> {
    if AllInRange(OfKind(ops, k)) then OfKind(ops, k) else []
  }

  function Grouped(ops: seq<Op>): seq<Op> {
    GroupIfStorable(ops, Completes) + GroupIfStorable(ops, Retries) + GroupIfStorable(ops, Cancels)
    + GroupIfStorable(ops, Kills) + GroupIfStorable(ops, Snoozes)
  }

  lemma FlushAppliesTheGroups(jobs: Jobs, ops: seq<Op>, now: Instant)
    ensures FlushAll(jobs, ops, now) == ApplyAll(jobs, Grouped(ops), now)
  {
    var a, b, c, d, e := GroupIfStorable(ops, Completes), GroupIfStorable(ops, Retries),
      GroupIfStorable(ops, Cancels), GroupIfStorable(ops, Kills), GroupIfStorable(ops, Snoozes);
    ApplyAllConcat(jobs, a, b, now);
    ApplyAllConcat(jobs, a + b, c, now);
    ApplyAllConcat(jobs, a + b + c, d, now);
    ApplyAllConcat(jobs, a + b + c + d, e, now);
  }

  lemma InGrouped(ops: seq<Op>, op: Op)
    ensures op in Grouped(ops) <==> op in ops && AllInRange(OfKind(ops, KindOf(op)))
    ensures op in Grouped(ops) ==> op.InRange()
  {
    assert forall k :: op in GroupIfStorable(ops, k) ==> k == KindOf(op);
  }

  /** The calls of this kind lose nothing: every instant is storable, or what is storable beside one
      that is not has been superseded anyway. */
  predicate NothingSpoilt(jobs: Jobs, ops: seq<Op>, k: Kind) {
    AllInRange(OfKind(ops, k)) || forall op :: op in OfKind(ops, k) && op.InRange() ==> !Live(jobs, op.token)
  }

  /** A buffer with one operation per token may be regrouped freely, unless an unstorable instant
      spoils a live operation of its own kind; then and only then does grouping lose something. */
  lemma FlushEqualsOneByOne(jobs: Jobs, ops: seq<Op>, now: Instant)
    requires OneOpPerToken(ops)
    ensures FlushAll(jobs, ops, now) == OneByOne(jobs, ops, now)
      <==> NothingSpoilt(jobs, ops, Retries) && NothingSpoilt(jobs, ops, Snoozes)
  {
    FlushAppliesTheGroups(jobs, ops, now);
    OneByOneAppliesTheStorable(jobs, ops, now);
    if NothingSpoilt(jobs, ops, Retries) && NothingSpoilt(jobs, ops, Snoozes) {
      GroupingIsFree(jobs, ops, now);
    } else {
      GroupingLoses(jobs, ops, now, if NothingSpoilt(jobs, ops, Retries) then Snoozes else Retries);
    }
  }

  lemma GroupingIsFree(jobs: Jobs, ops: seq<Op>, now: Instant)
    requires OneOpPerToken(ops) && NothingSpoilt(jobs, ops, Retries) && NothingSpoilt(jobs, ops, Snoozes)
    ensures ApplyAll(jobs, Grouped(ops), now) == ApplyAll(jobs, InRangeOf(ops), now)
  {
    var groups, all := Grouped(ops), InRangeOf(ops);
    forall op | op in groups ensures op in ops && op in all { InGrouped(ops, op); }
    forall op | op in all && Live(jobs, op.token) ensures op in groups {
      InGrouped(ops, op);
      assert NothingSpoilt(jobs, ops, KindOf(op));
    }
    SameLiveOps(jobs, groups, all, now);
  }

  lemma GroupingLoses(jobs: Jobs, ops: seq<Op>, now: Instant, k: Kind)
    requires OneOpPerToken(ops) && !NothingSpoilt(jobs, ops, k)
    ensures ApplyAll(jobs, Grouped(ops), now) != ApplyAll(jobs, InRangeOf(ops), now)
  {
    var groups, all := Grouped(ops), InRangeOf(ops);
    forall op | op in groups ensures op in ops && op in all { InGrouped(ops, op); }
    var op :| op in OfKind(ops, k) && op.InRange() && Live(jobs, op.token);
    InGrouped(ops, op);
    SpoiltMakesADifference(jobs, groups, all, now, op);
  }

  lemma SameLiveOps(jobs: Jobs, a: seq<Op>, b: seq<Op>, now: Instant)
    requires OneOpPerToken(a) && OneOpPerToken(b)
    requires forall op :: op in a ==> op in b
    requires forall op :: op in b && Live(jobs, op.token) ==> op in a
    ensures ApplyAll(jobs, a, now) == ApplyAll(jobs, b, now)
  {
    OrderIsIrrelevant(jobs, a, now);
    OrderIsIrrelevant(jobs, b, now);
    forall id | id in jobs ensures ApplyAll(jobs, a, now)[id] == ApplyAll(jobs, b, now)[id] {
      if op :| op in b && op.token.id == id && Live(jobs, op.token) {
        assert op in a;
      }
    }
  }

  lemma SpoiltMakesADifference(jobs: Jobs, a: seq<Op>, b: seq<Op>, now: Instant, op: Op)
    requires OneOpPerToken(a) && OneOpPerToken(b) && op in b && op !in a && Live(jobs, op.token)
    requires forall o :: o in a ==> o in b
    ensures ApplyAll(jobs, a, now) != ApplyAll(jobs, b, now)
  {
    OrderIsIrrelevant(jobs, a, now);
    OrderIsIrrelevant(jobs, b, now);
    var id := op.token.id;
    forall o | o in a && o.token.id == id ensures !Live(jobs, o.token) {
      assert Live(jobs, o.token) ==> o.token == op.token;
    }
    assert ApplyAll(jobs, a, now)[id].state == Running;
    assert ApplyAll(jobs, b, now)[id].state != Running;
  }

  /** The executor meets the condition on tokens: in every reachable state, any buffer of operations
      that executions ended with has one operation per token. */
  lemma BuffersAreFlushable(ws: seq<World>, ls: seq<Label>, i: nat, buf: seq<Op>)
    requires IsRun(ws, ls) && i < |ws|
    requires forall op :: op in buf ==> op.token in ws[i].ops && ws[i].ops[op.token] == op
    requires AllInRange(buf)
    ensures forall now :: FlushAll(ws[i].jobs, buf, now) == OneByOne(ws[i].jobs, buf, now)
  {
    forall now ensures FlushAll(ws[i].jobs, buf, now) == OneByOne(ws[i].jobs, buf, now) {
      FlushEqualsOneByOne(ws[i].jobs, buf, now);
    }
  }

  // ---------- Several outcomes of one execution ----------

  /** Where a flush sends the operations of a kind. */
  function Turn(k: Kind): nat {
    match k
    case Completes => 0
    case Retries => 1
    case Cancels => 2
    case Kills => 3
    case Snoozes => 4
  }

  /** Operation i is the one under its token that a flush sends first. */
  ghost predicate SentFirst(ops: seq<Op>, i: nat) {
    i < |ops| && forall k :: 0 <= k < |ops| && ops[k].token == ops[i].token && k != i ==>
      Turn(KindOf(ops[i])) < Turn(KindOf(ops[k])) || (KindOf(ops[i]) == KindOf(ops[k]) && i < k)
  }

  lemma GroupOfOthers(jobs: Jobs, group: seq<Op>, now: Instant, t: Token)
    requires t.id in jobs && (Live(jobs, t) ==> forall op :: op in group ==> op.token != t)
    requires Live(jobs, t) || jobs[t.id].state != Running
    ensures t.id in Batch(jobs, group, now) && Batch(jobs, group, now)[t.id] == jobs[t.id]
  {
    FirstLiveEntryWins(jobs, group, now);
    forall i | Wins(jobs, group, i) ensures group[i].token.id != t.id {
      assert group[i] in group;
    }
  }

  lemma GroupOfTheFirst(jobs: Jobs, group: seq<Op>, now: Instant, j: nat)
    requires AllInRange(group) && Wins(jobs, group, j)
    ensures group[j].token.id in Batch(jobs, group, now)
    ensures Batch(jobs, group, now)[group[j].token.id] == Settle(jobs[group[j].token.id], group[j], now)
  {
    FirstLiveEntryWins(jobs, group, now);
  }

  /** Among the operations of its kind, one that comes first under its token still does. */
  lemma {:induction false} FirstInItsGroup(ops: seq<Op>, i: nat, n: nat, k: Kind) returns (j: nat)
    requires i < n <= |ops| && KindOf(ops[i]) == k
    requires forall m :: 0 <= m < i && KindOf(ops[m]) == k ==> ops[m].token != ops[i].token
    ensures j < |OfKind(ops[..n], k)| && OfKind(ops[..n], k)[j] == ops[i]
    ensures forall m :: 0 <= m < j ==> OfKind(ops[..n], k)[m].token != ops[i].token
  {
    assert ops[..n][..n - 1] == ops[..n - 1] && ops[..n][n - 1] == ops[n - 1];
    if i < n - 1 {
      j := FirstInItsGroup(ops, i, n - 1, k);
    } else {
      var before := OfKind(ops[..n - 1], k);
      j := |before|;
      forall m | 0 <= m < j ensures before[m].token != ops[i].token {
        assert before[m] in before;
      }
    }
  }

  /** The row of operation i after the first n groups. */
  ghost predicate AfterTurns(jobs: Jobs, now: Instant, ops: seq<Op>, i: nat, after: Jobs, n: nat)
    requires i < |ops|
  {
    var id := ops[i].token.id;
    && id in jobs && id in after
    && after[id] == if Turn(KindOf(ops[i])) < n then Settle(jobs[id], ops[i], now) else jobs[id]
  }

  lemma OneTurn(jobs: Jobs, now: Instant, ops: seq<Op>, i: nat, after: Jobs, k: Kind, n: nat, m: nat)
    returns (next: Jobs)
    requires n == Turn(k) && m == n + 1
    requires SentFirst(ops, i) && Live(jobs, ops[i].token) && AllInRange(OfKind(ops, KindOf(ops[i])))
    requires AfterTurns(jobs, now, ops, i, after, n)
    ensures next == Batch(after, OfKind(ops, k), now) && AfterTurns(jobs, now, ops, i, next, m)
  {
    next := Batch(after, OfKind(ops, k), now);
    var t := ops[i].token;
    if k == KindOf(ops[i]) {
      assert ops[..|ops|] == ops;
      var j := FirstInItsGroup(ops, i, |ops|, k);
      GroupOfTheFirst(after, OfKind(ops, k), now, j);
    } else {
      if Turn(k) < Turn(KindOf(ops[i])) {
        forall op | op in OfKind(ops, k) ensures op.token != t {
          var m :| 0 <= m < |ops| && ops[m] == op;
        }
      }
      GroupOfOthers(after, OfKind(ops, k), now, t);
    }
  }

  lemma ThreeTurns(jobs: Jobs, now: Instant, ops: seq<Op>, i: nat) returns (a: Jobs, b: Jobs, c: Jobs)
    requires SentFirst(ops, i) && Live(jobs, ops[i].token) && AllInRange(OfKind(ops, KindOf(ops[i])))
    ensures a == Batch(jobs, OfKind(ops, Completes), now) && b == Batch(a, OfKind(ops, Retries), now)
    ensures c == Batch(b, OfKind(ops, Cancels), now) && AfterTurns(jobs, now, ops, i, c, 3)
  {
    a := OneTurn(jobs, now, ops, i, jobs, Completes, 0, 1);
    b := OneTurn(jobs, now, ops, i, a, Retries, 1, 2);
    c := OneTurn(jobs, now, ops, i, b, Cancels, 2, 3);
  }

  lemma TwoTurns(jobs: Jobs, now: Instant, ops: seq<Op>, i: nat, c: Jobs) returns (d: Jobs, e: Jobs)
    requires SentFirst(ops, i) && Live(jobs, ops[i].token) && AllInRange(OfKind(ops, KindOf(ops[i])))
    requires AfterTurns(jobs, now, ops, i, c, 3)
    ensures d == Batch(c, OfKind(ops, Kills), now) && e == Batch(d, OfKind(ops, Snoozes), now)
    ensures AfterTurns(jobs, now, ops, i, e, 5)
  {
    d := OneTurn(jobs, now, ops, i, c, Kills, 3, 4);
    e := OneTurn(jobs, now, ops, i, d, Snoozes, 4, 5);
  }

  /** When a buffer holds several outcomes of one execution, the one that is stored is a completion if there is
      one, else a retry, a cancellation, a death or a snooze, in this order, and among equals the one pushed
      first. */
  lemma FlushSettlesWithTheFirst(jobs: Jobs, ops: seq<Op>, now: Instant, i: nat) returns (end: Jobs)
    requires SentFirst(ops, i) && Live(jobs, ops[i].token) && AllInRange(OfKind(ops, KindOf(ops[i])))
    ensures end == FlushAll(jobs, ops, now) && ops[i].token.id in end
    ensures end[ops[i].token.id] == Settle(jobs[ops[i].token.id], ops[i], now)
  {
    var a, b, c := ThreeTurns(jobs, now, ops, i);
    var d; d, end := TwoTurns(jobs, now, ops, i, c);
    assert Turn(KindOf(ops[i])) < 5;
  }
}
