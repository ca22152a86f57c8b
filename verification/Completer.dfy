/** The completer: a channel, a buffer, and a loop that hands batches to the backend and retries calls
that fail.

Whatever depends on timing, on other goroutines or on the network is chosen arbitrarily inside the
methods: which ready case a select takes, whether a call or its reply is lost, when the completer's
lifetime ends.
*/
module Completer {
  import opened Instants
  import opened Rows
  import opened Store
  import opened MemoryBackend
  import opened Flushing

  const BACKOFFS: nat := 5

  /** What can happen to one call: it is answered, it never reaches the store, or its reply is lost. */
  datatype Fate = Answered | CallLost | ReplyLost

  function BatchIf(jobs: Jobs, ops: seq<Op>, now: Instant, reached: bool): Jobs {
    if reached then Batch(jobs, ops, now) else jobs
  }

  /** Which of the five calls of a flush reached the store. */
  datatype Reach = Reach(completes: bool, retries: bool, cancels: bool, kills: bool, snoozes: bool) {
    function For(k: Kind): bool {
      match k
      case Completes => completes
      case Retries => retries
      case Cancels => cancels
      case Kills => kills
      case Snoozes => snoozes
    }
  }

  /** A flush in which exactly these calls reached the store. */
  function FlushReaching(jobs: Jobs, ops: seq<Op>, now: Instant, reached: Reach): Jobs {
    var a := BatchIf(jobs, OfKind(ops, Completes), now, reached.completes);
    var b := BatchIf(a, OfKind(ops, Retries), now, reached.retries);
    var c := BatchIf(b, OfKind(ops, Cancels), now, reached.cancels);
    var d := BatchIf(c, OfKind(ops, Kills), now, reached.kills);
    BatchIf(d, OfKind(ops, Snoozes), now, reached.snoozes)
  }

  lemma {:induction false} CountOfKind(ops: seq<Op>, k: Kind, x: Op)
    ensures multiset(OfKind(ops, k))[x] == if KindOf(x) == k then multiset(ops)[x] else 0
  {
    if ops != [] {
      var n := |ops| - 1;
      CountOfKind(ops[..n], k, x);
      assert ops == ops[..n] + [ops[n]];
    }
  }

  /** Grouping neither loses nor repeats an operation. */
  lemma GroupsPartition(
      ops: seq<Op>, a: multiset<Op>, b: multiset<Op>, c: multiset<Op>, d: multiset<Op>, e: multiset<Op>)
    requires a == multiset(OfKind(ops, Completes)) && b == multiset(OfKind(ops, Retries))
    requires c == multiset(OfKind(ops, Cancels)) && d == multiset(OfKind(ops, Kills))
    requires e == multiset(OfKind(ops, Snoozes))
    ensures a + b + c + d + e == multiset(ops)
  {
    forall x: Op ensures (a + b + c + d + e)[x] == multiset(ops)[x] {
      CountOfKind(ops, Completes, x);
      CountOfKind(ops, Retries, x);
      CountOfKind(ops, Cancels, x);
      CountOfKind(ops, Kills, x);
      CountOfKind(ops, Snoozes, x);
    }
  }

  /** The five groups, each in buffer order. */
  method Split(ops: seq<Op>)
    returns (completes: seq<Op>, retries: seq<Op>, cancels: seq<Op>, kills: seq<Op>, snoozes: seq<Op>)
    ensures completes == OfKind(ops, Completes) && retries == OfKind(ops, Retries) && cancels == OfKind(ops, Cancels)
    ensures kills == OfKind(ops, Kills) && snoozes == OfKind(ops, Snoozes)
  {
    completes, retries, cancels, kills, snoozes := [], [], [], [], [];
    for i := 0 to |ops|
      invariant completes == OfKind(ops[..i], Completes) && retries == OfKind(ops[..i], Retries)
      invariant cancels == OfKind(ops[..i], Cancels) && kills == OfKind(ops[..i], Kills)
      invariant snoozes == OfKind(ops[..i], Snoozes)
    {
      assert ops[..i + 1][..i] == ops[..i];
      match ops[i]
      case Complete(_, _) => completes := completes + [ops[i]];
      case Retry(_, _, _, _) => retries := retries + [ops[i]];
      case Cancel(_, _, _) => cancels := cancels + [ops[i]];
      case Kill(_, _, _) => kills := kills + [ops[i]];
      case Snooze(_, _, _) => snoozes := snoozes + [ops[i]];
    }
    assert ops[..|ops|] == ops;
  }

  // ---------- What has been sent ----------

  /** Some call of these reached the store. */
  predicate Arrived(fates: seq<Fate>) {
    fates != [] && (fates[|fates| - 1] != CallLost || Arrived(fates[..|fates| - 1]))
  }

  /** One group of operations handed to the backend: under which clock, what became of each try, whether any of
      them reached the store, and whether the last was answered as done. */
  datatype Sending = Sending(ops: seq<Op>, kind: Kind, now: Instant, fates: seq<Fate>, reached: bool, ok: bool) {
    /** Groups are of one kind and are tried one to six times. A storable group is done with the first answer,
        stale entries or not; one that is not storable is never answered as done. */
    ghost predicate Sound() {
      && (forall op :: op in ops ==> KindOf(op) == kind)
      && 1 <= |fates| <= 6 && (reached <==> Arrived(fates))
      && (ok <==> AllInRange(ops) && fates[|fates| - 1] == Answered)
      && (AllInRange(ops) ==> Answered !in fates[..|fates| - 1])
    }
  }

  /** What the store holds after these groups, however often each of them reached it. */
  function Replay(jobs: Jobs, ss: seq<Sending>): Jobs {
    if ss == [] then jobs
    else
      var s := ss[|ss| - 1];
      BatchIf(Replay(jobs, ss[..|ss| - 1]), s.ops, s.now, s.reached)
  }

  function Sent(ss: seq<Sending>): multiset<Op> {
    if ss == [] then multiset{} else Sent(ss[..|ss| - 1]) + multiset(ss[|ss| - 1].ops)
  }

  function Delivered(ss: seq<Sending>): multiset<Op> {
    if ss == [] then multiset{}
    else Delivered(ss[..|ss| - 1]) + if ss[|ss| - 1].ok then multiset(ss[|ss| - 1].ops) else multiset{}
  }

  function GivenUp(ss: seq<Sending>): multiset<Op> {
    if ss == [] then multiset{}
    else GivenUp(ss[..|ss| - 1]) + if ss[|ss| - 1].ok then multiset{} else multiset(ss[|ss| - 1].ops)
  }

  function Tries(ss: seq<Sending>): nat {
    if ss == [] then 0 else Tries(ss[..|ss| - 1]) + |ss[|ss| - 1].fates|
  }

  lemma {:induction false} SentIsDeliveredOrGivenUp(ss: seq<Sending>)
    ensures Sent(ss) == Delivered(ss) + GivenUp(ss)
  {
    if ss != [] { SentIsDeliveredOrGivenUp(ss[..|ss| - 1]); }
  }

  lemma {:induction false} SendingsConcat(a: seq<Sending>, b: seq<Sending>, jobs: Jobs)
    ensures Replay(jobs, a + b) == Replay(Replay(jobs, a), b)
    ensures Sent(a + b) == Sent(a) + Sent(b) && GivenUp(a + b) == GivenUp(a) + GivenUp(b)
    ensures Delivered(a + b) == Delivered(a) + Delivered(b) && Tries(a + b) == Tries(a) + Tries(b)
  {
    if b == [] {
      assert a + b == a;
    } else {
      var n := |b| - 1;
      assert (a + b)[..|a + b| - 1] == a + b[..n];
      SendingsConcat(a, b[..n], jobs);
    }
  }

  /** The store holds what these groups left there. */
  ghost predicate Applied(more: seq<Sending>, was: Jobs, jobs: Jobs) {
    (forall s :: s in more ==> s.Sound()) && jobs == Replay(was, more)
  }

  /** What these groups did: to the store, to the operations, to the number of calls and to the counter of
      dropped operations. */
  ghost predicate Did(more: seq<Sending>, was: Jobs, jobs: Jobs, ops: multiset<Op>, calls: int, dropped: int) {
    && Applied(more, was, jobs) && ops == Sent(more)
    && calls == Tries(more) && dropped == |GivenUp(more)|
  }

  lemma DidBoth(a: seq<Sending>, b: seq<Sending>, was: Jobs, mid: Jobs, jobs: Jobs, opsA: multiset<Op>,
      opsB: multiset<Op>, callsA: int, callsB: int, droppedA: int, droppedB: int)
    requires Did(a, was, mid, opsA, callsA, droppedA) && Did(b, mid, jobs, opsB, callsB, droppedB)
    ensures Did(a + b, was, jobs, opsA + opsB, callsA + callsB, droppedA + droppedB)
  {
    SendingsConcat(a, b, was);
  }

  lemma DidFive(a: seq<Sending>, b: seq<Sending>, c: seq<Sending>, d: seq<Sending>, e: seq<Sending>,
      ja: Jobs, jb: Jobs, jc: Jobs, jd: Jobs, je: Jobs, jf: Jobs,
      oa: multiset<Op>, ob: multiset<Op>, oc: multiset<Op>, od: multiset<Op>, oe: multiset<Op>,
      calls: seq<int>, dropped: seq<int>)
    requires |calls| == |dropped| == 6
    requires Did(a, ja, jb, oa, calls[1] - calls[0], dropped[1] - dropped[0])
    requires Did(b, jb, jc, ob, calls[2] - calls[1], dropped[2] - dropped[1])
    requires Did(c, jc, jd, oc, calls[3] - calls[2], dropped[3] - dropped[2])
    requires Did(d, jd, je, od, calls[4] - calls[3], dropped[4] - dropped[3])
    requires Did(e, je, jf, oe, calls[5] - calls[4], dropped[5] - dropped[4])
    ensures Did(a + b + c + d + e, ja, jf, oa + ob + oc + od + oe, calls[5] - calls[0], dropped[5] - dropped[0])
  {
    DidBoth(a, b, ja, jb, jc, oa, ob,
            calls[1] - calls[0], calls[2] - calls[1], dropped[1] - dropped[0], dropped[2] - dropped[1]);
    DidBoth(a + b, c, ja, jc, jd, oa + ob, oc,
            calls[2] - calls[0], calls[3] - calls[2], dropped[2] - dropped[0], dropped[3] - dropped[2]);
    DidBoth(a + b + c, d, ja, jd, je, oa + ob + oc, od,
            calls[3] - calls[0], calls[4] - calls[3], dropped[3] - dropped[0], dropped[4] - dropped[3]);
    DidBoth(a + b + c + d, e, ja, je, jf, oa + ob + oc + od, oe,
            calls[4] - calls[0], calls[5] - calls[4], dropped[4] - dropped[0], dropped[5] - dropped[4]);
  }

  lemma DidOne(s: Sending, was: Jobs, jobs: Jobs)
    requires s.Sound() && jobs == BatchIf(was, s.ops, s.now, s.reached)
    ensures Did([s], was, jobs, multiset(s.ops), |s.fates|, if s.ok then 0 else |s.ops|)
  {
    assert [s][..0] == [];
  }

  /** A delivered operation has been applied or superseded: its token is spent in the store from then on. */
  lemma {:induction false} DeliveredIsSpent(more: seq<Sending>, was: Jobs, op: Op)
    requires op in Delivered(more) && forall s :: s in more ==> s.Sound()
    ensures !Live(Replay(was, more), op.token)
  {
    var n := |more| - 1;
    var before, s := Replay(was, more[..n]), more[n];
    assert s in more && s.Sound();
    if s.ok && op in multiset(s.ops) {
      BatchUsesUpItsTokens(before, s.ops, s.now, op);
    } else {
      DeliveredIsSpent(more[..n], was, op);
      BatchRevivesNothing(before, s.ops, s.now, op.token);
    }
  }

  /** The books of a completer: every pushed operation is in exactly one place, channel, buffer, a group that
      was sent, or refused; the counter counts those that were refused or given up; every call was made for
      some group. */
  ghost predicate Books(
      pushed: multiset<Op>, queued: multiset<Op>, buffered: multiset<Op>, sent: seq<Sending>,
      refused: multiset<Op>, dropped: int, calls: int)
  {
    && pushed == queued + buffered + (Sent(sent) + refused)
    && dropped == |GivenUp(sent)| + |refused|
    && calls == Tries(sent)
  }

  lemma BooksAfterSending(
      pushed: multiset<Op>, queued: multiset<Op>, buffered: multiset<Op>, sent: seq<Sending>,
      refused: multiset<Op>, dropped: int, calls: int, more: seq<Sending>, was: Jobs, jobs: Jobs, nowDropped: int,
      nowCalls: int)
    requires Books(pushed, queued, buffered, sent, refused, dropped, calls)
    requires Did(more, was, jobs, buffered, nowCalls - calls, nowDropped - dropped)
    ensures Books(pushed, queued, multiset{}, sent + more, refused, nowDropped, nowCalls)
  {
    SendingsConcat(sent, more, was);
  }

  lemma BooksAfterReceiving(
      pushed: multiset<Op>, ch: seq<Op>, buf: seq<Op>, sent: seq<Sending>, refused: multiset<Op>, dropped: int,
      calls: int)
    requires ch != [] && Books(pushed, multiset(ch), multiset(buf), sent, refused, dropped, calls)
    ensures Books(pushed, multiset(ch[1..]), multiset(buf + [ch[0]]), sent, refused, dropped, calls)
  {
    assert ch == [ch[0]] + ch[1..];
  }

  lemma Regroup<T>(a: seq<T>, b: seq<T>, c: seq<T>)
    ensures a + (b + c) == (a + b) + c
  {
  }

  lemma RegroupFive<T>(s: seq<T>, a: seq<T>, b: seq<T>, c: seq<T>, d: seq<T>, e: seq<T>)
    ensures s + (a + b + c + d + e) == s + a + b + c + d + e
  {
    Regroup(s, a, b);
    Regroup(s, a + b, c);
    Regroup(s, a + b + c, d);
    Regroup(s, a + b + c + d, e);
  }

  /** Groups that were sent one after the other, and the operations that waited before and after. */
  ghost predicate Handled(
      more: seq<Sending>, was: Jobs, jobs: Jobs, waited: multiset<Op>, wait: multiset<Op>)
  {
    Applied(more, was, jobs) && Sent(more) + wait == waited
  }

  lemma HandledBoth(
      a: seq<Sending>, b: seq<Sending>, was: Jobs, mid: Jobs, jobs: Jobs, before: multiset<Op>,
      between: multiset<Op>, after: multiset<Op>)
    requires Handled(a, was, mid, before, between) && Handled(b, mid, jobs, between, after)
    ensures Handled(a + b, was, jobs, before, after)
  {
    SendingsConcat(a, b, was);
  }

  lemma HandledIsSpent(more: seq<Sending>, was: Jobs, jobs: Jobs, waited: multiset<Op>, wait: multiset<Op>)
    requires Handled(more, was, jobs, waited, wait)
    ensures forall op :: op in Delivered(more) ==> !Live(jobs, op.token)
  {
    forall op | op in Delivered(more) ensures !Live(jobs, op.token) {
      DeliveredIsSpent(more, was, op);
    }
  }

  lemma AllHandled(
      first: seq<Sending>, last: seq<Sending>, was: Jobs, mid: Jobs, jobs: Jobs, before: multiset<Op>,
      between: multiset<Op>, after: multiset<Op>, sent: seq<Sending>)
    requires Handled(first, was, mid, before, between) && Handled(last, mid, jobs, between, after)
    requires after == multiset{}
    ensures Handled(first + last, was, jobs, before, multiset{}) && sent + (first + last) == (sent + first) + last
    ensures forall op :: op in Delivered(first + last) ==> !Live(jobs, op.token)
  {
    HandledBoth(first, last, was, mid, jobs, before, between, after);
    Regroup(sent, first, last);
    HandledIsSpent(first + last, was, jobs, before, after);
  }

  lemma FlushHandles(
      more: seq<Sending>, was: Jobs, jobs: Jobs, queued: multiset<Op>, buffered: multiset<Op>, n: int, m: int)
    requires Did(more, was, jobs, buffered, n, m)
    ensures Handled(more, was, jobs, queued + buffered, queued + multiset{})
  {
  }

  lemma NothingHandled(jobs: Jobs, queued: multiset<Op>)
    ensures Handled([], jobs, jobs, queued, queued)
  {
  }

  class Completer {
    const backend: Backend
    const flushSize: nat
    var ch: seq<Op>
    var closed: bool
    var buf: seq<Op>
    var dropped: int
    ghost var pushed: multiset<Op>
    ghost var refused: multiset<Op> // operations that found no room in the channel
    ghost var sent: seq<Sending>
    var calls: nat                  // backend calls begun
    var deadline: nat               // how many calls are begun when the lifetime ends, once Stop is under way

    ghost predicate Valid()
      reads this, backend
    {
      Kept() && |buf| < flushSize
    }

    /** The books are in order, whether or not the buffer is full. */
    ghost predicate Kept()
      reads this, backend
    {
      && backend.Valid() && 0 < flushSize && |ch| <= 4 * flushSize
      && Books(pushed, multiset(ch), multiset(buf), sent, refused, dropped, calls)
    }

    /** The lifetime is over: only Stop ends it, when the time to drain is up. */
    predicate Over()
      reads this
    {
      closed && deadline <= calls
    }

    constructor (backend: Backend, flushSize: nat)
      requires backend.Valid() && 0 < flushSize
      ensures Valid() && this.backend == backend && this.flushSize == flushSize
      ensures ch == [] && buf == [] && dropped == 0 && !closed && pushed == multiset{} && sent == []
    {
      this.backend, this.flushSize := backend, flushSize;
      ch, closed, buf, dropped := [], false, [], 0;
      pushed, refused, sent, calls, deadline := multiset{}, multiset{}, [], 0, 0;
    }

    /** One backend call of the kind the operations have, unless it is lost on the way. */
    method Send(ops: seq<Op>, k: Kind, now: Instant, lost: bool) returns (err: FinalizeError)
      requires backend.Valid() && forall op :: op in ops ==> KindOf(op) == k
      modifies this`calls, backend`jobs
      ensures backend.Valid() && calls == old(calls) + 1
      ensures backend.jobs == if lost then old(backend.jobs) else Batch(old(backend.jobs), ops, now)
      ensures !lost ==> err == BatchError(old(backend.jobs), ops, now)
    {
      calls := calls + 1;
      if lost { return OutOfRange; }
      match k
      case Completes => err := backend.Complete(ops, now);
      case Retries => err := backend.Retry(ops, now);
      case Cancels => err := backend.Cancel(ops, now);
      case Kills => err := backend.Kill(ops, now);
      case Snoozes => err := backend.Snooze(ops, now);
    }

    /** One try. It is done when it is answered without error or with stale entries only. */
    method Try(ops: seq<Op>, k: Kind, now: Instant) returns (done: bool, ghost fate: Fate)
      requires backend.Valid() && forall op :: op in ops ==> KindOf(op) == k
      modifies this`calls, backend`jobs
      ensures backend.Valid() && calls == old(calls) + 1
      ensures backend.jobs == BatchIf(old(backend.jobs), ops, now, fate != CallLost)
      ensures done <==> AllInRange(ops) && fate == Answered
    {
      var what: Fate := *;
      fate := what;
      var err := Send(ops, k, now, what == CallLost);
      done := what == Answered && (err == NoError || err.Stale?);
    }

    /** Retries a call until it is answered without error or with stale entries only, six times unless the
        lifetime ends first. However often it reached the store, the store shows it once or not at all. */
    method Attempt(ops: seq<Op>, k: Kind, now: Instant) returns (ok: bool, ghost s: Sending)
      requires backend.Valid() && forall op :: op in ops ==> KindOf(op) == k
      modifies this`calls, backend`jobs
      ensures backend.Valid() && s.Sound() && s.ops == ops && s.kind == k && s.now == now && s.ok == ok
      ensures calls == old(calls) + |s.fates| && (Over() || ok || |s.fates| == 6)
      ensures old(Over()) ==> |s.fates| == 1
      ensures backend.jobs == BatchIf(old(backend.jobs), ops, now, s.reached)
    {
      var i := 0;
      s := Sending(ops, k, now, [], false, false);
      while true
        invariant 0 <= i <= BACKOFFS && calls == old(calls) + i && (i > 0 ==> !old(Over()))
        invariant backend.Valid() && Trying(s, ops, k, now, i)
        invariant backend.jobs == BatchIf(old(backend.jobs), ops, now, s.reached)
        decreases BACKOFFS - i
      {
        ghost var fate;
        ok, fate := Try(ops, k, now);
        s := OneMoreTry(old(backend.jobs), s, i, fate, ok);
        i := i + 1;
        if ok || Over() || i > BACKOFFS { return; }
      }
    }

    /** The record of i tries that were not answered as done. */
    static ghost predicate Trying(s: Sending, ops: seq<Op>, k: Kind, now: Instant, i: int) {
      && s.ops == ops && s.kind == k && s.now == now && |s.fates| == i && !s.ok && s.reached == Arrived(s.fates)
      && (AllInRange(ops) ==> Answered !in s.fates)
    }

    static lemma OneMoreTry(was: Jobs, s: Sending, i: nat, fate: Fate, ok: bool) returns (next: Sending)
      requires Trying(s, s.ops, s.kind, s.now, i) && i <= 5 && forall op :: op in s.ops ==> KindOf(op) == s.kind
      requires ok <==> AllInRange(s.ops) && fate == Answered
      ensures next.ops == s.ops && next.kind == s.kind && next.now == s.now && next.ok == ok && |next.fates| == i + 1
      ensures next.Sound() && (!ok ==> Trying(next, s.ops, s.kind, s.now, i + 1))
      ensures BatchIf(BatchIf(was, s.ops, s.now, s.reached), s.ops, s.now, fate != CallLost)
        == BatchIf(was, s.ops, s.now, next.reached)
    {
      next := s.(fates := s.fates + [fate], reached := Arrived(s.fates + [fate]), ok := ok);
      assert next.fates[..|next.fates| - 1] == s.fates;
      ReplayIsHarmless(was, s.ops, s.now, s.now);
    }

    /** Sends one group, if it is not empty, and counts its operations as dropped if it was given up. */
    method Call(ops: seq<Op>, k: Kind, now: Instant) returns (ghost more: seq<Sending>, ghost reached: bool)
      requires backend.Valid() && forall op :: op in ops ==> KindOf(op) == k
      modifies this`dropped, this`sent, this`calls, backend`jobs
      ensures backend.Valid() && sent == old(sent) + more
      ensures Did(more, old(backend.jobs), backend.jobs, multiset(ops), calls - old(calls), dropped - old(dropped))
      ensures backend.jobs == BatchIf(old(backend.jobs), ops, now, reached)
      ensures old(dropped) <= dropped && (dropped == old(dropped) ==> reached)
      ensures ops == [] ==> more == []
      ensures forall s :: s in more ==> s.ok || |s.fates| == 6 || Over()
    {
      if ops == [] {
        assert Batch(backend.jobs, ops, now) == backend.jobs;
        return [], true;
      }
      var ok; ghost var s;
      ok, s := Attempt(ops, k, now);
      DidOne(s, old(backend.jobs), backend.jobs);
      more, reached := [s], s.reached;
      sent := sent + more;
      if !ok { dropped := dropped + |ops|; }
    }

    /** The five calls of a flush, in their fixed order. */
    method CallAll(
        completes: seq<Op>, retries: seq<Op>, cancels: seq<Op>, kills: seq<Op>, snoozes: seq<Op>, now: Instant)
      returns (ghost more: seq<Sending>, ghost reached: Reach)
      requires backend.Valid()
      requires (forall op :: op in completes ==> op.Complete?) && (forall op :: op in retries ==> op.Retry?)
      requires (forall op :: op in cancels ==> op.Cancel?) && (forall op :: op in kills ==> op.Kill?)
      requires forall op :: op in snoozes ==> op.Snooze?
      modifies this`dropped, this`sent, this`calls, backend`jobs
      ensures backend.Valid() && sent == old(sent) + more
      ensures Did(more, old(backend.jobs), backend.jobs,
                  multiset(completes) + multiset(retries) + multiset(cancels) + multiset(kills) + multiset(snoozes),
                  calls - old(calls), dropped - old(dropped))
      ensures var a := BatchIf(old(backend.jobs), completes, now, reached.completes);
        var b := BatchIf(a, retries, now, reached.retries);
        var c := BatchIf(b, cancels, now, reached.cancels);
        var d := BatchIf(c, kills, now, reached.kills);
        backend.jobs == BatchIf(d, snoozes, now, reached.snoozes)
      ensures old(dropped) <= dropped
      ensures dropped == old(dropped) ==> reached == Reach(true, true, true, true, true)
    {
      ghost var ja, na, da := backend.jobs, calls, dropped;
      ghost var a, ra := Call(completes, Completes, now);
      ghost var jb, nb, db := backend.jobs, calls, dropped;
      ghost var b, rb := Call(retries, Retries, now);
      ghost var jc, nc, dc := backend.jobs, calls, dropped;
      ghost var c, rc := Call(cancels, Cancels, now);
      ghost var jd, nd, dd := backend.jobs, calls, dropped;
      ghost var d, rd := Call(kills, Kills, now);
      ghost var je, ne, de := backend.jobs, calls, dropped;
      ghost var e, re := Call(snoozes, Snoozes, now);
      DidFive(a, b, c, d, e, ja, jb, jc, jd, je, backend.jobs,
              multiset(completes), multiset(retries), multiset(cancels), multiset(kills), multiset(snoozes),
              [na, nb, nc, nd, ne, calls], [da, db, dc, dd, de, dropped]);
      RegroupFive(old(sent), a, b, c, d, e);
      more, reached := a + b + c + d + e, Reach(ra, rb, rc, rd, re);
    }

    /** Regroups by kind and sends one batch per kind under one reading of the clock. */
    method Flush(ops: seq<Op>, now: Instant) returns (ghost more: seq<Sending>, ghost reached: Reach)
      requires backend.Valid()
      modifies this`dropped, this`sent, this`calls, backend`jobs
      ensures backend.Valid() && sent == old(sent) + more
      ensures Did(more, old(backend.jobs), backend.jobs, multiset(ops), calls - old(calls), dropped - old(dropped))
      ensures backend.jobs == FlushReaching(old(backend.jobs), ops, now, reached)
      ensures old(dropped) <= dropped
      ensures dropped == old(dropped) ==> backend.jobs == FlushAll(old(backend.jobs), ops, now)
    {
      var completes, retries, cancels, kills, snoozes := Split(ops);
      GroupsPartition(
        ops, multiset(completes), multiset(retries), multiset(cancels), multiset(kills), multiset(snoozes));
      more, reached := CallAll(completes, retries, cancels, kills, snoozes, now);
    }

    method FlushBuffer(now: Instant) returns (ghost more: seq<Sending>)
      requires Kept()
      modifies this`buf, this`dropped, this`sent, this`calls, backend`jobs
      ensures Valid() && buf == [] && sent == old(sent) + more
      ensures Did(more, old(backend.jobs), backend.jobs, multiset(old(buf)), calls - old(calls), dropped - old(dropped))
      ensures dropped == old(dropped) ==> backend.jobs == FlushAll(old(backend.jobs), old(buf), now)
    {
      ghost var reached;
      more, reached := Flush(buf, now);
      BooksAfterSending(pushed, multiset(ch), multiset(buf), old(sent), refused, old(dropped), old(calls),
                        more, old(backend.jobs), backend.jobs, dropped, calls);
      buf := [];
    }

    /** What waits in the channel and in the buffer. */
    ghost function Queued(): multiset<Op>
      reads this
    {
      multiset(ch) + multiset(buf)
    }

    /** One turn of the loop while the channel is open: either an operation is received, and a full
        buffer flushed, or the timer fires and flushes what there is. */
    method Turn(now: Instant) returns (ghost more: seq<Sending>)
      requires Valid()
      modifies this`ch, this`buf, this`dropped, this`sent, this`calls, backend`jobs
      ensures Valid() && sent == old(sent) + more
      ensures Handled(more, old(backend.jobs), backend.jobs, old(Queued()), Queued())
      ensures ch == old(ch) || (old(ch) != [] && ch == old(ch)[1..])
    {
      var timerFirst: bool := *;
      more := [];
      if ch != [] && !timerFirst {
        more := Receive(now);
      } else if |buf| > 0 {
        more := Tick(now);
      }
    }

    /** The timer fires while there is something in the buffer. */
    method Tick(now: Instant) returns (ghost more: seq<Sending>)
      requires Valid()
      modifies this`buf, this`dropped, this`sent, this`calls, backend`jobs
      ensures Valid() && buf == [] && sent == old(sent) + more
      ensures Handled(more, old(backend.jobs), backend.jobs, old(Queued()), Queued())
    {
      more := FlushWaiting(now);
    }

    /** Whatever is in the buffer has been handled then; what waits in the channel still waits. */
    method FlushWaiting(now: Instant) returns (ghost more: seq<Sending>)
      requires Kept()
      modifies this`buf, this`dropped, this`sent, this`calls, backend`jobs
      ensures Valid() && buf == [] && sent == old(sent) + more
      ensures Handled(more, old(backend.jobs), backend.jobs, old(Queued()), Queued())
    {
      ghost var full, n, m := buf, calls, dropped;
      more := FlushBuffer(now);
      FlushHandles(more, old(backend.jobs), backend.jobs, multiset(ch), multiset(full), calls - n, dropped - m);
    }

    /** Takes one operation from the channel; a full buffer is flushed. */
    method Receive(now: Instant) returns (ghost more: seq<Sending>)
      requires Valid() && ch != []
      modifies this`ch, this`buf, this`dropped, this`sent, this`calls, backend`jobs
      ensures Valid() && ch == old(ch)[1..] && sent == old(sent) + more
      ensures Handled(more, old(backend.jobs), backend.jobs, old(Queued()), Queued())
      ensures if |old(buf)| + 1 < flushSize then buf == old(buf) + [old(ch)[0]] && more == [] else buf == []
    {
      TakeOne();
      more := FlushIfFull(now);
    }

    method FlushIfFull(now: Instant) returns (ghost more: seq<Sending>)
      requires Kept()
      modifies this`buf, this`dropped, this`sent, this`calls, backend`jobs
      ensures Valid() && sent == old(sent) + more
      ensures Handled(more, old(backend.jobs), backend.jobs, old(Queued()), Queued())
      ensures if |old(buf)| < flushSize then buf == old(buf) && more == [] else buf == []
    {
      if |buf| < flushSize {
        NothingHandled(backend.jobs, Queued());
        return [];
      }
      more := FlushWaiting(now);
    }

    /** The loop takes the oldest operation from the channel. */
    method TakeOne()
      requires Valid() && ch != []
      modifies this`ch, this`buf
      ensures Kept() && ch == old(ch)[1..] && buf == old(buf) + [old(ch)[0]] && Queued() == old(Queued())
    {
      BooksAfterReceiving(pushed, ch, buf, sent, refused, dropped, calls);
      OneReceived(ch, buf);
      buf := buf + [ch[0]];
      ch := ch[1..];
    }

    static lemma OneReceived(ch: seq<Op>, buf: seq<Op>)
      requires ch != []
      ensures multiset(ch[1..]) + multiset(buf + [ch[0]]) == multiset(ch) + multiset(buf)
    {
      assert ch == [ch[0]] + ch[1..];
    }

    /** Waits for room in the channel; when the lifetime ends or the wait is over first, drops. */
    method Push(op: Op, now: Instant) returns (ghost accepted: bool, ghost more: seq<Sending>)
      requires Valid() && !closed
      modifies this`ch, this`buf, this`dropped, this`pushed, this`refused, this`sent, this`calls, backend`jobs
      ensures Valid() && pushed == old(pushed) + multiset{op} && sent == old(sent) + more
      ensures Applied(more, old(backend.jobs), backend.jobs)
      ensures |old(ch)| < 4 * flushSize ==> accepted && ch == old(ch) + [op] && more == []
      ensures accepted ==> refused == old(refused) && (ch == old(ch) + [op] || ch == old(ch)[1..] + [op])
      ensures !accepted ==>
        refused == old(refused) + multiset{op} && dropped == old(dropped) + 1 && ch == old(ch) && more == []
    {
      if |ch| < 4 * flushSize {
        Enter(op);
        return true, [];
      }
      accepted, more := PushBlocked(op, now);
    }

    method PushBlocked(op: Op, now: Instant) returns (ghost accepted: bool, ghost more: seq<Sending>)
      requires Valid() && |ch| == 4 * flushSize
      modifies this`ch, this`buf, this`dropped, this`pushed, this`refused, this`sent, this`calls, backend`jobs
      ensures Valid() && pushed == old(pushed) + multiset{op} && sent == old(sent) + more
      ensures Applied(more, old(backend.jobs), backend.jobs)
      ensures accepted ==> refused == old(refused) && ch == old(ch)[1..] + [op]
      ensures !accepted ==>
        refused == old(refused) + multiset{op} && dropped == old(dropped) + 1 && ch == old(ch) && more == []
    {
      var room: bool := *;
      accepted, more := room, [];
      if room {
        more := MakeRoom(now);
        Enter(op);
      } else {
        Refuse(op);
      }
    }

    /** The loop takes an operation from the channel while somebody waits to push. */
    method MakeRoom(now: Instant) returns (ghost more: seq<Sending>)
      requires Valid() && ch != []
      modifies this`ch, this`buf, this`dropped, this`sent, this`calls, backend`jobs
      ensures Valid() && ch == old(ch)[1..] && sent == old(sent) + more
      ensures Applied(more, old(backend.jobs), backend.jobs)
    {
      more := Receive(now);
    }

    method Enter(op: Op)
      requires Valid() && |ch| < 4 * flushSize
      modifies this`ch, this`pushed
      ensures Valid() && ch == old(ch) + [op] && pushed == old(pushed) + multiset{op}
    {
      ch, pushed := ch + [op], pushed + multiset{op};
    }

    method Refuse(op: Op)
      requires Valid()
      modifies this`dropped, this`refused, this`pushed
      ensures Valid() && dropped == old(dropped) + 1 && refused == old(refused) + multiset{op}
      ensures pushed == old(pushed) + multiset{op}
    {
      dropped, refused, pushed := dropped + 1, refused + multiset{op}, pushed + multiset{op};
    }

    /** The loop once the channel is closed: it goes on until the channel is empty. */
    method Empty(now: Instant) returns (ghost more: seq<Sending>)
      requires Valid()
      modifies this`ch, this`buf, this`dropped, this`sent, this`calls, backend`jobs
      ensures Valid() && ch == [] && sent == old(sent) + more
      ensures Handled(more, old(backend.jobs), backend.jobs, old(Queued()), Queued())
    {
      more := [];
      while ch != []
        invariant Valid() && sent == old(sent) + more
        invariant Handled(more, old(backend.jobs), backend.jobs, old(Queued()), Queued())
        decreases |ch|, |buf|
      {
        ghost var mid, waiting := backend.jobs, Queued();
        ghost var next := OpenTurn(now);
        HandledBoth(more, next, old(backend.jobs), mid, backend.jobs, old(Queued()), waiting, Queued());
        Regroup(old(sent), more, next);
        more := more + next;
      }
    }

    /** A turn that does something: the timer flushes, or an operation is received. */
    method OpenTurn(now: Instant) returns (ghost more: seq<Sending>)
      requires Valid() && ch != []
      modifies this`ch, this`buf, this`dropped, this`sent, this`calls, backend`jobs
      ensures Valid() && sent == old(sent) + more
      ensures Handled(more, old(backend.jobs), backend.jobs, old(Queued()), Queued())
      ensures ch == old(ch)[1..] || (ch == old(ch) && |buf| < |old(buf)|)
    {
      var timerFirst: bool := *;
      if timerFirst && |buf| > 0 { more := Tick(now); } else { more := Receive(now); }
    }

    /** Closes the channel once; from then on the time to drain runs. */
    method Close()
      requires Valid()
      modifies this`closed, this`deadline
      ensures Valid() && closed && (old(closed) ==> deadline == old(deadline))
    {
      var patience: int := *;
      if !closed { closed, deadline := true, calls + if patience < 0 then 0 else patience; }
    }

    /** Closes the channel and waits for the loop to empty it. Nothing is left behind: what was in the
        channel and the buffer has been sent, and what was delivered is spent in the store. */
    method Stop(now: Instant) returns (ghost more: seq<Sending>)
      requires Valid()
      modifies this`closed, this`deadline, this`ch, this`buf, this`dropped, this`sent, this`calls, backend`jobs
      ensures Valid() && closed && ch == [] && buf == [] && sent == old(sent) + more
      ensures Handled(more, old(backend.jobs), backend.jobs, old(Queued()), multiset{})
      ensures forall op :: op in Delivered(more) ==> !Live(backend.jobs, op.token)
    {
      Close();
      more := Finish(now);
    }

    /** The loop from the close of the channel to its return. */
    method Finish(now: Instant) returns (ghost more: seq<Sending>)
      requires Valid()
      modifies this`ch, this`buf, this`dropped, this`sent, this`calls, backend`jobs
      ensures Valid() && ch == [] && buf == [] && sent == old(sent) + more
      ensures Handled(more, old(backend.jobs), backend.jobs, old(Queued()), multiset{})
      ensures forall op :: op in Delivered(more) ==> !Live(backend.jobs, op.token)
    {
      ghost var first := Empty(now);
      ghost var mid, waiting := backend.jobs, Queued();
      ghost var last := Tick(now);
      more := first + last;
      NothingQueued(ch, buf);
      AllHandled(first, last, old(backend.jobs), mid, backend.jobs, old(Queued()), waiting, Queued(), old(sent));
    }

    static lemma NothingQueued(ch: seq<Op>, buf: seq<Op>)
      requires ch == [] && buf == []
      ensures multiset(ch) + multiset(buf) == multiset{}
    {
    }
  }
}
