/** What repeated passes achieve while nothing completes and no fetch fails: the pool fills up, or every
queue runs out of slots or of work.
*/
module Saturation {
  import opened Credits
  import opened Dispatching
  import Sorting

  /** Jobs running per queue and in all, and claimable jobs per queue. */
  datatype Load = Load(running: seq<int>, global: int, work: seq<nat>)

  ghost predicate Fits(cfg: Config, ld: Load) {
    && cfg.Valid()
    && |ld.running| == |ld.work| == |cfg.queues|
    && 0 <= ld.global
  }

  function Free(cfg: Config, ld: Load): (r: seq<int>)
    requires |ld.running| == |cfg.queues|
    ensures |r| == |cfg.queues| && forall i :: 0 <= i < |r| ==> r[i] == cfg.queues[i].concurrency - ld.running[i]
  {
    seq(|cfg.queues|, i requires 0 <= i < |cfg.queues| => cfg.queues[i].concurrency - ld.running[i])
  }

  /** A backend that never fails claims as much as there is, up to the limit. */
  function Claims(work: seq<nat>): (r: seq<Answer>)
    ensures |r| == |work| && forall i :: 0 <= i < |r| ==> r[i] == Has(work[i])
  {
    seq(|work|, i requires 0 <= i < |work| => Has(work[i]))
  }

  /** How many jobs of queue q a log of fetches claimed, and how many in all. */
  function Claimed(log: seq<Visit>, q: nat): nat {
    if log == [] then 0 else (if log[0].q == q then log[0].got else 0) + Claimed(log[1..], q)
  }

  function AllClaimed(log: seq<Visit>): nat {
    if log == [] then 0 else log[0].got + AllClaimed(log[1..])
  }

  lemma {:induction false} ClaimedConcat(a: seq<Visit>, b: seq<Visit>)
    ensures AllClaimed(a + b) == AllClaimed(a) + AllClaimed(b)
    ensures forall q :: Claimed(a + b, q) == Claimed(a, q) + Claimed(b, q)
  {
    if a == [] {
      assert a + b == b;
    } else {
      ClaimedConcat(a[1..], b);
      assert (a + b)[1..] == a[1..] + b;
    }
  }

  ghost predicate Apart(ds: seq<Demand>) {
    forall i, j :: 0 <= i < j < |ds| ==> ds[i].q != ds[j].q
  }

  lemma LimitIsPositive(cfg: Config, d: Demand, globalFree: int, total: int)
    requires cfg.Valid() && d.q < |cfg.queues| && d.free > 0 && globalFree > 0 && total > 0
    ensures 1 <= Limit(cfg, d, globalFree, total) <= d.free
    ensures Limit(cfg, d, globalFree, total) <= globalFree
  {
    if !cfg.strict {
      var w := cfg.queues[d.q].weight;
      assert globalFree * w >= 1 by { Credits.Scale1(globalFree, w); }
      Credits.CeilingIsPositive(globalFree * w, total);
    }
  }

  ghost predicate SlotsFor(ds: seq<Demand>, q: nat, n: nat) {
    exists d :: d in ds && d.q == q && n <= d.free
  }

  /** A queue is asked at most once per pass: what it gives is bounded by its slots and its work. */
  lemma {:induction false} ClaimedWithinBounds(
      cfg: Config, ds: seq<Demand>, globalFree: int, total: int, work: seq<nat>, q: nat)
    requires cfg.Valid() && total > 0 && |work| == |cfg.queues| && q < |work| && Apart(ds)
    requires forall d :: d in ds ==> d.q < |cfg.queues| && d.free > 0
    ensures var log := Serve(cfg, ds, globalFree, total, Claims(work));
      && (Claimed(log, q) > 0 ==> SlotsFor(ds, q, Claimed(log, q)))
      && Claimed(log, q) <= work[q]
      && AllClaimed(log) <= (if globalFree < 0 then 0 else globalFree)
    decreases |ds|
  {
    if ds != [] && globalFree > 0 {
      var limit := Limit(cfg, ds[0], globalFree, total);
      LimitIsPositive(cfg, ds[0], globalFree, total);
      var got := Got(AnswerFor(Claims(work), ds[0].q), limit);
      ClaimedWithinBounds(cfg, ds[1..], globalFree - got, total, work, q);
    }
  }

  /** With room left, a pass that meets a demanded queue with work claims something. */
  lemma {:induction false} SomethingIsClaimed(
      cfg: Config, ds: seq<Demand>, globalFree: int, total: int, work: seq<nat>, d: Demand)
    requires cfg.Valid() && total > 0 && |work| == |cfg.queues| && globalFree > 0
    requires forall e :: e in ds ==> e.q < |cfg.queues| && e.free > 0
    requires d in ds && work[d.q] > 0
    ensures AllClaimed(Serve(cfg, ds, globalFree, total, Claims(work))) >= 1
    decreases |ds|
  {
    var limit := Limit(cfg, ds[0], globalFree, total);
    LimitIsPositive(cfg, ds[0], globalFree, total);
    if work[ds[0].q] == 0 {
      assert d in ds[1..];
      SomethingIsClaimed(cfg, ds[1..], globalFree, total, work, d);
    }
  }

  /** In strict mode, whoever is served later finds everybody served earlier full or exhausted. */
  lemma {:induction false} EarlierAreExhausted(
      cfg: Config, ds: seq<Demand>, globalFree: int, total: int, work: seq<nat>, a: nat, b: nat)
    requires cfg.Valid() && cfg.strict && total > 0 && |work| == |cfg.queues| && Apart(ds) && a < b < |ds|
    requires forall d :: d in ds ==> d.q < |cfg.queues| && d.free > 0
    requires Claimed(Serve(cfg, ds, globalFree, total, Claims(work)), ds[b].q) > 0
    ensures var got := Claimed(Serve(cfg, ds, globalFree, total, Claims(work)), ds[a].q);
      got == ds[a].free || got == work[ds[a].q]
    decreases |ds|
  {
    var limit := Limit(cfg, ds[0], globalFree, total);
    LimitIsPositive(cfg, ds[0], globalFree, total);
    var got := Got(AnswerFor(Claims(work), ds[0].q), limit);
    if a > 0 {
      EarlierAreExhausted(cfg, ds[1..], globalFree - got, total, work, a - 1, b - 1);
    } else {
      ClaimedWithinBounds(cfg, ds[1..], globalFree - got, total, work, ds[0].q);
    }
  }

  // ---------- The demands of a pass ----------

  lemma {:induction false} DemandsApart(cfg: Config, free: seq<int>, credit: seq<int>, n: nat)
    requires n <= |cfg.queues| == |free| == |credit|
    ensures forall i, j :: 0 <= i < j < |Demands(cfg, free, credit, n)| ==>
      Demands(cfg, free, credit, n)[i].q < Demands(cfg, free, credit, n)[j].q
  {
    if n > 0 {
      DemandsApart(cfg, free, credit, n - 1);
      DemandsAre(cfg, free, credit, n - 1);
      var before := Demands(cfg, free, credit, n - 1);
      forall i | 0 <= i < |before| ensures before[i].q < n - 1 { assert before[i] in before; }
    }
  }

  /** ds are the demanded queues, each once. */
  ghost predicate ListsDemand(cfg: Config, free: seq<int>, ds: seq<Demand>)
    requires |free| == |cfg.queues|
  {
    && Apart(ds)
    && (forall d :: d in ds ==> d.q < |cfg.queues| && d.free == free[d.q] > 0)
    && (forall i {:trigger Serves(ds, i)} :: 0 <= i < |free| && free[i] > 0 ==> Serves(ds, i))
  }

  ghost predicate Serves(ds: seq<Demand>, q: int) {
    exists d :: d in ds && d.q == q
  }

  lemma DemandsListDemand(cfg: Config, free: seq<int>, credit: seq<int>)
    requires |cfg.queues| == |free| == |credit|
    ensures ListsDemand(cfg, free, Demands(cfg, free, credit, |cfg.queues|))
  {
    DemandsApart(cfg, free, credit, |cfg.queues|);
    DemandsAre(cfg, free, credit, |cfg.queues|);
    forall i | 0 <= i < |free| && free[i] > 0
      ensures Serves(Demands(cfg, free, credit, |cfg.queues|), i)
    {
      assert DemandOf(cfg, free, credit, i) in Demands(cfg, free, credit, |cfg.queues|);
    }
  }

  lemma SortingListsDemand(cfg: Config, free: seq<int>, ds: seq<Demand>)
    requires |cfg.queues| == |free| && ListsDemand(cfg, free, ds)
    ensures ListsDemand(cfg, free, Sorting.Sort(ds, RankLe))
  {
    var sorted := Sorting.Sort(ds, RankLe);
    assert Sorting.NoRepeats(ds);
    Sorting.SortKeepsDistinct(ds, RankLe);
    forall i, j | 0 <= i < j < |sorted| ensures sorted[i].q != sorted[j].q {
      SameQueueSameDemand(ds, sorted[i], sorted[j]);
    }
    forall i | 0 <= i < |free| && free[i] > 0 ensures Serves(sorted, i) {
      assert Serves(ds, i);
    }
  }

  lemma SameQueueSameDemand(ds: seq<Demand>, d: Demand, e: Demand)
    requires Apart(ds) && d in ds && e in ds && d != e
    ensures d.q != e.q
  {
  }

  /** Ranking loses no demanded queue and repeats none. */
  lemma RankedListsTheDemand(cfg: Config, credit: seq<int>, free: seq<int>)
    requires cfg.Valid() && |cfg.queues| == |credit| == |free|
    ensures ListsDemand(cfg, free, Ranked(cfg, credit, free))
  {
    if cfg.strict {
      DemandsListDemand(cfg, free, credit);
    } else {
      var earned := cfg.Competing(Wanting(free)).Earned(credit);
      DemandsListDemand(cfg, free, earned);
      SortingListsDemand(cfg, free, Demands(cfg, free, earned, |cfg.queues|));
    }
  }

  // ---------- Quiet passes ----------

  /** An order in which a pass may serve the demanded queues: any order at all, unless priority is
      strict. */
  ghost predicate ServiceOrder(cfg: Config, free: seq<int>, ds: seq<Demand>)
    requires |free| == |cfg.queues|
  {
    ListsDemand(cfg, free, ds) && (cfg.strict ==> forall i, j :: 0 <= i < j < |ds| ==> ds[i].q < ds[j].q)
  }

  /** A pass over the ranked queues is one of them. */
  lemma RankedIsAServiceOrder(cfg: Config, credit: seq<int>, free: seq<int>)
    requires cfg.Valid() && |cfg.queues| == |credit| == |free|
    ensures ServiceOrder(cfg, free, Ranked(cfg, credit, free))
  {
    RankedListsTheDemand(cfg, credit, free);
    DemandsApart(cfg, free, credit, |cfg.queues|);
  }

  lemma PassServesTheDemand(cfg: Config, credit: seq<int>, free: seq<int>, globalFree: int, answers: seq<Answer>)
    returns (ds: seq<Demand>, total: int)
    requires cfg.Valid() && |cfg.queues| == |credit| == |free| == |answers|
    ensures ServiceOrder(cfg, free, ds) && total > 0
    ensures PassLog(cfg, credit, free, globalFree, answers) == Serve(cfg, ds, globalFree, total, answers)
  {
    ds := Ranked(cfg, credit, free);
    RankedIsAServiceOrder(cfg, credit, free);
    NoDemandNoRank(cfg, free, ds);
    total := PassServes(cfg, credit, free, globalFree, answers);
  }

  lemma NoDemandNoRank(cfg: Config, free: seq<int>, ds: seq<Demand>)
    requires |free| == |cfg.queues| && ListsDemand(cfg, free, ds)
    ensures true !in Wanting(free) ==> ds == []
  {
    if ds != [] {
      assert ds[0] in ds;
      assert Wanting(free)[ds[0].q];
    }
  }

  /** The log of a pass, from the total weight that the first loop added up. */
  lemma PassSpelledOut(cfg: Config, credit: seq<int>, free: seq<int>, globalFree: int, total: int, answers: seq<Answer>)
    returns (ranked: seq<Demand>, log: seq<Visit>)
    requires cfg.Valid() && |cfg.queues| == |free| == |credit| == |answers| && total == WeightOf(cfg, free, |free|)
    ensures ranked == Ranked(cfg, credit, free) && log == PassLog(cfg, credit, free, globalFree, answers)
    ensures ranked == [] ==> log == []
    ensures ranked != [] ==> total > 0 && log == Serve(cfg, ranked, globalFree, total, answers)
    ensures ListsDemand(cfg, free, ranked)
  {
    ranked := Ranked(cfg, credit, free);
    PassLogByWeight(cfg, credit, free, globalFree, answers);
    RankedListsTheDemand(cfg, credit, free);
    NoDemandNoRank(cfg, free, ranked);
    log := PassLog(cfg, credit, free, globalFree, answers);
  }

  function QuietLog(cfg: Config, ld: Load, ds: seq<Demand>, total: int): seq<Visit>
    requires Fits(cfg, ld) && total > 0 && ListsDemand(cfg, Free(cfg, ld), ds)
  {
    if cfg.maxWorkers <= ld.global then [] else Serve(cfg, ds, cfg.maxWorkers - ld.global, total, Claims(ld.work))
  }

  function Without(n: nat, taken: nat): nat {
    if taken <= n then n - taken else 0
  }

  /** Claimed jobs leave the waiting ones of their queue and join the running ones. */
  function Moved(ld: Load, log: seq<Visit>): (r: Load)
    requires |ld.running| == |ld.work|
    ensures |r.running| == |r.work| == |ld.running|
  {
    Load(seq(|ld.running|, i requires 0 <= i < |ld.running| => ld.running[i] + Claimed(log, i)),
         ld.global + AllClaimed(log),
         seq(|ld.work|, i requires 0 <= i < |ld.work| => Without(ld.work[i], Claimed(log, i))))
  }

  /** A pass during which nothing completes and no fetch fails. */
  ghost predicate IsPass(cfg: Config, before: Load, after: Load) {
    && Fits(cfg, before)
    && exists ds, total :: PassBy(cfg, before, after, ds, total)
  }

  ghost predicate PassBy(cfg: Config, before: Load, after: Load, ds: seq<Demand>, total: int)
    requires Fits(cfg, before)
  {
    && total > 0 && ServiceOrder(cfg, Free(cfg, before), ds)
    && after == Moved(before, QuietLog(cfg, before, ds, total))
  }

  /** A pass only moves jobs, within the caps of the queue and of the client. */
  lemma PassMovesJobs(cfg: Config, before: Load, after: Load, ds: seq<Demand>, total: int, q: nat)
    requires Fits(cfg, before) && PassBy(cfg, before, after, ds, total) && q < |cfg.queues|
    ensures var got := Claimed(QuietLog(cfg, before, ds, total), q);
      && after.running[q] == before.running[q] + got
      && after.work[q] == before.work[q] - got
      && (got > 0 ==> after.running[q] <= cfg.queues[q].concurrency)
    ensures Fits(cfg, after)
    ensures before.global <= after.global
    ensures before.global <= cfg.maxWorkers ==> after.global <= cfg.maxWorkers
  {
    if before.global < cfg.maxWorkers {
      ClaimedWithinBounds(cfg, ds, cfg.maxWorkers - before.global, total, before.work, q);
    }
  }

  /** Nothing more can be claimed: the pool is full, or every queue is at its cap or out of work. */
  ghost predicate Saturated(cfg: Config, ld: Load)
    requires Fits(cfg, ld)
  {
    cfg.maxWorkers <= ld.global || forall q :: 0 <= q < |cfg.queues| ==> CappedOrEmpty(cfg, ld, q)
  }

  ghost predicate CappedOrEmpty(cfg: Config, ld: Load, q: nat)
    requires Fits(cfg, ld) && q < |cfg.queues|
  {
    cfg.queues[q].concurrency <= ld.running[q] || ld.work[q] == 0
  }

  /** A pass claims at least one job unless nothing more can be claimed. */
  lemma PassFillsUp(cfg: Config, before: Load, after: Load)
    requires IsPass(cfg, before, after)
    ensures Fits(cfg, after) && after.global >= before.global
    ensures Saturated(cfg, before) || after.global >= before.global + 1
    ensures Saturated(cfg, before) ==> Saturated(cfg, after)
  {
    var ds: seq<Demand>, total: int :| PassBy(cfg, before, after, ds, total);
    assert after.global == before.global + AllClaimed(QuietLog(cfg, before, ds, total));
    if Saturated(cfg, before) {
      StaysSaturated(cfg, before, after, ds, total);
    } else {
      ClaimsSomething(cfg, before, after, ds, total);
    }
  }

  lemma ClaimsSomething(cfg: Config, before: Load, after: Load, ds: seq<Demand>, total: int)
    requires Fits(cfg, before) && PassBy(cfg, before, after, ds, total) && !Saturated(cfg, before)
    ensures after.global >= before.global + 1
  {
    var q :| 0 <= q < |cfg.queues| && !CappedOrEmpty(cfg, before, q);
    assert Serves(ds, q);
    var d :| d in ds && d.q == q;
    SomethingIsClaimed(cfg, ds, cfg.maxWorkers - before.global, total, before.work, d);
  }

  lemma StaysSaturated(cfg: Config, before: Load, after: Load, ds: seq<Demand>, total: int)
    requires Fits(cfg, before) && PassBy(cfg, before, after, ds, total) && Saturated(cfg, before)
    requires Fits(cfg, after) && after.global >= before.global
    ensures Saturated(cfg, after)
  {
    if before.global < cfg.maxWorkers {
      forall q | 0 <= q < |cfg.queues| ensures CappedOrEmpty(cfg, after, q) {
        assert CappedOrEmpty(cfg, before, q);
        PassMovesJobs(cfg, before, after, ds, total, q);
      }
    }
  }

  /** Successive quiet passes. */
  ghost predicate Passes(cfg: Config, lds: seq<Load>) {
    && lds != [] && Fits(cfg, lds[0])
    && forall i :: 0 < i < |lds| ==> IsPass(cfg, lds[i - 1], lds[i])
  }

  lemma {:induction false} PassesFillUp(cfg: Config, lds: seq<Load>, k: nat)
    requires Passes(cfg, lds) && k < |lds|
    ensures Fits(cfg, lds[k])
    ensures Saturated(cfg, lds[k]) || lds[k].global >= lds[0].global + k
  {
    if k > 0 {
      PassesFillUp(cfg, lds, k - 1);
      PassFillsUp(cfg, lds[k - 1], lds[k]);
    }
  }

  /** Within MaxWorkers passes the client is saturated, and it stays so. */
  lemma SaturatedWithinMaxWorkers(cfg: Config, lds: seq<Load>, k: nat)
    requires Passes(cfg, lds) && cfg.maxWorkers <= k < |lds|
    ensures Fits(cfg, lds[k]) && Saturated(cfg, lds[k])
  {
    PassesFillUp(cfg, lds, k);
  }

  lemma PositionOf(ds: seq<Demand>, q: int) returns (a: nat)
    requires Serves(ds, q)
    ensures a < |ds| && ds[a].q == q && ds[a] in ds
  {
    var d :| d in ds && d.q == q;
    a :| 0 <= a < |ds| && ds[a] == d;
  }

  lemma HeavierAreExhausted(cfg: Config, before: Load, after: Load, ds: seq<Demand>, total: int, heavy: nat, light: nat)
    requires Fits(cfg, before) && PassBy(cfg, before, after, ds, total)
    requires cfg.strict && heavy < light < |cfg.queues| && before.running[heavy] < cfg.queues[heavy].concurrency
    requires Claimed(QuietLog(cfg, before, ds, total), light) > 0
    ensures var got := Claimed(QuietLog(cfg, before, ds, total), heavy);
      got == cfg.queues[heavy].concurrency - before.running[heavy] || got == before.work[heavy]
  {
    var globalFree := cfg.maxWorkers - before.global;
    ClaimedWithinBounds(cfg, ds, globalFree, total, before.work, light);
    assert Free(cfg, before)[heavy] > 0 && Serves(ds, heavy);
    var a := PositionOf(ds, heavy);
    assert Serves(ds, light);
    var b := PositionOf(ds, light);
    EarlierAreExhausted(cfg, ds, globalFree, total, before.work, a, b);
  }

  /** Strict priority: a pass claims from a lighter queue only if it leaves every heavier one at its
      cap or out of work. */
  lemma StrictPriority(cfg: Config, before: Load, after: Load, heavy: nat, light: nat)
    requires IsPass(cfg, before, after) && cfg.strict && cfg.HeaviestFirst()
    requires heavy < |cfg.queues| && light < |cfg.queues|
    requires cfg.queues[heavy].weight > cfg.queues[light].weight
    requires |after.running| == |cfg.queues| && after.running[light] > before.running[light]
    ensures Fits(cfg, after) && CappedOrEmpty(cfg, after, heavy)
  {
    var ds: seq<Demand>, total: int :| PassBy(cfg, before, after, ds, total);
    PassMovesJobs(cfg, before, after, ds, total, light);
    PassMovesJobs(cfg, before, after, ds, total, heavy);
    if before.running[heavy] < cfg.queues[heavy].concurrency {
      HeavierAreExhausted(cfg, before, after, ds, total, heavy, light);
    }
  }

  /** The counters went up by what the log claimed. */
  ghost predicate Tally(log: seq<Visit>, was: seq<int>, now: seq<int>, wasAll: int, nowAll: int) {
    && |was| == |now| && nowAll == wasAll + AllClaimed(log)
    && forall q :: 0 <= q < |now| ==> now[q] == was[q] + Claimed(log, q)
  }

  lemma TallyConcat(
      a: seq<Visit>, b: seq<Visit>, was: seq<int>, mid: seq<int>, now: seq<int>, wasAll: int, midAll: int,
      nowAll: int)
    requires Tally(a, was, mid, wasAll, midAll) && Tally(b, mid, now, midAll, nowAll)
    ensures Tally(a + b, was, now, wasAll, nowAll)
  {
    ClaimedConcat(a, b);
  }

  lemma TallyOfOne(v: Visit)
    ensures AllClaimed([v]) == v.got && forall q :: Claimed([v], q) == if v.q == q then v.got else 0
  {
    assert [v][1..] == [];
  }

  lemma CountersMoved(before: Load, log: seq<Visit>, running: seq<int>, global: int)
    requires |before.running| == |before.work| && Tally(log, before.running, running, before.global, global)
    ensures Load(running, global, Moved(before, log).work) == Moved(before, log)
  {
    var moved := Moved(before, log).running;
    forall q | 0 <= q < |running| ensures running[q] == moved[q] {}
    assert running == moved;
  }

  /** What a pass without interference and without failures logs. */
  ghost predicate QuietlyLogged(cfg: Config, credit: seq<int>, before: Load, log: seq<Visit>)
    requires Fits(cfg, before) && |credit| == |cfg.queues|
  {
    log == if cfg.maxWorkers <= before.global then []
           else PassLog(cfg, credit, Free(cfg, before), cfg.maxWorkers - before.global, Claims(before.work))
  }

  lemma QuietPass(cfg: Config, credit: seq<int>, before: Load, log: seq<Visit>)
    requires Fits(cfg, before) && |credit| == |cfg.queues| && QuietlyLogged(cfg, credit, before, log)
    ensures IsPass(cfg, before, Moved(before, log))
  {
    var ds, total := PassServesTheDemand(
      cfg, credit, Free(cfg, before), cfg.maxWorkers - before.global, Claims(before.work));
    ServedQuietly(cfg, before, ds, total, log);
  }

  lemma ServedQuietly(cfg: Config, before: Load, ds: seq<Demand>, total: int, log: seq<Visit>)
    requires Fits(cfg, before) && total > 0 && ServiceOrder(cfg, Free(cfg, before), ds)
    requires log == if cfg.maxWorkers <= before.global then []
                    else Serve(cfg, ds, cfg.maxWorkers - before.global, total, Claims(before.work))
    ensures IsPass(cfg, before, Moved(before, log))
  {
    assert log == QuietLog(cfg, before, ds, total);
    assert PassBy(cfg, before, Moved(before, log), ds, total);
  }

  /** Counters that went up by what the log of such a pass claimed: that was a quiet pass. */
  lemma QuietCounters(cfg: Config, credit: seq<int>, before: Load, log: seq<Visit>, running: seq<int>, global: int)
    requires Fits(cfg, before) && |credit| == |cfg.queues| && QuietlyLogged(cfg, credit, before, log)
    requires Tally(log, before.running, running, before.global, global)
    ensures IsPass(cfg, before, Load(running, global, Moved(before, log).work))
  {
    QuietPass(cfg, credit, before, log);
    CountersMoved(before, log, running, global);
  }
}
