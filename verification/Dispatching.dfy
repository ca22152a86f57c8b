/** One dispatch pass as a function of what it reads: the free slots, the credits and the answers of the
backend. The counters are read once each at the start of a pass, so nothing the completing jobs do later
in the pass can change these decisions.
*/
module Dispatching {
  import opened Credits
  import opened Instants
  import Sorting

  datatype QueueConfig = QueueConfig(name: string, concurrency: int, weight: int)

  datatype Config = Config(queues: seq<QueueConfig>, maxWorkers: int, strict: bool) {
    /** What NewClient guarantees: usable settings and queues named apart. */
    ghost predicate Valid() {
      && (forall i :: 0 <= i < |queues| ==> queues[i].concurrency >= 1 && queues[i].weight >= 1)
      && Unrepeated(Names())
    }

    /** Start sorts the queues by weight. */
    ghost predicate HeaviestFirst() {
      forall i, j :: 0 <= i < j < |queues| ==> queues[i].weight >= queues[j].weight
    }

    function Names(): (r: seq<string>)
      ensures |r| == |queues| && forall i :: 0 <= i < |r| ==> r[i] == queues[i].name
    {
      seq(|queues|, i requires 0 <= i < |queues| => queues[i].name)
    }

    /** The weight of queue q; there is none beyond the configured queues. */
    function Weight(q: nat): int {
      if q < |queues| then queues[q].weight else 0
    }

    function Competing(demand: seq<bool>): Shares
      requires |demand| == |queues|
    {
      Shares(seq(|queues|, i requires 0 <= i < |queues| => queues[i].weight),
             Names(), demand)
    }
  }

  function Wanting(free: seq<int>): (r: seq<bool>)
    ensures |r| == |free| && forall i :: 0 <= i < |r| ==> r[i] == (free[i] > 0)
  {
    seq(|free|, i requires 0 <= i < |free| => free[i] > 0)
  }

  /** A queue with free slots, and what it is ranked by. */
  datatype Demand = Demand(q: nat, free: int, credit: int, name: string)

  predicate RankLe(a: Demand, b: Demand) {
    a.credit > b.credit || (a.credit == b.credit && NameLe(a.name, b.name))
  }

  function DemandOf(cfg: Config, free: seq<int>, credit: seq<int>, i: nat): Demand
    requires i < |cfg.queues| && i < |free| && i < |credit|
  {
    Demand(i, free[i], credit[i], cfg.queues[i].name)
  }

  /** The queues with free slots among the first n, in queue order. */
  function Demands(cfg: Config, free: seq<int>, credit: seq<int>, n: nat): seq<Demand>
    requires n <= |cfg.queues| && n <= |free| && n <= |credit|
  {
    if n == 0 then []
    else Demands(cfg, free, credit, n - 1) + if free[n - 1] > 0 then [DemandOf(cfg, free, credit, n - 1)] else []
  }

  lemma {:induction false} DemandsAre(cfg: Config, free: seq<int>, credit: seq<int>, n: nat)
    requires n <= |cfg.queues| && n <= |free| && n <= |credit|
    ensures forall d :: d in Demands(cfg, free, credit, n) ==>
      d.q < n && d == DemandOf(cfg, free, credit, d.q) && d.free > 0
    ensures forall i {:trigger DemandOf(cfg, free, credit, i)} :: 0 <= i < n && free[i] > 0 ==>
      DemandOf(cfg, free, credit, i) in Demands(cfg, free, credit, n)
  {
    if n > 0 { DemandsAre(cfg, free, credit, n - 1); }
  }

  lemma DemandsInRange(cfg: Config, free: seq<int>, credit: seq<int>, n: nat)
    requires n <= |cfg.queues| && n <= |free| && n <= |credit|
    ensures forall k :: 0 <= k < |Demands(cfg, free, credit, n)| ==> Demands(cfg, free, credit, n)[k].q < n
  {
    DemandsAre(cfg, free, credit, n);
    var ds := Demands(cfg, free, credit, n);
    forall k | 0 <= k < |ds| ensures ds[k].q < n { assert ds[k] in ds; }
  }

  /** How the backend answers a pass's fetch of one queue: with an error, or with as many of its n
      claimable jobs as the limit allows. Each queue is fetched at most once per pass. */
  datatype Answer = Failed | Has(n: nat)

  function AnswerFor(answers: seq<Answer>, q: nat): Answer {
    if q < |answers| then answers[q] else Failed
  }

  /** One fetch of a pass: which queue, how many were asked for, how many came. */
  datatype Visit = Visit(q: nat, limit: int, got: nat)

  /** A proportional quota is rounded up. */
  function Quota(strict: bool, globalFree: int, weight: int, total: int): int
    requires strict || total > 0
  {
    if strict then globalFree else (globalFree * weight + total - 1) / total
  }

  function Limit(cfg: Config, d: Demand, globalFree: int, total: int): int
    requires cfg.strict || total > 0
  {
    Min(Quota(cfg.strict, globalFree, cfg.Weight(d.q), total), Min(d.free, globalFree))
  }

  function Got(a: Answer, limit: int): (got: nat)
    ensures limit >= 0 ==> got <= limit
  {
    if a.Failed? || limit <= 0 then 0 else if a.n < limit then a.n else limit
  }

  /** The fetches of a pass, in order, from the point where ds are still to be served. */
  function Serve(cfg: Config, ds: seq<Demand>, globalFree: int, total: int, answers: seq<Answer>): (log: seq<Visit>)
    requires cfg.strict || total > 0
    decreases |ds|
  {
    if ds == [] || globalFree <= 0 then []
    else
      var limit := Limit(cfg, ds[0], globalFree, total);
      if limit <= 0 then Serve(cfg, ds[1..], globalFree, total, answers)
      else
        var got := Got(AnswerFor(answers, ds[0].q), limit);
        [Visit(ds[0].q, limit, got)] + Serve(cfg, ds[1..], globalFree - got, total, answers)
  }

  /** One demand further: what it adds to the log, and what the demands after it add. */
  lemma ServeStep(cfg: Config, ds: seq<Demand>, globalFree: int, total: int, answers: seq<Answer>)
    returns (rest: seq<Visit>)
    requires (cfg.strict || total > 0) && ds != [] && globalFree > 0
    ensures var limit := Limit(cfg, ds[0], globalFree, total);
      var got := Got(AnswerFor(answers, ds[0].q), limit);
      && Serve(cfg, ds, globalFree, total, answers) == (if limit <= 0 then [] else [Visit(ds[0].q, limit, got)]) + rest
      && rest == Serve(cfg, ds[1..], if limit <= 0 then globalFree else globalFree - got, total, answers)
      && (limit > 0 && globalFree - got <= 0 ==> rest == [])
  {
    var limit := Limit(cfg, ds[0], globalFree, total);
    var got := Got(AnswerFor(answers, ds[0].q), limit);
    rest := Serve(cfg, ds[1..], if limit <= 0 then globalFree else globalFree - got, total, answers);
  }

  /** The credits after a pass that found these free slots. */
  function NextCredits(cfg: Config, credit: seq<int>, free: seq<int>): (r: seq<int>)
    requires |cfg.queues| == |credit| == |free|
    ensures |r| == |credit|
  {
    if cfg.strict || !(true in Wanting(free)) then credit else cfg.Competing(Wanting(free)).Pass(credit)
  }

  /** The queues in the order a pass serves them. */
  function Ranked(cfg: Config, credit: seq<int>, free: seq<int>): seq<Demand>
    requires |cfg.queues| == |credit| == |free|
  {
    if cfg.strict then Demands(cfg, free, credit, |cfg.queues|)
    else Sorting.Sort(Demands(cfg, free, cfg.Competing(Wanting(free)).Earned(credit), |cfg.queues|), RankLe)
  }

  /** Everything a pass fetches. */
  function PassLog(cfg: Config, credit: seq<int>, free: seq<int>, globalFree: int, answers: seq<Answer>): seq<Visit>
    requires cfg.Valid() && |cfg.queues| == |credit| == |free| == |answers|
  {
    if !(true in Wanting(free)) then []
    else
      TotalOfDemanded(cfg, Wanting(free));
      Serve(cfg, Ranked(cfg, credit, free), globalFree, cfg.Competing(Wanting(free)).Total(), answers)
  }

  /** A pass serves the ranked queues; the total weight matters only if there are any. */
  lemma PassServes(cfg: Config, credit: seq<int>, free: seq<int>, globalFree: int, answers: seq<Answer>)
    returns (total: int)
    requires cfg.Valid() && |cfg.queues| == |credit| == |free| == |answers|
    requires true !in Wanting(free) ==> Ranked(cfg, credit, free) == []
    ensures total > 0
    ensures PassLog(cfg, credit, free, globalFree, answers)
      == Serve(cfg, Ranked(cfg, credit, free), globalFree, total, answers)
  {
    total := 1;
    if true in Wanting(free) {
      TotalOfDemanded(cfg, Wanting(free));
      total := cfg.Competing(Wanting(free)).Total();
    }
  }

  lemma TotalOfDemanded(cfg: Config, demand: seq<bool>)
    requires cfg.Valid() && |demand| == |cfg.queues| && true in demand
    ensures cfg.Competing(demand).Valid() && cfg.Competing(demand).Total() >= 1
  {
    var i :| 0 <= i < |demand| && demand[i];
    assert cfg.Competing(demand).demand[i];
    cfg.Competing(demand).TotalIsPositive();
  }

  lemma RankLeIsAPreorder()
    ensures Sorting.TotalPreorder(RankLe)
  {
    forall x: Demand, y: Demand ensures RankLe(x, y) || RankLe(y, x) { NameLeTotal(x.name, y.name); }
    forall x: Demand, y: Demand, z: Demand | RankLe(x, y) && RankLe(y, z) ensures RankLe(x, z) {
      if x.credit == y.credit == z.credit { NameLeTransitive(x.name, y.name, z.name); }
    }
  }

  /** The queue served first is the one that pays: the share theorem is about this pass. */
  lemma FirstServedIsTheLeader(cfg: Config, credit: seq<int>, free: seq<int>)
    requires cfg.Valid() && |cfg.queues| == |credit| == |free| && !cfg.strict && true in Wanting(free)
    ensures var shares := cfg.Competing(Wanting(free));
      shares.Valid() && Ranked(cfg, credit, free) != []
      && Ranked(cfg, credit, free)[0].q == shares.Leader(shares.Earned(credit))
  {
    TotalOfDemanded(cfg, Wanting(free));
    var shares := cfg.Competing(Wanting(free));
    var earned := shares.Earned(credit);
    var ds := Demands(cfg, free, earned, |cfg.queues|);
    var ranked := Sorting.Sort(ds, RankLe);
    RankLeIsAPreorder();
    DemandsAre(cfg, free, earned, |cfg.queues|);
    Sorting.SortSorts(ds, RankLe);
    var i :| 0 <= i < |free| && Wanting(free)[i];
    forall j | 0 <= j < |free| && free[j] > 0
      ensures ranked != [] && RankLe(ranked[0], DemandOf(cfg, free, earned, j))
    {
      var d := DemandOf(cfg, free, earned, j);
      assert d in multiset(ds);
      Sorting.HeadIsLeast(ranked, RankLe, d);
    }
    var first := ranked[0];
    assert first in multiset(ranked) && first in ds;
    forall j | 0 <= j < |free| && shares.demand[j] ensures shares.Beats(earned, first.q, j) {
      assert free[j] > 0;
    }
    shares.LeaderIsUnique(earned, first.q);
  }

  // ---------- What the loops of a pass compute ----------

  /** The total weight of the demanded queues among the first n. */
  function WeightOf(cfg: Config, free: seq<int>, n: nat): int
    requires n <= |cfg.queues| && n <= |free|
  {
    if n == 0 then 0 else WeightOf(cfg, free, n - 1) + if free[n - 1] > 0 then cfg.queues[n - 1].weight else 0
  }

  lemma {:induction false} WeightOfIsTotal(cfg: Config, free: seq<int>, n: nat)
    requires n <= |cfg.queues| == |free|
    ensures WeightOf(cfg, free, n) == Sum(cfg.Competing(Wanting(free)).Earnings()[..n])
  {
    var e := cfg.Competing(Wanting(free)).Earnings();
    if n > 0 {
      WeightOfIsTotal(cfg, free, n - 1);
      assert e[..n][..n - 1] == e[..n - 1];
    }
  }

  /** Reading one more counter leaves what was found before. */
  lemma {:induction false} ReadOneMore(cfg: Config, free: seq<int>, x: int, credit: seq<int>, n: nat)
    requires n <= |free| && n <= |cfg.queues| && n <= |credit|
    ensures Demands(cfg, free + [x], credit, n) == Demands(cfg, free, credit, n)
    ensures WeightOf(cfg, free + [x], n) == WeightOf(cfg, free, n)
  {
    if n > 0 { ReadOneMore(cfg, free, x, credit, n - 1); }
  }

  lemma DemandsOneMore(cfg: Config, free: seq<int>, x: int, credit: seq<int>)
    requires |free| < |cfg.queues| == |credit|
    ensures var n := |free|;
      var d := DemandOf(cfg, free + [x], credit, n);
      && d == Demand(n, x, credit[n], cfg.queues[n].name)
      && Demands(cfg, free + [x], credit, n + 1) == Demands(cfg, free, credit, n) + (if x > 0 then [d] else [])
      && WeightOf(cfg, free + [x], n + 1) == WeightOf(cfg, free, n) + (if x > 0 then cfg.queues[n].weight else 0)
  {
    ReadOneMore(cfg, free, x, credit, |free|);
  }

  /** Crediting the demands one after the other. */
  function EarnedBy(cfg: Config, credit: seq<int>, ds: seq<Demand>): (r: seq<int>)
    requires |credit| == |cfg.queues|
    ensures |r| == |credit|
  {
    if ds == [] then credit
    else
      var q := ds[|ds| - 1].q;
      var c := EarnedBy(cfg, credit, ds[..|ds| - 1]);
      if q < |c| then c[q := c[q] + cfg.queues[q].weight] else c
  }

  lemma EarnOneMore(cfg: Config, credit: seq<int>, ds: seq<Demand>, d: Demand)
    requires |credit| == |cfg.queues| && d.q < |cfg.queues|
    ensures var c := EarnedBy(cfg, credit, ds);
      EarnedBy(cfg, credit, ds + [d]) == c[d.q := c[d.q] + cfg.queues[d.q].weight]
  {
    assert (ds + [d])[..|ds|] == ds;
  }

  /** Crediting the demands of the first n queues credits exactly the demanded ones among them. */
  lemma {:induction false} EarnedByDemands(cfg: Config, credit: seq<int>, free: seq<int>, n: nat, i: nat)
    requires n <= |cfg.queues| == |free| == |credit| && i < |credit|
    ensures EarnedBy(cfg, credit, Demands(cfg, free, credit, n))[i]
      == credit[i] + if i < n && free[i] > 0 then cfg.queues[i].weight else 0
  {
    if n > 0 {
      var j := n - 1;
      EarnedByDemands(cfg, credit, free, j, i);
      var d := DemandsNext(cfg, free, credit, j, n);
      if free[j] > 0 { EarnOneMore(cfg, credit, Demands(cfg, free, credit, j), d); }
    }
  }

  lemma DemandsNext(cfg: Config, free: seq<int>, credit: seq<int>, j: nat, n: nat) returns (d: Demand)
    requires n <= |cfg.queues| == |free| == |credit| && n == j + 1
    ensures d == DemandOf(cfg, free, credit, j) && d.q == j
    ensures Demands(cfg, free, credit, n)
      == if free[j] > 0 then Demands(cfg, free, credit, j) + [d] else Demands(cfg, free, credit, j)
  {
    d := DemandOf(cfg, free, credit, j);
    assert n - 1 == j;
  }

  /** The demands as they stand once their queues hold these credits. */
  function Recredited(ds: seq<Demand>, credit: seq<int>): seq<Demand> {
    if ds == [] then []
    else
      var d := ds[|ds| - 1];
      Recredited(ds[..|ds| - 1], credit) + [if d.q < |credit| then d.(credit := credit[d.q]) else d]
  }

  lemma RecreditOneMore(ds: seq<Demand>, credit: seq<int>, d: Demand)
    requires d.q < |credit|
    ensures Recredited(ds + [d], credit) == Recredited(ds, credit) + [d.(credit := credit[d.q])]
  {
    assert (ds + [d])[..|ds|] == ds;
  }

  lemma {:induction false} RecreditedDemands(cfg: Config, free: seq<int>, was: seq<int>, credit: seq<int>, n: nat)
    requires n <= |cfg.queues| == |free| == |was| == |credit|
    ensures Recredited(Demands(cfg, free, was, n), credit) == Demands(cfg, free, credit, n)
  {
    if n > 0 {
      var j := n - 1;
      RecreditedDemands(cfg, free, was, credit, j);
      var d := DemandsNext(cfg, free, was, j, n);
      var e := DemandsNext(cfg, free, credit, j, n);
      if free[j] > 0 { RecreditOneMore(Demands(cfg, free, was, j), credit, d); }
    }
  }

  lemma DemandedOrIdle(cfg: Config, credit: seq<int>, free: seq<int>)
    requires |cfg.queues| == |free| == |credit|
    ensures true in Wanting(free) <==> Demands(cfg, free, credit, |free|) != []
  {
    var ds := Demands(cfg, free, credit, |free|);
    DemandsAre(cfg, free, credit, |free|);
    if i :| 0 <= i < |free| && Wanting(free)[i] {
      assert DemandOf(cfg, free, credit, i) in ds;
    }
    if ds != [] {
      assert ds[0] in ds;
      assert Wanting(free)[ds[0].q];
    }
  }

  /** Under strict priority, or with no demand, a pass credits nobody and keeps the queue order. */
  lemma NothingToRank(cfg: Config, credit: seq<int>, free: seq<int>)
    requires |cfg.queues| == |free| == |credit| && (cfg.strict || Demands(cfg, free, credit, |free|) == [])
    ensures NextCredits(cfg, credit, free) == credit
    ensures Ranked(cfg, credit, free) == Demands(cfg, free, credit, |free|)
  {
    DemandedOrIdle(cfg, credit, free);
    if !cfg.strict {
      DemandedOrIdle(cfg, cfg.Competing(Wanting(free)).Earned(credit), free);
    }
  }

  /** Crediting the demands in a loop is what Earned says at once. */
  lemma LoopEarns(cfg: Config, credit: seq<int>, free: seq<int>, earned: seq<int>)
    requires |cfg.queues| == |free| == |credit|
    requires earned == EarnedBy(cfg, credit, Demands(cfg, free, credit, |free|))
    ensures earned == cfg.Competing(Wanting(free)).Earned(credit)
  {
    forall i | 0 <= i < |credit| ensures earned[i] == cfg.Competing(Wanting(free)).Earned(credit)[i] {
      EarnedByDemands(cfg, credit, free, |free|, i);
    }
  }

  /** The leader of the ranking pays the total. */
  lemma LeaderPaysTotal(cfg: Config, credit: seq<int>, free: seq<int>, earned: seq<int>, first: int)
    requires cfg.Valid() && |cfg.queues| == |free| == |credit| && !cfg.strict && true in Wanting(free)
    requires earned == cfg.Competing(Wanting(free)).Earned(credit)
    requires first == cfg.Competing(Wanting(free)).Leader(earned)
    ensures 0 <= first < |earned|
    ensures NextCredits(cfg, credit, free) == earned[first := earned[first] - WeightOf(cfg, free, |free|)]
  {
    TotalOfDemanded(cfg, Wanting(free));
    TotalIsWeight(cfg, free);
    var leader := cfg.Competing(Wanting(free)).PassInBrief(credit);
  }

  lemma TotalIsWeight(cfg: Config, free: seq<int>)
    requires |cfg.queues| == |free|
    ensures cfg.Competing(Wanting(free)).Total() == WeightOf(cfg, free, |free|)
  {
    WeightOfIsTotal(cfg, free, |free|);
    var e := cfg.Competing(Wanting(free)).Earnings();
    assert e[..|free|] == e;
  }

  lemma FirstRankedPays(
      cfg: Config, credit: seq<int>, free: seq<int>, earned: seq<int>, ranked: seq<Demand>, total: int)
    returns (next: seq<int>)
    requires cfg.Valid() && |cfg.queues| == |free| == |credit| && !cfg.strict && true in Wanting(free)
    requires earned == cfg.Competing(Wanting(free)).Earned(credit) && ranked == Ranked(cfg, credit, free)
    requires total == WeightOf(cfg, free, |free|)
    ensures next == NextCredits(cfg, credit, free)
    ensures ranked != [] && ranked[0].q < |earned| && next == earned[ranked[0].q := earned[ranked[0].q] - total]
  {
    FirstServedIsTheLeader(cfg, credit, free);
    LeaderPaysTotal(cfg, credit, free, earned, ranked[0].q);
    next := NextCredits(cfg, credit, free);
  }

  /** Ranking the demands by the credits just earned is the ranking of the pass. */
  lemma RankedByEarned(cfg: Config, credit: seq<int>, free: seq<int>, demands: seq<Demand>, earned: seq<int>)
    requires |cfg.queues| == |free| == |credit| && !cfg.strict && demands == Demands(cfg, free, credit, |free|)
    requires earned == cfg.Competing(Wanting(free)).Earned(credit)
    ensures Sorting.Sort(Recredited(demands, earned), RankLe) == Ranked(cfg, credit, free)
  {
    RecreditedDemands(cfg, free, credit, earned, |free|);
  }

  /** The pass with the total weight the loop has added up. */
  lemma PassLogByWeight(cfg: Config, credit: seq<int>, free: seq<int>, globalFree: int, answers: seq<Answer>)
    requires cfg.Valid() && |cfg.queues| == |free| == |credit| == |answers|
    ensures true in Wanting(free) ==>
      WeightOf(cfg, free, |free|) > 0
      && PassLog(cfg, credit, free, globalFree, answers)
        == Serve(cfg, Ranked(cfg, credit, free), globalFree, WeightOf(cfg, free, |free|), answers)
    ensures true !in Wanting(free) ==> PassLog(cfg, credit, free, globalFree, answers) == []
  {
    TotalIsWeight(cfg, free);
    if true in Wanting(free) { TotalOfDemanded(cfg, Wanting(free)); }
  }
}
