/** The share arithmetic of the dispatcher's own passes: credits that start at zero and are settled pass after
pass, with whatever free slots each pass finds.
*/
module Fairness {
  import opened Credits
  import opened Dispatching
  import Sorting

  /** The credits after passes that found these free slots, one after the other. */
  function CreditsOver(cfg: Config, frees: seq<seq<int>>): (r: seq<int>)
    ensures |r| == |cfg.queues|
  {
    if frees == [] then seq(|cfg.queues|, i => 0)
    else
      var last := frees[|frees| - 1];
      var before := CreditsOver(cfg, frees[..|frees| - 1]);
      if |last| == |cfg.queues| then NextCredits(cfg, before, last) else before
  }

  lemma CreditsOnceMore(cfg: Config, frees: seq<seq<int>>, free: seq<int>)
    requires |free| == |cfg.queues|
    ensures CreditsOver(cfg, frees + [free]) == NextCredits(cfg, CreditsOver(cfg, frees), free)
  {
    assert (frees + [free])[..|frees|] == frees;
  }

  lemma PassConserves(cfg: Config, credit: seq<int>, free: seq<int>)
    requires cfg.Valid() && |cfg.queues| == |credit| == |free|
    ensures Sum(NextCredits(cfg, credit, free)) == Sum(credit)
  {
    if !cfg.strict && true in Wanting(free) {
      TotalOfDemanded(cfg, Wanting(free));
      cfg.Competing(Wanting(free)).PassConservesCredit(credit);
    }
  }

  /** However the demand changes from pass to pass, the credits sum to zero. */
  lemma {:induction false} CreditsAlwaysSumToZero(cfg: Config, frees: seq<seq<int>>)
    requires cfg.Valid()
    ensures Sum(CreditsOver(cfg, frees)) == 0
  {
    if frees == [] {
      SumOfZeros(CreditsOver(cfg, frees));
    } else {
      var n := |frees| - 1;
      CreditsAlwaysSumToZero(cfg, frees[..n]);
      if |frees[n]| == |cfg.queues| { PassConserves(cfg, CreditsOver(cfg, frees[..n]), frees[n]); }
    }
  }

  /** The same queues have free slots on every pass. */
  ghost predicate Steady(cfg: Config, frees: seq<seq<int>>, demand: seq<bool>) {
    && |demand| == |cfg.queues|
    && forall k {:trigger WantedOn(frees, demand, k)} :: 0 <= k < |frees| ==> WantedOn(frees, demand, k)
  }

  ghost predicate WantedOn(frees: seq<seq<int>>, demand: seq<bool>, k: int) {
    0 <= k < |frees| && Wanting(frees[k]) == demand
  }

  lemma {:induction false} SteadyCredits(cfg: Config, frees: seq<seq<int>>, demand: seq<bool>, k: nat)
    requires cfg.Valid() && !cfg.strict && Steady(cfg, frees, demand) && true in demand && k <= |frees|
    ensures CreditsOver(cfg, frees[..k]) == cfg.Competing(demand).After(k)
  {
    if k == 0 {
      assert CreditsOver(cfg, []) == cfg.Competing(demand).Zeros();
    } else {
      SteadyCredits(cfg, frees, demand, k - 1);
      assert WantedOn(frees, demand, k - 1);
      assert frees[..k][..k - 1] == frees[..k - 1];
    }
  }

  /** The queue served first on pass k, if any is. */
  function FirstServed(cfg: Config, frees: seq<seq<int>>, k: nat): int
    requires k < |frees| && |frees[k]| == |cfg.queues|
  {
    var ranked := Ranked(cfg, CreditsOver(cfg, frees[..k]), frees[k]);
    if ranked == [] then -1 else ranked[0].q
  }

  /** Who was served first, pass by pass. */
  function Firsts(cfg: Config, frees: seq<seq<int>>): (r: seq<int>)
    ensures |r| == |frees|
    ensures forall k :: 0 <= k < |r| && |frees[k]| == |cfg.queues| ==> r[k] == FirstServed(cfg, frees, k)
  {
    seq(|frees|, k requires 0 <= k < |frees| =>
      if |frees[k]| == |cfg.queues| then FirstServed(cfg, frees, k) else -1)
  }

  lemma SteadyFirst(cfg: Config, frees: seq<seq<int>>, demand: seq<bool>, k: nat)
    requires cfg.Valid() && !cfg.strict && Steady(cfg, frees, demand) && true in demand && k < |frees|
    ensures |frees[k]| == |cfg.queues| && FirstServed(cfg, frees, k) == cfg.Competing(demand).FirstOn(k)
  {
    SteadyCredits(cfg, frees, demand, k);
    assert WantedOn(frees, demand, k);
    FirstServedIsTheLeader(cfg, CreditsOver(cfg, frees[..k]), frees[k]);
  }

  lemma SteadyLeader(cfg: Config, frees: seq<seq<int>>, demand: seq<bool>, m: nat, w: nat, j: nat, p: nat)
    requires cfg.Valid() && !cfg.strict && Steady(cfg, frees, demand) && true in demand
    requires j < w && p == m + j && p < |frees|
    ensures Firsts(cfg, frees)[p] == cfg.Competing(demand).Leaders(m, w)[j]
  {
    SteadyFirst(cfg, frees, demand, p);
    cfg.Competing(demand).LeaderAt(m, w, j, p);
  }

  lemma SteadyLeaders(cfg: Config, frees: seq<seq<int>>, demand: seq<bool>, m: nat, w: nat)
    requires cfg.Valid() && !cfg.strict && Steady(cfg, frees, demand) && true in demand && m + w <= |frees|
    ensures Firsts(cfg, frees)[m..m + w] == cfg.Competing(demand).Leaders(m, w)
  {
    var firsts, leaders := Firsts(cfg, frees), cfg.Competing(demand).Leaders(m, w);
    forall j | 0 <= j < w ensures firsts[m + j] == leaders[j] {
      SteadyLeader(cfg, frees, demand, m, w, j, m + j);
    }
    SliceIs(firsts, m, w, leaders);
  }

  lemma SliceIs(s: seq<int>, m: nat, w: nat, t: seq<int>)
    requires |t| == w && m + w <= |s| && forall j :: 0 <= j < w ==> s[m + j] == t[j]
    ensures s[m..m + w] == t
  {
  }

  /** Exact weighted shares of the passes themselves: while the same queues want jobs, among any W
      consecutive passes, W being their total weight, each of them is served first exactly as often as its
      weight, and the others never. */
  lemma SharesOfPasses(cfg: Config, frees: seq<seq<int>>, demand: seq<bool>, m: nat, w: nat, q: nat)
    requires cfg.Valid() && !cfg.strict && Steady(cfg, frees, demand) && true in demand
    requires w == cfg.Competing(demand).TotalPasses() && m + w <= |frees| && q < |cfg.queues|
    ensures Times(Firsts(cfg, frees)[m..m + w], q) == if demand[q] then cfg.queues[q].weight else 0
  {
    SteadyLeaders(cfg, frees, demand, m, w);
    TotalOfDemanded(cfg, demand);
    cfg.Competing(demand).SharesAreExact(m, q);
  }

  // ---------- The ranking does not depend on the sorting routine ----------

  lemma NoTies(cfg: Config, free: seq<int>, credit: seq<int>, d: Demand, e: Demand)
    requires cfg.Valid() && |cfg.queues| == |free| == |credit|
    requires d in Demands(cfg, free, credit, |cfg.queues|) && e in Demands(cfg, free, credit, |cfg.queues|)
    requires RankLe(d, e) && RankLe(e, d)
    ensures d == e
  {
    DemandsAre(cfg, free, credit, |cfg.queues|);
    NameLeTotal(d.name, e.name);
    assert cfg.Names()[d.q] == d.name && cfg.Names()[e.q] == e.name;
    if d.q < e.q { UnrepeatedDiffer(cfg.Names(), d.q, e.q); }
    if e.q < d.q { UnrepeatedDiffer(cfg.Names(), e.q, d.q); }
  }

  /** Any routine that orders the demands by rank produces the ranking of the pass: no two demanded queues
      tie. */
  lemma RankedIsUnique(cfg: Config, credit: seq<int>, free: seq<int>, sorted: seq<Demand>)
    requires cfg.Valid() && |cfg.queues| == |free| == |credit| && !cfg.strict
    requires Sorting.SortedBy(sorted, RankLe)
    requires multiset(sorted)
      == multiset(Demands(cfg, free, cfg.Competing(Wanting(free)).Earned(credit), |cfg.queues|))
    ensures sorted == Ranked(cfg, credit, free)
  {
    var earned := cfg.Competing(Wanting(free)).Earned(credit);
    var ds := Demands(cfg, free, earned, |cfg.queues|);
    RankLeIsAPreorder();
    Sorting.SortSorts(ds, RankLe);
    forall d, e | d in sorted && e in sorted && RankLe(d, e) && RankLe(e, d) ensures d == e {
      assert d in multiset(sorted) && e in multiset(sorted);
      assert d in multiset(ds) && e in multiset(ds);
      NoTies(cfg, free, earned, d, e);
    }
    Sorting.SortIsUnique(sorted, Sorting.Sort(ds, RankLe), RankLe);
  }
}
