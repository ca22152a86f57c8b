/** What weighted shares are worth while the demand changes: from pass to pass queues may run out of free slots
and get some back, in any pattern. Each queue earns its weight on the passes that find it with free slots, and
pays the total weight of those on the passes that it is served first on. However the pattern goes, what it has
earned and what it has paid stay within (n - 1) W of each other, for n queues of weight W in all.

One queue alone gives no invariant for that. What a pass keeps is a bound for every group of queues at once:
k of the n queues together never hold more than k (n - k) W.
*/
module Entitlements {
  import opened Credits
  import opened Dispatching
  import opened Fairness

  // ---------- Groups of queues ----------

  /** What the queues of a group hold together. */
  function HeldBy(c: seq<int>, group: seq<bool>): int
    requires |c| == |group|
  {
    if c == [] then 0
    else
      var n := |c| - 1;
      HeldBy(c[..n], group[..n]) + if group[n] then c[n] else 0
  }

  lemma {:induction false} OneChanges(c: seq<int>, group: seq<bool>, i: nat, v: int)
    requires |c| == |group| && i < |c|
    ensures HeldBy(c[i := v], group) == HeldBy(c, group) + if group[i] then v - c[i] else 0
  {
    var n := |c| - 1;
    if i == n {
      assert c[i := v][..n] == c[..n];
    } else {
      assert c[i := v][..n] == c[..n][i := v];
      OneChanges(c[..n], group[..n], i, v);
    }
  }

  lemma {:induction false} OneJoins(c: seq<int>, group: seq<bool>, i: nat)
    requires |c| == |group| && i < |c| && !group[i]
    ensures HeldBy(c, group[i := true]) == HeldBy(c, group) + c[i]
    ensures Count(group[i := true]) == Count(group) + 1
  {
    var n := |c| - 1;
    if i == n {
      assert group[i := true][..n] == group[..n];
    } else {
      assert group[i := true][..n] == group[..n][i := true];
      OneJoins(c[..n], group[..n], i);
    }
  }

  lemma {:induction false} HeldAddsUp(a: seq<int>, b: seq<int>, c: seq<int>, group: seq<bool>)
    requires |a| == |b| == |c| == |group| && forall i :: 0 <= i < |a| ==> c[i] == a[i] + b[i]
    ensures HeldBy(c, group) == HeldBy(a, group) + HeldBy(b, group)
  {
    if a != [] {
      var n := |a| - 1;
      HeldAddsUp(a[..n], b[..n], c[..n], group[..n]);
    }
  }

  lemma {:induction false} GroupEarns(a: seq<int>, group: seq<bool>)
    requires |a| == |group| && forall i :: 0 <= i < |a| ==> a[i] >= 0
    ensures 0 <= HeldBy(a, group) <= Sum(a)
    ensures (forall i :: 0 <= i < |a| && group[i] ==> a[i] == 0) ==> HeldBy(a, group) == 0
  {
    if a != [] {
      var n := |a| - 1;
      GroupEarns(a[..n], group[..n]);
    }
  }

  lemma {:induction false} CountAtMost(group: seq<bool>)
    ensures Count(group) <= |group|
    ensures (forall i :: 0 <= i < |group| ==> !group[i]) ==> Count(group) == 0
  {
    if group != [] { CountAtMost(group[..|group| - 1]); }
  }

  // ---------- The bound ----------

  function GroupLimit(w: int, n: int, k: int): int { w * (k * (n - k)) }

  /** A group of k queues is at most halfway between its neighbours in size, and w above that. */
  lemma GroupLimitIsConcave(w: int, n: int, k: int)
    ensures GroupLimit(w, n, k - 1) + GroupLimit(w, n, k + 1) + 2 * w == 2 * GroupLimit(w, n, k)
  {
    var m := n - k;
    assert (k - 1) * (m + 1) == k * m + k - m - 1;
    assert (k + 1) * (m - 1) == k * m - k + m - 1;
    Twice(w, k * m, (k - 1) * (m + 1), (k + 1) * (m - 1));
  }

  lemma Twice(w: int, x: int, y: int, z: int)
    requires y + z == 2 * x - 2
    ensures w * y + w * z + 2 * w == 2 * (w * x)
  {
    assert w * y + w * z == w * (y + z);
  }

  predicate WithinLimit(c: seq<int>, w: int, group: seq<bool>) {
    |c| == |group| && HeldBy(c, group) <= GroupLimit(w, |c|, Count(group))
  }

  /** No group of queues holds more than its limit. */
  ghost predicate Balanced(c: seq<int>, w: int) {
    forall group: seq<bool> {:trigger WithinLimit(c, w, group)} :: |group| == |c| ==> WithinLimit(c, w, group)
  }

  /** What a pass makes of the credits, in brief: everybody earns, and somebody who has most pays. */
  ghost predicate Paid(s: Shares, c: seq<int>, earned: seq<int>, after: seq<int>, leader: nat) {
    && s.Valid() && |c| == |earned| == |s.weights| && earned == s.Earned(c) && leader < |c|
    && after == earned[leader := earned[leader] - s.Total()]
    && forall j :: 0 <= j < |c| && s.demand[j] ==> earned[j] <= earned[leader]
  }

  lemma GroupAfter(s: Shares, c: seq<int>, earned: seq<int>, after: seq<int>, leader: nat, group: seq<bool>)
    requires Paid(s, c, earned, after, leader) && |group| == |c|
    ensures HeldBy(after, group)
      == HeldBy(c, group) + HeldBy(s.Earnings(), group) - if group[leader] then s.Total() else 0
    ensures 0 <= HeldBy(s.Earnings(), group) <= s.Total()
    ensures (forall j :: 0 <= j < |c| && group[j] ==> !s.demand[j]) ==> HeldBy(s.Earnings(), group) == 0
  {
    HeldAddsUp(c, s.Earnings(), earned, group);
    GroupEarns(s.Earnings(), group);
    OneChanges(earned, group, leader, earned[leader] - s.Total());
  }

  /** A group that the leader is not of stands between the group without one of its members and the group
      with the leader in it. */
  lemma OutsideTheLeader(
      s: Shares, c: seq<int>, earned: seq<int>, after: seq<int>, leader: nat, w: int, group: seq<bool>, j: nat)
    requires Paid(s, c, earned, after, leader) && Balanced(c, w) && s.Total() <= w
    requires |group| == |c| && !group[leader] && j < |c| && group[j] && s.demand[j]
    ensures WithinLimit(after, w, group)
  {
    var without, with := group[j := false], group[leader := true];
    assert without[j := true] == group;
    OneJoins(after, without, j);
    OneJoins(after, group, leader);
    GroupAfter(s, c, earned, after, leader, without);
    GroupAfter(s, c, earned, after, leader, with);
    assert WithinLimit(c, w, without) && WithinLimit(c, w, with);
    GroupLimitIsConcave(w, |c|, Count(group));
  }

  lemma PassKeepsLimit(
      s: Shares, c: seq<int>, earned: seq<int>, after: seq<int>, leader: nat, w: int, group: seq<bool>)
    requires Paid(s, c, earned, after, leader) && Balanced(c, w) && s.Total() <= w && |group| == |c|
    ensures WithinLimit(after, w, group)
  {
    if j :| 0 <= j < |c| && group[j] && s.demand[j] && !group[leader] {
      OutsideTheLeader(s, c, earned, after, leader, w, group, j);
    } else {
      GroupAfter(s, c, earned, after, leader, group);
      assert WithinLimit(c, w, group);
    }
  }

  /** A pass keeps every group within its limit, whatever the demand. */
  lemma PassKeepsBalance(s: Shares, c: seq<int>, w: int)
    requires s.Valid() && |c| == |s.weights| && Balanced(c, w) && s.Total() <= w
    ensures Balanced(s.Pass(c), w)
  {
    var earned, after := s.Earned(c), s.Pass(c);
    var leader := s.PassInBrief(c);
    forall group: seq<bool> | |group| == |after| ensures WithinLimit(after, w, group) {
      PassKeepsLimit(s, c, earned, after, leader, w, group);
    }
  }

  // ---------- The dispatcher's passes ----------

  function Weights(cfg: Config): (r: seq<int>)
    ensures |r| == |cfg.queues| && forall i :: 0 <= i < |r| ==> r[i] == cfg.queues[i].weight
  {
    seq(|cfg.queues|, i requires 0 <= i < |cfg.queues| => cfg.queues[i].weight)
  }

  function TotalWeight(cfg: Config): int { Sum(Weights(cfg)) }

  lemma NextKeepsBalance(cfg: Config, credit: seq<int>, free: seq<int>)
    requires cfg.Valid() && |credit| == |free| == |cfg.queues| && Balanced(credit, TotalWeight(cfg))
    ensures Balanced(NextCredits(cfg, credit, free), TotalWeight(cfg))
  {
    if !cfg.strict && true in Wanting(free) {
      var s := cfg.Competing(Wanting(free));
      TotalOfDemanded(cfg, Wanting(free));
      SumsOrdered(s.Earnings(), Weights(cfg));
      PassKeepsBalance(s, credit, TotalWeight(cfg));
    }
  }

  lemma {:induction false} AlwaysBalanced(cfg: Config, frees: seq<seq<int>>)
    requires cfg.Valid()
    ensures Balanced(CreditsOver(cfg, frees), TotalWeight(cfg))
  {
    if frees == [] {
      NonnegativeSum(Weights(cfg));
      ZerosAreBalanced(CreditsOver(cfg, frees), TotalWeight(cfg));
    } else {
      var n := |frees| - 1;
      AlwaysBalanced(cfg, frees[..n]);
      if |frees[n]| == |cfg.queues| { NextKeepsBalance(cfg, CreditsOver(cfg, frees[..n]), frees[n]); }
    }
  }

  lemma ZerosAreBalanced(c: seq<int>, w: int)
    requires w >= 0 && forall i :: 0 <= i < |c| ==> c[i] == 0
    ensures Balanced(c, w)
  {
    SumOfZeros(c);
    forall group: seq<bool> | |group| == |c| ensures WithinLimit(c, w, group) {
      GroupEarns(c, group);
      CountAtMost(group);
      LimitIsNotNegative(w, |c|, Count(group));
    }
  }

  lemma LimitIsNotNegative(w: int, n: int, k: int)
    requires 0 <= w && 0 <= k <= n
    ensures GroupLimit(w, n, k) >= 0
  {
    var x := k * (n - k);
    assert x >= 0;
    assert w * x >= 0;
  }

  /** A single queue, and everybody else. */
  lemma OneQueueWithin(c: seq<int>, w: int, q: nat)
    requires Balanced(c, w) && Sum(c) == 0 && q < |c|
    ensures -(w * (|c| - 1)) <= c[q] <= w * (|c| - 1)
  {
    NobodyAndEverybody(c);
    Alone(c, w, q, seq(|c|, i => false));
    Others(c, w, q, seq(|c|, i => true));
  }

  lemma GroupWithin(c: seq<int>, w: int, group: seq<bool>, k: int) returns (held: int)
    requires Balanced(c, w) && |group| == |c| && Count(group) == k
    ensures held == HeldBy(c, group) && held <= w * (k * (|c| - k))
  {
    held := HeldBy(c, group);
    assert WithinLimit(c, w, group);
  }

  lemma Alone(c: seq<int>, w: int, q: nat, none: seq<bool>)
    requires Balanced(c, w) && q < |c| == |none| && !none[q] && HeldBy(c, none) == 0 && Count(none) == 0
    ensures c[q] <= w * (|c| - 1)
  {
    OneJoins(c, none, q);
    var held := GroupWithin(c, w, none[q := true], 1);
    SameLimit(w, 1 * (|c| - 1), |c| - 1);
  }

  lemma Others(c: seq<int>, w: int, q: nat, all: seq<bool>)
    requires Balanced(c, w) && q < |c| == |all| && all[q] && HeldBy(c, all) == 0 && Count(all) == |c|
    ensures -(w * (|c| - 1)) <= c[q]
  {
    var others := all[q := false];
    assert others[q := true] == all;
    OneJoins(c, others, q);
    var k := |c| - 1;
    var held := GroupWithin(c, w, others, k);
    SameLimit(w, k * (|c| - k), k);
  }

  lemma SameLimit(w: int, x: int, y: int)
    requires x == y
    ensures w * x == w * y
  {
  }

  lemma {:induction false} NobodyAndEverybody(c: seq<int>)
    ensures HeldBy(c, seq(|c|, i => false)) == 0 && Count(seq(|c|, i => false)) == 0
    ensures HeldBy(c, seq(|c|, i => true)) == Sum(c) && Count(seq(|c|, i => true)) == |c|
  {
    if c != [] {
      var n := |c| - 1;
      NobodyAndEverybody(c[..n]);
      assert seq(|c|, i => false)[..n] == seq(n, i => false);
      assert seq(|c|, i => true)[..n] == seq(n, i => true);
    }
  }

  /** However the demand changes from pass to pass, no credit leaves these bounds. */
  lemma CreditsStayBounded(cfg: Config, frees: seq<seq<int>>, q: nat)
    requires cfg.Valid() && q < |cfg.queues|
    ensures var most := TotalWeight(cfg) * (|cfg.queues| - 1);
      -most <= CreditsOver(cfg, frees)[q] <= most
  {
    AlwaysBalanced(cfg, frees);
    CreditsAlwaysSumToZero(cfg, frees);
    OneQueueWithin(CreditsOver(cfg, frees), TotalWeight(cfg), q);
  }

  // ---------- Earned and paid ----------

  /** The slots of a pass in which credits are earned and paid. */
  predicate Competed(cfg: Config, free: seq<int>) {
    !cfg.strict && |free| == |cfg.queues| && true in Wanting(free)
  }

  /** The weight of queue q, once for every pass that found it with free slots. */
  function EarnedOver(cfg: Config, frees: seq<seq<int>>, q: nat): int
    requires q < |cfg.queues|
  {
    if frees == [] then 0
    else
      var last := frees[|frees| - 1];
      EarnedOver(cfg, frees[..|frees| - 1], q) + if Competed(cfg, last) && last[q] > 0 then cfg.queues[q].weight else 0
  }

  /** The total weight of the queues with free slots, once for every pass that queue q was served first on. */
  function PaidOver(cfg: Config, frees: seq<seq<int>>, q: nat): int
    requires q < |cfg.queues|
  {
    if frees == [] then 0
    else
      var k := |frees| - 1;
      PaidOver(cfg, frees[..k], q)
      + if Competed(cfg, frees[k]) && FirstServed(cfg, frees, k) == q
        then cfg.Competing(Wanting(frees[k])).Total() else 0
  }

  lemma OnePass(cfg: Config, credit: seq<int>, free: seq<int>, q: nat)
    requires cfg.Valid() && |credit| == |cfg.queues| && Competed(cfg, free) && q < |cfg.queues|
    ensures var ranked := Ranked(cfg, credit, free);
      ranked != [] && NextCredits(cfg, credit, free)[q]
        == credit[q] + (if free[q] > 0 then cfg.queues[q].weight else 0)
           - if ranked[0].q == q then cfg.Competing(Wanting(free)).Total() else 0
  {
    var s := cfg.Competing(Wanting(free));
    TotalOfDemanded(cfg, Wanting(free));
    FirstServedIsTheLeader(cfg, credit, free);
    var leader := s.PassInBrief(credit);
  }

  /** A credit is what was earned less what was paid. */
  lemma {:induction false} EarnedLessPaid(cfg: Config, frees: seq<seq<int>>, q: nat)
    requires cfg.Valid() && q < |cfg.queues|
    ensures CreditsOver(cfg, frees)[q] == EarnedOver(cfg, frees, q) - PaidOver(cfg, frees, q)
  {
    if frees != [] {
      var k := |frees| - 1;
      EarnedLessPaid(cfg, frees[..k], q);
      if Competed(cfg, frees[k]) { OnePass(cfg, CreditsOver(cfg, frees[..k]), frees[k], q); }
    }
  }

  /** However the demand changes from pass to pass: what a queue earned and what it paid since the start stay
      within (n - 1) W of each other. */
  lemma SharesUnderAnyDemand(cfg: Config, frees: seq<seq<int>>, q: nat)
    requires cfg.Valid() && q < |cfg.queues|
    ensures var most := TotalWeight(cfg) * (|cfg.queues| - 1);
      -most <= EarnedOver(cfg, frees, q) - PaidOver(cfg, frees, q) <= most
  {
    EarnedLessPaid(cfg, frees, q);
    CreditsStayBounded(cfg, frees, q);
  }

  // ---------- Nobody starves ----------

  /** On the passes from m to n queue q had free slots and was not served first. */
  ghost predicate Waits(cfg: Config, frees: seq<seq<int>>, q: nat, m: nat, n: nat) {
    forall k {:trigger WaitsOn(cfg, frees, q, k)} :: m <= k < n ==> WaitsOn(cfg, frees, q, k)
  }

  ghost predicate WaitsOn(cfg: Config, frees: seq<seq<int>>, q: nat, k: nat) {
    && k < |frees| && q < |cfg.queues| == |frees[k]| && frees[k][q] > 0
    && FirstServed(cfg, frees, k) != q
  }

  lemma OneWait(cfg: Config, frees: seq<seq<int>>, q: nat, k: nat, n: nat)
    requires cfg.Valid() && !cfg.strict && q < |cfg.queues| && n == k + 1 && WaitsOn(cfg, frees, q, k)
    ensures EarnedOver(cfg, frees[..n], q) == EarnedOver(cfg, frees[..k], q) + cfg.queues[q].weight
    ensures PaidOver(cfg, frees[..n], q) == PaidOver(cfg, frees[..k], q)
  {
    var upTo := frees[..n];
    assert upTo[..k] == frees[..k] && upTo[k] == frees[k] && |upTo| - 1 == k;
    assert Wanting(frees[k])[q];
    assert FirstServed(cfg, upTo, k) == FirstServed(cfg, frees, k);
  }

  lemma {:induction false} WaitingEarns(
      cfg: Config, frees: seq<seq<int>>, q: nat, m: nat, n: nat, passes: nat, weight: int)
    requires cfg.Valid() && !cfg.strict && q < |cfg.queues| && weight == cfg.queues[q].weight
    requires n <= |frees| && n == m + passes && Waits(cfg, frees, q, m, n)
    ensures EarnedOver(cfg, frees[..n], q) == EarnedOver(cfg, frees[..m], q) + passes * weight
    ensures PaidOver(cfg, frees[..n], q) == PaidOver(cfg, frees[..m], q)
    decreases passes
  {
    if passes == 0 {
      assert n == m;
    } else {
      var k, before := n - 1, passes - 1;
      assert WaitsOn(cfg, frees, q, k);
      WaitingEarns(cfg, frees, q, m, k, before, weight);
      OneWait(cfg, frees, q, k, n);
      OneTimeMore(before, passes, weight);
    }
  }

  lemma OneTimeMore(j: int, k: int, w: int)
    requires k == j + 1
    ensures k * w == j * w + w
  {
  }

  /** Whatever the other queues do: a queue with free slots is served first again before it has earned more
      than 2 (n - 1) W waiting. */
  lemma NobodyStarves(cfg: Config, frees: seq<seq<int>>, q: nat, m: nat, n: nat)
    requires cfg.Valid() && !cfg.strict && q < |cfg.queues| && m <= n <= |frees| && Waits(cfg, frees, q, m, n)
    ensures (n - m) * cfg.queues[q].weight <= 2 * (TotalWeight(cfg) * (|cfg.queues| - 1))
  {
    WaitingEarns(cfg, frees, q, m, n, n - m, cfg.queues[q].weight);
    var earned, paid, most := Account(cfg, frees[..m], q);
    var earnedSince, paidSince, mostSince := Account(cfg, frees[..n], q);
    assert most == mostSince && paid == paidSince;
  }

  lemma Account(cfg: Config, frees: seq<seq<int>>, q: nat) returns (earned: int, paid: int, most: int)
    requires cfg.Valid() && q < |cfg.queues|
    ensures earned == EarnedOver(cfg, frees, q) && paid == PaidOver(cfg, frees, q)
    ensures most == TotalWeight(cfg) * (|cfg.queues| - 1) && -most <= earned - paid <= most
  {
    SharesUnderAnyDemand(cfg, frees, q);
    earned, paid, most := EarnedOver(cfg, frees, q), PaidOver(cfg, frees, q), TotalWeight(cfg) * (|cfg.queues| - 1);
  }
}
