/** What one pass asks for: the queues it fetches from, in which order, and how many jobs of each, in numbers
rather than by the division that finds them.
*/
module Quotas {
  import opened Credits
  import opened Dispatching
  import opened Saturation
  import Sorting

  ghost predicate AllFree(cfg: Config, ds: seq<Demand>) {
    forall d :: d in ds ==> d.q < |cfg.queues| && d.free > 0
  }

  /** A pass fetches from the queues in their order, each once, and leaves one out only when the room is gone. */
  lemma {:induction false} ServedInOrder(cfg: Config, ds: seq<Demand>, room: int, total: int, answers: seq<Answer>)
    requires cfg.Valid() && total > 0 && AllFree(cfg, ds)
    ensures var log := Serve(cfg, ds, room, total, answers);
      && |log| <= |ds| && (forall k :: 0 <= k < |log| ==> log[k].q == ds[k].q)
      && (|log| < |ds| ==> room <= AllClaimed(log))
    decreases |ds|
  {
    if ds != [] && room > 0 {
      var limit := Limit(cfg, ds[0], room, total);
      LimitIsPositive(cfg, ds[0], room, total);
      var got := Got(AnswerFor(answers, ds[0].q), limit);
      ServedInOrder(cfg, ds[1..], room - got, total, answers);
      assert Serve(cfg, ds, room, total, answers)
        == [Visit(ds[0].q, limit, got)] + Serve(cfg, ds[1..], room - got, total, answers);
    }
  }

  /** The room that the fetches before the k-th have left is what the k-th is worked out from. */
  lemma {:induction false} RoomAtVisit(
      cfg: Config, ds: seq<Demand>, room: int, total: int, answers: seq<Answer>, k: nat)
    returns (log: seq<Visit>, left: int, v: Visit)
    requires cfg.Valid() && total > 0 && AllFree(cfg, ds)
    requires k < |Serve(cfg, ds, room, total, answers)|
    ensures log == Serve(cfg, ds, room, total, answers) && k < |log| <= |ds| && v == log[k]
    ensures left == room - AllClaimed(log[..k]) && left > 0
    ensures v == Visit(ds[k].q, Limit(cfg, ds[k], left, total), Got(AnswerFor(answers, ds[k].q), v.limit))
    decreases |ds|
  {
    log := Serve(cfg, ds, room, total, answers);
    v := log[k];
    ServedInOrder(cfg, ds, room, total, answers);
    var limit := Limit(cfg, ds[0], room, total);
    LimitIsPositive(cfg, ds[0], room, total);
    var got := Got(AnswerFor(answers, ds[0].q), limit);
    if k == 0 {
      left := room;
    } else {
      var rest; var u;
      rest, left, u := RoomAtVisit(cfg, ds[1..], room - got, total, answers, k - 1);
      assert log == [Visit(ds[0].q, limit, got)] + rest;
      FirstAndRest(log, rest, k);
    }
  }

  lemma FirstAndRest(log: seq<Visit>, rest: seq<Visit>, k: nat)
    requires log != [] && rest == log[1..] && 0 < k < |log|
    ensures AllClaimed(log[..k]) == log[0].got + AllClaimed(rest[..k - 1]) && log[k] == rest[k - 1]
  {
    assert log[..k][1..] == rest[..k - 1];
  }

  /** A queue is asked for its part of the room by weight, rounded up, unless it has fewer slots. */
  lemma LimitIsTheShare(cfg: Config, d: Demand, room: int, total: int, limit: int)
    requires !cfg.strict && d.q < |cfg.queues| && 0 < cfg.queues[d.q].weight <= total && 0 < room && 0 < d.free
    requires limit == Limit(cfg, d, room, total)
    ensures limit <= d.free && (limit - 1) * total < room * cfg.queues[d.q].weight
    ensures room * cfg.queues[d.q].weight <= limit * total || limit == d.free
  {
    var share := room * cfg.queues[d.q].weight;
    var quota := (share + total - 1) / total;
    Ceiling(share, total, quota);
    NoMoreThanAll(room, cfg.queues[d.q].weight, total, quota);
    if limit < quota { Below(limit - 1, quota - 1, total); }
  }

  lemma Ceiling(share: int, total: int, quota: int)
    requires total > 0 && quota == (share + total - 1) / total
    ensures (quota - 1) * total < share <= quota * total
  {
  }

  lemma NoMoreThanAll(room: int, weight: int, total: int, quota: int)
    requires 0 < room && 0 < weight <= total && (quota - 1) * total < room * weight
    ensures quota <= room
  {
    assert room * weight <= room * total;
    if quota > room { Below(room, quota - 1, total); }
  }

  lemma Below(a: int, b: int, c: int)
    requires a <= b && 0 < c
    ensures a * c <= b * c
  {
  }

  // ---------- The fetches of a pass ----------

  /** The fetches of a pass are those of its ranking, from the front, until the room is gone. */
  lemma VisitsOfAPass(cfg: Config, credit: seq<int>, free: seq<int>, room: int, answers: seq<Answer>)
    requires cfg.Valid() && |cfg.queues| == |credit| == |free| == |answers|
    ensures var ranked, log := Ranked(cfg, credit, free), PassLog(cfg, credit, free, room, answers);
      && |log| <= |ranked| && (forall k :: 0 <= k < |log| ==> log[k].q == ranked[k].q)
      && (|log| < |ranked| ==> room <= AllClaimed(log))
  {
    var ranked, total := RankedPass(cfg, credit, free, room, answers);
    ServedInOrder(cfg, ranked, room, total, answers);
  }

  lemma RankedPass(cfg: Config, credit: seq<int>, free: seq<int>, room: int, answers: seq<Answer>)
    returns (ranked: seq<Demand>, total: int)
    requires cfg.Valid() && |cfg.queues| == |credit| == |free| == |answers|
    ensures ranked == Ranked(cfg, credit, free) && AllFree(cfg, ranked) && total > 0
    ensures forall d :: d in ranked ==> d.free == free[d.q]
    ensures PassLog(cfg, credit, free, room, answers) == Serve(cfg, ranked, room, total, answers)
    ensures ranked != [] ==> total == cfg.Competing(Wanting(free)).Total()
    ensures forall d :: d in ranked ==> cfg.queues[d.q].weight <= total
  {
    ranked := Ranked(cfg, credit, free);
    RankedListsTheDemand(cfg, credit, free);
    NoDemandNoRank(cfg, free, ranked);
    total := PassServes(cfg, credit, free, room, answers);
    if true in Wanting(free) {
      var s := cfg.Competing(Wanting(free));
      TotalOfDemanded(cfg, Wanting(free));
      s.TotalIsPositive();
      total := s.Total();
      forall d | d in ranked ensures cfg.queues[d.q].weight <= total {
        assert s.demand[d.q] && s.Earns(d.q) == cfg.queues[d.q].weight;
      }
    }
  }

  /** The k-th fetch of a pass, in numbers. With room left for n jobs when its turn comes, weight w and W the
      weight of all queues with free slots, a queue is asked for no more than n w / W rounded up, for no less
      unless it has fewer slots, and in strict mode for all there is room for; what comes is the lesser of
      what was asked for and what was there. */
  lemma FetchInNumbers(
      cfg: Config, credit: seq<int>, free: seq<int>, room: int, answers: seq<Answer>, k: nat)
    returns (n: int, w: int, total: int)
    requires cfg.Valid() && |cfg.queues| == |credit| == |free| == |answers|
    requires k < |PassLog(cfg, credit, free, room, answers)|
    ensures var log := PassLog(cfg, credit, free, room, answers);
      && log[k].q < |cfg.queues|
      && n == room - AllClaimed(log[..k]) && n > 0 && 1 <= log[k].limit <= n && log[k].limit <= free[log[k].q]
      && w == cfg.queues[log[k].q].weight && total == cfg.Competing(Wanting(free)).Total() && w <= total
      && (!cfg.strict ==>
            && (log[k].limit - 1) * total < n * w
            && (n * w <= log[k].limit * total || log[k].limit == free[log[k].q]))
      && (cfg.strict ==> log[k].limit == n || log[k].limit == free[log[k].q])
      && (answers[log[k].q].Failed? ==> log[k].got == 0)
      && (answers[log[k].q].Has? ==>
            log[k].got == if answers[log[k].q].n < log[k].limit then answers[log[k].q].n else log[k].limit)
  {
    var ranked; var log; var v;
    ranked, total := RankedPass(cfg, credit, free, room, answers);
    log, n, v := RoomAtVisit(cfg, ranked, room, total, answers, k);
    assert ranked[k] in ranked;
    w := cfg.queues[v.q].weight;
    LimitIsPositive(cfg, ranked[k], n, total);
    if !cfg.strict { LimitIsTheShare(cfg, ranked[k], n, total, v.limit); }
  }

  /** So no queue takes the room of those ranked behind it: as long as what it has to leave by weight comes to
      one job, the next one is asked too. */
  lemma TheNextIsAskedToo(cfg: Config, credit: seq<int>, free: seq<int>, room: int, answers: seq<Answer>, k: nat)
    requires cfg.Valid() && |cfg.queues| == |credit| == |free| == |answers| && !cfg.strict
    requires k < |PassLog(cfg, credit, free, room, answers)| && k + 1 < |Ranked(cfg, credit, free)|
    requires var log := PassLog(cfg, credit, free, room, answers);
      var w := cfg.Weight(log[k].q);
      var total := cfg.Competing(Wanting(free)).Total();
      total <= (room - AllClaimed(log[..k])) * (total - w)
    ensures k + 1 < |PassLog(cfg, credit, free, room, answers)|
  {
    var log := PassLog(cfg, credit, free, room, answers);
    var n, w, total := FetchInNumbers(cfg, credit, free, room, answers, k);
    LeavesRoom(n, w, total, log[k].limit, log[k].got);
    VisitsOfAPass(cfg, credit, free, room, answers);
    NotTheLast(log, room, k, |Ranked(cfg, credit, free)|);
  }

  /** While there is room the log goes on. */
  lemma NotTheLast(log: seq<Visit>, room: int, k: nat, ranked: nat)
    requires k < |log| && k + 1 < ranked && (|log| < ranked ==> room <= AllClaimed(log))
    requires log[k].got < room - AllClaimed(log[..k])
    ensures k + 1 < |log|
  {
    if |log| == k + 1 {
      assert log == log[..k] + [log[k]];
      ClaimedConcat(log[..k], [log[k]]);
    }
  }

  lemma LeavesRoom(n: int, w: int, total: int, limit: int, got: int)
    requires 0 < total && got <= limit && (limit - 1) * total < n * w && total <= n * (total - w)
    ensures got < n
  {
    assert n * (total - w) == n * total - n * w;
    if n <= limit { Below(n - 1, limit - 1, total); }
  }

  // ---------- The order of a pass ----------

  /** a comes before b in the dictionary: they agree up to some place, and there a has ended or has the smaller
      character. */
  ghost predicate InDictionaryOrder(a: string, b: string) {
    exists k {:trigger a[..k]} :: 0 <= k <= |a| && k <= |b| && a[..k] == b[..k] && EndsOrIsLess(a, b, k)
  }

  predicate EndsOrIsLess(a: string, b: string, k: nat)
    requires k <= |a| && k <= |b|
  {
    k < |b| && (k == |a| || a[k] < b[k])
  }

  lemma {:induction false} NamesCompare(a: string, b: string) returns (k: nat)
    requires NameLe(a, b) && a != b
    ensures k <= |a| && k <= |b| && a[..k] == b[..k] && EndsOrIsLess(a, b, k)
  {
    if a == [] || a[0] != b[0] {
      k := 0;
    } else {
      assert a == [a[0]] + a[1..] && b == [b[0]] + b[1..];
      var m := NamesCompare(a[1..], b[1..]);
      k := m + 1;
      assert a[..k] == [a[0]] + a[1..][..m] && b[..k] == [b[0]] + b[1..][..m];
    }
  }

  /** Whoever is served earlier holds more credit, its weight of this pass included, or as much and has the
      earlier name; in strict mode it stands earlier among the queues. */
  lemma RankedInWords(cfg: Config, credit: seq<int>, free: seq<int>, i: nat, j: nat)
    requires cfg.Valid() && |cfg.queues| == |credit| == |free| && i < j < |Ranked(cfg, credit, free)|
    ensures var a, b := Ranked(cfg, credit, free)[i].q, Ranked(cfg, credit, free)[j].q;
      && a < |cfg.queues| && b < |cfg.queues|
      && (cfg.strict ==> a < b)
      && (!cfg.strict ==>
            var x, y := credit[a] + cfg.queues[a].weight, credit[b] + cfg.queues[b].weight;
            x > y || (x == y && InDictionaryOrder(cfg.queues[a].name, cfg.queues[b].name)))
  {
    RankedIsAServiceOrder(cfg, credit, free);
    var ranked := Ranked(cfg, credit, free);
    assert ranked[i] in ranked && ranked[j] in ranked && ranked[i].q != ranked[j].q;
    if !cfg.strict { EarlierRanked(cfg, credit, free, ranked[i], ranked[j], i, j); }
  }

  lemma EarlierRanked(cfg: Config, credit: seq<int>, free: seq<int>, d: Demand, e: Demand, i: nat, j: nat)
    requires cfg.Valid() && |cfg.queues| == |credit| == |free| && !cfg.strict && i < j < |Ranked(cfg, credit, free)|
    requires d == Ranked(cfg, credit, free)[i] && e == Ranked(cfg, credit, free)[j] && d.q != e.q
    ensures d.q < |cfg.queues| && e.q < |cfg.queues|
    ensures var x, y := credit[d.q] + cfg.queues[d.q].weight, credit[e.q] + cfg.queues[e.q].weight;
      x > y || (x == y && InDictionaryOrder(cfg.queues[d.q].name, cfg.queues[e.q].name))
  {
    var s := cfg.Competing(Wanting(free));
    var ds := Demands(cfg, free, s.Earned(credit), |cfg.queues|);
    var ranked := Ranked(cfg, credit, free);
    DemandsAre(cfg, free, s.Earned(credit), |cfg.queues|);
    RankLeIsAPreorder();
    Sorting.SortSorts(ds, RankLe);
    assert ranked[i] in multiset(ranked) && ranked[j] in multiset(ranked);
    assert d in ds && e in ds && RankLe(d, e);
    assert cfg.Names()[d.q] == d.name && cfg.Names()[e.q] == e.name;
    if d.q < e.q { UnrepeatedDiffer(cfg.Names(), d.q, e.q); } else { UnrepeatedDiffer(cfg.Names(), e.q, d.q); }
    if d.credit == e.credit { var k := NamesCompare(d.name, e.name); }
  }
}
