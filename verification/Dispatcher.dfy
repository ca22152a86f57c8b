/** The dispatcher and the goroutines it starts, sharing counters.

The dispatcher is alone in raising the counters; every started job lowers them when it is done, first
the client's and then its queue's. Interfere lets any number of jobs get any number of steps further,
and is called wherever they could: between any two accesses to a shared counter.
*/
module Dispatcher {
  import opened Credits
  import opened Dispatching
  import opened Fairness
  import Entitlements
  import opened Saturation
  import Sorting

  /** The job being started, if any, is counted by its queue, or by both counters. */
  datatype Starting = Nobody | InQueue(q: nat) | InBoth(q: nat) {
    function OnlyBy(i: nat): nat { if InQueue? && q == i then 1 else 0 }
    function BothBy(i: nat): nat { if InBoth? && q == i then 1 else 0 }
  }

  function Max0(n: int): int { if n < 0 then 0 else n }

  /** The counter of queue i is within its cap and counts the jobs that are there. */
  ghost predicate Accounted(
      cfg: Config, running: seq<int>, inside: seq<int>, both: seq<int>, only: seq<int>, starting: Starting,
      i: int)
  {
    && 0 <= i < |cfg.queues| && |running| == |inside| == |both| == |only| == |cfg.queues|
    && 0 <= inside[i] && inside[i] + starting.BothBy(i) <= both[i]
    && starting.OnlyBy(i) <= only[i]
    && running[i] == both[i] + only[i] <= cfg.queues[i].concurrency
  }

  class Dispatcher {
    const cfg: Config
    var credit: seq<int>
    var running: seq<int>
    var globalRunning: int
    // Where the jobs are, queue by queue, and where the dispatcher is: the program counters.
    var inside: seq<int>      // jobs inside runJob
    var both: seq<int>        // jobs counted by both counters
    var only: seq<int>        // jobs counted by their queue's counter only
    var starting: Starting
    ghost var finished: nat         // steps that jobs have taken towards their end
    ghost var passes: seq<seq<int>> // the free slots found by each pass that settled the credits

    ghost predicate Valid()
      reads this
    {
      && cfg.Valid()
      && |credit| == |running| == |inside| == |both| == |only| == |cfg.queues|
      && (starting.InQueue? || starting.InBoth? ==> starting.q < |cfg.queues|)
      && (forall i {:trigger Accounted(cfg, running, inside, both, only, starting, i)} :: 0 <= i < |running| ==>
            Accounted(cfg, running, inside, both, only, starting, i))
      && globalRunning == Sum(both)
      && globalRunning <= Max0(cfg.maxWorkers)
    }

    /** The credits are those of the passes so far, which the share theorems are about. */
    ghost predicate Credited()
      reads this
    {
      credit == CreditsOver(cfg, passes)
    }

    /** Whatever the demand was from pass to pass. */
    lemma CreditsSumToZero()
      requires Valid() && Credited()
      ensures Sum(credit) == 0
    {
      CreditsAlwaysSumToZero(cfg, passes);
    }

    lemma CreditsStayBounded(q: nat)
      requires Valid() && Credited() && q < |cfg.queues|
      ensures var most := Entitlements.TotalWeight(cfg) * (|cfg.queues| - 1);
        -most <= credit[q] <= most
    {
      Entitlements.CreditsStayBounded(cfg, passes, q);
    }

    constructor (cfg: Config)
      requires cfg.Valid()
      ensures Valid() && Credited() && this.cfg == cfg && starting == Nobody && finished == 0 && passes == []
      ensures credit == running == seq(|cfg.queues|, i => 0) && globalRunning == 0
    {
      this.cfg := cfg;
      var zeros := seq(|cfg.queues|, i => 0);
      credit, running, globalRunning := zeros, zeros, 0;
      inside, both, only, starting, finished, passes := zeros, zeros, zeros, Nobody, 0, [];
      new;
      SumOfZeros(both);
    }

    /** The caps, in every state of every interleaving. */
    lemma Caps(q: nat)
      requires Valid() && q < |cfg.queues|
      ensures inside[q] <= running[q] <= cfg.queues[q].concurrency
      ensures Sum(inside) <= globalRunning <= Max0(cfg.maxWorkers)
      ensures globalRunning <= Sum(running)
    {
      assert Accounted(cfg, running, inside, both, only, starting, q);
      forall i | 0 <= i < |running| ensures inside[i] <= both[i] <= running[i] {
        assert Accounted(cfg, running, inside, both, only, starting, i);
      }
      SumsOrdered(inside, both);
      SumsOrdered(both, running);
    }

    /** Jobs got further, and nothing else happened. */
    twostate predicate OnlyJobsMoved()
      reads this
    {
      credit == old(credit) && starting == old(starting) && CountersFell()
    }

    twostate predicate CountersFell()
      reads this
    {
      && old(finished) <= finished && |running| == old(|running|)
      && (forall i :: 0 <= i < |running| ==> running[i] <= old(running)[i] <= running[i] + (finished - old(finished)))
      && globalRunning <= old(globalRunning)
      && (finished == old(finished) ==> running == old(running) && globalRunning == old(globalRunning))
    }

    /** Any number of jobs take any number of steps: returning from runJob, lowering the client's
        counter, lowering their queue's counter. */
    method Interfere()
      requires Valid()
      modifies this`running, this`globalRunning, this`inside, this`both, this`only, this`finished
      ensures Valid() && OnlyJobsMoved()
    {
      var steps: nat := *;
      while steps > 0
        invariant Valid() && OnlyJobsMoved()
        decreases steps
      {
        JobStep();
        steps := steps - 1;
      }
    }

    method JobStep()
      requires Valid()
      modifies this`running, this`globalRunning, this`inside, this`both, this`only, this`finished
      ensures Valid() && OnlyJobsMoved()
    {
      var q: int := *;
      if q < 0 || q >= |running| { return; }
      var what: nat := *;
      if inside[q] > 0 && what == 0 {
        Returns(q);
      } else if both[q] > inside[q] + starting.BothBy(q) && what <= 1 {
        LowersGlobal(q);
      } else if only[q] > starting.OnlyBy(q) {
        LowersQueue(q);
      }
    }

    method Returns(q: nat)
      requires Valid() && q < |running| && inside[q] > 0
      modifies this`inside, this`finished
      ensures Valid() && OnlyJobsMoved()
    {
      inside, finished := inside[q := inside[q] - 1], finished + 1;
      forall i | 0 <= i < |running| ensures Accounted(cfg, running, inside, both, only, starting, i) {
        assert old(Accounted(cfg, running, inside, both, only, starting, i));
      }
    }

    method LowersGlobal(q: nat)
      requires Valid() && q < |running| && both[q] > inside[q] + starting.BothBy(q)
      modifies this`globalRunning, this`both, this`only, this`finished
      ensures Valid() && OnlyJobsMoved()
    {
      SumOfUpdate(both, q, both[q] - 1);
      globalRunning := globalRunning - 1;
      both, only, finished := both[q := both[q] - 1], only[q := only[q] + 1], finished + 1;
      forall i | 0 <= i < |running| ensures Accounted(cfg, running, inside, both, only, starting, i) {
        assert old(Accounted(cfg, running, inside, both, only, starting, i));
      }
    }

    method LowersQueue(q: nat)
      requires Valid() && q < |running| && only[q] > starting.OnlyBy(q)
      modifies this`running, this`only, this`finished
      ensures Valid() && OnlyJobsMoved()
    {
      running := running[q := running[q] - 1];
      only, finished := only[q := only[q] - 1], finished + 1;
      forall i | 0 <= i < |running| ensures Accounted(cfg, running, inside, both, only, starting, i) {
        assert old(Accounted(cfg, running, inside, both, only, starting, i));
      }
    }

    /** Counts one claimed job on its queue and on the client, then starts it. */
    method StartJob(q: nat)
      requires Valid() && starting == Nobody && q < |running|
      requires running[q] < cfg.queues[q].concurrency && globalRunning < cfg.maxWorkers
      modifies this`running, this`globalRunning, this`inside, this`both, this`only, this`starting, this`finished
      ensures Valid() && starting == Nobody && |running| == |old(running)| && old(finished) <= finished
      ensures forall i :: 0 <= i < |running| ==> running[i] <= old(running)[i] + (if i == q then 1 else 0)
      ensures globalRunning <= old(globalRunning) + 1
      ensures finished == old(finished) ==>
        running == old(running)[q := old(running)[q] + 1] && globalRunning == old(globalRunning) + 1
    {
      CountOnQueue(q);
      Interfere();
      CountOnClient(q);
      Interfere();
      Go(q);
    }

    method CountOnQueue(q: nat)
      requires Valid() && starting == Nobody && q < |running| && running[q] < cfg.queues[q].concurrency
      modifies this`running, this`only, this`starting
      ensures Valid() && starting == InQueue(q) && running == old(running)[q := old(running)[q] + 1]
    {
      running, only, starting := running[q := running[q] + 1], only[q := only[q] + 1], InQueue(q);
      forall i | 0 <= i < |running| ensures Accounted(cfg, running, inside, both, only, starting, i) {
        assert old(Accounted(cfg, running, inside, both, only, starting, i));
      }
    }

    method CountOnClient(q: nat)
      requires Valid() && starting == InQueue(q) && globalRunning < cfg.maxWorkers
      modifies this`globalRunning, this`both, this`only, this`starting
      ensures Valid() && starting == InBoth(q) && globalRunning == old(globalRunning) + 1
    {
      SumOfUpdate(both, q, both[q] + 1);
      globalRunning := globalRunning + 1;
      both, only, starting := both[q := both[q] + 1], only[q := only[q] - 1], InBoth(q);
      forall i | 0 <= i < |running| ensures Accounted(cfg, running, inside, both, only, starting, i) {
        assert old(Accounted(cfg, running, inside, both, only, starting, i));
      }
    }

    method Go(q: nat)
      requires Valid() && starting == InBoth(q)
      modifies this`inside, this`starting
      ensures Valid() && starting == Nobody
    {
      inside, starting := inside[q := inside[q] + 1], Nobody;
      forall i | 0 <= i < |running| ensures Accounted(cfg, running, inside, both, only, starting, i) {
        assert old(Accounted(cfg, running, inside, both, only, starting, i));
      }
    }

    /** The slots found free are still there: only the dispatcher takes any. */
    ghost predicate StillFree(free: seq<int>)
      requires |running| == |cfg.queues|
      reads this
    {
      |free| <= |cfg.queues| && forall i :: 0 <= i < |free| ==> free[i] + running[i] <= cfg.queues[i].concurrency
    }

    /** Each of the slots was found free at some moment since: those that were free at first, and at most as
        many more as jobs have taken steps meanwhile. */
    twostate predicate FoundFree(free: seq<int>)
      requires |old(running)| == |cfg.queues|
      reads this
    {
      Found(cfg, old(running), finished - old(finished), free)
    }

    static ghost predicate Found(cfg: Config, running: seq<int>, steps: int, free: seq<int>)
      requires |running| == |cfg.queues|
    {
      && |free| <= |cfg.queues|
      && forall i :: 0 <= i < |free| ==>
           var before := cfg.queues[i].concurrency - running[i];
           before <= free[i] <= before + steps
    }

    static lemma FoundOneMore(cfg: Config, running: seq<int>, steps: int, more: int, free: seq<int>, slots: int)
      requires |free| < |running| == |cfg.queues| && Found(cfg, running, steps, free) && steps <= more
      requires var before := cfg.queues[|free|].concurrency - running[|free|];
        before <= slots <= before + more
      ensures Found(cfg, running, more, free + [slots])
    {
    }

    static lemma FoundStill(cfg: Config, running: seq<int>, steps: int, more: int, free: seq<int>)
      requires |running| == |cfg.queues| && Found(cfg, running, steps, free) && steps <= more
      ensures Found(cfg, running, more, free)
    {
    }

    /** The first loop of a pass: reads every queue's counter once. */
    method ReadDemands() returns (demands: seq<Demand>, totalWeight: int, ghost free: seq<int>)
      requires Valid() && starting == Nobody
      modifies this`running, this`globalRunning, this`inside, this`both, this`only, this`finished
      ensures Valid() && OnlyJobsMoved()
      ensures |free| == |cfg.queues| && demands == Demands(cfg, free, credit, |free|)
      ensures totalWeight == WeightOf(cfg, free, |free|)
      ensures StillFree(free) && FoundFree(free)
    {
      demands, totalWeight, free := [], 0, [];
      for i := 0 to |cfg.queues|
        invariant Valid() && OnlyJobsMoved() && |free| == i
        invariant SumUp(cfg, credit, free, demands, totalWeight)
        invariant StillFree(free) && FoundFree(free)
      {
        ghost var steps := finished - old(finished);
        var slots := ReadOne(i, free);
        FoundOneMore(cfg, old(running), steps, finished - old(finished), free, slots);
        SumUpOneMore(cfg, credit, free, demands, totalWeight, slots);
        free := free + [slots];
        if slots > 0 {
          demands := demands + [Demand(i, slots, credit[i], cfg.queues[i].name)];
          totalWeight := totalWeight + cfg.queues[i].weight;
        }
      }
    }

    /** The demands and their weight, as far as the counters have been read. */
    static ghost predicate SumUp(
        cfg: Config, credit: seq<int>, free: seq<int>, demands: seq<Demand>, totalWeight: int)
      requires |free| <= |cfg.queues| == |credit|
    {
      demands == Demands(cfg, free, credit, |free|) && totalWeight == WeightOf(cfg, free, |free|)
    }

    static lemma SumUpOneMore(
        cfg: Config, credit: seq<int>, free: seq<int>, demands: seq<Demand>, totalWeight: int, slots: int)
      requires |free| < |cfg.queues| == |credit| && SumUp(cfg, credit, free, demands, totalWeight)
      ensures slots <= 0 ==> SumUp(cfg, credit, free + [slots], demands, totalWeight)
      ensures var q := cfg.queues[|free|];
        slots > 0 ==>
          SumUp(cfg, credit, free + [slots], demands + [Demand(|free|, slots, credit[|free|], q.name)],
                totalWeight + q.weight)
    {
      DemandsOneMore(cfg, free, slots, credit);
    }

    method ReadOne(i: nat, ghost free: seq<int>) returns (slots: int)
      requires Valid() && starting == Nobody && i < |cfg.queues| && |free| == i && StillFree(free)
      modifies this`running, this`globalRunning, this`inside, this`both, this`only, this`finished
      ensures Valid() && OnlyJobsMoved()
      ensures slots == cfg.queues[i].concurrency - running[i] && StillFree(free + [slots])
    {
      Interfere();
      slots := cfg.queues[i].concurrency - running[i];
    }

    /** Unless priority is strict: everybody earns, the demands are ranked, and the first one pays. */
    method Rank(demands: seq<Demand>, totalWeight: int, ghost free: seq<int>) returns (ranked: seq<Demand>)
      requires cfg.Valid() && |free| == |cfg.queues| == |credit|
      requires demands == Demands(cfg, free, credit, |free|) && totalWeight == WeightOf(cfg, free, |free|)
      modifies this`credit
      ensures ranked == Ranked(cfg, old(credit), free)
      ensures credit == NextCredits(cfg, old(credit), free)
    {
      ranked := demands;
      if cfg.strict || |demands| == 0 {
        NothingToRank(cfg, credit, free);
        return;
      }
      DemandedOrIdle(cfg, credit, free);
      Earn(demands, free);
      ranked := ByRank(demands, free, old(credit));
      ghost var next := FirstRankedPays(cfg, old(credit), free, credit, ranked, totalWeight);
      credit := credit[ranked[0].q := credit[ranked[0].q] - totalWeight];
    }

    method Earn(demands: seq<Demand>, ghost free: seq<int>)
      requires |credit| == |cfg.queues| == |free| && demands == Demands(cfg, free, credit, |free|)
      modifies this`credit
      ensures credit == cfg.Competing(Wanting(free)).Earned(old(credit))
    {
      DemandsInRange(cfg, free, credit, |free|);
      for i := 0 to |demands|
        invariant credit == EarnedBy(cfg, old(credit), demands[..i])
      {
        assert demands[..i + 1][..i] == demands[..i];
        var q := demands[i].q;
        credit := credit[q := credit[q] + cfg.queues[q].weight];
      }
      assert demands[..|demands|] == demands;
      LoopEarns(cfg, old(credit), free, credit);
    }

    method ByRank(demands: seq<Demand>, ghost free: seq<int>, ghost was: seq<int>) returns (ranked: seq<Demand>)
      requires |was| == |cfg.queues| == |free| && demands == Demands(cfg, free, was, |free|) && !cfg.strict
      requires credit == cfg.Competing(Wanting(free)).Earned(was)
      ensures ranked == Ranked(cfg, was, free)
    {
      ranked := Sorting.Sort(Recredited(demands, credit), RankLe);
      RankedByEarned(cfg, was, free, demands, credit);
    }

    /** If no job moved meanwhile, the counters went up by what the log claimed. */
    twostate predicate CountedUp(log: seq<Visit>)
      reads this
    {
      && old(finished) <= finished
      && (finished == old(finished) ==> Tally(log, old(running), running, old(globalRunning), globalRunning))
    }

    /** Starts every job that was claimed, one after the other, while others finish. */
    method StartJobs(q: nat, rows: nat)
      requires Valid() && starting == Nobody && q < |running|
      requires running[q] + rows <= cfg.queues[q].concurrency && globalRunning + rows <= cfg.maxWorkers
      modifies this`running, this`globalRunning, this`inside, this`both, this`only, this`starting, this`finished
      ensures Valid() && starting == Nobody && |running| == |old(running)| && old(finished) <= finished
      ensures forall i :: 0 <= i < |running| ==> running[i] <= old(running)[i] + (if i == q then rows else 0)
      ensures globalRunning <= old(globalRunning) + rows
      ensures finished == old(finished) ==>
        running == old(running)[q := old(running)[q] + rows] && globalRunning == old(globalRunning) + rows
    {
      for r := 0 to rows
        invariant Valid() && starting == Nobody && |running| == |old(running)| && old(finished) <= finished
        invariant forall i :: 0 <= i < |running| ==> running[i] <= old(running)[i] + (if i == q then r else 0)
        invariant globalRunning <= old(globalRunning) + r
        invariant finished == old(finished) ==>
          running == old(running)[q := old(running)[q] + r] && globalRunning == old(globalRunning) + r
      {
        StartJob(q);
      }
    }

    /** The demands still have their slots. */
    ghost predicate Waiting(ds: seq<Demand>)
      requires |running| == |cfg.queues|
      reads this
    {
      forall k :: 0 <= k < |ds| ==>
        ds[k].q < |running| && ds[k].free + running[ds[k].q] <= cfg.queues[ds[k].q].concurrency
    }

    lemma SlotsWait(ds: seq<Demand>, free: seq<int>)
      requires |running| == |cfg.queues| == |free| && StillFree(free) && ListsDemand(cfg, free, ds)
      ensures Apart(ds) && Waiting(ds)
    {
      forall k | 0 <= k < |ds| ensures ds[k].q < |running| && ds[k].free == free[ds[k].q] {
        assert ds[k] in ds;
      }
    }

    /** One fetch of a pass, and the start of what it claimed. */
    method ServeOne(ds: seq<Demand>, limit: int, globalFree: int, answers: seq<Answer>) returns (rows: nat)
      requires Valid() && starting == Nobody && ds != [] && Apart(ds) && Waiting(ds)
      requires 0 < limit <= ds[0].free && limit <= globalFree && globalRunning + globalFree <= cfg.maxWorkers
      modifies this`running, this`globalRunning, this`inside, this`both, this`only, this`starting, this`finished
      ensures Valid() && starting == Nobody && Waiting(ds[1..])
      ensures rows == Got(AnswerFor(answers, ds[0].q), limit)
      ensures globalRunning + (globalFree - rows) <= cfg.maxWorkers
      ensures CountedUp([Visit(ds[0].q, limit, rows)])
    {
      var d := ds[0];
      Interfere();
      rows := Got(AnswerFor(answers, d.q), limit);
      StartJobs(d.q, rows);
      TallyOfOne(Visit(d.q, limit, rows));
    }

    /** One turn of the last loop of a pass. */
    method ServeNext(ds: seq<Demand>, globalFree0: int, total: int, answers: seq<Answer>)
      returns (globalFree: int, ghost log: seq<Visit>, ghost rest: seq<Visit>)
      requires Valid() && starting == Nobody && total > 0 && ds != [] && Apart(ds) && Waiting(ds)
      requires 0 < globalFree0 && globalRunning + globalFree0 <= cfg.maxWorkers
      modifies this`running, this`globalRunning, this`inside, this`both, this`only, this`starting, this`finished
      ensures Valid() && starting == Nobody && CountedUp(log) && Waiting(ds[1..])
      ensures globalRunning + globalFree <= cfg.maxWorkers
      ensures Serve(cfg, ds, globalFree0, total, answers) == log + rest
      ensures rest == Serve(cfg, ds[1..], globalFree, total, answers) && (globalFree <= 0 ==> rest == [])
    {
      globalFree, log := globalFree0, [];
      var limit := Limit(cfg, ds[0], globalFree, total);
      rest := ServeStep(cfg, ds, globalFree, total, answers);
      if limit > 0 {
        var rows := ServeOne(ds, limit, globalFree, answers);
        globalFree := globalFree - rows;
        log := [Visit(ds[0].q, limit, rows)];
      }
    }

    /** The last loop of a pass: fetches for the demands in turn until the client is full. */
    method ServeAll(
        ranked: seq<Demand>, globalFree0: int, total: int, answers: seq<Answer>)
      returns (ghost log: seq<Visit>)
      requires Valid() && starting == Nobody && total > 0 && Apart(ranked) && Waiting(ranked)
      requires 0 < globalFree0 && globalRunning + globalFree0 <= cfg.maxWorkers
      modifies this`running, this`globalRunning, this`inside, this`both, this`only, this`starting, this`finished
      ensures Valid() && starting == Nobody && CountedUp(log)
      ensures log == Serve(cfg, ranked, globalFree0, total, answers)
    {
      log := [];
      var left, globalFree := ranked, globalFree0;
      ghost var rest := Serve(cfg, ranked, globalFree0, total, answers);
      ghost var whole := rest;
      while left != []
        invariant Valid() && starting == Nobody && CountedUp(log) && Apart(left) && Waiting(left)
        invariant 0 < globalFree && globalRunning + globalFree <= cfg.maxWorkers
        invariant whole == log + rest && rest == Serve(cfg, left, globalFree, total, answers)
        decreases |left|
      {
        ghost var mid, midAll := running, globalRunning;
        ghost var more;
        globalFree, more, rest := ServeNext(left, globalFree, total, answers);
        if finished == old(finished) {
          TallyConcat(log, more, old(running), mid, running, old(globalRunning), midAll, globalRunning);
        }
        left, log := left[1..], log + more;
        if globalFree <= 0 { return; }
      }
    }

    /** The part of a pass that reads the counters and settles the credits; log foretells what the rest
        will fetch. */
    method Decide(room: int, answers: seq<Answer>)
      returns (ranked: seq<Demand>, totalWeight: int, ghost free: seq<int>, ghost log: seq<Visit>)
      requires Valid() && starting == Nobody && |answers| == |cfg.queues|
      modifies this`credit, this`running, this`globalRunning, this`inside, this`both, this`only, this`finished
      ensures Valid() && starting == Nobody && CountersFell() && |free| == |cfg.queues|
      ensures credit == NextCredits(cfg, old(credit), free)
      ensures log == PassLog(cfg, old(credit), free, room, answers)
      ensures Apart(ranked) && Waiting(ranked)
      ensures ranked == [] ==> log == []
      ensures ranked != [] ==> totalWeight > 0 && log == Serve(cfg, ranked, room, totalWeight, answers)
      ensures FoundFree(free)
    {
      var demands;
      demands, totalWeight, free := ReadDemands();
      ghost var order;
      order, log := PassSpelledOut(cfg, credit, free, room, totalWeight, answers);
      SlotsWait(order, free);
      ranked := Rank(demands, totalWeight, free);
    }

    /** One dispatch pass. What is fetched and who is credited depends on the counters as they were
        read, on the credits and on the backend's answers, whatever the jobs do meanwhile; and if they
        do nothing the pass is a quiet one. */
    method DispatchOnce(
        answers: seq<Answer>)
      returns (ghost free: seq<int>, ghost globalFree: int, ghost log: seq<Visit>)
      requires Valid() && Credited() && starting == Nobody && |answers| == |cfg.queues|
      modifies this
      ensures Valid() && Credited() && starting == Nobody && |free| == |cfg.queues| && CountedUp(log)
      ensures globalFree == cfg.maxWorkers - old(globalRunning)
      ensures globalFree <= 0 ==> credit == old(credit) && log == []
      ensures globalFree > 0 ==> credit == NextCredits(cfg, old(credit), free)
      ensures globalFree > 0 ==> log == PassLog(cfg, old(credit), free, globalFree, answers)
      ensures passes == if globalFree <= 0 then old(passes) else old(passes) + [free]
      ensures globalFree > 0 ==> FoundFree(free)
    {
      var room := cfg.maxWorkers - globalRunning;
      globalFree, log, free := room, [], seq(|cfg.queues|, i => 0);
      if room <= 0 { return; }
      free, log := Pass(room, answers);
    }

    /** The pass itself, once there is room. */
    method Pass(room: int, answers: seq<Answer>) returns (ghost free: seq<int>, ghost log: seq<Visit>)
      requires Valid() && Credited() && starting == Nobody && |answers| == |cfg.queues|
      requires 0 < room == cfg.maxWorkers - globalRunning
      modifies this
      ensures Valid() && Credited() && starting == Nobody && |free| == |cfg.queues| && CountedUp(log)
      ensures credit == NextCredits(cfg, old(credit), free)
      ensures log == PassLog(cfg, old(credit), free, room, answers)
      ensures passes == old(passes) + [free] && FoundFree(free)
    {
      var ranked, totalWeight;
      ranked, totalWeight, free, log := Decide(room, answers);
      CreditsOnceMore(cfg, passes, free);
      passes := passes + [free];
      if |ranked| == 0 { return; }
      ghost var steps := finished - old(finished);
      log := ServeAll(ranked, room, totalWeight, answers);
      FoundStill(cfg, old(running), steps, finished - old(finished), free);
    }
  }

  /** What DispatchOnce promises of a pass during which no job gets further and no fetch fails makes it one
      of the passes that fill the pool up. */
  lemma QuietDispatchIsAPass(
      cfg: Config, credit: seq<int>, free: seq<int>, before: Load, log: seq<Visit>, running: seq<int>,
      global: int)
    requires Fits(cfg, before) && |credit| == |free| == |cfg.queues|
    requires cfg.maxWorkers <= before.global ==> log == []
    requires cfg.maxWorkers > before.global ==>
      && log == PassLog(cfg, credit, free, cfg.maxWorkers - before.global, Claims(before.work))
      && (forall q :: 0 <= q < |free| ==> free[q] == cfg.queues[q].concurrency - before.running[q])
    requires Tally(log, before.running, running, before.global, global)
    ensures IsPass(cfg, before, Load(running, global, Moved(before, log).work))
  {
    if cfg.maxWorkers > before.global { assert free == Free(cfg, before); }
    QuietCounters(cfg, credit, before, log, running, global);
  }
}
