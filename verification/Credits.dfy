/** Smooth weighted round-robin: the arithmetic of credits, pass after pass.

Queues are numbered; credits, weights, names and demand are parallel sequences. On each pass every
demanded queue earns its weight, and the demanded queue with the most credit, the first by name among
equals, is ranked first and pays the total weight of the demanded queues.
*/
module Credits {

  /** How often q is in the sequence. */
  function Times(s: seq<int>, q: int): nat {
    if s == [] then 0 else Times(s[..|s| - 1], q) + if s[|s| - 1] == q then 1 else 0
  }

  lemma {:induction false} TimesConcat(a: seq<int>, b: seq<int>, q: int)
    ensures Times(a + b, q) == Times(a, q) + Times(b, q)
  {
    if b == [] {
      assert a + b == a;
    } else {
      TimesConcat(a, b[..|b| - 1], q);
      assert (a + b)[..|a + b| - 1] == a + b[..|b| - 1];
    }
  }

  lemma OneMore(s: seq<int>, x: int, q: int)
    ensures Times(s + [x], q) == Times(s, q) + if x == q then 1 else 0
  {
    assert (s + [x])[..|s|] == s;
  }

  // ---------- Names, compared as strings.Compare does ----------

  predicate NameLe(a: string, b: string) {
    a == [] || (b != [] && (a[0] < b[0] || (a[0] == b[0] && NameLe(a[1..], b[1..]))))
  }

  lemma {:induction false} NameLeTotal(a: string, b: string)
    ensures NameLe(a, b) || NameLe(b, a)
    ensures NameLe(a, b) && NameLe(b, a) ==> a == b
  {
    if a != [] && b != [] && a[0] == b[0] {
      NameLeTotal(a[1..], b[1..]);
      assert a == [a[0]] + a[1..] && b == [b[0]] + b[1..];
    }
  }

  lemma {:induction false} NameLeTransitive(a: string, b: string, c: string)
    requires NameLe(a, b) && NameLe(b, c)
    ensures NameLe(a, c)
  {
    if a != [] && a[0] == b[0] == c[0] {
      NameLeTransitive(a[1..], b[1..], c[1..]);
    }
  }

  /** No name occurs twice. */
  ghost predicate Unrepeated(names: seq<string>) {
    forall name {:trigger multiset(names)[name]} :: multiset(names)[name] <= 1
  }

  lemma UnrepeatedDiffer(names: seq<string>, i: nat, j: nat)
    requires Unrepeated(names) && i < j < |names|
    ensures names[i] != names[j]
  {
    assert names == names[..j] + names[j..];
    assert multiset(names)[names[j]] == multiset(names[..j])[names[j]] + multiset(names[j..])[names[j]];
    assert names[..j][i] == names[i] && names[j..][0] == names[j];
  }

  // ---------- Sums ----------

  function Sum(s: seq<int>): int {
    if s == [] then 0 else Sum(s[..|s| - 1]) + s[|s| - 1]
  }

  lemma {:induction false} SumOfUpdate(s: seq<int>, i: nat, v: int)
    requires i < |s|
    ensures Sum(s[i := v]) == Sum(s) - s[i] + v
  {
    var n := |s| - 1;
    if i == n {
      assert s[i := v][..n] == s[..n];
    } else {
      assert s[i := v][..n] == s[..n][i := v];
      SumOfUpdate(s[..n], i, v);
    }
  }

  lemma LeaderPays(credits: seq<int>, earned: seq<int>, leader: nat, total: int)
    requires Sum(earned) == Sum(credits) + total && leader < |earned|
    ensures Sum(earned[leader := earned[leader] - total]) == Sum(credits)
  {
    var v := earned[leader] - total;
    SumOfUpdate(earned, leader, v);
  }

  lemma {:induction false} SumOfSum(a: seq<int>, b: seq<int>, c: seq<int>)
    requires |a| == |b| == |c| && forall i :: 0 <= i < |a| ==> c[i] == a[i] + b[i]
    ensures Sum(c) == Sum(a) + Sum(b)
  {
    if a != [] {
      var n := |a| - 1;
      SumOfSum(a[..n], b[..n], c[..n]);
    }
  }

  lemma {:induction false} PositiveSum(s: seq<int>) returns (i: nat)
    requires Sum(s) > 0
    ensures i < |s| && s[i] > 0
  {
    var n := |s| - 1;
    if s[n] > 0 { i := n; } else { i := PositiveSum(s[..n]); }
  }

  lemma {:induction false} ZeroSum(s: seq<int>)
    requires Sum(s) == 0 && forall i :: 0 <= i < |s| ==> s[i] >= 0
    ensures forall i :: 0 <= i < |s| ==> s[i] == 0
  {
    if s != [] {
      var n := |s| - 1;
      NonnegativeSum(s[..n]);
      ZeroSum(s[..n]);
    }
  }

  lemma {:induction false} NonnegativeSum(s: seq<int>)
    requires forall i :: 0 <= i < |s| ==> s[i] >= 0
    ensures Sum(s) >= 0 && forall i :: 0 <= i < |s| ==> s[i] <= Sum(s)
  {
    if s != [] { NonnegativeSum(s[..|s| - 1]); }
  }

  lemma {:induction false} SumOfZeros(s: seq<int>)
    requires forall i :: 0 <= i < |s| ==> s[i] == 0
    ensures Sum(s) == 0
  {
    if s != [] { SumOfZeros(s[..|s| - 1]); }
  }

  lemma {:induction false} SumsOrdered(a: seq<int>, b: seq<int>)
    requires |a| == |b| && forall i :: 0 <= i < |a| ==> a[i] <= b[i]
    ensures Sum(a) <= Sum(b)
  {
    if a != [] { SumsOrdered(a[..|a| - 1], b[..|a| - 1]); }
  }

  function Count(d: seq<bool>): nat {
    if d == [] then 0 else Count(d[..|d| - 1]) + if d[|d| - 1] then 1 else 0
  }

  /** Each demanded entry takes at most m away from the sum. */
  lemma {:induction false} SumFromBelow(s: seq<int>, d: seq<bool>, m: int)
    requires m >= 0 && |s| == |d| && forall i :: 0 <= i < |s| ==> s[i] >= if d[i] then -m else 0
    ensures Sum(s) >= -m * Count(d)
    ensures forall i :: 0 <= i < |s| && d[i] ==> Sum(s) >= s[i] - m * (Count(d) - 1)
  {
    if s != [] {
      var n := |s| - 1;
      SumFromBelow(s[..n], d[..n], m);
      assert -m * Count(d) == -m * Count(d[..n]) - (if d[n] then m else 0);
      forall i | 0 <= i < n && d[i] ensures Sum(s) >= s[i] - m * (Count(d) - 1) {
        assert s[..n][i] == s[i] && d[..n][i];
        assert m * (Count(d) - 1) == m * (Count(d[..n]) - 1) + (if d[n] then m else 0);
      }
      if d[n] { assert m * (Count(d) - 1) == m * Count(d[..n]); }
    }
  }

  // ---------- One pass ----------

  datatype Shares = Shares(weights: seq<int>, names: seq<string>, demand: seq<bool>) {
    ghost predicate Valid() {
      && |weights| == |names| == |demand|
      && (forall i :: 0 <= i < |weights| ==> weights[i] >= 1)
      && Unrepeated(names)
      && exists i :: 0 <= i < |demand| && demand[i]
    }

    /** What queue i earns on a pass. */
    function Earns(i: nat): int
      requires i < |weights| == |demand|
    {
      if demand[i] then weights[i] else 0
    }

    function Earnings(): (r: seq<int>)
      requires |weights| == |demand|
      ensures |r| == |weights| && forall i :: 0 <= i < |r| ==> r[i] == Earns(i)
    {
      seq(|weights|, i requires 0 <= i < |weights| => Earns(i))
    }

    function Total(): int
      requires |weights| == |demand|
    {
      Sum(Earnings())
    }

    function Earned(credits: seq<int>): (r: seq<int>)
      requires |credits| == |weights| == |demand|
      ensures |r| == |credits| && forall i :: 0 <= i < |r| ==> r[i] == credits[i] + Earns(i)
    {
      seq(|credits|, i requires 0 <= i < |credits| => credits[i] + Earns(i))
    }

    /** Queue i is ranked before queue j. */
    predicate Beats(credits: seq<int>, i: nat, j: nat)
      requires |credits| == |names| && i < |names| && j < |names|
    {
      credits[i] > credits[j] || (credits[i] == credits[j] && NameLe(names[i], names[j]))
    }

    /** The demanded queue ranked first among the first n. */
    function LeaderOf(credits: seq<int>, n: nat): (leader: int)
      requires |credits| == |names| == |demand| && n <= |names|
      ensures -1 <= leader < n && (leader >= 0 ==> demand[leader])
    {
      if n == 0 then -1
      else
        var best := LeaderOf(credits, n - 1);
        if demand[n - 1] && (best == -1 || !Beats(credits, best, n - 1)) then n - 1 else best
    }

    lemma {:induction false} LeaderLeads(credits: seq<int>, n: nat)
      requires |credits| == |names| == |demand| && n <= |names|
      ensures forall j :: 0 <= j < n && demand[j] ==>
        LeaderOf(credits, n) >= 0 && Beats(credits, LeaderOf(credits, n), j)
    {
      if n > 0 {
        LeaderLeads(credits, n - 1);
        forall j | 0 <= j < n && demand[j]
          ensures LeaderOf(credits, n) >= 0 && Beats(credits, LeaderOf(credits, n), j)
        {
          NameLeTotal(names[j], names[n - 1]);
          var best := LeaderOf(credits, n - 1);
          if j < n - 1 && demand[n - 1] && !Beats(credits, best, n - 1) {
            NameLeTotal(names[best], names[n - 1]);
            if credits[n - 1] == credits[best] == credits[j] {
              NameLeTransitive(names[n - 1], names[best], names[j]);
            }
          }
        }
      }
    }

    /** The demanded queue ranked first. */
    function Leader(credits: seq<int>): int
      requires |credits| == |names| == |demand|
    {
      LeaderOf(credits, |names|)
    }

    lemma LeaderIsDemanded(credits: seq<int>)
      requires Valid() && |credits| == |names|
      ensures 0 <= Leader(credits) < |names| && demand[Leader(credits)]
      ensures forall j :: 0 <= j < |names| && demand[j] ==> Beats(credits, Leader(credits), j)
    {
      LeaderLeads(credits, |names|);
    }

    /** Whoever beats every demanded queue is the leader. */
    lemma LeaderIsUnique(credits: seq<int>, i: nat)
      requires Valid() && |credits| == |names| && i < |names| && demand[i]
      requires forall j :: 0 <= j < |names| && demand[j] ==> Beats(credits, i, j)
      ensures i == Leader(credits)
    {
      LeaderIsDemanded(credits);
      var leader := Leader(credits);
      NameLeTotal(names[i], names[leader]);
      assert Beats(credits, leader, i) && Beats(credits, i, leader);
      if i < leader { UnrepeatedDiffer(names, i, leader); }
      if leader < i { UnrepeatedDiffer(names, leader, i); }
    }

    /** Everybody earns, and the leader pays. */
    function Pass(credits: seq<int>): (r: seq<int>)
      requires |credits| == |weights| == |names| == |demand|
      ensures |r| == |credits|
    {
      var earned := Earned(credits);
      var leader := Leader(earned);
      if leader < 0 then earned else earned[leader := earned[leader] - Total()]
    }

    /** What a pass does, in one line: the richest demanded queue pays. */
    lemma PassInBrief(credits: seq<int>) returns (leader: nat)
      requires Valid() && |credits| == |weights|
      ensures leader == Leader(Earned(credits)) && leader < |weights| && demand[leader]
      ensures forall j :: 0 <= j < |weights| && demand[j] ==> Earned(credits)[j] <= Earned(credits)[leader]
      ensures Pass(credits) == Earned(credits)[leader := Earned(credits)[leader] - Total()]
    {
      LeaderIsDemanded(Earned(credits));
      leader := Leader(Earned(credits));
    }

    lemma EarningAddsTotal(credits: seq<int>)
      requires Valid() && |credits| == |weights|
      ensures Sum(Earned(credits)) == Sum(credits) + Total()
    {
      SumOfSum(credits, Earnings(), Earned(credits));
    }

    /** Whatever the demand, a pass moves credit around and creates none. */
    lemma PassConservesCredit(credits: seq<int>)
      requires Valid() && |credits| == |weights|
      ensures Sum(Pass(credits)) == Sum(credits)
    {
      EarningAddsTotal(credits);
      var earned, leader, total := SomebodyPays(credits);
      LeaderPays(credits, earned, leader, total);
    }

    lemma SomebodyPays(credits: seq<int>) returns (earned: seq<int>, leader: nat, total: int)
      requires Valid() && |credits| == |weights|
      ensures earned == Earned(credits) && total == Total()
      ensures leader < |earned| && Pass(credits) == earned[leader := earned[leader] - total]
    {
      earned, total := Earned(credits), Total();
      leader := PassInBrief(credits);
    }

    // ---------- Passes under a fixed demand ----------

    function Zeros(): (r: seq<int>)
      ensures |r| == |weights| && forall i :: 0 <= i < |r| ==> r[i] == 0
    {
      seq(|weights|, i => 0)
    }

    function After(k: nat): (r: seq<int>)
      requires |weights| == |names| == |demand|
      ensures |r| == |weights|
    {
      if k == 0 then Zeros() else Pass(After(k - 1))
    }

    /** Who is ranked first on pass k + 1. */
    function FirstOn(k: nat): int
      requires |weights| == |names| == |demand|
    {
      Leader(Earned(After(k)))
    }

    /** Who was ranked first on passes m + 1 to m + k. */
    function Leaders(m: nat, k: nat): (r: seq<int>)
      requires |weights| == |names| == |demand|
      ensures |r| == k
    {
      if k == 0 then [] else Leaders(m, k - 1) + [FirstOn(m + k - 1)]
    }

    lemma {:induction false} LeaderAt(m: nat, k: nat, j: nat, p: nat)
      requires |weights| == |names| == |demand| && j < k && p == m + j
      ensures Leaders(m, k)[j] == FirstOn(p)
      decreases k
    {
      if j < k - 1 {
        LeaderAt(m, k - 1, j, p);
      } else {
        assert p == m + k - 1;
      }
    }

    /** How often that was queue i. */
    function Wins(m: nat, k: nat, i: nat): nat
      requires |weights| == |names| == |demand|
    {
      Times(Leaders(m, k), i)
    }

    lemma {:induction false} CreditsSumToZero(k: nat)
      requires Valid()
      ensures Sum(After(k)) == 0
    {
      if k == 0 {
        SumOfZeros(Zeros());
      } else {
        CreditsSumToZero(k - 1);
        PassConservesCredit(After(k - 1));
      }
    }

    lemma TotalIsPositive()
      requires Valid()
      ensures Total() >= 1 && forall i :: 0 <= i < |weights| ==> Earns(i) <= Total()
    {
      var i :| 0 <= i < |demand| && demand[i];
      NonnegativeSum(Earnings());
      assert Earnings()[i] <= Total();
    }

    lemma AfterNext(p: nat, n: nat)
      requires |weights| == |names| == |demand| && n == p + 1
      ensures After(n) == Pass(After(p))
    {
      assert n - 1 == p;
    }

    lemma LeadersLast(m: nat, k: nat) returns (j: nat, p: nat)
      requires |weights| == |names| == |demand| && k > 0
      ensures j == k - 1 && p == m + k - 1 && Leaders(m, k) == Leaders(m, j) + [FirstOn(p)]
    {
      j, p := k - 1, m + k - 1;
    }

    lemma LeadersNext(m: nat, j: nat, k: nat, p: nat)
      requires |weights| == |names| == |demand| && k == j + 1 && p == m + j
      ensures Leaders(m, k) == Leaders(m, j) + [Leader(Earned(After(p)))]
    {
      var i, q := LeadersLast(m, k);
      assert i == j && q == p;
    }

    lemma OneMorePayment(j: nat, k: nat, i: nat)
      requires Valid() && i < |weights| && k == j + 1
      ensures After(k)[i] == After(j)[i] + Earns(i) - (if Leader(Earned(After(j))) == i then Total() else 0)
    {
      AfterNext(j, k);
      var leader := PassInBrief(After(j));
    }

    lemma OneMoreWin(j: nat, k: nat, i: nat)
      requires Valid() && k == j + 1
      ensures Wins(0, k, i) == Wins(0, j, i) + (if Leader(Earned(After(j))) == i then 1 else 0)
    {
      LeadersNext(0, j, k, j);
      OneMore(Leaders(0, j), Leader(Earned(After(j))), i);
    }

    /** Credit is what was earned less what was paid. */
    lemma {:induction false} CreditIsEarnedMinusPaid(k: nat, i: nat)
      requires Valid() && i < |weights|
      ensures After(k)[i] == k * Earns(i) - Total() * Wins(0, k, i)
    {
      if k == 0 {
        assert Leaders(0, 0) == [];
      } else {
        var j := k - 1;
        CreditIsEarnedMinusPaid(j, i);
        OneMorePayment(j, k, i);
        OneMoreWin(j, k, i);
        OneMorePaid(j, k, Earns(i), Total(), After(j)[i], After(k)[i], Wins(0, j, i), Wins(0, k, i),
                    Leader(Earned(After(j))) == i);
      }
    }

    /** The leader always holds positive credit when it pays, so nobody falls to -W. */
    ghost predicate Bounded(c: seq<int>)
      requires |c| == |weights| == |demand|
    {
      forall i :: 0 <= i < |c| ==> if demand[i] then c[i] >= 1 - Total() else c[i] == 0
    }

    lemma PassKeepsBounds(c: seq<int>)
      requires Valid() && |c| == |weights| && Bounded(c) && Sum(c) == 0
      ensures Bounded(Pass(c))
    {
      TotalIsPositive();
      EarningAddsTotal(c);
      var rich := PositiveSum(Earned(c));
      var leader := PassInBrief(c);
      assert demand[rich];
    }

    lemma {:induction false} CreditsFromBelow(k: nat)
      requires Valid()
      ensures Bounded(After(k))
    {
      TotalIsPositive();
      if k > 0 {
        CreditsFromBelow(k - 1);
        CreditsSumToZero(k - 1);
        PassKeepsBounds(After(k - 1));
      }
    }

    /** With n demanded queues of total weight W, credits stay between -(W - 1) and (n - 1)(W - 1). */
    lemma CreditsAreBounded(k: nat, i: nat)
      requires Valid() && i < |weights| && demand[i]
      ensures 1 - Total() <= After(k)[i] <= (Count(demand) - 1) * (Total() - 1)
    {
      TotalIsPositive();
      CreditsFromBelow(k);
      CreditsSumToZero(k);
      SumFromBelow(After(k), demand, Total() - 1);
      assert (Total() - 1) * (Count(demand) - 1) == (Count(demand) - 1) * (Total() - 1);
    }

    lemma NobodyOwes(i: nat)
      requires Valid() && i < |weights|
      ensures After(TotalPasses())[i] >= 0
      ensures After(TotalPasses())[i] == Total() * (Earns(i) - Wins(0, TotalPasses(), i))
    {
      TotalIsPositive();
      CreditsFromBelow(TotalPasses());
      CreditIsEarnedMinusPaid(TotalPasses(), i);
      Factor(Total(), Earns(i), Wins(0, TotalPasses(), i));
      NotNegative(Total(), Earns(i) - Wins(0, TotalPasses(), i), After(TotalPasses())[i]);
    }

    /** After W passes everybody is square: queue i has been first exactly as often as its weight. */
    lemma FirstRoundIsExact()
      requires Valid()
      ensures After(TotalPasses()) == Zeros()
      ensures forall i :: 0 <= i < |weights| ==> Wins(0, TotalPasses(), i) == Earns(i)
    {
      TotalIsPositive();
      var c := After(TotalPasses());
      forall i | 0 <= i < |weights| ensures c[i] >= 0 { NobodyOwes(i); }
      CreditsSumToZero(TotalPasses());
      ZeroSum(c);
      forall i | 0 <= i < |weights| ensures Wins(0, TotalPasses(), i) == Earns(i) {
        NobodyOwes(i);
        NoZeroProduct(Total(), Earns(i) - Wins(0, TotalPasses(), i));
      }
    }

    /** W as a number of passes. */
    function TotalPasses(): nat
      requires |weights| == |demand|
    {
      if Total() < 0 then 0 else Total()
    }

    lemma NothingYet(w: nat, k: nat, n: nat)
      requires |weights| == |names| == |demand| && k == 0 && n == w
      ensures After(n) == After(w) && After(k) == Zeros() && Leaders(w, k) == Leaders(0, k) == []
    {
    }

    /** Where the credits are zero everything starts over. */
    lemma {:induction false} StartsOver(w: nat, k: nat, n: nat)
      requires |weights| == |names| == |demand| && After(w) == Zeros() && n == w + k
      ensures After(n) == After(k) && Leaders(w, k) == Leaders(0, k)
      decreases k
    {
      if k == 0 {
        NothingYet(w, k, n);
      } else {
        var j, p := k - 1, n - 1;
        StartsOver(w, j, p);
        AfterNext(p, n);
        AfterNext(j, k);
        LeadersNext(w, j, k, p);
        LeadersNext(0, j, k, j);
      }
    }

    /** The credits repeat with period W. */
    lemma Periodic(k: nat)
      requires Valid()
      ensures After(k + TotalPasses()) == After(k)
    {
      FirstRoundIsExact();
      StartsOver(TotalPasses(), k, k + TotalPasses());
    }

    lemma {:induction false} LeadersSplit(a: nat, b: nat, n: nat)
      requires |weights| == |names| == |demand| && n == a + b
      ensures Leaders(0, n) == Leaders(0, a) + Leaders(a, b)
      decreases b
    {
      if b == 0 {
        assert n == a;
      } else {
        var j, p := b - 1, n - 1;
        LeadersSplit(a, j, p);
        LeadersNext(a, j, b, p);
        LeadersNext(0, p, n, p);
        Regroup(Leaders(0, a), Leaders(a, j), [Leader(Earned(After(p)))]);
      }
    }

    static lemma Regroup(x: seq<int>, y: seq<int>, z: seq<int>)
      ensures x + (y + z) == (x + y) + z
    {
    }

    lemma WinsSplit(a: nat, b: nat, n: nat, i: nat)
      requires |weights| == |names| == |demand| && n == a + b
      ensures Wins(0, n, i) == Wins(0, a, i) + Wins(a, b, i)
    {
      LeadersSplit(a, b, n);
      TimesConcat(Leaders(0, a), Leaders(a, b), i);
    }

    /** Exact weighted shares: in any W consecutive passes queue i is ranked first exactly as often as
        its weight, and not at all if it has no demand. */
    lemma SharesAreExact(m: nat, i: nat)
      requires Valid() && i < |weights|
      ensures Wins(m, TotalPasses(), i) == if demand[i] then weights[i] else 0
    {
      var w := TotalPasses();
      FirstRoundIsExact();
      var n := w + m;
      WinsSplit(m, w, n, i);
      WinsSplit(w, m, n, i);
      StartsOver(w, m, n);
    }
  }

  lemma Scale1(x: int, y: int)
    requires x >= 1 && y >= 1
    ensures x * y >= 1
  {
  }

  lemma CeilingIsPositive(x: int, y: int)
    requires x >= 1 && y >= 1
    ensures (x + y - 1) / y >= 1
  {
  }

  lemma OneMorePaid(j: int, k: int, e: int, w: int, before: int, after: int, won: int, wins: int, first: bool)
    requires k == j + 1 && before == j * e - w * won
    requires after == before + e - (if first then w else 0) && wins == won + (if first then 1 else 0)
    ensures after == k * e - w * wins
  {
    assert k * e == j * e + e && (first ==> w * wins == w * won + w);
  }

  lemma Factor(w: int, x: int, y: int)
    ensures w * x - w * y == w * (x - y)
  {
  }

  lemma NotNegative(w: int, x: int, c: int)
    requires w >= 1 && c == w * x && c >= 1 - w
    ensures x >= 0 && c >= 0
  {
    assert x < 0 ==> w * x <= -w;
  }

  lemma NoZeroProduct(w: int, x: int)
    requires w >= 1 && w * x == 0
    ensures x == 0
  {
  }
}
