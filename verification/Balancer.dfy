// The Connection Balancer (internal/scheduler/balancer.go): how a connection budget is
// split over a batch of files.
module Balancer {
  import opened Chunks
  import opened Sums

  const DEFAULT_MAX_CONNECTIONS := 32

  datatype FileInput = FileInput(url: string, supportsRange: bool)

  datatype Allocation = Allocation(url: string, connections: int, supportsRange: bool)

  datatype Warning = AboveCeiling(ceiling: int) | SplitIgnored(split: int)

  datatype Plan = Plan(parallel: seq<Allocation>, queued: seq<Allocation>, warnings: seq<Warning>,
                       budget: int, rebalances: bool)

  datatype Refusal = NoUrls | BudgetBelowOne | SplitAboveBudget

  datatype Outcome = Planned(plan: Plan) | Refused(why: Refusal)

  // ----- round-robin shares -----

  function Eligible(skip: seq<bool>): nat
  {
    if skip == [] then 0 else Eligible(skip[..|skip| - 1]) + (if skip[|skip| - 1] then 0 else 1)
  }

  // Position of slot i among the eligible ones.
  function Rank(skip: seq<bool>, i: nat): nat
    requires i <= |skip|
  {
    Eligible(skip[..i])
  }

  // What slot i gets when `budget` is dealt one at a time over the eligible slots.
  function Share(skip: seq<bool>, budget: int, i: nat): int
    requires i < |skip|
  {
    if skip[i] || budget <= 0 || Eligible(skip) == 0 then 0
    else budget / Eligible(skip) + (if Rank(skip, i) < budget % Eligible(skip) then 1 else 0)
  }

  function Shares(skip: seq<bool>, budget: int): (a: seq<int>)
    ensures |a| == |skip| && forall i :: 0 <= i < |skip| ==> a[i] == Share(skip, budget, i)
  {
    seq(|skip|, i requires 0 <= i < |skip| => Share(skip, budget, i))
  }

  function Dealt(conns: seq<int>, budget: int, skip: seq<bool>): (a: seq<int>)
    requires |conns| == |skip|
    ensures |a| == |conns| && forall i :: 0 <= i < |conns| ==> a[i] == conns[i] + Share(skip, budget, i)
  {
    seq(|conns|, i requires 0 <= i < |conns| => conns[i] + Share(skip, budget, i))
  }

  lemma RankStep(skip: seq<bool>, i: nat)
    requires i < |skip|
    ensures Rank(skip, i + 1) == Rank(skip, i) + (if skip[i] then 0 else 1)
    ensures Rank(skip, |skip|) == Eligible(skip)
  {
    assert skip[..i + 1][..i] == skip[..i];
    assert skip[..|skip|] == skip;
  }

  lemma {:induction false} RankMonotone(skip: seq<bool>, i: nat, k: nat)
    requires i <= k <= |skip|
    ensures Rank(skip, i) <= Rank(skip, k)
    ensures i < k && !skip[i] ==> Rank(skip, i) < Rank(skip, k)
  {
    if i < k {
      RankMonotone(skip, i, k - 1);
      RankStep(skip, k - 1);
    }
  }

  lemma RankBelow(skip: seq<bool>, i: nat)
    requires i < |skip| && !skip[i]
    ensures Rank(skip, i) < Eligible(skip)
  {
    RankMonotone(skip, i, |skip|);
    RankStep(skip, i);
  }

  // The first slots get the remainder.
  lemma SharesFall(skip: seq<bool>, budget: int, i: nat, k: nat)
    requires i <= k < |skip| && !skip[i] && !skip[k]
    ensures Share(skip, budget, k) <= Share(skip, budget, i) <= Share(skip, budget, k) + 1
    ensures 0 <= Share(skip, budget, k)
  {
    RankMonotone(skip, i, k);
  }

  lemma NextTerm(r: nat, q: int, m: int)
    ensures (r + 1) * q + Min(r + 1, m) == r * q + Min(r, m) + q + (if r < m then 1 else 0)
  {
  }

  lemma {:induction false} PrefixSum(skip: seq<bool>, budget: int, i: nat)
    requires i <= |skip| && budget > 0 && Eligible(skip) > 0
    ensures var k := Eligible(skip);
            Sum(Shares(skip, budget)[..i]) == Rank(skip, i) * (budget / k) + Min(Rank(skip, i), budget % k)
  {
    var a := Shares(skip, budget);
    if i == 0 {
      assert a[..0] == [];
    } else {
      PrefixSum(skip, budget, i - 1);
      assert a[..i] == a[..i - 1] + [a[i - 1]];
      SumAppend(a[..i - 1], a[i - 1]);
      RankStep(skip, i - 1);
      NextTerm(Rank(skip, i - 1), budget / Eligible(skip), budget % Eligible(skip));
    }
  }

  lemma WholeAndRest(b: int, k: int)
    requires k > 0
    ensures k * (b / k) + Min(k, b % k) == b
  {
  }

  // Nothing is lost and nothing invented: the shares add up to the budget.
  lemma SharesConserve(skip: seq<bool>, budget: int)
    ensures Sum(Shares(skip, budget)) == if budget > 0 && Eligible(skip) > 0 then budget else 0
  {
    var a, k := Shares(skip, budget), Eligible(skip);
    if budget > 0 && k > 0 {
      PrefixSum(skip, budget, |skip|);
      assert a[..|skip|] == a && skip[..|skip|] == skip;
      WholeAndRest(budget, k);
    } else {
      SumZero(a);
    }
  }

  lemma DealtConserves(conns: seq<int>, budget: int, skip: seq<bool>)
    requires |conns| == |skip|
    ensures Sum(Dealt(conns, budget, skip)) == Sum(conns) + if budget > 0 && Eligible(skip) > 0 then budget else 0
  {
    SharesConserve(skip, budget);
    SumAdd(conns, Shares(skip, budget), Dealt(conns, budget, skip));
  }

  lemma {:induction false} EligibleAny(skip: seq<bool>)
    ensures Eligible(skip) > 0 <==> exists i :: 0 <= i < |skip| && !skip[i]
  {
    if skip != [] {
      var n := |skip| - 1;
      EligibleAny(skip[..n]);
      if i :| 0 <= i < |skip| && !skip[i] {
        if i < n { assert !skip[..n][i]; }
      }
      if i :| 0 <= i < n && !skip[..n][i] {
        assert !skip[i];
      }
    }
  }

  // ----- the round-robin loop -----

  function SkipOf(skip: array?<bool>, n: nat): (s: seq<bool>)
    requires skip != null ==> skip.Length == n
    reads skip
    ensures |s| == n
  {
    if skip == null then seq(n, _ => false) else skip[..]
  }

  // After `rounds` full passes and a part of the next that has passed `next` slots.
  ghost predicate DealtSoFar(now: seq<int>, was: seq<int>, skip: seq<bool>, rounds: nat, next: nat)
  {
    |now| == |was| == |skip| && next <= |skip| &&
    forall i :: 0 <= i < |was| ==> now[i] == was[i] + (if skip[i] then 0 else rounds + (if i < next then 1 else 0))
  }

  lemma MulAtLeast(x: int, k: int)
    requires k > 0
    ensures x >= 1 ==> x * k >= k
  {
  }

  lemma DivMod(b: int, k: int, q: int, r: int)
    requires k > 0 && b == q * k + r && 0 <= r < k
    ensures b / k == q && b % k == r
  {
    var d := b / k;
    assert d * k + b % k == b;
    assert (d - q) * k == d * k - q * k && (q - d) * k == q * k - d * k;
    MulAtLeast(d - q, k);
    MulAtLeast(q - d, k);
  }

  lemma Quotients(b: int, k: int, t: nat, m: int)
    requires 0 < m <= k && b == t * k + m
    ensures b > 0
    ensures if m == k then b / k == t + 1 && b % k == 0 else b / k == t && b % k == m
  {
    if m == k {
      assert (t + 1) * k == t * k + k;
      DivMod(b, k, t + 1, 0);
    } else {
      DivMod(b, k, t, m);
    }
    assert t * k >= 0;
  }

  lemma RanksAround(skip: seq<bool>, next: nat, i: nat)
    requires i < |skip| && next <= |skip| && !skip[i]
    ensures Rank(skip, next) <= Eligible(skip) && Rank(skip, i) < Eligible(skip)
    ensures i < next <==> Rank(skip, i) < Rank(skip, next)
  {
    RankBelow(skip, i);
    RankMonotone(skip, next, |skip|);
    assert skip[..|skip|] == skip;
    if i < next { RankMonotone(skip, i, next); } else { RankMonotone(skip, next, i); }
  }

  // A slot's share when dealing stops inside a pass.
  lemma ShareAtEnd(skip: seq<bool>, budget: int, rounds: nat, next: nat, i: nat)
    requires i < |skip| && next <= |skip| && !skip[i]
    requires budget == rounds * Eligible(skip) + Rank(skip, next) && Rank(skip, next) > 0
    ensures Share(skip, budget, i) == rounds + (if i < next then 1 else 0)
  {
    RanksAround(skip, next, i);
    Quotients(budget, Eligible(skip), rounds, Rank(skip, next));
  }

  lemma DealEnds(now: seq<int>, was: seq<int>, skip: seq<bool>, budget: int, rounds: nat, next: nat)
    requires DealtSoFar(now, was, skip, rounds, next) && Eligible(skip) > 0
    requires budget == rounds * Eligible(skip) + Rank(skip, next) && Rank(skip, next) > 0
    ensures now == Dealt(was, budget, skip)
  {
    forall i | 0 <= i < |was| && !skip[i]
      ensures now[i] == was[i] + Share(skip, budget, i)
    {
      ShareAtEnd(skip, budget, rounds, next, i);
    }
  }

  lemma DealOne(now: seq<int>, was: seq<int>, skip: seq<bool>, rounds: nat, i: nat)
    requires DealtSoFar(now, was, skip, rounds, i) && i < |skip|
    ensures DealtSoFar(if skip[i] then now else now[i := now[i] + 1], was, skip, rounds, i + 1)
  {
  }

  lemma PassEnds(now: seq<int>, was: seq<int>, skip: seq<bool>, rounds: nat)
    requires DealtSoFar(now, was, skip, rounds, |skip|)
    ensures DealtSoFar(now, was, skip, rounds + 1, 0)
    ensures Rank(skip, |skip|) == Eligible(skip)
    ensures (rounds + 1) * Eligible(skip) == rounds * Eligible(skip) + Eligible(skip)
  {
    assert skip[..|skip|] == skip;
  }

  // The guard against an all-skipped set.
  method AnyEligible(skip: array?<bool>, n: nat) returns (any: bool)
    requires skip != null ==> skip.Length == n
    ensures any <==> Eligible(SkipOf(skip, n)) > 0
  {
    ghost var s := SkipOf(skip, n);
    EligibleAny(s);
    any := false;
    for i := 0 to n
      invariant !any && forall k :: 0 <= k < i ==> s[k]
    {
      if skip == null || !skip[i] {
        return true;
      }
    }
  }

  method Distribute(conns: array<int>, budget: int, skip: array?<bool>)
    requires skip != null ==> skip.Length == conns.Length
    modifies conns
    ensures conns[..] == Dealt(old(conns[..]), budget, old(SkipOf(skip, conns.Length)))
  {
    var n := conns.Length;
    ghost var was, s := conns[..], SkipOf(skip, n);
    if budget <= 0 || n == 0 {
      return;
    }
    var any := AnyEligible(skip, n);
    if !any {
      return;
    }
    var left := budget;
    ghost var rounds := 0;
    while left > 0
      invariant 0 <= left && (left == 0 ==> conns[..] == Dealt(was, budget, s))
      invariant left > 0 ==> DealtSoFar(conns[..], was, s, rounds, 0) && left == budget - rounds * Eligible(s)
      decreases left
    {
      ghost var start := left;
      var advanced;
      ghost var next;
      left, advanced, next := Round(conns, left, skip, was, rounds);
      if left > 0 {
        PassEnds(conns[..], was, s, rounds);
      } else {
        DealEnds(conns[..], was, s, budget, rounds, next);
      }
      rounds := rounds + 1;
      if !advanced {
        break;
      }
    }
  }

  // One pass over the slots; it stops where the budget is spent.
  method Round(conns: array<int>, budget: int, skip: array?<bool>, ghost was: seq<int>, ghost rounds: nat)
    returns (left: int, advanced: bool, ghost next: nat)
    requires skip != null ==> skip.Length == conns.Length
    requires budget > 0 && DealtSoFar(conns[..], was, SkipOf(skip, conns.Length), rounds, 0)
    modifies conns
    ensures var s := old(SkipOf(skip, conns.Length));
            && next <= |s| && DealtSoFar(conns[..], was, s, rounds, next) && 0 <= left == budget - Rank(s, next)
            && (left > 0 ==> next == |s|) && (advanced <==> left < budget)
  {
    var n := conns.Length;
    ghost var s := SkipOf(skip, n);
    left, advanced, next := budget, false, n;
    for i := 0 to n
      invariant 0 < left == budget - Rank(s, i) && (advanced <==> left < budget) && next == n
      invariant DealtSoFar(conns[..], was, s, rounds, i)
    {
      RankStep(s, i);
      ghost var now := conns[..];
      DealOne(now, was, s, rounds, i);
      if skip != null && skip[i] {
        continue;
      }
      conns[i] := conns[i] + 1;
      assert conns[..] == now[i := now[i] + 1];
      left := left - 1;
      advanced := true;
      if left == 0 {
        next := i + 1;
        return;
      }
    }
  }

  // ----- the three modes -----

  function NonRange(files: seq<FileInput>): (s: seq<bool>)
    ensures |s| == |files| && forall i :: 0 <= i < |files| ==> s[i] == !files[i].supportsRange
  {
    seq(|files|, i requires 0 <= i < |files| => !files[i].supportsRange)
  }

  function Counts(a: seq<Allocation>): (c: seq<int>)
    ensures |c| == |a| && forall i :: 0 <= i < |a| ==> c[i] == a[i].connections
  {
    seq(|a|, i requires 0 <= i < |a| => a[i].connections)
  }

  // The allocations name the files, in order.
  predicate Names(a: seq<Allocation>, files: seq<FileInput>)
  {
    |a| == |files| && forall i :: 0 <= i < |a| ==>
        a[i].url == files[i].url && a[i].supportsRange == files[i].supportsRange
  }

  function ParallelFiles(c: int, n: int, split: int, ceiling: int): int
    requires split != 0
  {
    Max(1, Min(Truncated(c, split), Min(n, ceiling)))
  }

  function Excess(conns: seq<int>, skip: seq<bool>): (a: seq<int>)
    requires |conns| == |skip|
    ensures |a| == |conns| && forall i :: 0 <= i < |a| ==> a[i] == if skip[i] && conns[i] > 1 then conns[i] - 1 else 0
  {
    seq(|conns|, i requires 0 <= i < |conns| => if skip[i] && conns[i] > 1 then conns[i] - 1 else 0)
  }

  function Capped(conns: seq<int>, skip: seq<bool>): (a: seq<int>)
    requires |conns| == |skip|
    ensures |a| == |conns| && forall i :: 0 <= i < |a| ==> a[i] == conns[i] - Excess(conns, skip)[i]
  {
    seq(|conns|, i requires 0 <= i < |conns| => conns[i] - Excess(conns, skip)[i])
  }

  function Even(n: nat, split: int): (a: seq<int>)
    ensures |a| == n && forall i :: 0 <= i < n ==> a[i] == split
  {
    seq(n, _ => split)
  }

  // The remainder is dealt over the files that can use it.
  function FirstDeal(c: int, split: int, skip: seq<bool>): (a: seq<int>)
    ensures |a| == |skip|
  {
    Dealt(Even(|skip|, split), c - |skip| * split, skip)
  }

  // Mode C over the parallel files: deal the remainder, cap the single-stream files at one,
  // deal what that freed.
  function SplitBudget(c: int, split: int, skip: seq<bool>): (a: seq<int>)
    ensures |a| == |skip|
  {
    var first := FirstDeal(c, split, skip);
    Dealt(Capped(first, skip), Sum(Excess(first, skip)), skip)
  }

  method ModeA(c: int, files: seq<FileInput>, ceiling: int) returns (a: seq<Allocation>)
    requires |files| == 1 && c >= 1 && ceiling >= 1
    ensures Names(a, files) && a[0].connections == if files[0].supportsRange then Min(c, ceiling) else 1
  {
    var conns := Min(c, ceiling);
    if !files[0].supportsRange {
      conns := 1;
    }
    a := [Allocation(files[0].url, conns, files[0].supportsRange)];
  }

  method ModeB(c: int, files: seq<FileInput>, ceiling: int) returns (parallel: seq<Allocation>, queued: seq<Allocation>)
    requires |files| > 1 && c >= 1 && ceiling >= 1
    ensures Names(parallel + queued, files) && |parallel| == Min(c, Min(|files|, ceiling))
    ensures forall a :: a in parallel + queued ==> a.connections == 1
  {
    parallel, queued := [], [];
    var slot := Min(c, Min(|files|, ceiling));
    for i := 0 to |files|
      invariant Names(parallel + queued, files[..i]) && |parallel| == Min(i, slot)
      invariant forall a :: a in parallel + queued ==> a.connections == 1
    {
      var a := Allocation(files[i].url, 1, files[i].supportsRange);
      if i < slot {
        parallel := parallel + [a];
      } else {
        queued := queued + [a];
      }
    }
  }

  lemma ExcessNext(first: seq<int>, skip: seq<bool>, i: nat)
    requires |first| == |skip| && i < |first|
    ensures Sum(Excess(first, skip)[..i + 1]) == Sum(Excess(first, skip)[..i]) + Excess(first, skip)[i]
  {
    assert Excess(first, skip)[..i + 1] == Excess(first, skip)[..i] + [Excess(first, skip)[i]];
    SumAppend(Excess(first, skip)[..i], Excess(first, skip)[i]);
  }

  // The reallocation loop: cap the single-stream files at one and count what that frees.
  method CapSingleStreams(conns: array<int>, nonRange: array<bool>) returns (freed: int)
    requires nonRange.Length == conns.Length
    modifies conns
    ensures conns[..] == Capped(old(conns[..]), nonRange[..]) && freed == Sum(Excess(old(conns[..]), nonRange[..]))
  {
    var k := conns.Length;
    ghost var first, skip := conns[..], nonRange[..];
    ghost var excess := Excess(first, skip);
    freed := 0;
    for i := 0 to k
      invariant forall x :: 0 <= x < k ==> conns[x] == if x < i then first[x] - excess[x] else first[x]
      invariant freed == Sum(excess[..i])
    {
      ExcessNext(first, skip, i);
      assert excess[i] == if nonRange[i] && first[i] > 1 then first[i] - 1 else 0;
      if nonRange[i] && conns[i] > 1 {
        freed := freed + conns[i] - 1;
        conns[i] := 1;
      }
    }
    assert excess[..k] == excess;
  }

  lemma NothingFreed(first: seq<int>, skip: seq<bool>, freed: int)
    requires |first| == |skip| && freed <= 0
    ensures Dealt(Capped(first, skip), freed, skip) == Capped(first, skip)
  {
  }

  // The connection counts of the parallel files.
  method SplitOver(c: int, split: int, nonRange: array<bool>) returns (conns: array<int>)
    ensures fresh(conns) && conns[..] == SplitBudget(c, split, nonRange[..])
  {
    var k := nonRange.Length;
    conns := new int[k](_ => split);
    var used := k * split;
    ghost var skip := nonRange[..];
    assert conns[..] == Even(k, split);
    Distribute(conns, c - used, nonRange);
    ghost var first := conns[..];
    assert first == FirstDeal(c, split, skip);
    var freed := CapSingleStreams(conns, nonRange);
    if freed > 0 {
      Distribute(conns, freed, nonRange);
    } else {
      NothingFreed(first, skip, freed);
    }
  }

  // The allocation of file i when the first |counts| files run.
  function Allotted(files: seq<FileInput>, counts: seq<int>, split: int, i: nat): Allocation
    requires i < |files|
  {
    var f := files[i];
    Allocation(f.url, if i < |counts| then counts[i] else if f.supportsRange then split else 1, f.supportsRange)
  }

  lemma AllAllotted(files: seq<FileInput>, counts: seq<int>, split: int, parallel: seq<Allocation>,
      queued: seq<Allocation>)
    requires |counts| == |parallel| && |files| == |parallel| + |queued|
    requires forall x :: 0 <= x < |parallel| ==> parallel[x] == Allotted(files, counts, split, x)
    requires forall x :: 0 <= x < |queued| ==> queued[x] == Allotted(files, counts, split, |counts| + x)
    ensures Names(parallel + queued, files) && Counts(parallel) == counts
    ensures forall a :: a in queued ==> a.connections == if a.supportsRange then split else 1
  {
    var all := parallel + queued;
    forall i | 0 <= i < |all|
      ensures all[i] == Allotted(files, counts, split, i)
    {
      if i >= |parallel| { assert all[i] == queued[i - |parallel|]; }
    }
  }

  // The files with a count run, the others wait with the split (one if single-stream).
  method Assign(files: seq<FileInput>, counts: seq<int>, split: int)
    returns (parallel: seq<Allocation>, queued: seq<Allocation>)
    requires |counts| <= |files|
    ensures Names(parallel + queued, files) && Counts(parallel) == counts
    ensures forall a :: a in queued ==> a.connections == if a.supportsRange then split else 1
  {
    parallel, queued := [], [];
    for i := 0 to |files|
      invariant |parallel| == Min(i, |counts|) && |queued| == i - |parallel|
      invariant forall x :: 0 <= x < |parallel| ==> parallel[x] == Allotted(files, counts, split, x)
      invariant forall x :: 0 <= x < |queued| ==> queued[x] == Allotted(files, counts, split, |counts| + x)
    {
      var a := Allocation(files[i].url, 1, files[i].supportsRange);
      if i < |counts| {
        parallel := parallel + [a.(connections := counts[i])];
      } else {
        queued := queued + [a.(connections := if !files[i].supportsRange then 1 else split)];
      }
    }
    AllAllotted(files, counts, split, parallel, queued);
  }

  method ModeC(c: int, files: seq<FileInput>, split: int, ceiling: int)
    returns (parallel: seq<Allocation>, queued: seq<Allocation>)
    requires |files| > 1 && split != 0 && split <= c && ceiling >= 1
    ensures var k := ParallelFiles(c, |files|, split, ceiling);
            k <= |files| && Names(parallel + queued, files)
                && Counts(parallel) == SplitBudget(c, split, NonRange(files[..k]))
    ensures forall a :: a in queued ==> a.connections == if a.supportsRange then split else 1
  {
    var n := |files|;
    var k := Max(1, Min(Truncated(c, split), Min(n, ceiling)));
    var nonRange := new bool[k](i requires 0 <= i < n => !files[i].supportsRange);
    assert nonRange[..] == NonRange(files[..k]);
    var conns := SplitOver(c, split, nonRange);
    parallel, queued := Assign(files, conns[..], split);
  }

  // ----- conservation and fairness of Mode C -----

  lemma SplitFits(c: int, n: int, split: int, ceiling: int)
    requires n >= 1 && 1 <= split <= c && ceiling >= 1
    ensures var k := ParallelFiles(c, n, split, ceiling);
            1 <= k <= c / split <= c && k <= n && k <= ceiling && k * split <= c
  {
    var k := ParallelFiles(c, n, split, ceiling);
    assert c / split >= 1 by { DivAtLeast(c, split, 1); }
    assert (c / split) * split <= c;
    MulMonotone(k, c / split, split);
    DivAtMost(c, split);
  }

  lemma DivAtLeast(c: int, d: int, q: int)
    requires d >= 1 && q * d <= c
    ensures c / d >= q
  {
    assert c == (c / d) * d + c % d;
    assert (q - c / d) * d == q * d - (c / d) * d;
    MulAtLeast(q - c / d, d);
  }

  lemma DivAtMost(c: int, d: int)
    requires d >= 1 && c >= 0
    ensures c / d <= c
  {
    var q := c / d;
    assert c == q * d + c % d;
    MulMonotone(1, d, q);
  }

  lemma SplitShare(c: int, split: int, skip: seq<bool>, i: nat)
    requires i < |skip| && !skip[i]
    ensures var first := FirstDeal(c, split, skip);
            SplitBudget(c, split, skip)[i]
            == split + Share(skip, c - |skip| * split, i) + Share(skip, Sum(Excess(first, skip)), i)
  {
    assert Capped(FirstDeal(c, split, skip), skip)[i] == FirstDeal(c, split, skip)[i];
  }

  // A range-capable file's count is the split plus two shares.
  lemma SplitShares(c: int, split: int, skip: seq<bool>) returns (rest: int, freed: int)
    ensures forall i :: 0 <= i < |skip| && !skip[i] ==>
              SplitBudget(c, split, skip)[i] == split + Share(skip, rest, i) + Share(skip, freed, i)
  {
    var first := FirstDeal(c, split, skip);
    rest, freed := c - |skip| * split, Sum(Excess(first, skip));
    forall i | 0 <= i < |skip| && !skip[i]
      ensures SplitBudget(c, split, skip)[i] == split + Share(skip, rest, i) + Share(skip, freed, i)
    {
      SplitShare(c, split, skip, i);
    }
  }

  lemma TwoSharesFall(skip: seq<bool>, rest: int, freed: int, i: nat, k: nat)
    requires i <= k < |skip| && !skip[i] && !skip[k]
    ensures 0 <= Share(skip, rest, k) + Share(skip, freed, k) <= Share(skip, rest, i) + Share(skip, freed, i)
    ensures Share(skip, rest, i) + Share(skip, freed, i) <= Share(skip, rest, k) + Share(skip, freed, k) + 2
  {
    SharesFall(skip, rest, i, k);
    SharesFall(skip, freed, i, k);
  }

  lemma SplitConserves(c: int, split: int, skip: seq<bool>)
    requires 1 <= split && |skip| * split <= c && Eligible(skip) > 0
    ensures Sum(SplitBudget(c, split, skip)) == c
  {
    var even, first := Even(|skip|, split), FirstDeal(c, split, skip);
    SumConstant(even, split);
    DealtConserves(even, c - |skip| * split, skip);
    SumAdd(Excess(first, skip), Capped(first, skip), first);
    SumNonNegative(Excess(first, skip));
    DealtConserves(Capped(first, skip), Sum(Excess(first, skip)), skip);
  }

  lemma SplitOfSingles(c: int, split: int, skip: seq<bool>)
    requires 1 <= split && Eligible(skip) == 0
    ensures Sum(SplitBudget(c, split, skip)) == |skip|
  {
    EligibleAny(skip);
    SumConstant(SplitBudget(c, split, skip), 1);
  }

  // Single-stream files get one connection; the others at least the split each, earlier
  // files never less than later ones and never more than two above; the budget is spent to
  // the last connection unless no file can use it.
  lemma SplitIsFair(c: int, split: int, skip: seq<bool>)
    requires 1 <= split && |skip| * split <= c
    ensures var a := SplitBudget(c, split, skip);
            && (forall i :: 0 <= i < |a| && skip[i] ==> a[i] == 1)
            && (forall i :: 0 <= i < |a| && !skip[i] ==> a[i] >= split)
            && (forall i, k :: 0 <= i < k < |a| && !skip[i] && !skip[k] ==> a[k] <= a[i] <= a[k] + 2)
            && Sum(a) == if Eligible(skip) > 0 then c else |skip|
  {
    var a := SplitBudget(c, split, skip);
    var rest, freed := SplitShares(c, split, skip);
    forall i, k | 0 <= i <= k < |a| && !skip[i] && !skip[k]
      ensures split <= a[k] <= a[i] <= a[k] + 2
    {
      TwoSharesFall(skip, rest, freed, i, k);
    }
    if Eligible(skip) > 0 { SplitConserves(c, split, skip); } else { SplitOfSingles(c, split, skip); }
  }

  // ----- the balancer -----

  method Compute(c: int, files: seq<FileInput>, split: int, maxConnections: int) returns (out: Outcome)
    ensures out.Refused? <==> |files| == 0 || c < 1 || (|files| > 1 && split > c)
    ensures out.Refused? ==>
              out.why == if |files| == 0 then NoUrls else if c < 1 then BudgetBelowOne else SplitAboveBudget
    ensures out.Planned? ==> Sensible(out.plan, c, files, split, if maxConnections <= 0 then 32 else maxConnections)
  {
    var ceiling := if maxConnections <= 0 then DEFAULT_MAX_CONNECTIONS else maxConnections;
    if |files| == 0 {
      return Refused(NoUrls);
    }
    if c < 1 {
      return Refused(BudgetBelowOne);
    }
    var warnings := if c > ceiling then [AboveCeiling(ceiling)] else [];
    var sf := split;
    if |files| == 1 && sf > 0 {
      warnings := warnings + [SplitIgnored(sf)];
      sf := 0;
    }
    if sf > c {
      return Refused(SplitAboveBudget);
    }
    var parallel, queued := [], [];
    if |files| == 1 {
      parallel := ModeA(c, files, ceiling);
      OneArranged(c, files, split, ceiling, parallel);
    } else if sf == 0 {
      parallel, queued := ModeB(c, files, ceiling);
      OnesArranged(c, files, ceiling, parallel, queued);
    } else {
      parallel, queued := ModeC(c, files, sf, ceiling);
      SplitArranged(c, files, sf, ceiling, parallel, queued);
    }
    out := Planned(Plan(parallel, queued, warnings, c, |files| > 1 && sf != 0));
  }

  ghost predicate Served(parallel: seq<Allocation>, queued: seq<Allocation>)
  {
    forall a :: a in parallel + queued ==> a.connections >= 1
  }

  lemma OnesFit(c: int, parallel: seq<Allocation>, queued: seq<Allocation>)
    requires |parallel| <= c && forall a :: a in parallel + queued ==> a.connections == 1
    ensures Sum(Counts(parallel)) <= c && Served(parallel, queued)
  {
    forall i | 0 <= i < |parallel|
      ensures Counts(parallel)[i] == 1
    {
      assert parallel[i] in parallel + queued;
    }
    SumConstant(Counts(parallel), 1);
  }

  lemma AloneFits(c: int, a: Allocation)
    requires 1 <= a.connections <= c
    ensures Sum(Counts([a])) <= c && Served([a], [])
  {
    SumConstant(Counts([a]), a.connections);
  }

  // Nobody is left without a connection: the split is not negative, or nobody feels it.
  predicate AllServed(files: seq<FileInput>, split: int)
  {
    split >= 0 || |files| == 1
    || (|files| > 1 && files[0].supportsRange && forall i :: 1 <= i < |files| ==> !files[i].supportsRange)
  }

  // What every plan promises.
  ghost predicate Sensible(p: Plan, c: int, files: seq<FileInput>, split: int, ceiling: int)
  {
    && p.budget == c && (p.rebalances <==> |files| > 1 && split != 0)
    && (AboveCeiling(ceiling) in p.warnings <==> c > ceiling)
    && (SplitIgnored(split) in p.warnings <==> |files| == 1 && split > 0)
    && Arranged(p.parallel, p.queued, c, files, split, ceiling)
  }

  // The files in their order, each once; at least one slot and no more than budget and ceiling
  // allow; never more than the budget in use at once, and all of it put to use; and at least
  // one connection for every file, unless a negative split reaches it.
  ghost predicate Arranged(parallel: seq<Allocation>, queued: seq<Allocation>, c: int, files: seq<FileInput>,
                           split: int, ceiling: int)
  {
    && Names(parallel + queued, files)
    && 1 <= |parallel| <= Min(c, ceiling)
    && (|files| > 1 && split != 0 ==> |parallel| <= if split > 0 then c / split else 1)
    && (forall a :: a in queued ==>
          a.connections == if |files| > 1 && split != 0 && a.supportsRange then split else 1)
    && Sum(Counts(parallel)) <= c
    && (Served(parallel, queued) <==> AllServed(files, split))
    && UsesBudget(parallel, queued, c, files, split, ceiling)
  }

  lemma OneArranged(c: int, files: seq<FileInput>, split: int, ceiling: int, parallel: seq<Allocation>)
    requires |files| == 1 && c >= 1 && ceiling >= 1 && Names(parallel, files)
    requires parallel[0].connections == if files[0].supportsRange then Min(c, ceiling) else 1
    ensures Arranged(parallel, [], c, files, split, ceiling)
  {
    assert parallel == [parallel[0]] && parallel + [] == parallel;
    AloneFits(c, parallel[0]);
  }

  lemma OnesArranged(c: int, files: seq<FileInput>, ceiling: int, parallel: seq<Allocation>, queued: seq<Allocation>)
    requires |files| > 1 && c >= 1 && ceiling >= 1 && Names(parallel + queued, files)
    requires |parallel| == Min(c, Min(|files|, ceiling)) && forall a :: a in parallel + queued ==> a.connections == 1
    ensures Arranged(parallel, queued, c, files, 0, ceiling)
  {
    OnesFit(c, parallel, queued);
    assert forall a :: a in queued ==> a in parallel + queued;
    assert forall a :: a in parallel ==> a in parallel + queued;
  }

  lemma SplitArranged(c: int, files: seq<FileInput>, split: int, ceiling: int, parallel: seq<Allocation>,
                      queued: seq<Allocation>)
    requires |files| > 1 && split != 0 && split <= c && c >= 1 && ceiling >= 1 && Names(parallel + queued, files)
    requires var k := ParallelFiles(c, |files|, split, ceiling);
             k <= |files| && Counts(parallel) == SplitBudget(c, split, NonRange(files[..k]))
    requires forall a :: a in queued ==> a.connections == if a.supportsRange then split else 1
    ensures Arranged(parallel, queued, c, files, split, ceiling)
  {
    ModeCShape(c, files, split, ceiling, parallel, queued);
    ModeCUses(c, files, split, ceiling, parallel, queued);
  }

  // The budget is put to use: one file gets all of it up to the ceiling; without a split as many
  // files run as budget, files and ceiling allow; with one as many as budget over split, files
  // and ceiling allow, and they share the whole budget fairly.
  ghost predicate UsesBudget(parallel: seq<Allocation>, queued: seq<Allocation>, c: int, files: seq<FileInput>,
                             split: int, ceiling: int)
  {
    if |files| == 1 then
      queued == [] && |parallel| == 1
      && parallel[0].connections == if files[0].supportsRange then Min(c, ceiling) else 1
    else if split == 0 then
      |parallel| == Min(c, Min(|files|, ceiling)) && forall a :: a in parallel ==> a.connections == 1
    else if split > 0 then
      |parallel| == Min(c / split, Min(|files|, ceiling)) && SharedFairly(parallel, c, split)
    else
      |parallel| == 1 && parallel[0].connections == if parallel[0].supportsRange then c else split
  }

  // Single streams get one connection, the others at least the split, earlier files no less
  // than later ones and at most two more; and the budget is spent if some file can use it.
  ghost predicate SharedFairly(a: seq<Allocation>, c: int, split: int)
  {
    && (forall i :: 0 <= i < |a| ==>
          if a[i].supportsRange then a[i].connections >= split else a[i].connections == 1)
    && (forall i, k :: 0 <= i < k < |a| && a[i].supportsRange && a[k].supportsRange ==>
          a[k].connections <= a[i].connections <= a[k].connections + 2)
    && Sum(Counts(a)) == if exists i :: 0 <= i < |a| && a[i].supportsRange then c else |a|
  }

  lemma ModeCUses(c: int, files: seq<FileInput>, split: int, ceiling: int, parallel: seq<Allocation>,
                  queued: seq<Allocation>)
    requires |files| > 1 && split != 0 && split <= c && c >= 1 && ceiling >= 1 && Names(parallel + queued, files)
    requires var k := ParallelFiles(c, |files|, split, ceiling);
             k <= |files| && Counts(parallel) == SplitBudget(c, split, NonRange(files[..k]))
    ensures if split > 0 then |parallel| == Min(c / split, Min(|files|, ceiling)) && SharedFairly(parallel, c, split)
            else |parallel| == 1 && parallel[0].connections == if parallel[0].supportsRange then c else split
  {
    var k := ParallelFiles(c, |files|, split, ceiling);
    var skip := NonRange(files[..k]);
    forall i | 0 <= i < |parallel|
      ensures parallel[i].supportsRange == !skip[i] && parallel[i].connections == SplitBudget(c, split, skip)[i]
    {
      assert (parallel + queued)[i] == parallel[i] && Counts(parallel)[i] == parallel[i].connections;
    }
    if split > 0 {
      SplitFits(c, |files|, split, ceiling);
      SharesAreFair(c, split, skip, parallel);
    } else {
      NegativeQuotient(c, split);
      NegativeSplit(c, split, skip);
    }
  }

  lemma SharesAreFair(c: int, split: int, skip: seq<bool>, a: seq<Allocation>)
    requires 1 <= split && |skip| * split <= c && |a| == |skip| && Counts(a) == SplitBudget(c, split, skip)
    requires forall i :: 0 <= i < |a| ==>
               a[i].supportsRange == !skip[i] && a[i].connections == SplitBudget(c, split, skip)[i]
    ensures SharedFairly(a, c, split)
  {
    SplitIsFair(c, split, skip);
    SomeEligible(a, skip);
  }

  lemma SomeEligible(a: seq<Allocation>, skip: seq<bool>)
    requires |a| == |skip| && forall i :: 0 <= i < |a| ==> a[i].supportsRange == !skip[i]
    ensures Eligible(skip) > 0 <==> exists i :: 0 <= i < |a| && a[i].supportsRange
  {
    EligibleAny(skip);
    if i :| 0 <= i < |skip| && !skip[i] { assert a[i].supportsRange; }
    if i :| 0 <= i < |a| && a[i].supportsRange { assert !skip[i]; }
  }

  lemma ModeCShape(c: int, files: seq<FileInput>, split: int, ceiling: int, parallel: seq<Allocation>,
      queued: seq<Allocation>)
    requires |files| > 1 && split != 0 && split <= c && c >= 1 && ceiling >= 1 && Names(parallel + queued, files)
    requires var k := ParallelFiles(c, |files|, split, ceiling);
             k <= |files| && Counts(parallel) == SplitBudget(c, split, NonRange(files[..k]))
    requires forall a :: a in queued ==> a.connections == if a.supportsRange then split else 1
    ensures 1 <= |parallel| <= (if split > 0 then c / split else 1) && |parallel| <= c && |parallel| <= ceiling
    ensures Sum(Counts(parallel)) <= c && (Served(parallel, queued) <==> AllServed(files, split))
  {
    if split > 0 {
      ModeCSensible(c, files, split, ceiling, parallel);
    } else {
      NegativeQuotient(c, split);
      var skip := NonRange(files[..1]);
      NegativeSplit(c, split, skip);
      NegativeServed(files, split, parallel, queued, if skip[0] then split else c);
    }
  }

  lemma NegativeQuotient(c: int, split: int)
    requires c >= 1 && split < 0
    ensures Truncated(c, split) <= 0
  {
    assert c / -split >= 0;
  }

  // A negative split: one file runs, with the whole budget if it can use it.
  lemma NegativeSplit(c: int, split: int, skip: seq<bool>)
    requires c >= 1 && split < 0 && |skip| == 1
    ensures SplitBudget(c, split, skip) == [if skip[0] then split else c]
    ensures Sum(SplitBudget(c, split, skip)) <= c
  {
    assert skip[..0] == [] && skip == [skip[0]] && skip[..|skip| - 1] == [];
    assert Eligible(skip) == if skip[0] then 0 else 1;
    assert Rank(skip, 0) == 0;
    var first := FirstDeal(c, split, skip);
    assert first == [if skip[0] then split else c];
    assert Excess(first, skip) == [0];
    SumZero(Excess(first, skip));
    NothingFreed(first, skip, 0);
    assert Capped(first, skip) == first;
    SumConstant(first, first[0]);
  }

  lemma NegativeServed(files: seq<FileInput>, split: int, parallel: seq<Allocation>, queued: seq<Allocation>,
      first: int)
    requires |files| > 1 && split < 0 && |parallel| == 1 && Names(parallel + queued, files)
    requires parallel[0].connections == first && (first >= 1 <==> files[0].supportsRange)
    requires forall a :: a in queued ==> a.connections == if a.supportsRange then split else 1
    ensures Served(parallel, queued) <==> AllServed(files, split)
  {
    var all := parallel + queued;
    assert all[0] == parallel[0] && all[0] in all;
    forall i | 1 <= i < |files|
      ensures all[i] in all && (all[i].connections >= 1 <==> !files[i].supportsRange)
    {
      assert all[i] == queued[i - 1] && all[i] in queued;
    }
    if AllServed(files, split) {
      forall a | a in all
        ensures a.connections >= 1
      {
        var i :| 0 <= i < |all| && all[i] == a;
      }
    }
  }

  lemma ModeCSensible(c: int, files: seq<FileInput>, split: int, ceiling: int, parallel: seq<Allocation>)
    requires |files| > 1 && 1 <= split <= c && ceiling >= 1
    requires var k := ParallelFiles(c, |files|, split, ceiling);
             k <= |files| && Counts(parallel) == SplitBudget(c, split, NonRange(files[..k]))
    ensures 1 <= |parallel| <= c / split <= c && |parallel| <= ceiling
    ensures Sum(Counts(parallel)) <= c && forall a :: a in parallel ==> a.connections >= 1
  {
    var k := ParallelFiles(c, |files|, split, ceiling);
    var skip := NonRange(files[..k]);
    SplitFits(c, |files|, split, ceiling);
    SplitIsFair(c, split, skip);
    MulMonotone(1, split, k);
    forall a | a in parallel
      ensures a.connections >= 1
    {
      var i :| 0 <= i < |parallel| && parallel[i] == a;
      assert Counts(parallel)[i] == a.connections;
    }
  }
}
