// The runtime rebalancer (internal/scheduler/rebalance.go): new connection targets for the
// live tasks of a Mode C batch. It must agree with the balancer's own round-robin dealing.
module Rebalance {
  import opened Sums
  import opened Balancer

  function Single(rangeCapable: seq<bool>): (s: seq<bool>)
    ensures |s| == |rangeCapable| && forall i :: 0 <= i < |s| ==> s[i] == !rangeCapable[i]
  {
    seq(|rangeCapable|, i requires 0 <= i < |rangeCapable| => !rangeCapable[i])
  }

  // One connection each, and the rest dealt over the tasks that can use it; too small a
  // budget changes nothing.
  function Targets(rangeCapable: seq<bool>, budget: int): (a: seq<int>)
    ensures |a| == |rangeCapable|
  {
    var n := |rangeCapable|;
    if n == 0 || budget < n then Even(n, 0) else Dealt(Even(n, 1), budget - n, Single(rangeCapable))
  }

  // The indexes of the range-capable tasks among the first n, in order.
  function IndexList(rangeCapable: seq<bool>, n: nat): seq<nat>
    requires n <= |rangeCapable|
  {
    if n == 0 then [] else IndexList(rangeCapable, n - 1) + (if rangeCapable[n - 1] then [n - 1] else [])
  }

  lemma {:induction false} ListLength(rangeCapable: seq<bool>, n: nat)
    requires n <= |rangeCapable|
    ensures |IndexList(rangeCapable, n)| == Rank(Single(rangeCapable), n)
  {
    if n > 0 {
      ListLength(rangeCapable, n - 1);
      RankStep(Single(rangeCapable), n - 1);
    }
  }

  // The m-th entry is the task of rank m.
  lemma {:induction false} ListEntry(rangeCapable: seq<bool>, n: nat, m: nat)
    requires n <= |rangeCapable| && m < |IndexList(rangeCapable, n)|
    ensures var i := IndexList(rangeCapable, n)[m];
            i < n && rangeCapable[i] && Rank(Single(rangeCapable), i) == m
  {
    var prev := IndexList(rangeCapable, n - 1);
    if m < |prev| {
      ListEntry(rangeCapable, n - 1, m);
      assert IndexList(rangeCapable, n)[m] == prev[m];
    } else {
      ListLength(rangeCapable, n - 1);
    }
  }

  lemma AllEligible(skip: seq<bool>)
    ensures Rank(skip, |skip|) == Eligible(skip)
  {
    assert skip[..|skip|] == skip;
  }

  lemma RankInjective(skip: seq<bool>, i: nat, k: nat)
    requires i < |skip| && k < |skip| && !skip[i] && !skip[k] && Rank(skip, i) == Rank(skip, k)
    ensures i == k
  {
    if i < k {
      RankMonotone(skip, i, k);
    } else {
      RankMonotone(skip, k, i);
    }
  }

  // The first `done` eligible slots have had their share.
  ghost predicate ServedFirst(now: seq<int>, skip: seq<bool>, budget: int, done: nat)
  {
    |now| == |skip| && forall k :: 0 <= k < |now| ==>
      now[k] == 1 + (if !skip[k] && Rank(skip, k) < done then Share(skip, budget, k) else 0)
  }

  lemma ServeNext(now: seq<int>, skip: seq<bool>, budget: int, done: nat, idx: nat)
    requires ServedFirst(now, skip, budget, done) && idx < |skip| && !skip[idx] && Rank(skip, idx) == done
    ensures ServedFirst(now[idx := 1 + Share(skip, budget, idx)], skip, budget, done + 1) && now[idx] == 1
  {
    forall k | 0 <= k < |skip| && !skip[k] && Rank(skip, k) == done
      ensures k == idx
    {
      RankInjective(skip, k, idx);
    }
  }

  lemma AllServed(now: seq<int>, skip: seq<bool>, budget: int)
    requires ServedFirst(now, skip, budget, Eligible(skip))
    ensures now == Dealt(Even(|skip|, 1), budget, skip)
  {
    forall k | 0 <= k < |skip| && !skip[k]
      ensures Rank(skip, k) < Eligible(skip)
    {
      RankBelow(skip, k);
    }
  }

  lemma NothingToShare(n: nat, budget: int, skip: seq<bool>)
    requires |skip| == n && (budget <= 0 || Eligible(skip) == 0)
    ensures Dealt(Even(n, 1), budget, skip) == Even(n, 1)
  {
  }

  // Everyone gets one; the range-capable tasks are noted.
  method OneEach(targets: array<int>, rangeCapable: seq<bool>) returns (rangeIndexes: seq<nat>)
    requires targets.Length == |rangeCapable|
    modifies targets
    ensures targets[..] == Even(targets.Length, 1) && rangeIndexes == IndexList(rangeCapable, |rangeCapable|)
  {
    var n := targets.Length;
    rangeIndexes := [];
    for i := 0 to n
      invariant rangeIndexes == IndexList(rangeCapable, i)
      invariant forall x :: 0 <= x < i ==> targets[x] == 1
    {
      targets[i] := 1;
      if rangeCapable[i] {
        rangeIndexes := rangeIndexes + [i];
      }
    }
  }

  // The source computes quotient and remainder where the balancer deals one by one; the
  // result is the same dealing over a row of ones.
  method RebalanceTargets(rangeCapable: seq<bool>, budget: int) returns (targets: array<int>)
    ensures fresh(targets) && targets[..] == Targets(rangeCapable, budget)
  {
    var n := |rangeCapable|;
    targets := new int[n](_ => 0);
    if n == 0 || budget < n {
      assert targets[..] == Even(n, 0);
      return;
    }
    ghost var skip := Single(rangeCapable);
    var rangeIndexes := OneEach(targets, rangeCapable);
    ListLength(rangeCapable, n);
    AllEligible(skip);
    var remaining := budget - n;
    if remaining <= 0 || |rangeIndexes| == 0 {
      NothingToShare(n, remaining, skip);
      return;
    }
    ShareOut(targets, rangeCapable, rangeIndexes, remaining);
    AllServed(targets[..], skip, remaining);
  }

  // The rank of an index decides whether it gets one of the extra connections.
  method ShareOut(targets: array<int>, ghost rangeCapable: seq<bool>, rangeIndexes: seq<nat>, remaining: int)
    requires targets.Length == |rangeCapable| && rangeIndexes == IndexList(rangeCapable, |rangeCapable|)
    requires |rangeIndexes| == Eligible(Single(rangeCapable)) > 0
    requires remaining > 0 && targets[..] == Even(targets.Length, 1)
    modifies targets
    ensures ServedFirst(targets[..], Single(rangeCapable), remaining, |rangeIndexes|)
  {
    ghost var skip := Single(rangeCapable);
    var base, extra := remaining / |rangeIndexes|, remaining % |rangeIndexes|;
    for i := 0 to |rangeIndexes|
      invariant ServedFirst(targets[..], skip, remaining, i)
    {
      var idx := rangeIndexes[i];
      ListEntry(rangeCapable, |rangeCapable|, i);
      ServeNext(targets[..], skip, remaining, i, idx);
      ghost var next := targets[..][idx := 1 + Share(skip, remaining, idx)];
      targets[idx] := targets[idx] + base;
      if i < extra {
        targets[idx] := targets[idx] + 1;
      }
      assert targets[..] == next;
    }
  }

  // Every live task keeps a connection, and the targets spend the budget exactly whenever
  // some task can use more than one.
  lemma TargetsConserve(rangeCapable: seq<bool>, budget: int)
    requires 1 <= |rangeCapable| <= budget
    ensures var a, n := Targets(rangeCapable, budget), |rangeCapable|;
            && (forall i :: 0 <= i < n ==> a[i] >= 1)
            && (forall i :: 0 <= i < n && !rangeCapable[i] ==> a[i] == 1)
            && (forall i, k :: 0 <= i < k < n && rangeCapable[i] && rangeCapable[k] ==> a[k] <= a[i] <= a[k] + 1)
            && n <= Sum(a) <= budget
            && (Sum(a) == budget <==> budget == n || exists i :: 0 <= i < n && rangeCapable[i])
  {
    var n, skip := |rangeCapable|, Single(rangeCapable);
    SumConstant(Even(n, 1), 1);
    DealtConserves(Even(n, 1), budget - n, skip);
    EligibleAny(skip);
    if i :| 0 <= i < n && !skip[i] {
      assert rangeCapable[i];
    }
    if i :| 0 <= i < n && rangeCapable[i] {
      assert !skip[i];
    }
    forall i, k | 0 <= i <= k < n && rangeCapable[i] && rangeCapable[k]
      ensures 0 <= Share(skip, budget - n, k) <= Share(skip, budget - n, i) <= Share(skip, budget - n, k) + 1
    {
      SharesFall(skip, budget - n, i, k);
    }
  }

  // The two algorithms agree: at the start of a Mode C batch whose files all run at once with
  // a split of one, the balancer's plan is what the rebalancer computes.
  lemma AgreesWithPlan(rangeCapable: seq<bool>, budget: int)
    requires 1 <= |rangeCapable| <= budget
    ensures Targets(rangeCapable, budget) == SplitBudget(budget, 1, Single(rangeCapable))
  {
    var n, skip := |rangeCapable|, Single(rangeCapable);
    var first := FirstDeal(budget, 1, skip);
    SumZero(Excess(first, skip));
    assert Capped(first, skip) == first;
    assert Dealt(first, 0, skip) == first;
  }
}
