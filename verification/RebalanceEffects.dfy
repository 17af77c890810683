// What a rebalance does to the tasks that stay: exactly when one of them is sent below the
// target it had, and what that can cost (rebalanceLive of internal/scheduler/rebalance.go after
// a completion and an admission, AdjustConns of internal/download/task.go).
module RebalanceEffects {
  import opened Chunks
  import opened Sums
  import opened Balancer
  import opened Rebalance
  import L = Layout
  import World
  import Drain
  import RW = ReductionWitness

  // ----- a share as a threshold -----

  // What the slot of rank r gets of w dealt over n slots.
  function Deal(w: int, n: nat, r: nat): int
  {
    if w <= 0 || n == 0 then 0 else w / n + (if r < w % n then 1 else 0)
  }

  // The s-th connection of rank r is the ((s - 1) * n + r)-th dealt.
  lemma DealReaches(w: int, n: nat, r: nat, s: nat)
    requires r < n && s >= 1
    ensures Deal(w, n, r) >= s <==> (s - 1) * n + r < w
  {
    if w <= 0 {
      MulMonotone(n, 0, s - 1);
    } else {
      var q, m := w / n, w % n;
      assert w == q * n + m;
      if s <= q {
        MulMonotone(n, s, q);
        assert s * n == (s - 1) * n + n;
      } else if s > q + 1 {
        MulMonotone(n, q + 1, s - 1);
        assert (q + 1) * n == q * n + n;
      }
    }
  }

  lemma DealNatural(w: int, n: nat, r: nat)
    ensures Deal(w, n, r) >= 0
  {
    if w > 0 && n > 0 { QuotientNatural(w, n); }
  }

  lemma QuotientNatural(w: int, n: nat)
    requires w > 0 && n > 0
    ensures w / n >= 0
  {
    assert w == n * (w / n) + w % n;
    if w / n < 0 { MulMonotone(n, w / n, -1); }
  }

  // Fewer slots or a better rank never give less.
  lemma DealKeeps(w: int, n: nat, r: nat, n': nat, r': nat)
    requires r < n && r' < n' <= n && r' <= r
    ensures Deal(w, n', r') >= Deal(w, n, r)
  {
    var s := Deal(w, n, r);
    DealNatural(w, n, r);
    DealNatural(w, n', r');
    if s >= 1 {
      DealReaches(w, n, r, s);
      MulMonotone(s - 1, n', n);
      DealReaches(w, n', r', s);
    }
  }

  // The rank that gets the last connection.
  function LastServed(w: int, n: nat): nat
    requires w >= 1 && n >= 1
  {
    (w - 1) % n
  }

  lemma LastServedGets(w: int, n: nat)
    requires w >= 1 && n >= 1
    ensures var s := (w - 1) / n + 1;
            s >= 1 && (s - 1) * n + LastServed(w, n) == w - 1 && Deal(w, n, LastServed(w, n)) >= s
  {
    DealReaches(w, n, LastServed(w, n), (w - 1) / n + 1);
  }

  // One rank further back among as many slots: only the last one served loses.
  lemma DealBehind(w: int, n: nat, r: nat)
    requires r + 1 < n
    ensures Deal(w, n, r + 1) < Deal(w, n, r) <==> w >= 1 && r == LastServed(w, n)
  {
    if w >= 1 {
      var q, m := (w - 1) / n, (w - 1) % n;
      assert w - 1 == q * n + m;
      if m == n - 1 {
        assert w == (q + 1) * n by { assert (q + 1) * n == q * n + n; }
        DivMod(w, n, q + 1, 0);
      } else {
        DivMod(w, n, q, m + 1);
      }
    }
  }

  // One slot more.
  lemma DealThinned(w: int, n: nat, r: nat, r': nat)
    requires r < n && r <= r' <= r + 1
    ensures Deal(w, n + 1, r') < Deal(w, n, r) ==> w >= 1
    ensures w >= 1 && r == LastServed(w, n) && (w > n || r' > r) ==> Deal(w, n + 1, r') < Deal(w, n, r)
    ensures w <= n && r' == r ==> Deal(w, n + 1, r') >= Deal(w, n, r)
  {
    DealNatural(w, n + 1, r');
    if w >= 1 && r == LastServed(w, n) && (w > n || r' > r) {
      LastServedGets(w, n);
      var s := (w - 1) / n + 1;
      assert (s - 1) * (n + 1) == (s - 1) * n + (s - 1);
      if w > n { DivAtLeast(w - 1, n, 1); }
      DealReaches(w, n + 1, r', s);
    }
    if 1 <= w <= n && r' == r && Deal(w, n, r) >= 1 {
      DealReaches(w, n, r, 1);
      DealReaches(w, n, r, 2);
      DealReaches(w, n + 1, r', 1);
      assert (2 - 1) * n + r == n + r;
    }
  }

  // ----- one task fewer, one task more -----

  function Without(a: seq<bool>, i: nat): (b: seq<bool>)
    requires i < |a|
    ensures |b| == |a| - 1
  {
    a[..i] + a[i + 1..]
  }

  function With(a: seq<bool>, k: nat, x: bool): (b: seq<bool>)
    requires k <= |a|
    ensures |b| == |a| + 1
  {
    a[..k] + [x] + a[k..]
  }

  // Where the task at v stands after the one at i has gone, and after one has come in at k.
  function Down(v: nat, i: nat): nat
    requires v != i
  {
    if v < i then v else v - 1
  }

  function Up(v: nat, k: nat): nat
  {
    if v < k then v else v + 1
  }

  lemma {:induction false} EligibleAppend(a: seq<bool>, b: seq<bool>)
    ensures Eligible(a + b) == Eligible(a) + Eligible(b)
  {
    if b == [] {
      assert a + b == a;
    } else {
      var n := |b| - 1;
      assert (a + b)[..|a + b| - 1] == a + b[..n];
      EligibleAppend(a, b[..n]);
    }
  }

  lemma EligibleOne(x: bool)
    ensures Eligible([x]) == if x then 0 else 1
  {
    assert [x][..0] == [];
  }

  lemma EligibleAround(a: seq<bool>, x: bool, b: seq<bool>)
    ensures Eligible(a + [x] + b) == Eligible(a) + (if x then 0 else 1) + Eligible(b)
  {
    EligibleAppend(a + [x], b);
    EligibleAppend(a, [x]);
    EligibleOne(x);
  }

  lemma RankAfterLeaving(a: seq<bool>, i: nat, v: nat)
    requires i < |a| && v < |a| && v != i
    ensures Without(a, i)[Down(v, i)] == a[v]
    ensures Rank(Without(a, i), Down(v, i)) == Rank(a, v) - (if i < v && !a[i] then 1 else 0)
  {
    if v < i {
      assert Without(a, i)[..v] == a[..v];
    } else {
      assert Without(a, i)[..v - 1] == a[..i] + a[i + 1..v];
      assert a[..v] == a[..i] + [a[i]] + a[i + 1..v];
      EligibleAppend(a[..i], a[i + 1..v]);
      EligibleAround(a[..i], a[i], a[i + 1..v]);
    }
  }

  lemma Parted(a: seq<bool>, i: nat)
    requires i < |a|
    ensures a == a[..i] + [a[i]] + a[i + 1..]
  {
  }

  lemma EligibleAfterLeaving(a: seq<bool>, i: nat)
    requires i < |a|
    ensures Eligible(Without(a, i)) == Eligible(a) - (if a[i] then 0 else 1)
  {
    Parted(a, i);
    EligibleAppend(a[..i], a[i + 1..]);
    EligibleAround(a[..i], a[i], a[i + 1..]);
  }

  lemma RankAfterEntering(a: seq<bool>, k: nat, x: bool, v: nat)
    requires k <= |a| && v < |a|
    ensures With(a, k, x)[Up(v, k)] == a[v]
    ensures Rank(With(a, k, x), Up(v, k)) == Rank(a, v) + (if k <= v && !x then 1 else 0)
  {
    if v < k {
      assert With(a, k, x)[..v] == a[..v];
    } else {
      assert With(a, k, x)[..v + 1] == a[..k] + [x] + a[k..v];
      assert a[..v] == a[..k] + a[k..v];
      EligibleAround(a[..k], x, a[k..v]);
      EligibleAppend(a[..k], a[k..v]);
    }
  }

  lemma Joined(a: seq<bool>, k: nat)
    requires k <= |a|
    ensures Eligible(a) == Eligible(a[..k]) + Eligible(a[k..])
  {
    assert a == a[..k] + a[k..];
    EligibleAppend(a[..k], a[k..]);
  }

  lemma EligibleAfterEntering(a: seq<bool>, k: nat, x: bool)
    requires k <= |a|
    ensures Eligible(With(a, k, x)) == Eligible(a) + (if x then 0 else 1)
  {
    Joined(a, k);
    EligibleAround(a[..k], x, a[k..]);
  }

  lemma NewcomerInPlace(a: seq<bool>, k: nat, x: bool)
    requires k <= |a|
    ensures With(a, k, x)[k] == x && Rank(With(a, k, x), k) == Rank(a, k)
  {
    assert With(a, k, x)[..k] == a[..k];
  }

  // ----- leaving, and being replaced -----

  // The live tasks in id order, after the one at i has gone and one has come in at k.
  function Replaced(live: seq<bool>, i: nat, k: nat, range: bool): (b: seq<bool>)
    requires i < |live| && k < |live|
    ensures |b| == |live|
  {
    With(Without(live, i), k, range)
  }

  // Some task that stays is sent below the target it had.
  ghost predicate LeavingLowers(live: seq<bool>, i: nat, budget: int)
    requires i < |live|
  {
    exists v: nat :: v < |live| && v != i
      && Targets(Without(live, i), budget)[Down(v, i)] < Targets(live, budget)[v]
  }

  // The target of the task at v after the replacement.
  function TargetAfter(live: seq<bool>, i: nat, k: nat, range: bool, budget: int, v: nat): int
    requires i < |live| && k < |live| && v < |live| && v != i
  {
    Targets(Replaced(live, i, k, range), budget)[Up(Down(v, i), k)]
  }

  ghost predicate ReplacementLowers(live: seq<bool>, i: nat, k: nat, range: bool, budget: int)
    requires i < |live| && k < |live|
  {
    exists v: nat :: v < |live| && v != i && TargetAfter(live, i, k, range, budget, v) < Targets(live, budget)[v]
  }

  // How many range-capable tasks come before position i.
  function RangeRank(live: seq<bool>, i: nat): nat
    requires i <= |live|
  {
    Rank(Single(live), i)
  }

  function RangeCount(live: seq<bool>): nat
  {
    Eligible(Single(live))
  }

  // In numbers: w surplus connections are dealt over n range-capable tasks; the departed stood
  // at rank x, the newcomer comes in at rank y. It can use ranges, and some task that stays
  // can too; if it follows a single stream, it is dealt in before the surplus runs out; if it
  // follows a range-capable task, it comes in before the last one served and the departed
  // stood behind that one.
  predicate Displacing(w: int, n: nat, x: nat, y: nat, departed: bool, range: bool)
  {
    range && w >= 1 && n >= 1 && if departed then y <= LastServed(w, n) < x else y < w
  }

  // When a target is lowered, as it can be told beforehand.
  predicate Displaces(live: seq<bool>, i: nat, k: nat, range: bool, budget: int)
    requires i < |live| && k < |live|
  {
    Displacing(budget - |live|, RangeCount(live), RangeRank(live, i), NewcomerAt(live, i, k), live[i], range)
  }

  // The rank of the newcomer in the new order.
  function NewcomerAt(live: seq<bool>, i: nat, k: nat): nat
    requires i < |live| && k < |live|
  {
    RangeRank(Without(live, i), k)
  }

  lemma TargetIs(live: seq<bool>, budget: int, v: nat)
    requires v < |live| <= budget
    ensures Targets(live, budget)[v]
            == 1 + if live[v] then Deal(budget - |live|, RangeCount(live), RangeRank(live, v)) else 0
    ensures live[v] ==> RangeRank(live, v) < RangeCount(live)
  {
    if live[v] { RankBelow(Single(live), v); }
  }

  lemma SingleWithout(live: seq<bool>, i: nat)
    requires i < |live|
    ensures Single(Without(live, i)) == Without(Single(live), i)
  {
  }

  lemma SingleWith(live: seq<bool>, k: nat, range: bool)
    requires k <= |live|
    ensures Single(With(live, k, range)) == With(Single(live), k, !range)
  {
  }

  // Ranks and counts after the task at i has gone.
  lemma AfterLeaving(live: seq<bool>, i: nat, v: nat)
    requires i < |live| && v < |live| && v != i
    ensures Without(live, i)[Down(v, i)] == live[v]
    ensures RangeRank(Without(live, i), Down(v, i)) == RangeRank(live, v) - (if i < v && live[i] then 1 else 0)
    ensures RangeCount(Without(live, i)) == RangeCount(live) - (if live[i] then 1 else 0)
  {
    SingleWithout(live, i);
    RankAfterLeaving(Single(live), i, v);
    EligibleAfterLeaving(Single(live), i);
    assert Without(Single(live), i)[Down(v, i)] == Single(live)[v];
  }

  lemma AfterEntering(live: seq<bool>, k: nat, range: bool, v: nat)
    requires k <= |live| && v < |live|
    ensures With(live, k, range)[Up(v, k)] == live[v]
    ensures RangeRank(With(live, k, range), Up(v, k)) == RangeRank(live, v) + (if k <= v && range then 1 else 0)
    ensures RangeCount(With(live, k, range)) == RangeCount(live) + (if range then 1 else 0)
    ensures RangeRank(With(live, k, range), k) == RangeRank(live, k)
  {
    SingleWith(live, k, range);
    RankAfterEntering(Single(live), k, !range, v);
    EligibleAfterEntering(Single(live), k, !range);
    NewcomerInPlace(Single(live), k, !range);
    assert With(Single(live), k, !range)[Up(v, k)] == Single(live)[v];
  }

  lemma AfterReplacing(live: seq<bool>, i: nat, k: nat, range: bool, v: nat)
    requires i < |live| && k < |live| && v < |live| && v != i
    ensures var now, u := Replaced(live, i, k, range), Up(Down(v, i), k);
            && u < |now| && now[u] == live[v]
            && RangeRank(now, u) == RangeRank(live, v) - (if i < v && live[i] then 1 else 0)
                                    + (if k <= Down(v, i) && range then 1 else 0)
            && RangeCount(now) == RangeCount(live) - (if live[i] then 1 else 0) + (if range then 1 else 0)
            && RangeRank(now, k) == RangeRank(Without(live, i), k)
  {
    AfterLeaving(live, i, v);
    AfterEntering(Without(live, i), k, range, Down(v, i));
  }

  lemma StaysUp(live: seq<bool>, i: nat, budget: int, v: nat)
    requires i < |live| <= budget && v < |live| && v != i
    ensures Targets(Without(live, i), budget)[Down(v, i)] >= Targets(live, budget)[v]
  {
    var now, u := Without(live, i), Down(v, i);
    AfterLeaving(live, i, v);
    TargetIs(live, budget, v);
    TargetIs(now, budget, u);
    if live[v] {
      var w := budget - |live|;
      MoreToDeal(w, RangeCount(live), RangeRank(live, v));
      DealKeeps(w + 1, RangeCount(live), RangeRank(live, v), RangeCount(now), RangeRank(now, u));
      assert budget - |now| == w + 1;
    }
  }

  // A departure alone sends nobody below the target it had.
  lemma LeavingNeverLowers(live: seq<bool>, i: nat, budget: int)
    requires i < |live| <= budget
    ensures !LeavingLowers(live, i, budget)
  {
    forall v: nat | v < |live| && v != i
      ensures Targets(Without(live, i), budget)[Down(v, i)] >= Targets(live, budget)[v]
    {
      StaysUp(live, i, budget, v);
    }
  }

  lemma MoreToDeal(w: int, n: nat, r: nat)
    requires r < n
    ensures Deal(w + 1, n, r) >= Deal(w, n, r)
  {
    var s := Deal(w, n, r);
    DealNatural(w, n, r);
    DealNatural(w + 1, n, r);
    if s >= 1 {
      DealReaches(w, n, r, s);
      DealReaches(w + 1, n, r, s);
    }
  }

  // ----- exactly when a replacement lowers a target -----

  // Positions and ranks of the newcomer and a task that stays.
  lemma NewcomerRank(live: seq<bool>, i: nat, k: nat, v: nat)
    requires i < |live| && k < |live| && v < |live| && v != i && live[v]
    ensures k <= Down(v, i) <==> RangeRank(Without(live, i), k) <= RangeRank(Without(live, i), Down(v, i))
  {
    var rest := Single(Without(live, i));
    AfterLeaving(live, i, v);
    if k <= Down(v, i) { RankMonotone(rest, k, Down(v, i)); } else { RankMonotone(rest, Down(v, i), k); }
  }

  lemma ByRank(live: seq<bool>, r: nat) returns (v: nat)
    requires r < RangeCount(live)
    ensures v < |live| && live[v] && RangeRank(live, v) == r
  {
    ListLength(live, |live|);
    AllEligible(Single(live));
    ListEntry(live, |live|, r);
    v := IndexList(live, |live|)[r];
  }

  lemma DepartedRank(live: seq<bool>, i: nat, v: nat)
    requires i < |live| && v < |live| && live[v]
    ensures v < i <==> RangeRank(live, v) < RangeRank(live, i)
  {
    if v < i { RankMonotone(Single(live), v, i); } else { RankMonotone(Single(live), i, v); }
  }

  lemma NewcomerAtMost(live: seq<bool>, i: nat, k: nat)
    requires i < |live| && k < |live|
    ensures RangeRank(Without(live, i), k) <= RangeCount(live) - (if live[i] then 1 else 0)
  {
    var rest := Single(Without(live, i));
    SingleWithout(live, i);
    EligibleAfterLeaving(Single(live), i);
    RankMonotone(rest, k, |rest|);
    AllEligible(rest);
  }

  // Where a range-capable task that stays was in the dealing, and where it is now: back by one
  // for the newcomer at or before it, forward by one for the departed before it.
  function NewRank(r: nat, x: nat, y: nat, departed: bool, range: bool): int
  {
    var r1 := if departed && x <= r then r - 1 else r;
    if range && y <= r1 then r1 + 1 else r1
  }

  lemma RankMoves(live: seq<bool>, i: nat, k: nat, range: bool, v: nat)
    requires i < |live| && k < |live| && v < |live| && v != i && live[v]
    ensures var now, u := Replaced(live, i, k, range), Up(Down(v, i), k);
            && u < |now| && now[u]
            && RangeRank(now, u)
               == NewRank(RangeRank(live, v), RangeRank(live, i), NewcomerAt(live, i, k), live[i], range)
            && RangeCount(now) == RangeCount(live) - (if live[i] then 1 else 0) + (if range then 1 else 0)
  {
    AfterReplacing(live, i, k, range, v);
    AfterLeaving(live, i, v);
    DepartedRank(live, i, v);
    NewcomerRank(live, i, k, v);
  }

  // In numbers: w surplus connections over n tasks before, this task at rank r, the departed
  // at rank x, the newcomer at rank y.
  predicate Worse(w: int, n: nat, r: nat, x: nat, y: nat, departed: bool, range: bool)
    requires n >= 1
  {
    var n', r' := NewCount(n, departed, range), NewRank(r, x, y, departed, range);
    n' >= 0 && r' >= 0 && Deal(w, n', r') < Deal(w, n, r)
  }

  // The number of range-capable tasks after the replacement.
  function NewCount(n: nat, departed: bool, range: bool): int
  {
    n - (if departed then 1 else 0) + (if range then 1 else 0)
  }

  lemma TargetAfterIs(live: seq<bool>, i: nat, k: nat, range: bool, budget: int, v: nat)
    requires i < |live| <= budget && k < |live| && v < |live| && v != i
    ensures !live[v] ==> TargetAfter(live, i, k, range, budget, v) == 1
    ensures live[v] ==>
              var n' := NewCount(RangeCount(live), live[i], range);
              var r' := NewRank(RangeRank(live, v), RangeRank(live, i), NewcomerAt(live, i, k), live[i], range);
              n' >= 0 && r' >= 0 && TargetAfter(live, i, k, range, budget, v) == 1 + Deal(budget - |live|, n', r')
  {
    AfterReplacing(live, i, k, range, v);
    TargetIs(Replaced(live, i, k, range), budget, Up(Down(v, i), k));
    if live[v] { RankMoves(live, i, k, range, v); }
  }

  // The same for the task at v.
  predicate WorseAt(live: seq<bool>, i: nat, k: nat, range: bool, budget: int, v: nat)
    requires i < |live| && k < |live| && v < |live|
  {
    RangeCount(live) >= 1 && Worse(budget - |live|, RangeCount(live), RangeRank(live, v), RangeRank(live, i),
                                   NewcomerAt(live, i, k), live[i], range)
  }

  lemma LoweredIs(live: seq<bool>, i: nat, k: nat, range: bool, budget: int, v: nat)
    requires i < |live| <= budget && k < |live| && v < |live| && v != i
    ensures live[v] ==> RangeRank(live, v) < RangeCount(live)
    ensures TargetAfter(live, i, k, range, budget, v) < Targets(live, budget)[v]
            <==> live[v] && WorseAt(live, i, k, range, budget, v)
  {
    TargetIs(live, budget, v);
    TargetAfterIs(live, i, k, range, budget, v);
  }

  // A single stream comes in: nobody is worse off.
  lemma SingleNewcomer(w: int, n: nat, r: nat, x: nat, y: nat, departed: bool)
    requires r < n && (departed ==> x < n && x != r)
    ensures !Worse(w, n, r, x, y, departed, false)
  {
    DealKeeps(w, n, r, if departed then n - 1 else n, NewRank(r, x, y, departed, false));
  }

  // The task that gets the last surplus connection.
  predicate Last(w: int, n: nat, r: nat)
    requires n >= 1
  {
    w >= 1 && r == LastServed(w, n)
  }

  // A range-capable task follows a range-capable one: who is worse off is the last one served,
  // if the newcomer comes in before it and the departed stood behind it.
  lemma RangeAfterRange(w: int, n: nat, r: nat, x: nat, y: nat)
    requires r < n && x < n && x != r && y < n
    ensures Worse(w, n, r, x, y, true, true) <==> Last(w, n, r) && y <= r < x
  {
    var r' := NewRank(r, x, y, true, true);
    if r' <= r {
      DealKeeps(w, n, r, n, r');
    } else {
      DealBehind(w, n, r);
    }
  }

  // A range-capable task follows a single stream.
  lemma RangeAfterSingle(w: int, n: nat, r: nat, x: nat, y: nat)
    requires r < n && y <= n
    ensures Worse(w, n, r, x, y, false, true) ==> w >= 1 && y < w
    ensures Last(w, n, r) && y < w ==> Worse(w, n, r, x, y, false, true)
  {
    var r' := NewRank(r, x, y, false, true);
    DealThinned(w, n, r, r');
    DealNatural(w, n + 1, r');
    DealReaches(w, n, r, 1);
    if 1 <= w <= n { SmallRemainder(w - 1, n); }
  }

  lemma SmallRemainder(a: int, n: int)
    requires 0 <= a < n
    ensures a % n == a
  {
  }

  // Whoever is worse off was displaced; of those displaced, the last one served is worse off.
  lemma WorseMeans(w: int, n: nat, r: nat, x: nat, y: nat, departed: bool, range: bool)
    requires r < n && (departed ==> x < n && x != r) && y <= NewCount(n, departed, false)
    ensures Worse(w, n, r, x, y, departed, range) ==> Displacing(w, n, x, y, departed, range)
    ensures Last(w, n, r) && Displacing(w, n, x, y, departed, range) ==> Worse(w, n, r, x, y, departed, range)
  {
    if !range {
      SingleNewcomer(w, n, r, x, y, departed);
    } else if departed {
      RangeAfterRange(w, n, r, x, y);
    } else {
      RangeAfterSingle(w, n, r, x, y);
    }
  }

  // A rebalance after one task has been replaced by another lowers the target of some task
  // that stays if and only if the newcomer displaces it.
  lemma ReplacementLowersExactly(live: seq<bool>, i: nat, k: nat, range: bool, budget: int)
    requires i < |live| <= budget && k < |live|
    ensures ReplacementLowers(live, i, k, range, budget) <==> Displaces(live, i, k, range, budget)
  {
    if ReplacementLowers(live, i, k, range, budget) {
      var v: nat :| v < |live| && v != i && TargetAfter(live, i, k, range, budget, v) < Targets(live, budget)[v];
      LoweredDisplaced(live, i, k, range, budget, v);
    }
    if Displaces(live, i, k, range, budget) {
      var v := DisplacedLowered(live, i, k, range, budget);
      assert TargetAfter(live, i, k, range, budget, v) < Targets(live, budget)[v];
    }
  }

  lemma DistinctRanks(live: seq<bool>, i: nat, v: nat)
    requires i < |live| && v < |live| && v != i && live[v] && live[i]
    ensures RangeRank(live, i) != RangeRank(live, v) && RangeRank(live, i) < RangeCount(live)
  {
    if RangeRank(live, i) == RangeRank(live, v) { RankInjective(Single(live), i, v); }
    RankBelow(Single(live), i);
  }

  lemma StayerRanks(live: seq<bool>, i: nat, k: nat, v: nat)
    requires i < |live| && k < |live| && v < |live| && v != i && live[v]
    ensures live[i] ==> RangeRank(live, i) < RangeCount(live) && RangeRank(live, i) != RangeRank(live, v)
    ensures NewcomerAt(live, i, k) <= NewCount(RangeCount(live), live[i], false)
  {
    NewcomerAtMost(live, i, k);
    if live[i] { DistinctRanks(live, i, v); }
  }

  lemma WorseAtMeans(live: seq<bool>, i: nat, k: nat, range: bool, budget: int, v: nat)
    requires i < |live| && k < |live| && v < |live| && v != i && live[v] && RangeRank(live, v) < RangeCount(live)
    ensures WorseAt(live, i, k, range, budget, v) ==> Displaces(live, i, k, range, budget)
    ensures Last(budget - |live|, RangeCount(live), RangeRank(live, v)) && Displaces(live, i, k, range, budget) ==>
              WorseAt(live, i, k, range, budget, v)
  {
    StayerRanks(live, i, k, v);
    WorseMeans(budget - |live|, RangeCount(live), RangeRank(live, v), RangeRank(live, i),
               NewcomerAt(live, i, k), live[i], range);
  }

  lemma LoweredDisplaced(live: seq<bool>, i: nat, k: nat, range: bool, budget: int, v: nat)
    requires i < |live| <= budget && k < |live| && v < |live| && v != i
    requires TargetAfter(live, i, k, range, budget, v) < Targets(live, budget)[v]
    ensures Displaces(live, i, k, range, budget)
  {
    LoweredIs(live, i, k, range, budget, v);
    WorseAtMeans(live, i, k, range, budget, v);
  }

  function LastOf(w: int, n: nat): (r: nat)
    requires w >= 1 && n >= 1
    ensures r < n && Last(w, n, r)
  {
    LastServed(w, n)
  }

  // Whom the newcomer displaces: the last one served.
  lemma DisplacedLowered(live: seq<bool>, i: nat, k: nat, range: bool, budget: int) returns (v: nat)
    requires i < |live| <= budget && k < |live| && Displaces(live, i, k, range, budget)
    ensures v < |live| && v != i && TargetAfter(live, i, k, range, budget, v) < Targets(live, budget)[v]
  {
    v := Victim(live, i, k, range, budget);
    LoweredIs(live, i, k, range, budget, v);
  }

  lemma Victim(live: seq<bool>, i: nat, k: nat, range: bool, budget: int) returns (v: nat)
    requires i < |live| <= budget && k < |live| && Displaces(live, i, k, range, budget)
    ensures v < |live| && v != i && live[v] && WorseAt(live, i, k, range, budget, v)
  {
    v := ByRank(live, LastOf(budget - |live|, RangeCount(live)));
    WorseAtMeans(live, i, k, range, budget, v);
  }

  // ----- the split as a floor -----

  // As long as the live tasks fit the budget, no target of a task that can use ranges is below
  // the split it was admitted with.
  lemma TargetsAtLeastSplit(live: seq<bool>, budget: int, split: nat, v: nat)
    requires 1 <= split && |live| * split <= budget && v < |live| && live[v]
    ensures |live| <= budget && Targets(live, budget)[v] >= split
  {
    var n, r := RangeCount(live), RangeRank(live, v);
    MulMonotone(|live|, 1, split);
    TargetIs(live, budget, v);
    DealNatural(budget - |live|, n, r);
    if split >= 2 {
      EligibleAtMost(Single(live));
      SplitReached(budget, |live|, n, r, split);
    }
  }

  lemma SplitReached(budget: int, all: nat, n: nat, r: nat, split: nat)
    requires 2 <= split && all * split <= budget && r < n <= all
    ensures Deal(budget - all, n, r) >= split - 1
  {
    MulMonotone(split - 1, n, all);
    assert all * split == (split - 1) * all + all;
    assert (split - 1) * n == (split - 2) * n + n;
    DealReaches(budget - all, n, r, split - 1);
  }

  lemma {:induction false} EligibleAtMost(skip: seq<bool>)
    ensures Eligible(skip) <= |skip|
  {
    if skip != [] { EligibleAtMost(skip[..|skip| - 1]); }
  }

  // ----- the plan and the first rebalance -----

  // Two dealings in a row are one, for every rank, exactly if one of them comes out even.
  lemma DealTwice(a: int, b: int, n: nat, r: nat)
    requires a >= 0 && b >= 0 && r < n
    ensures a % n == 0 || b % n == 0 ==> Deal(a, n, r) + Deal(b, n, r) == Deal(a + b, n, r)
  {
    var qa, ma, qb, mb := a / n, a % n, b / n, b % n;
    assert a == qa * n + ma && b == qb * n + mb;
    assert (qa + qb) * n == qa * n + qb * n;
    if ma == 0 || mb == 0 {
      DivMod(a + b, n, qa + qb, ma + mb);
      DealZero(a, n, r);
      DealZero(b, n, r);
      DealZero(a + b, n, r);
    }
  }

  lemma DealZero(a: int, n: nat, r: nat)
    requires a >= 0 && r < n
    ensures Deal(a, n, r) == a / n + (if r < a % n then 1 else 0)
  {
    if a == 0 { DivMod(0, n, 0, 0); }
  }

  lemma DealParts(a: int, n: nat, q: nat, m: nat, r: nat)
    requires a == q * n + m && m < n && r < n
    ensures Deal(a, n, r) == q + (if r < m then 1 else 0)
  {
    MulMonotone(n, 0, q);
    DivMod(a, n, q, m);
    DealZero(a, n, r);
  }

  // If neither does, the first slot gets one too many or the last one too few.
  lemma DealUneven(a: int, b: int, n: nat)
    requires a >= 0 && b >= 0 && n >= 1 && a % n != 0 && b % n != 0
    ensures Deal(a, n, 0) + Deal(b, n, 0) != Deal(a + b, n, 0)
            || Deal(a, n, n - 1) + Deal(b, n, n - 1) != Deal(a + b, n, n - 1)
  {
    UnevenParts(a, b, n, a / n, a % n, b / n, b % n);
  }

  lemma UnevenParts(a: int, b: int, n: nat, qa: nat, ma: nat, qb: nat, mb: nat)
    requires a == qa * n + ma && b == qb * n + mb && 0 < ma < n && 0 < mb < n
    ensures Deal(a, n, 0) + Deal(b, n, 0) != Deal(a + b, n, 0)
            || Deal(a, n, n - 1) + Deal(b, n, n - 1) != Deal(a + b, n, n - 1)
  {
    SumOfProducts(qa, qb, n);
    if ma + mb < n {
      DealParts(a, n, qa, ma, 0);
      DealParts(b, n, qb, mb, 0);
      DealParts(a + b, n, qa + qb, ma + mb, 0);
    } else {
      DealParts(a, n, qa, ma, n - 1);
      DealParts(b, n, qb, mb, n - 1);
      DealParts(a + b, n, qa + qb + 1, ma + mb - n, n - 1);
    }
  }

  lemma SumOfProducts(x: int, y: int, n: int)
    ensures (x + y) * n == x * n + y * n && (x + y + 1) * n == x * n + y * n + n
  {
  }

  // Whole rounds are added to everybody.
  lemma DealRounds(a: int, n: nat, r: nat, t: nat)
    requires a >= 0 && r < n
    ensures Deal(a + t * n, n, r) == Deal(a, n, r) + t
  {
    assert a == (a / n) * n + a % n;
    assert (a / n + t) * n == (a / n) * n + t * n;
    MulMonotone(t, 0, n);
    DivMod(a + t * n, n, a / n + t, a % n);
    DealZero(a, n, r);
    DealZero(a + t * n, n, r);
  }

  lemma {:induction false} SingleExcess(conns: seq<int>, skip: seq<bool>, split: nat)
    requires |conns| == |skip| && split >= 1 && forall i :: 0 <= i < |skip| && skip[i] ==> conns[i] == split
    ensures Sum(Excess(conns, skip)) == (|skip| - Eligible(skip)) * (split - 1)
  {
    if skip == [] {
      assert (0 - 0) * (split - 1) == 0;
    } else {
      var n := |skip| - 1;
      SingleExcess(conns[..n], skip[..n], split);
      assert Excess(conns, skip) == Excess(conns[..n], skip[..n]) + [Excess(conns, skip)[n]];
      SumAppend(Excess(conns[..n], skip[..n]), Excess(conns, skip)[n]);
      var k := n - Eligible(skip[..n]);
      assert (k + 1) * (split - 1) == k * (split - 1) + (split - 1);
    }
  }

  // What the plan deals: the rest of the budget, and what the single streams free.
  function PlanRest(live: seq<bool>, budget: int, split: nat): int
  {
    budget - |live| * split
  }

  function PlanFreed(live: seq<bool>, split: nat): int
  {
    (|live| - RangeCount(live)) * (split - 1)
  }

  lemma FreedIs(live: seq<bool>, budget: int, split: nat)
    requires 1 <= split
    ensures Sum(Excess(FirstDeal(budget, split, Single(live)), Single(live))) == PlanFreed(live, split)
  {
    SingleExcess(FirstDeal(budget, split, Single(live)), Single(live), split);
  }

  lemma ShareIsDeal(live: seq<bool>, w: int, v: nat)
    requires v < |live| && live[v]
    ensures Share(Single(live), w, v) == Deal(w, RangeCount(live), RangeRank(live, v))
    ensures RangeRank(live, v) < RangeCount(live)
  {
    RankBelow(Single(live), v);
  }

  lemma PlanIs(live: seq<bool>, budget: int, split: nat, v: nat)
    requires 1 <= split && |live| * split <= budget && v < |live|
    ensures var a := SplitBudget(budget, split, Single(live));
            a[v] == if !live[v] then 1
                    else split + Deal(PlanRest(live, budget, split), RangeCount(live), RangeRank(live, v))
                         + Deal(PlanFreed(live, split), RangeCount(live), RangeRank(live, v))
  {
    if live[v] {
      FreedIs(live, budget, split);
      SplitShare(budget, split, Single(live), v);
      ShareIsDeal(live, PlanRest(live, budget, split), v);
      ShareIsDeal(live, PlanFreed(live, split), v);
    } else {
      SplitIsFair(budget, split, Single(live));
    }
  }

  lemma PlanSurplus(live: seq<bool>, budget: int, split: nat)
    requires 1 <= split && |live| * split <= budget
    ensures PlanRest(live, budget, split) >= 0 && PlanFreed(live, split) >= 0 && |live| <= budget
    ensures budget - |live|
            == PlanRest(live, budget, split) + PlanFreed(live, split) + (split - 1) * RangeCount(live)
  {
    var n, e := |live|, RangeCount(live);
    EligibleAtMost(Single(live));
    MulMonotone(split - 1, 0, n - e);
    MulMonotone(n, 1, split);
    assert (n - e) * (split - 1) == n * (split - 1) - e * (split - 1);
    assert n * (split - 1) == n * split - n;
  }

  // The two dealings give rank r what one dealing of both would.
  predicate OneDealing(a: int, b: int, n: nat, r: nat)
  {
    Deal(a, n, r) + Deal(b, n, r) == Deal(a + b, n, r)
  }

  predicate ComesOutEven(a: int, b: int, n: nat)
  {
    n == 0 || a % n == 0 || b % n == 0
  }

  lemma EvenMeansOne(a: int, b: int, n: nat, r: nat)
    requires a >= 0 && b >= 0 && r < n && ComesOutEven(a, b, n)
    ensures OneDealing(a, b, n, r)
  {
    DealTwice(a, b, n, r);
  }

  lemma UnevenMeansTwo(a: int, b: int, n: nat) returns (r: nat)
    requires a >= 0 && b >= 0 && !ComesOutEven(a, b, n)
    ensures r < n && !OneDealing(a, b, n, r)
  {
    DealUneven(a, b, n);
    r := if OneDealing(a, b, n, 0) then n - 1 else 0;
  }

  lemma PlanAgreesAt(live: seq<bool>, budget: int, split: nat, v: nat)
    requires 1 <= split && |live| * split <= budget && v < |live|
    ensures SplitBudget(budget, split, Single(live))[v] == Targets(live, budget)[v]
            <==> live[v] ==> OneDealing(PlanRest(live, budget, split), PlanFreed(live, split),
                                        RangeCount(live), RangeRank(live, v))
  {
    var a, b, n, r := PlanRest(live, budget, split), PlanFreed(live, split), RangeCount(live), RangeRank(live, v);
    PlanSurplus(live, budget, split);
    PlanIs(live, budget, split, v);
    TargetIs(live, budget, v);
    if live[v] { RoundsAgree(a, b, n, r, split, budget - |live|); }
  }

  lemma RoundsAgree(a: int, b: int, n: nat, r: nat, split: nat, w: int)
    requires a >= 0 && b >= 0 && r < n && split >= 1 && w == a + b + (split - 1) * n
    ensures split + Deal(a, n, r) + Deal(b, n, r) == 1 + Deal(w, n, r) <==> OneDealing(a, b, n, r)
  {
    DealRounds(a + b, n, r, split - 1);
  }

  // The plan's own allocation is what a rebalance of the same tasks computes if and only if no
  // task can use ranges, or one of its two dealings comes out even.
  lemma PlanAgreesExactly(live: seq<bool>, budget: int, split: nat)
    requires 1 <= split && 1 <= |live| && |live| * split <= budget
    ensures SplitBudget(budget, split, Single(live)) == Targets(live, budget)
            <==> ComesOutEven(PlanRest(live, budget, split), PlanFreed(live, split), RangeCount(live))
  {
    var a, b, n := PlanRest(live, budget, split), PlanFreed(live, split), RangeCount(live);
    PlanSurplus(live, budget, split);
    if ComesOutEven(a, b, n) {
      forall v | 0 <= v < |live|
        ensures SplitBudget(budget, split, Single(live))[v] == Targets(live, budget)[v]
      {
        PlanAgreesAt(live, budget, split, v);
        if live[v] {
          ShareIsDeal(live, 0, v);
          EvenMeansOne(a, b, n, RangeRank(live, v));
        }
      }
    } else {
      var r := UnevenMeansTwo(a, b, n);
      var v := ByRank(live, r);
      PlanAgreesAt(live, budget, split, v);
    }
  }

  // A plan that does not: four files, nine connections, a split of two. The first file starts
  // with four; when the single stream has ended and nothing waits, it is sent down to three.
  lemma PlanLowered()
    ensures var live := [true, true, true, false];
            && SplitBudget(9, 2, Single(live))[0] == 4 && Targets(Without(live, 3), 9)[0] == 3
            && !ComesOutEven(PlanRest(live, 9, 2), PlanFreed(live, 2), RangeCount(live))
  {
    var live := [true, true, true, false];
    CountFour();
    PlanIs(live, 9, 2, 0);
    AfterLeaving(live, 3, 0);
    TargetIs(Without(live, 3), 9, 0);
  }

  lemma CountFour()
    ensures RangeCount([true, true, true, false]) == 3 && RangeRank([true, true, true, false], 0) == 0
  {
    var skip := Single([true, true, true, false]);
    assert skip == [false, false, false] + [true] && [false, false, false] == [false, false] + [false];
    assert [false, false] == [false] + [false] && skip[..0] == [];
    EligibleAppend([false, false, false], [true]);
    EligibleAppend([false, false], [false]);
    EligibleAppend([false], [false]);
    EligibleOne(false);
    EligibleOne(true);
  }

  // ----- what it can cost -----

  // The live tasks as downloads: each of a file of known size in one region, launched with the
  // count that is its target, and, where that can matter, with retries over a work-stealing queue.
  ghost predicate Downloads(live: seq<bool>, budget: int,
                            contents: seq<seq<L.byte>>, os: seq<L.Options>, ps: seq<L.Probe>)
  {
    && |contents| == |os| == |ps| == |live|
    && forall v :: 0 <= v < |live| ==>
         && os[v].conns >= 1 && ps[v].totalSize == |contents[v]| > 0 && |L.MakePlan(os[v], ps[v]).regions| == 1
         && World.WorkerCount(os[v], ps[v], L.MakePlan(os[v], ps[v])) == Targets(live, budget)[v]
         && (live[v] ==> os[v].retry >= 1 && L.MakePlan(os[v], ps[v]).regions[0].stealing)
  }

  // Every task that stays delivers in all histories in which its target is set to its new one.
  ghost predicate AllSurvive(live: seq<bool>, i: nat, k: nat, range: bool, budget: int,
                             contents: seq<seq<L.byte>>, os: seq<L.Options>, ps: seq<L.Probe>)
    requires i < |live| && k < |live| && |contents| == |os| == |ps| == |live|
  {
    forall v: nat :: v < |live| && v != i ==>
      RW.SurvivesTarget(contents[v], os[v], ps[v], TargetAfter(live, i, k, range, budget, v))
  }

  lemma StayerSurvivesExactly(live: seq<bool>, i: nat, k: nat, range: bool, budget: int, v: nat,
                              contents: seq<seq<L.byte>>, os: seq<L.Options>, ps: seq<L.Probe>)
    requires i < |live| <= budget && k < |live| && v < |live| && v != i && Downloads(live, budget, contents, os, ps)
    ensures RW.SurvivesTarget(contents[v], os[v], ps[v], TargetAfter(live, i, k, range, budget, v))
            <==> TargetAfter(live, i, k, range, budget, v) >= Targets(live, budget)[v]
  {
    TargetsPositive(live, i, k, range, budget, v);
    RW.TargetSurvivedExactly(contents[v], os[v], ps[v], TargetAfter(live, i, k, range, budget, v));
  }

  lemma TargetsPositive(live: seq<bool>, i: nat, k: nat, range: bool, budget: int, v: nat)
    requires i < |live| <= budget && k < |live| && v < |live| && v != i
    ensures TargetAfter(live, i, k, range, budget, v) >= 1 && (!live[v] ==> Targets(live, budget)[v] == 1)
  {
    TargetAfterIs(live, i, k, range, budget, v);
    TargetIs(live, budget, v);
    if live[v] {
      DealNatural(budget - |live|, NewCount(RangeCount(live), live[i], range),
                  NewRank(RangeRank(live, v), RangeRank(live, i), NewcomerAt(live, i, k), live[i], range));
    }
  }

  // A replacement is harmless to the downloads that stay if and only if it displaces nobody.
  lemma ReplacementHarmlessExactly(live: seq<bool>, i: nat, k: nat, range: bool, budget: int,
                                   contents: seq<seq<L.byte>>, os: seq<L.Options>, ps: seq<L.Probe>)
    requires i < |live| <= budget && k < |live| && Downloads(live, budget, contents, os, ps)
    ensures AllSurvive(live, i, k, range, budget, contents, os, ps) <==> !Displaces(live, i, k, range, budget)
  {
    forall v: nat | v < |live| && v != i
      ensures RW.SurvivesTarget(contents[v], os[v], ps[v], TargetAfter(live, i, k, range, budget, v))
              <==> TargetAfter(live, i, k, range, budget, v) >= Targets(live, budget)[v]
    {
      StayerSurvivesExactly(live, i, k, range, budget, v, contents, os, ps);
    }
    ReplacementLowersExactly(live, i, k, range, budget);
  }
}
