// The scheduler (internal/scheduler/queue.go) as a class: its fields, and one method for
// each critical section, tied to the value functions of SchedulerCore.
module SchedulerQueue {
  import opened Chunks
  import opened Rebalance
  import Balancer
  import C = SchedulerCore

  const MAX_STOPPED := 1000

  datatype Report = Report(id: nat, completed: bool)

  class Scheduler {
    const slots: nat
    const budget: int
    const rebalances: bool
    var queued: seq<C.Entry>
    var live: map<nat, int>
    var stopped: seq<Report>
    var wg: int
    var isIdle: bool
    var windingDown: bool
    var stopDone: bool
    var succeeded: int
    var failed: int

    // The hold is part of the counter until it has been released once.
    ghost predicate Valid()
      reads this
    {
      |stopped| <= MAX_STOPPED && (stopDone ==> !isIdle)
    }

    function View(): C.Core
      reads this
    {
      C.Core(slots, queued, live, wg, isIdle, windingDown)
    }

    constructor ForPlan(plan: Balancer.Plan)
      ensures Valid() && View() == C.OneShot(|plan.parallel|) && stopped == [] && succeeded == failed == 0
      ensures budget == plan.budget && rebalances == plan.rebalances && !stopDone
    {
      slots, budget, rebalances := |plan.parallel|, plan.budget, plan.rebalances;
      queued, live, stopped, wg := [], map[], [], 0;
      isIdle, windingDown, stopDone, succeeded, failed := false, false, false, 0, 0;
    }

    constructor Empty(n: nat)
      ensures Valid() && View() == C.Daemon(n) && stopped == [] && succeeded == failed == 0
      ensures budget == 0 && !rebalances && !stopDone
    {
      slots, budget, rebalances := n, 0, false;
      queued, live, stopped := [], map[], [];
      isIdle, windingDown, stopDone, succeeded, failed := true, false, false, 0, 0;
      wg := 1;
    }

    method Enqueue(st: C.Entry) returns (answer: C.Accepted)
      requires Valid()
      modifies `queued, `wg
      ensures Valid() && (View(), answer) == C.Enqueue(old(View()), st)
      ensures answer == C.Yes <==> !old(windingDown) && |old(queued)| < 128
      ensures queued == old(queued) + (if answer == C.Yes then [st.(counted := true)] else [])
    {
      if windingDown {
        return C.No(C.ShuttingDown);
      }
      if |queued| >= C.MAX_PENDING {
        return C.No(C.TooManyPending);
      }
      wg := wg + 1;
      queued := queued + [st.(counted := true)];
      answer := C.Yes;
    }

    method AdmitNext() returns (next: Option<C.Entry>)
      requires Valid()
      modifies `queued, `live
      ensures Valid() && (View(), next) == C.Admit(old(View()))
      ensures next.Some? <==> old(queued) != [] && |old(live)| < slots
      ensures next.Some? ==> next.value == old(queued)[0] && queued == old(queued)[1..]
    {
      if |queued| == 0 || |live| >= slots {
        return None;
      }
      next := Some(queued[0]);
      live := live[queued[0].id := queued[0].conns];
      queued := queued[1..];
    }

    method AddCounter() returns (ok: bool)
      requires Valid()
      modifies `wg
      ensures Valid() && (View(), ok) == C.AddCounter(old(View()))
    {
      if windingDown {
        return false;
      }
      wg := wg + 1;
      ok := true;
    }

    // However often it is called, the hold is dropped once.
    method ReleaseIdle()
      requires Valid()
      modifies `wg, `isIdle, `stopDone
      ensures Valid() && View() == C.ReleaseIdle(old(View())) && stopDone && !isIdle
    {
      if !stopDone {
        stopDone := true;
        if isIdle {
          wg := wg - 1;
          isIdle := false;
        }
      }
    }

    method HandleComplete(st: Report)
      requires Valid()
      modifies `live, `stopped, `succeeded, `failed
      ensures Valid() && View() == C.Forget(old(View()), st.id)
      ensures stopped == LastOf(old(stopped) + [st], 1000)
      ensures succeeded == old(succeeded) + (if st.completed then 1 else 0)
      ensures succeeded + failed == old(succeeded + failed) + 1
    {
      live := live - {st.id};
      stopped := stopped + [st];
      if |stopped| > MAX_STOPPED {
        var keep := |stopped| - MAX_STOPPED;
        stopped := stopped[keep..];
      }
      if st.completed {
        succeeded := succeeded + 1;
      } else {
        failed := failed + 1;
      }
    }

    // The first section of the cancel path: count the reservations of the queue and drop it.
    method WindDown() returns (queuedCounted: nat)
      requires Valid()
      modifies `queued, `windingDown
      ensures Valid() && (View(), queuedCounted) == C.WindDown(old(View()))
    {
      windingDown := true;
      queuedCounted := 0;
      var q := queued;
      for i := 0 to |q|
        invariant windingDown && queued == q && queuedCounted == C.CountedIn(q[..i])
      {
        assert q[..i + 1] == q[..i] + [q[i]];
        C.CountedAppend(q[..i], q[i]);
        if q[i].counted {
          queuedCounted := queuedCounted + 1;
        }
      }
      assert q[..|q|] == q;
      queued := [];
    }

    // Move the budget over the live tasks, taken in id order. Tasks whose target would be
    // below one keep what they have.
    method RebalanceLive(ids: seq<nat>, rangeCapable: seq<bool>)
      requires Valid() && |ids| == |rangeCapable| == |live| && (forall i :: 0 <= i < |ids| ==> ids[i] in live)
      requires forall i, k :: 0 <= i < k < |ids| ==> ids[i] < ids[k]
      modifies `live
      ensures Valid() && live.Keys == old(live.Keys)
      ensures forall i :: 0 <= i < |ids| ==>
                var t := Targets(rangeCapable, budget)[i];
                live[ids[i]] == if rebalances && budget >= 1 && t >= 1 then t else old(live)[ids[i]]
    {
      if !rebalances || budget < 1 || |live| == 0 {
        return;
      }
      var targets := RebalanceTargets(rangeCapable, budget);
      ghost var want := targets[..];
      for i := 0 to |ids|
        invariant live.Keys == old(live.Keys) && targets[..] == want
        invariant forall k :: 0 <= k < |ids| ==>
                    live[ids[k]] == if k < i && want[k] >= 1 then want[k] else old(live)[ids[k]]
      {
        if targets[i] >= 1 {
          live := live[ids[i] := targets[i]];
        }
      }
    }
  }

  function LastOf(a: seq<Report>, n: nat): seq<Report>
  {
    if |a| > n then a[|a| - n..] else a
  }
}
