// The connection counters of a task (AdjustConns and SetConns of internal/download/task.go,
// the drain check and the deferred decrement of internal/download/task_io.go).
module Connections {
  import opened Chunks
  import opened Workers

  class Counters {
    var target: int
    var conns: int
    var launched: nat
    var started: bool
    var adjustDone: bool

    constructor (n: int)
      ensures target == conns == n && launched == 0 && !started && !adjustDone
    {
      target, conns, launched, started, adjustDone := n, n, 0, false, false;
    }

    method SetConns(n: int)
      modifies this`target, this`conns
      ensures target == conns == n
    {
      conns, target := n, n;
    }

    // A new target. Lowering it launches nothing; raising it launches the difference, unless
    // there is no context to run workers on or the task has already been waited for. Neither
    // touches the live count.
    method AdjustConns(wanted: int, hasContext: bool) returns (applied: bool)
      modifies this`target, this`launched
      ensures var runnable := hasContext || started;
              && (!runnable ==> !applied && target == old(target))
              && (runnable ==> target == Max(wanted, 1) && (applied <==> target <= old(target) || !adjustDone))
              && launched == old(launched) + (if runnable && !adjustDone then Max(target - old(target), 0) else 0)
      ensures started && !adjustDone ==> forall j: Job, s: Run :: s.target == old(target) ==>
                Do(j, s, Retarget(wanted)) == s.(target := target, unspawned := s.unspawned + launched - old(launched))
    {
      var t := wanted;
      if t < 1 {
        t := 1;
      }
      if !hasContext && !started {
        return false;
      }
      var before := target;
      target := t;
      if t <= before {
        return true;
      }
      if adjustDone {
        return false;
      }
      for i := 0 to t - before
        invariant launched == old(launched) + i && target == t
      {
        launched := launched + 1;
      }
      applied := true;
    }

    // The drain check of one worker that nobody interferes with: it retires exactly when more
    // workers are counted than wanted, and then takes itself out of the count.
    method RetireIfAboveTarget() returns (retires: bool)
      modifies this`conns
      ensures retires <==> old(conns) > target
      ensures conns == old(conns) - (if retires then 1 else 0)
    {
      var live := conns;
      if live <= target {
        return false;
      }
      conns := live - 1;
      retires := true;
    }

    // The deferred decrement of a worker that did not retire through the drain check.
    method Leave()
      modifies this`conns
      ensures conns == if old(conns) <= 0 then old(conns) else old(conns) - 1
    {
      if conns > 0 {
        conns := conns - 1;
      }
    }
  }

  // Alone, a worker's three drain steps on the machine are the drain check.
  lemma DrainCheckAlone(j: Job, s: Run, w: nat)
    requires Can(j, s, LoadLive(w))
    ensures Can(j, Do(j, s, LoadLive(w)), LoadTarget(w))
    ensures var t := Do(j, Do(j, s, LoadLive(w)), LoadTarget(w));
            if s.conns <= s.target then t == At(s, w, Ready)
            else Can(j, t, RetireCas(w)) && Do(j, t, RetireCas(w)) == At(s.(conns := s.conns - 1), w, Exited)
  {
    var a := Do(j, s, LoadLive(w));
    var b := Do(j, a, LoadTarget(w));
    forall x: Phase, y: Phase
      ensures At(At(s, w, x), w, y) == At(s, w, y)
    {
      assert s.workers[w := s.workers[w].(phase := x)][w := s.workers[w].(phase := y)]
          == s.workers[w := s.workers[w].(phase := y)];
    }
    if s.conns > s.target {
      assert b == At(s, w, Deciding(s.conns));
      assert Do(j, b, RetireCas(w)) == At(At(s, w, Deciding(s.conns)), w, Exited).(conns := s.conns - 1);
    }
  }

  // The run after n of the workers AdjustConns owes have been started.
  function Spawned(j: Job, s: Run, n: nat): (t: Run)
    requires n <= s.unspawned
    ensures t.unspawned == s.unspawned - n
  {
    if n == 0 then s else Do(j, Spawned(j, s, n - 1), Spawn)
  }

  lemma {:induction false} SpawnedIs(j: Job, s: Run, n: nat)
    requires n <= s.unspawned
    ensures Spawned(j, s, n) == s.(unspawned := s.unspawned - n, workers := s.workers + seq(n, _ => Worker(0, Top)))
  {
    if n == 0 {
      assert s.workers + seq(0, _ => Worker(0, Top)) == s.workers;
    } else {
      SpawnedIs(j, s, n - 1);
      assert seq(n, _ => Worker(0, Top)) == seq(n - 1, _ => Worker(0, Top)) + [Worker(0, Top)];
    }
  }

  // A new target, once the workers it owes are started: as many more at the top of region 1 as
  // the target rose, none if it fell; everybody else stays.
  lemma AdjustedCrew(j: Job, s: Run, wanted: int)
    ensures var t := Do(j, s, Retarget(wanted));
            var target, owed := if wanted < 1 then 1 else wanted, t.unspawned - s.unspawned;
            && t.target == target && t.workers == s.workers && t.conns == s.conns
            && owed == (if target > s.target then target - s.target else 0)
            && Spawned(j, t, owed).workers == s.workers + seq(owed, _ => Worker(0, Top))
  {
    var t := Do(j, s, Retarget(wanted));
    SpawnedIs(j, t, t.unspawned - s.unspawned);
  }
}
