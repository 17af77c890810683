// Pausing a task (internal/download/task_pause.go): the flag, the broadcast channel that an
// unpause closes and replaces, and the workers that sleep on it.
module Pause {
  import opened Chunks

  // Channels are numbered in the order they are made; `made` is the number of the next one.
  // `closings` is every close so far, in order.
  datatype Gate = Gate(paused: bool, current: nat, made: nat, closings: seq<nat>)

  // Where a worker is: outside the gate, waiting on the channel it read under the lock,
  // awake again but not yet holding the lock, or past the gate.
  datatype Worker = Outside | Waiting(ch: nat) | Awake | Past

  datatype State = State(gate: Gate, workers: seq<Worker>, cancelled: bool)

  datatype Step = PauseTask | UnpauseTask | Check(w: nat) | Wake(w: nat) | GiveUp(w: nat) | Return(w: nat) | Cancel

  function New(): Gate
  {
    Gate(false, 0, 1, [])
  }

  function Paused(g: Gate): Gate
  {
    g.(paused := true)
  }

  // Close the current channel and install a new one; nothing happens if not paused.
  function Unpaused(g: Gate): Gate
  {
    if g.paused then Gate(false, g.made, g.made + 1, g.closings + [g.current]) else g
  }

  // The flag and the channel are read under one lock.
  function Looked(g: Gate): Worker
  {
    if g.paused then Waiting(g.current) else Past
  }

  // ----- the gate as an object -----

  class PauseGate {
    var paused: bool
    var pauseC: nat
    var made: nat
    ghost var closings: seq<nat>

    ghost function View(): Gate
      reads this
    {
      Gate(paused, pauseC, made, closings)
    }

    constructor ()
      ensures View() == New()
    {
      paused, pauseC, made, closings := false, 0, 1, [];
    }

    method Pause()
      modifies this
      ensures View() == Paused(old(View())) && paused && pauseC == old(pauseC) && closings == old(closings)
    {
      paused := true;
    }

    // Closing a closed channel would panic, so the current one must still be open.
    method Unpause()
      requires Open(View())
      modifies this
      ensures View() == Unpaused(old(View())) && Open(View()) && !paused
      ensures closings == old(closings) + (if old(paused) then [old(pauseC)] else [])
      ensures pauseC != old(pauseC) <==> old(paused)
    {
      if paused {
        paused := false;
        closings := closings + [pauseC];
        pauseC := made;
        made := made + 1;
      }
    }

    // One turn of the pauseGate loop: the channel to wait on, if any.
    method Look() returns (ch: Option<nat>)
      ensures ch == if paused then Some(pauseC) else None
      ensures Looked(View()) == match ch case Some(c) => Waiting(c) case None => Past
    {
      if paused {
        return Some(pauseC);
      }
      return None;
    }
  }

  // ----- the machine -----

  predicate At(s: State, w: nat)
  {
    w < |s.workers|
  }

  predicate Can(s: State, step: Step)
  {
    match step
    case PauseTask => true
    case UnpauseTask => true
    case Cancel => true
    case Check(w) => At(s, w) && (s.workers[w].Outside? || s.workers[w].Awake?)
    case Wake(w) => At(s, w) && s.workers[w].Waiting? && s.workers[w].ch in s.gate.closings
    case GiveUp(w) => At(s, w) && s.workers[w].Waiting? && s.cancelled
    case Return(w) => At(s, w) && s.workers[w].Past?
  }

  function Do(s: State, step: Step): State
    requires Can(s, step)
  {
    match step
    case PauseTask => s.(gate := Paused(s.gate))
    case UnpauseTask => s.(gate := Unpaused(s.gate))
    case Cancel => s.(cancelled := true)
    case Check(w) => s.(workers := s.workers[w := Looked(s.gate)])
    case Wake(w) => s.(workers := s.workers[w := Awake])
    case GiveUp(w) => s.(workers := s.workers[w := Past])
    case Return(w) => s.(workers := s.workers[w := Outside])
  }

  ghost predicate Execution(ss: seq<State>, steps: seq<Step>)
  {
    && |ss| == |steps| + 1 && ss[0].gate == New()
    && (forall w :: 0 <= w < |ss[0].workers| ==> ss[0].workers[w] == Outside)
    && forall i :: 0 <= i < |steps| ==> Can(ss[i], steps[i]) && ss[i + 1] == Do(ss[i], steps[i])
  }

  // The current channel is open, and every closed one was closed once.
  ghost predicate Open(g: Gate)
  {
    && g.current < g.made && g.current !in g.closings
    && (forall i :: 0 <= i < |g.closings| ==> g.closings[i] < g.made)
    && (forall i, k :: 0 <= i < k < |g.closings| ==> g.closings[i] != g.closings[k])
  }

  // A sleeper waits for a channel that is closed, or for the current one of a paused task.
  ghost predicate NoLostWakeUp(s: State)
  {
    forall w :: 0 <= w < |s.workers| && s.workers[w].Waiting? ==>
      s.workers[w].ch in s.gate.closings || (s.gate.paused && s.workers[w].ch == s.gate.current)
  }

  lemma UnpauseKeepsOpen(g: Gate)
    requires Open(g)
    ensures Open(Unpaused(g)) && forall ch :: ch in g.closings || (g.paused && ch == g.current) ==>
            ch in Unpaused(g).closings
  {
    if g.paused {
      var c := Unpaused(g).closings;
      assert c[|g.closings|] == g.current;
      assert forall i :: 0 <= i < |g.closings| ==> c[i] == g.closings[i];
      assert forall i :: 0 <= i < |g.closings| ==> g.closings[i] in g.closings;
    }
  }

  lemma StepKeeps(s: State, step: Step)
    requires Open(s.gate) && NoLostWakeUp(s) && Can(s, step)
    ensures Open(Do(s, step).gate) && NoLostWakeUp(Do(s, step))
  {
    if step.UnpauseTask? { UnpauseKeepsOpen(s.gate); }
  }

  // In every reachable state: no channel has been closed twice, the one a pause would use is
  // open, and no worker sleeps on a channel nobody will close.
  lemma {:induction false} GateIsSafe(ss: seq<State>, steps: seq<Step>, n: nat)
    requires Execution(ss, steps) && n < |ss|
    ensures Open(ss[n].gate) && NoLostWakeUp(ss[n])
  {
    if n > 0 {
      GateIsSafe(ss, steps, n - 1);
      StepKeeps(ss[n - 1], steps[n - 1]);
    }
  }

  // ----- after an unpause everyone gets through -----

  function ToGo(k: Worker): nat
  {
    match k
    case Outside => 1
    case Waiting(_) => 2
    case Awake => 1
    case Past => 0
  }

  function Toll(ws: seq<Worker>): nat
  {
    if ws == [] then 0 else ToGo(ws[0]) + Toll(ws[1..])
  }

  lemma {:induction false} TollChange(ws: seq<Worker>, w: nat, k: Worker)
    requires w < |ws|
    ensures Toll(ws[w := k]) == Toll(ws) - ToGo(ws[w]) + ToGo(k)
  {
    if w == 0 {
      assert ws[0 := k][1..] == ws[1..];
    } else {
      assert ws[w := k][1..] == ws[1..][w - 1 := k];
      TollChange(ws[1..], w - 1, k);
    }
  }

  // While the task is not paused no worker is stuck in the gate, and each of its steps brings
  // it nearer to the far side: at most two per worker.
  lemma UnpausedGetsThrough(s: State, w: nat)
    requires Open(s.gate) && NoLostWakeUp(s) && !s.gate.paused && At(s, w) && !s.workers[w].Past?
    ensures var step := if s.workers[w].Waiting? then Wake(w) else Check(w);
            Can(s, step) && !Do(s, step).gate.paused && Toll(Do(s, step).workers) < Toll(s.workers)
  {
    TollChange(s.workers, w, if s.workers[w].Waiting? then Awake else Looked(s.gate));
  }

  lemma {:induction false} AllGetThrough(s: State) returns (ss: seq<State>, steps: seq<Step>)
    requires Open(s.gate) && NoLostWakeUp(s) && !s.gate.paused
    ensures |ss| == |steps| + 1 && ss[0] == s && |steps| <= Toll(s.workers)
    ensures forall i :: 0 <= i < |steps| ==>
              (steps[i].Wake? || steps[i].Check?) && Can(ss[i], steps[i]) && ss[i + 1] == Do(ss[i], steps[i])
    ensures forall w :: 0 <= w < |ss[|steps|].workers| ==> ss[|steps|].workers[w] == Past
    decreases Toll(s.workers)
  {
    if w: nat :| w < |s.workers| && !s.workers[w].Past? {
      var step := if s.workers[w].Waiting? then Wake(w) else Check(w);
      UnpausedGetsThrough(s, w);
      StepKeeps(s, step);
      var rest, more := AllGetThrough(Do(s, step));
      ss, steps := [s] + rest, [step] + more;
    } else {
      ss, steps := [s], [];
    }
  }

  // ----- what the flag means -----

  // The last pause or unpause so far was a pause.
  predicate LastWasPause(steps: seq<Step>)
  {
    if steps == [] then false
    else
      var last := steps[|steps| - 1];
      last.PauseTask? || (!last.UnpauseTask? && LastWasPause(steps[..|steps| - 1]))
  }

  // In every execution the task is paused if and only if the last of these calls paused it.
  lemma {:induction false} PausedExactly(ss: seq<State>, steps: seq<Step>, n: nat)
    requires Execution(ss, steps) && n < |ss|
    ensures ss[n].gate.paused <==> LastWasPause(steps[..n])
  {
    if n > 0 {
      PausedExactly(ss, steps, n - 1);
      assert Can(ss[n - 1], steps[n - 1]) && ss[n] == Do(ss[n - 1], steps[n - 1]);
      assert steps[..n][..n - 1] == steps[..n - 1] && steps[..n][n - 1] == steps[n - 1];
    }
  }

  // From every reachable state, an unpause lets every worker past the gate, wherever it was:
  // outside, asleep on a channel of this or of an earlier pause, or on its way back.
  lemma UnpauseFreesAll(ss: seq<State>, steps: seq<Step>, n: nat) returns (tail: seq<State>, more: seq<Step>)
    requires Execution(ss, steps) && n < |ss|
    ensures |tail| == |more| + 1 && tail[0] == Do(ss[n], UnpauseTask) && |more| <= 2 * |ss[n].workers|
    ensures forall i :: 0 <= i < |more| ==>
              (more[i].Wake? || more[i].Check?) && Can(tail[i], more[i]) && tail[i + 1] == Do(tail[i], more[i])
    ensures |tail[|more|].workers| == |ss[n].workers|
    ensures forall w :: 0 <= w < |ss[n].workers| ==> tail[|more|].workers[w] == Past
  {
    GateIsSafe(ss, steps, n);
    StepKeeps(ss[n], UnpauseTask);
    TollAtMost(ss[n].workers);
    tail, more := AllGetThrough(Do(ss[n], UnpauseTask));
    SameCrew(tail, more, |more|);
  }

  lemma {:induction false} TollAtMost(ws: seq<Worker>)
    ensures Toll(ws) <= 2 * |ws|
  {
    if ws != [] {
      TollAtMost(ws[1..]);
    }
  }

  lemma {:induction false} SameCrew(ss: seq<State>, steps: seq<Step>, n: nat)
    requires |ss| == |steps| + 1 && n <= |steps|
    requires forall i :: 0 <= i < |steps| ==> Can(ss[i], steps[i]) && ss[i + 1] == Do(ss[i], steps[i])
    ensures |ss[n].workers| == |ss[0].workers|
  {
    if n > 0 {
      SameCrew(ss, steps, n - 1);
      assert Can(ss[n - 1], steps[n - 1]) && ss[n] == Do(ss[n - 1], steps[n - 1]);
    }
  }

  // While it stays paused, a worker that looks goes to sleep and nothing but a cancel moves it.
  lemma PausedSleeps(s: State, w: nat)
    requires Open(s.gate) && s.gate.paused && At(s, w) && Can(s, Check(w))
    ensures var t := Do(s, Check(w));
            t.workers[w] == Waiting(s.gate.current) && !Can(t, Wake(w)) && (Can(t, GiveUp(w)) <==> s.cancelled)
  {
  }
}
