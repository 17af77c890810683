// What a cancel is worth: the run does not end Completed any more, and its workers can go without
// taking up another chunk (Cancel, worker and Start of internal/download).
module Cancelling {
  import opened Chunks
  import opened Workers
  import opened Ownership
  import opened BoundedWork
  import opened Termination

  lemma CancelStays(j: Job, s: Run, step: Step)
    requires Can(j, s, step)
    ensures Do(j, s, step).cancelled == (s.cancelled || step.Cancel?)
  {
    if MovesNothing(step) { QuietCancel(j, s, step); }
  }

  lemma QuietCancel(j: Job, s: Run, step: Step)
    requires Can(j, s, step) && MovesNothing(step)
    ensures Do(j, s, step).cancelled == (s.cancelled || step.Cancel?)
  {
  }

  // A run is cancelled exactly from the first cancel on.
  lemma {:induction false} CancelledExactly(j: Job, ss: seq<Run>, steps: seq<Step>, n: nat)
    requires Execution(j, ss, steps) && n <= |steps|
    ensures ss[n].cancelled <==> ss[0].cancelled || exists i :: 0 <= i < n && steps[i].Cancel?
  {
    if n > 0 {
      CancelledExactly(j, ss, steps, n - 1);
      assert Can(j, ss[n - 1], steps[n - 1]) && ss[n] == Do(j, ss[n - 1], steps[n - 1]);
      CancelStays(j, ss[n - 1], steps[n - 1]);
    }
  }

  // After a cancel no continuation of the run ends Completed.
  lemma CancelledNeverCompletes(j: Job, ss: seq<Run>, steps: seq<Step>, i: nat, n: nat)
    requires Execution(j, ss, steps) && i < n <= |steps| && steps[i].Cancel?
    ensures !Completes(ss[n])
  {
    CancelledExactly(j, ss, steps, n);
  }

  // What worker w does next if it has seen the cancel: it takes up nothing more.
  function NextToLeave(s: Run, w: nat): Step
    requires w < |s.workers| && !s.workers[w].phase.Exited?
  {
    if s.workers[w].phase.Ready? then SeeCancel(w) else NextStep(s, w)
  }

  lemma LeavingIsPossible(j: Job, s: Run, w: nat)
    requires Regular(j, s) && s.cancelled && w < |s.workers| && !s.workers[w].phase.Exited?
    ensures var step := NextToLeave(s, w);
            && Can(j, s, step) && FromServer(j, s, step) && !step.PullNext?
            && (IsWork(step) || (step.EndPersist? && s.mu.Some?))
  {
    if !s.workers[w].phase.Ready? { Progress(j, s, w); }
  }

  lemma EndPersistFrees(j: Job, s: Run, step: Step)
    requires Can(j, s, step) && step.EndPersist?
    ensures Do(j, s, step).mu.None?
  {
  }

  // The termination measure of the way out.
  ghost predicate Nearer(j: Job, t: Run, s: Run)
    requires Fit(j, s) && Fit(j, t)
  {
    0 <= Measure(j, s) && (Measure(j, t) < Measure(j, s)
                           || (Measure(j, t) == Measure(j, s) && s.mu.Some? && t.mu.None?))
  }

  lemma LeavingKeepsFit(j: Job, s: Run, w: nat)
    requires Fit(j, s) && s.cancelled && w < |s.workers| && !s.workers[w].phase.Exited?
    ensures var step := NextToLeave(s, w);
            && Can(j, s, step) && FromServer(j, s, step) && !step.PullNext?
            && Fit(j, Do(j, s, step)) && Do(j, s, step).cancelled && Nearer(j, Do(j, s, step), s)
  {
    var step := NextToLeave(s, w);
    LeavingIsPossible(j, s, w);
    FitKept(j, s, step);
    StepMeasure(j, s, step);
    MeasureNonNegative(j, s);
    CancelStays(j, s, step);
    if step.EndPersist? { EndPersistFrees(j, s, step); }
  }

  ghost predicate NoPulls(steps: seq<Step>)
  {
    forall i :: 0 <= i < |steps| ==> !steps[i].PullNext?
  }

  lemma NoPullsCons(step: Step, steps: seq<Step>)
    requires !step.PullNext? && NoPulls(steps)
    ensures NoPulls([step] + steps)
  {
  }

  // From every state of a cancelled run the workers can be brought to their end without any of
  // them taking another chunk from a queue.
  lemma {:induction false} CancelledCanStop(j: Job, s: Run) returns (ss: seq<Run>, steps: seq<Step>)
    requires Fit(j, s) && s.cancelled
    ensures Execution(j, ss, steps) && ss[0] == s && AllExited(ss[|steps|]) && NoPulls(steps)
    decreases Measure(j, s), if s.mu.Some? then 1 else 0
  {
    if AllExited(s) {
      ss, steps := [s], [];
    } else {
      var w: nat :| w < |s.workers| && !s.workers[w].phase.Exited?;
      var step := NextToLeave(s, w);
      LeavingKeepsFit(j, s, w);
      ss, steps := StopAfter(j, s, step);
    }
  }

  lemma {:induction false} StopAfter(j: Job, s: Run, step: Step) returns (ss: seq<Run>, steps: seq<Step>)
    requires Fit(j, s) && Can(j, s, step) && FromServer(j, s, step) && !step.PullNext?
    requires Fit(j, Do(j, s, step)) && Do(j, s, step).cancelled && Nearer(j, Do(j, s, step), s)
    ensures Execution(j, ss, steps) && ss[0] == s && AllExited(ss[|steps|]) && NoPulls(steps)
    decreases Measure(j, s), if s.mu.Some? then 1 else 0, 0
  {
    var rest, more := CancelledCanStop(j, Do(j, s, step));
    ExecutionCons(j, s, step, rest, more);
    NoPullsCons(step, more);
    ss, steps := [s] + rest, [step] + more;
  }

  // A chunk in the hands of a worker when its attempt breaks off after the cancel is an error of
  // the run, and the bytes of the attempt stay counted: the worker returns before the roll-back.
  lemma CancelledAttempt(j: Job, s: Run, w: nat)
    requires Can(j, s, Answer(w, NoReply)) && s.cancelled
    ensures var t := Do(j, s, Answer(w, NoReply));
            && Can(j, t, Resolve(w)) && t.bytesDone == s.bytesDone && t.queues == s.queues
            && Do(j, t, Resolve(w)).errors == s.errors + 1 && Do(j, t, Resolve(w)).queues == s.queues
            && Do(j, t, Resolve(w)).workers[w].phase == Draining
  {
  }

  lemma CancelledCopy(j: Job, s: Run, w: nat, torn: nat)
    requires Can(j, s, CopyFail(w, torn)) && s.cancelled
    ensures var t := Do(j, s, CopyFail(w, torn));
            && Can(j, t, Resolve(w)) && t.bytesDone == s.bytesDone && t.queues == s.queues
            && Do(j, t, Resolve(w)).errors == s.errors + 1 && Do(j, t, Resolve(w)).queues == s.queues
            && Do(j, t, Resolve(w)).workers[w].phase == Draining
  {
  }
}
