// Answers that do not heal (internal/download/task_io.go and internal/transport/transport.go):
// once a server has answered outside the layout, a run can no longer end Completed.
module Fatal {
  import opened Chunks
  import opened Workers
  import opened BoundedWork

  // A client error; a whole body or another range where a range was asked for; or a body
  // that ends cleanly at the wrong length.
  predicate FatalStep(j: Job, s: Run, step: Step)
    requires Can(j, s, step)
  {
    match step
    case Answer(w, r) =>
      var c := s.workers[w].phase.c;
      r.Reply? &&
      ((400 <= r.status < 500 && r.status != 408 && r.status != 429)
       || (!Whole(j, c) && (r.status == 200
          || (r.status == 206 && r.rangeStart != Some(AbsStart(j, s.workers[w].region, c))))))
    case CopyEnd(w) =>
      var ph := s.workers[w].phase;
      ph.ending.Eof? &&
      (if Whole(j, ph.c) then j.p.totalSize > 0 && |ph.body| != j.p.totalSize
       else j.p.totalSize > 0 && ph.c.end >= 0 && |ph.body| != ph.c.end - ph.c.start + 1)
    case _ => false
  }

  ghost predicate GaveUp(s: Run, w: int)
  {
    0 <= w < |s.workers| && s.workers[w].phase.Failed? && s.workers[w].phase.permanent
  }

  // An error has been counted, or is about to be.
  ghost predicate Doomed(s: Run)
  {
    s.errors > 0 || exists w :: GaveUp(s, w)
  }

  lemma FatalDooms(j: Job, s: Run, step: Step)
    requires Can(j, s, step) && FatalStep(j, s, step)
    ensures Doomed(Do(j, s, step))
  {
    assert GaveUp(Do(j, s, step), step.w);
  }

  // Errors are never taken back, and a worker that gave up only leaves by counting one.
  lemma ErrorsGrow(j: Job, s: Run, step: Step)
    requires Can(j, s, step)
    ensures Do(j, s, step).errors >= s.errors
    ensures step.Resolve? && GaveUp(s, step.w) ==> Do(j, s, step).errors > s.errors
  {
    if !step.Resolve? { OnlyResolveCounts(j, s, step); }
  }

  lemma OnlyResolveCounts(j: Job, s: Run, step: Step)
    requires Can(j, s, step) && !step.Resolve?
    ensures Do(j, s, step).errors == s.errors
  {
    if step.Answer? || step.CopyFail? || step.CopyEnd? { AttemptsCountNothing(j, s, step); }
  }

  lemma AttemptsCountNothing(j: Job, s: Run, step: Step)
    requires Can(j, s, step) && (step.Answer? || step.CopyFail? || step.CopyEnd?)
    ensures Do(j, s, step).errors == s.errors
  {
  }

  lemma OthersStay(j: Job, s: Run, step: Step, w: int)
    requires Can(j, s, step) && GaveUp(s, w) && !(step.Resolve? && step.w == w)
    ensures GaveUp(Do(j, s, step), w)
  {
  }

  lemma DoomedStays(j: Job, s: Run, step: Step)
    requires Doomed(s) && Can(j, s, step)
    ensures Doomed(Do(j, s, step))
  {
    ErrorsGrow(j, s, step);
    if w :| GaveUp(s, w) {
      if !(step.Resolve? && step.w == w) { OthersStay(j, s, step, w); }
    }
  }

  lemma DoomedNext(j: Job, ss: seq<Run>, steps: seq<Step>, n: nat)
    requires Execution(j, ss, steps) && n < |steps| && Doomed(ss[n])
    ensures Doomed(ss[n + 1])
  {
    var s, step := ss[n], steps[n];
    assert Can(j, s, step) && ss[n + 1] == Do(j, s, step);
    DoomedStays(j, s, step);
  }

  lemma {:induction false} DoomedFrom(j: Job, ss: seq<Run>, steps: seq<Step>, i: nat, n: nat)
    requires Execution(j, ss, steps) && i <= n < |ss| && Doomed(ss[i])
    ensures Doomed(ss[n])
    decreases n
  {
    if i < n {
      DoomedFrom(j, ss, steps, i, n - 1);
      DoomedNext(j, ss, steps, n - 1);
    }
  }

  // After one such answer, to any worker, no continuation of the run ends Completed.
  lemma FatalNeverCompletes(j: Job, ss: seq<Run>, steps: seq<Step>, i: nat, n: nat)
    requires Execution(j, ss, steps) && i < n < |ss| && Can(j, ss[i], steps[i]) && FatalStep(j, ss[i], steps[i])
    ensures !Completes(ss[n])
  {
    assert ss[i + 1] == Do(j, ss[i], steps[i]);
    FatalDooms(j, ss[i], steps[i]);
    DoomedFrom(j, ss, steps, i + 1, n);
    if w :| GaveUp(ss[n], w) {
      assert !ss[n].workers[w].phase.Exited?;
    }
  }
}
