// When a run ends Completed: exactly when no chunk has used up its whole allowance in vain
// (task_io.go and task_start.go of internal/download).
module Completion {
  import opened Chunks
  import opened Layout
  import opened Workers
  import opened Ownership
  import opened Contents
  import opened World
  import opened WorldProof
  import opened BoundedWork
  import opened Termination
  import opened Fatal
  import opened Drain
  import opened Runs
  import opened Patience
  import W = WorkQueue

  // Nobody has the chunk, nobody will be given it, and it is not done.
  ghost predicate Gone(s: Run, e: int, c: Chunk)
  {
    0 <= e < |s.queues| && c !in s.queues[e].pending && c.start !in s.queues[e].done && !Held(s.workers, e, c)
  }

  // ----- what is gone stays gone -----

  lemma GoneQuiet(s: Run, t: Run, e: int, c: Chunk)
    requires Gone(s, e, c) && Quiet(s, t)
    ensures Gone(t, e, c)
  {
    if w :| HeldBy(t.workers, w, e, c) {
      assert w < |s.workers| ==> HeldBy(s.workers, w, e, c);
    }
  }

  lemma GoneLeaves(s: Run, w: nat, t: Run, e: int, c: Chunk)
    requires Gone(s, e, c) && Leaves(s, w, t)
    ensures Gone(t, e, c)
  {
    if v :| HeldBy(t.workers, v, e, c) {
      assert v != w && HeldBy(s.workers, v, e, c);
    }
  }

  // A trade of another chunk.
  lemma GoneTraded(s: Run, w: nat, t: Run, e: int, c: Chunk)
    requires Gone(s, e, c) && Trades(s, w, t) && Hand(t.workers[w]) != Some(c)
    requires s.workers[w].region == e ==> c !in t.queues[e].pending && c.start !in t.queues[e].done
    ensures Gone(t, e, c)
  {
    if v :| HeldBy(t.workers, v, e, c) {
      assert v != w && HeldBy(s.workers, v, e, c);
    }
  }

  lemma GonePull(j: Job, s: Run, w: nat, e: int, c: Chunk)
    requires Owned(j, s) && Gone(s, e, c) && Can(j, s, PullNext(w))
    ensures Gone(DoPull(s, w), e, c)
  {
    var f := s.workers[w].region;
    if s.queues[f].pending == [] {
      GoneLeaves(s, w, DoPull(s, w), e, c);
    } else {
      assert s.queues[f].pending[0] in s.queues[f].pending;
      if f != e || s.queues[f].pending[0] != c {
        GonePulled(s, w, e, c);
      }
    }
  }

  lemma GonePulled(s: Run, w: nat, e: int, c: Chunk)
    requires Gone(s, e, c) && w < |s.workers| && s.workers[w].region < |s.queues|
    requires s.queues[s.workers[w].region].pending != []
    requires s.workers[w].region != e || s.queues[e].pending[0] != c
    ensures Gone(DoPull(s, w), e, c)
  {
    var t := DoPull(s, w);
    if v :| HeldBy(t.workers, v, e, c) {
      assert v != w && HeldBy(s.workers, v, e, c);
    }
  }

  lemma GoneFinished(j: Job, s: Run, w: nat, e: int, c: Chunk)
    requires Owned(j, s) && Distinct(j) && Gone(s, e, c) && Has(j.plan.regions, e, c) && Can(j, s, Finished(w))
    ensures Gone(DoFinished(s, w), e, c)
  {
    var f, d := s.workers[w].region, s.workers[w].phase.c;
    assert Hand(s.workers[w]) == Some(d);
    MarkedQueue(j.plan.regions[f].chunks, s.queues[f], d);
    OrderedUnique(j.plan.regions[f].chunks);
    if f == e { assert HeldBy(s.workers, w, e, d); }
    GoneTraded(s, w, DoFinished(s, w), e, c);
  }

  lemma GoneRequeued(q: W.Queue, d: Chunk, c: Chunk, limit: int)
    requires c !in q.pending && c.start !in q.done && c != d
    ensures var r := W.Requeue(q, d, limit).0; c !in r.pending && c.start !in r.done
  {
  }

  lemma GoneResolved(j: Job, s: Run, w: nat, e: int, c: Chunk)
    requires Gone(s, e, c) && Can(j, s, Resolve(w))
    ensures Gone(DoResolve(j, s, w), e, c)
  {
    var f, d := s.workers[w].region, s.workers[w].phase.c;
    assert Hand(s.workers[w]) == Some(d);
    if f == e {
      assert HeldBy(s.workers, w, e, d);
      GoneRequeued(s.queues[e], d, c, j.o.retry);
    }
    GoneTraded(s, w, DoResolve(j, s, w), e, c);
  }

  lemma GoneLeft(j: Job, s: Run, step: Step, e: int, c: Chunk)
    requires Gone(s, e, c) && Can(j, s, step) && (step.RetireCas? || step.SeeCancel? || step.Leave?)
    ensures Gone(Do(j, s, step), e, c)
  {
    GoneLeaves(s, step.w, Do(j, s, step), e, c);
  }

  lemma GoneStays(j: Job, s: Run, step: Step, e: int, c: Chunk)
    requires Owned(j, s) && Distinct(j) && Gone(s, e, c) && Has(j.plan.regions, e, c) && Can(j, s, step)
    ensures Gone(Do(j, s, step), e, c)
  {
    if MovesNothing(step) {
      QuietSteps(j, s, step);
      GoneQuiet(s, Do(j, s, step), e, c);
    } else {
      match step
      case PullNext(w) => GonePull(j, s, w, e, c);
      case Finished(w) => GoneFinished(j, s, w, e, c);
      case Resolve(w) => GoneResolved(j, s, w, e, c);
      case _ => GoneLeft(j, s, step, e, c);
    }
  }

  // ----- every error has its chunk -----

  ghost predicate GivenUp(j: Job, ss: seq<Run>, steps: seq<Step>, n: nat, e: int, c: Chunk)
    requires n <= |steps| < |ss|
  {
    && Has(j.plan.regions, e, c) && Gone(ss[n], e, c)
    && RequestCount(ss, steps, n, e, c) == FetchLimit(j.o.retry, j.plan.regions[e].stealing)
  }

  // A worker that counts an error for want of attempts drops its chunk.
  lemma DropsIt(j: Job, s: Run, w: nat)
    requires Owned(j, s) && Distinct(j) && Can(j, s, Resolve(w)) && !s.cancelled && !s.workers[w].phase.permanent
    requires DoResolve(j, s, w).errors > s.errors
    ensures Gone(DoResolve(j, s, w), s.workers[w].region, s.workers[w].phase.c)
  {
    var e, c := s.workers[w].region, s.workers[w].phase.c;
    var t := DoResolve(j, s, w);
    assert Hand(s.workers[w]) == Some(c);
    HandIsAlone(j, s, w);
    RequeueCounts(j.plan.regions[e].chunks, s.queues[e], c, j.o.retry);
    forall v
      ensures !HeldBy(t.workers, v, e, c)
    {
      if 0 <= v < |t.workers| && v != w { assert t.workers[v] == s.workers[v]; }
    }
  }

  // The count of a chunk nobody has does not move.
  lemma NotAsked(j: Job, ss: seq<Run>, steps: seq<Step>, n: nat, e: int, c: Chunk)
    requires Execution(j, ss, steps) && n < |steps| && Gone(ss[n], e, c)
    ensures RequestCount(ss, steps, n + 1, e, c) == RequestCount(ss, steps, n, e, c)
  {
    assert Requests(ss[n], steps[n], e, c) ==> HeldBy(ss[n].workers, steps[n].w, e, c);
  }

  lemma GivenUpStays(j: Job, ss: seq<Run>, steps: seq<Step>, n: nat, e: int, c: Chunk)
    requires Execution(j, ss, steps) && n < |steps| && Regular(j, ss[n]) && GivenUp(j, ss, steps, n, e, c)
    ensures GivenUp(j, ss, steps, n + 1, e, c)
  {
    assert Can(j, ss[n], steps[n]) && ss[n + 1] == Do(j, ss[n], steps[n]);
    GoneStays(j, ss[n], steps[n], e, c);
    NotAsked(j, ss, steps, n, e, c);
  }

  lemma NewError(j: Job, ss: seq<Run>, steps: seq<Step>, n: nat) returns (e: int, c: Chunk)
    requires Execution(j, ss, steps) && n < |steps| && AtStart(j, ss[0])
    requires Healing(j, ss, steps, n) && !ss[n].cancelled && ss[n + 1].errors > ss[n].errors
    ensures GivenUp(j, ss, steps, n + 1, e, c)
  {
    ErrorsCostFullAllowance(j, ss, steps, n);
    ReadyAlong(j, ss, steps, n);
    var s, step := ss[n], steps[n];
    assert Can(j, s, step) && ss[n + 1] == Do(j, s, step);
    e, c := s.workers[step.w].region, s.workers[step.w].phase.c;
    OutOfPasses(j, s, step);
    DropsIt(j, s, step.w);
  }

  lemma {:induction false} ErrorsHaveChunks(j: Job, ss: seq<Run>, steps: seq<Step>, n: nat) returns (e: int, c: Chunk)
    requires Execution(j, ss, steps) && n <= |steps| && AtStart(j, ss[0]) && ss[0].errors == 0
    requires Healing(j, ss, steps, n) && ss[n].errors > 0
    ensures GivenUp(j, ss, steps, n, e, c)
  {
    if ss[n - 1].errors == 0 {
      e, c := NewError(j, ss, steps, n - 1);
    } else {
      e, c := ErrorsHaveChunks(j, ss, steps, n - 1);
      ReadyAlong(j, ss, steps, n - 1);
      GivenUpStays(j, ss, steps, n - 1, e, c);
    }
  }

  // ----- the invariant along an undirected run -----

  ghost predicate Untouched(steps: seq<Step>)
  {
    forall i :: 0 <= i < |steps| ==> !steps[i].Retarget?
  }

  lemma {:induction false} GoodAlong(j: Job, ss: seq<Run>, steps: seq<Step>, n: nat)
    requires Execution(j, ss, steps) && n <= |steps| && Untouched(steps)
    requires Sound(j) && Distinct(j) && Inv(j, ss[0]) && Intact(j, ss[0]) && LevelOrTroubled(ss[0])
    ensures Inv(j, ss[n]) && Intact(j, ss[n]) && LevelOrTroubled(ss[n])
  {
    if n > 0 {
      GoodAlong(j, ss, steps, n - 1);
      var s, step := ss[n - 1], steps[n - 1];
      assert Can(j, s, step) && FromServer(j, s, step) && ss[n] == Do(j, s, step) && !step.Retarget?;
      LevelOrTroubledKept(j, s, step);
      StepKeeps(j, s, step);
      StepIntact(j, s, step);
    }
  }

  // An execution that a worker or the end of a checkpoint cannot prolong.
  ghost predicate Stuck(j: Job, s: Run)
  {
    forall step :: (IsWork(step) || step.EndPersist?) && Can(j, s, step) ==> !FromServer(j, s, step)
  }

  // Each chunk is done, or has not been asked for as often as it may be.
  ghost predicate NoneExhausted(j: Job, ss: seq<Run>, steps: seq<Step>)
    requires |steps| < |ss| && |ss[|steps|].queues| == |j.plan.regions|
  {
    forall e, c :: Has(j.plan.regions, e, c) ==>
      c.start in ss[|steps|].queues[e].done
      || RequestCount(ss, steps, |steps|, e, c) < FetchLimit(j.o.retry, j.plan.regions[e].stealing)
  }

  lemma CompletesExactly(j: Job, ss: seq<Run>, steps: seq<Step>)
    requires Execution(j, ss, steps) && Untouched(steps) && AtStart(j, ss[0]) && ss[0].errors == 0
    requires Positive(ss[0]) && Inv(j, ss[0]) && Intact(j, ss[0]) && LevelOrTroubled(ss[0])
    requires Healing(j, ss, steps, |steps|) && !ss[|steps|].cancelled && Stuck(j, ss[|steps|])
    ensures |ss[|steps|].queues| == |j.plan.regions|
    ensures Completes(ss[|steps|]) <==> NoneExhausted(j, ss, steps)
    ensures Completes(ss[|steps|]) && j.p.totalSize > 0 ==> ss[|steps|].disk == j.content
  {
    var n := |steps|;
    StartReady(j, ss[0]);
    StuckMeansExited(j, ss, steps);
    GoodAlong(j, ss, steps, n);
    if ss[n].errors == 0 {
      NothingSkipped(j, ss[n]);
      AllDone(j, ss, steps);
      if j.p.totalSize > 0 { AllDoneMeansEqual(j, ss[n]); }
    } else {
      var e, c := ErrorsHaveChunks(j, ss, steps, n);
      assert !NoneExhausted(j, ss, steps);
    }
  }

  lemma AllDone(j: Job, ss: seq<Run>, steps: seq<Step>)
    requires |steps| < |ss| && |ss[|steps|].queues| == |j.plan.regions|
    requires forall e :: 0 <= e < |j.plan.regions| ==>
               ss[|steps|].queues[e].done == Starts(j.plan.regions[e].chunks)
    ensures NoneExhausted(j, ss, steps)
  {
    forall e, c | Has(j.plan.regions, e, c)
      ensures c.start in ss[|steps|].queues[e].done
    {
      assert c.start in Starts(j.plan.regions[e].chunks);
    }
  }

  lemma LaunchedWell(content: seq<byte>, ws: seq<World>, evs: seq<Event>, n: nat)
    requires History(content, ws, evs) && n < |evs| && evs[n].Launch? && ws[n + 1].Busy?
    ensures var j, s := ws[n + 1].j, ws[n + 1].s;
            && j.content == content && AtStart(j, s) && s.errors == 0 && Positive(s)
            && Inv(j, s) && Intact(j, s) && LevelOrTroubled(s)
  {
    HistorySafe(content, ws, evs, n);
    LaunchIsWell(content, ws[n], evs[n]);
  }

  lemma LaunchIsWell(content: seq<byte>, w: World, ev: Event)
    requires Safe(content, w) && Occurs(content, w, ev) && ev.Launch? && Launched(content, w, ev).Busy?
    ensures var j, s := Launched(content, w, ev).j, Launched(content, w, ev).s;
            && j.content == content && AtStart(j, s) && s.errors == 0 && Positive(s)
            && Inv(j, s) && Intact(j, s) && LevelOrTroubled(s)
  {
    LaunchAtStart(content, w, ev);
    LaunchedCounters(content, w, ev);
  }

  // A launched run, in any history, whose target nobody changes, which nobody cancels and
  // which meets no answer that cannot heal: when it can go no further, it ends Completed if
  // and only if every chunk is done or has requests left, and then with the server's bytes.
  lemma RunCompletesExactly(content: seq<byte>, ws: seq<World>, evs: seq<Event>, n: nat, ss: seq<Run>, steps: seq<Step>)
    requires History(content, ws, evs) && n < |evs| && evs[n].Launch? && ws[n + 1].Busy?
    requires Execution(ws[n + 1].j, ss, steps) && ss[0] == ws[n + 1].s && Untouched(steps)
    requires Healing(ws[n + 1].j, ss, steps, |steps|) && !ss[|steps|].cancelled && Stuck(ws[n + 1].j, ss[|steps|])
    ensures |ss[|steps|].queues| == |ws[n + 1].j.plan.regions|
    ensures Completes(ss[|steps|]) <==> NoneExhausted(ws[n + 1].j, ss, steps)
    ensures Completes(ss[|steps|]) && ws[n + 1].j.p.totalSize > 0 ==> ss[|steps|].disk == content
  {
    LaunchedWell(content, ws, evs, n);
    CompletesExactly(ws[n + 1].j, ss, steps);
  }

  // The verdict: Completed exactly when nobody is left, nobody cancelled and no error was
  // counted; then the control file is gone if it could be removed, otherwise it stays.
  lemma VerdictExactly(content: seq<byte>, j: Job, s: Run, removed: bool)
    ensures Occurs(content, Busy(j, s), Finish(removed)) <==> AllExited(s) && s.mu.None?
    ensures Occurs(content, Busy(j, s), Finish(removed)) ==>
              var w := After(content, Busy(j, s), Finish(removed));
              && w.Rest? && w.disk == s.disk
              && (w.finished == Some(j) <==> !s.cancelled && s.errors == 0)
              && (w.finished != Some(j) ==> w.finished == None && w.control == s.control)
              && (w.finished == Some(j) ==> w.control == if removed then None else s.control)
  {
  }
}
