// How much a chunk is given before it is given up (downloadChunk and worker in
// internal/download/task_io.go, Requeue of both queues): all of its allowance, exactly.
module Patience {
  import opened Chunks
  import opened Layout
  import opened Workers
  import opened Ownership
  import opened BoundedWork
  import opened Fatal
  import W = WorkQueue

  // Requests made for c in the passes already over.
  function Base(r: nat, q: W.Queue, c: Chunk): nat
  {
    Passes(W.Failures(q, c.index), r)
  }

  // What the worker holding c knows about the requests made for it so far.
  ghost predicate Tallied(r: nat, q: W.Queue, k: Worker, e: int, c: Chunk, asked: nat)
  {
    k.region == e && Hand(k) == Some(c) ==>
      match k.phase
      case Attempt(_, n) => asked == Base(r, q, c) + n
      case Copying(_, n, _, _, _) => asked == Base(r, q, c) + n + 1
      case Failed(_, permanent) => !permanent && asked == Base(r, q, c) + r + 1
      case _ => true
  }

  ghost predicate Spent(j: Job, s: Run, e: int, c: Chunk, asked: nat)
  {
    && 0 <= e < |s.queues|
    && (c in s.queues[e].pending ==> asked == Base(j.o.retry, s.queues[e], c))
    && (!s.queues[e].stealing ==> W.Failures(s.queues[e], c.index) == 0)
    && forall w :: 0 <= w < |s.workers| ==> Tallied(j.o.retry, s.queues[e], s.workers[w], e, c, asked)
  }

  function Asked(s: Run, step: Step, e: int, c: Chunk): nat
  {
    if step.Answer? && step.w < |s.workers| && s.workers[step.w].region == e && Hand(s.workers[step.w]) == Some(c)
    then 1 else 0
  }

  // One worker goes on and the queues stay; only the worker that has c can ask for it.
  lemma SpentByOne(j: Job, s: Run, t: Run, w: nat, e: int, c: Chunk, asked: nat, more: nat)
    requires Owned(j, s) && Spent(j, s, e, c, asked) && w < |s.workers| == |t.workers|
    requires t.queues == s.queues && t.workers == s.workers[w := t.workers[w]]
    requires more > 0 ==> s.workers[w].region == e && Hand(s.workers[w]) == Some(c)
    requires Tallied(j.o.retry, s.queues[e], t.workers[w], e, c, asked + more)
    ensures Spent(j, t, e, c, asked + more)
  {
    if more > 0 { HandIsAlone(j, s, w); }
  }

  // An attempt that fails for now: the next one, or the end of the pass.
  lemma FailedTally(j: Job, s: Run, w: nat, off: nat, e: int, c: Chunk, asked: nat, more: nat)
    requires w < |s.workers| && !s.cancelled && AttemptsOk(j, s.workers[w].phase) && 0 <= e < |s.queues|
    requires s.workers[w].phase.Attempt? || s.workers[w].phase.Copying?
    requires Tallied(j.o.retry, s.queues[e], s.workers[w], e, c, asked)
    requires s.workers[w].region == e && Hand(s.workers[w]) == Some(c) ==>
             more == if s.workers[w].phase.Attempt? then 1 else 0
    ensures var ph := s.workers[w].phase;
            Tallied(j.o.retry, s.queues[e], AttemptFailed(j, s, w, ph.c, ph.n, off, false).workers[w], e, c,
                asked + more)
  {
  }

  lemma RefusedForNow(j: Job, s: Run, w: nat, r: Reply)
    requires Can(j, s, Answer(w, r)) && !FatalStep(j, s, Answer(w, r))
    ensures Check(j, s.workers[w].region, s.workers[w].phase.c, r) != Reject(true)
  {
  }

  lemma AnswerSpent(j: Job, s: Run, w: nat, r: Reply, e: int, c: Chunk, asked: nat)
    requires Owned(j, s) && Spent(j, s, e, c, asked) && !s.cancelled && Can(j, s, Answer(w, r))
    requires AttemptsOk(j, s.workers[w].phase) && Check(j, s.workers[w].region, s.workers[w].phase.c, r) != Reject(true)
    ensures Spent(j, DoAnswer(j, s, w, r), e, c, asked + Asked(s, Answer(w, r), e, c))
  {
    var ph := s.workers[w].phase;
    var more := Asked(s, Answer(w, r), e, c);
    var t := DoAnswer(j, s, w, r);
    assert Tallied(j.o.retry, s.queues[e], s.workers[w], e, c, asked);
    if Check(j, s.workers[w].region, ph.c, r).Reject? {
      FailedTally(j, s, w, 0, e, c, asked, more);
    }
    SpentByOne(j, s, t, w, e, c, asked, more);
  }

  lemma CopySpent(j: Job, s: Run, w: nat, k: nat, e: int, c: Chunk, asked: nat)
    requires Owned(j, s) && Spent(j, s, e, c, asked) && CanCopy(j, s, w, k)
    ensures Spent(j, DoCopy(j, s, w, k), e, c, asked)
  {
    assert Tallied(j.o.retry, s.queues[e], s.workers[w], e, c, asked);
    SpentByOne(j, s, DoCopy(j, s, w, k), w, e, c, asked, 0);
  }

  lemma CopyFailSpent(j: Job, s: Run, w: nat, torn: nat, e: int, c: Chunk, asked: nat)
    requires Owned(j, s) && Budgeted(j, s) && Spent(j, s, e, c, asked) && !s.cancelled && CanCopy(j, s, w, torn)
    ensures Spent(j, DoCopyFail(j, s, w, torn), e, c, asked)
  {
    var ph := s.workers[w].phase;
    assert Tallied(j.o.retry, s.queues[e], s.workers[w], e, c, asked);
    assert AttemptsOk(j, ph);
    FailedTally(j, s.(disk := Written(j, s, w, torn)), w, ph.off, e, c, asked, 0);
    SpentByOne(j, s, DoCopyFail(j, s, w, torn), w, e, c, asked, 0);
  }

  lemma CopyEndSpent(j: Job, s: Run, w: nat, e: int, c: Chunk, asked: nat)
    requires Owned(j, s) && Budgeted(j, s) && Spent(j, s, e, c, asked) && !s.cancelled
    requires Can(j, s, CopyEnd(w)) && !FatalStep(j, s, CopyEnd(w))
    ensures Spent(j, DoCopyEnd(j, s, w), e, c, asked)
  {
    var ph := s.workers[w].phase;
    assert Tallied(j.o.retry, s.queues[e], s.workers[w], e, c, asked);
    assert AttemptsOk(j, ph);
    EndedForNow(j, s, w);
    FailedTally(j, s, w, ph.off, e, c, asked, 0);
    SpentByOne(j, s, DoCopyEnd(j, s, w), w, e, c, asked, 0);
  }

  lemma EndedForNow(j: Job, s: Run, w: nat)
    requires Can(j, s, CopyEnd(w)) && !FatalStep(j, s, CopyEnd(w))
    ensures var ph := s.workers[w].phase;
            DoCopyEnd(j, s, w) == AttemptFailed(j, s, w, ph.c, ph.n, ph.off, false)
            || DoCopyEnd(j, s, w) == At(s, w, Fetched(ph.c, Digest(ph.body)))
  {
  }

  lemma PullSpent(j: Job, s: Run, w: nat, e: int, c: Chunk, asked: nat)
    requires Owned(j, s) && Spent(j, s, e, c, asked) && Can(j, s, PullNext(w))
    ensures Spent(j, DoPull(s, w), e, c, asked)
  {
    var t, f := DoPull(s, w), s.workers[w].region;
    if s.queues[f].pending == [] {
      SpentByOne(j, s, t, w, e, c, asked, 0);
    } else {
      PulledSpent(j, s, w, e, c, asked);
    }
  }

  // The head of the queue changes hands; failure counts stay.
  lemma PulledQueueTally(r: nat, q: W.Queue, k: Worker, e: int, c: Chunk, asked: nat)
    requires q.pending != [] && Tallied(r, q, k, e, c, asked)
    ensures Tallied(r, W.Pull(q).0, k, e, c, asked)
  {
  }

  lemma PulledSpent(j: Job, s: Run, w: nat, e: int, c: Chunk, asked: nat)
    requires Spent(j, s, e, c, asked) && Can(j, s, PullNext(w)) && s.queues[s.workers[w].region].pending != []
    ensures Spent(j, DoPull(s, w), e, c, asked)
  {
    var t, q := DoPull(s, w), s.queues[s.workers[w].region];
    assert q.pending == [q.pending[0]] + q.pending[1..];
    forall v | 0 <= v < |t.workers|
      ensures Tallied(j.o.retry, t.queues[e], t.workers[v], e, c, asked)
    {
      assert Tallied(j.o.retry, s.queues[e], s.workers[v], e, c, asked);
      if s.workers[w].region == e { PulledQueueTally(j.o.retry, q, s.workers[v], e, c, asked); }
    }
  }

  lemma FinishedSpent(j: Job, s: Run, w: nat, e: int, c: Chunk, asked: nat)
    requires Owned(j, s) && Distinct(j) && Spent(j, s, e, c, asked) && Can(j, s, Finished(w))
    ensures Spent(j, DoFinished(s, w), e, c, asked)
  {
    var t, f := DoFinished(s, w), s.workers[w].region;
    assert Hand(s.workers[w]) == Some(s.workers[w].phase.c);
    MarkedQueue(j.plan.regions[f].chunks, s.queues[f], s.workers[w].phase.c);
    forall v | 0 <= v < |t.workers|
      ensures Tallied(j.o.retry, t.queues[e], t.workers[v], e, c, asked)
    {
      assert Tallied(j.o.retry, s.queues[e], s.workers[v], e, c, asked);
    }
  }

  // A requeue opens the next pass, or drops a chunk nobody has any more.
  lemma RequeueTally(j: Job, cs: seq<Chunk>, q: W.Queue, d: Chunk, k: Worker, e: int, c: Chunk, asked: nat)
    requires Ordered(cs) && c in cs && d in cs && Tallied(j.o.retry, q, k, e, c, asked)
    requires k.region == e ==> Hand(k) != Some(d)
    ensures Tallied(j.o.retry, W.Requeue(q, d, j.o.retry).0, k, e, c, asked)
  {
    RequeueCounts(cs, q, d, j.o.retry);
  }

  lemma RequeueQueued(j: Job, cs: seq<Chunk>, q: W.Queue, d: Chunk, c: Chunk, asked: nat)
    requires Ordered(cs) && c in cs && d in cs && d !in q.pending
    requires c in q.pending ==> asked == Base(j.o.retry, q, c)
    requires c == d ==> asked == Base(j.o.retry, q, c) + j.o.retry + 1
    ensures var r := W.Requeue(q, d, j.o.retry).0; c in r.pending ==> asked == Base(j.o.retry, r, c)
  {
    RequeueCounts(cs, q, d, j.o.retry);
  }

  lemma RequeueSpent(j: Job, s: Run, w: nat, e: int, c: Chunk, asked: nat)
    requires Owned(j, s) && Distinct(j) && Spent(j, s, e, c, asked) && Can(j, s, Resolve(w))
    requires !s.cancelled && !s.workers[w].phase.permanent && s.workers[w].region == e && c in j.plan.regions[e].chunks
    ensures Spent(j, DoResolve(j, s, w), e, c, asked)
  {
    var t, d, cs := DoResolve(j, s, w), s.workers[w].phase.c, j.plan.regions[e].chunks;
    assert Hand(s.workers[w]) == Some(d);
    HandIsAlone(j, s, w);
    assert Tallied(j.o.retry, s.queues[e], s.workers[w], e, c, asked);
    RequeueQueued(j, cs, s.queues[e], d, c, asked);
    forall v | 0 <= v < |t.workers|
      ensures Tallied(j.o.retry, t.queues[e], t.workers[v], e, c, asked)
    {
      if v != w { RequeueTally(j, cs, s.queues[e], d, s.workers[v], e, c, asked); }
    }
  }

  lemma ResolveSpent(j: Job, s: Run, w: nat, e: int, c: Chunk, asked: nat)
    requires Owned(j, s) && Distinct(j) && Spent(j, s, e, c, asked) && Has(j.plan.regions, e, c)
             && Can(j, s, Resolve(w))
    requires !s.cancelled && !s.workers[w].phase.permanent
    ensures Spent(j, DoResolve(j, s, w), e, c, asked)
  {
    if s.workers[w].region == e {
      RequeueSpent(j, s, w, e, c, asked);
    } else {
      var t := DoResolve(j, s, w);
      forall v | 0 <= v < |t.workers|
        ensures Tallied(j.o.retry, t.queues[e], t.workers[v], e, c, asked)
      {
        assert Tallied(j.o.retry, s.queues[e], s.workers[v], e, c, asked);
      }
    }
  }

  predicate Idle(ph: Phase)
  {
    !ph.Attempt? && !ph.Copying? && !ph.Failed?
  }

  lemma PlainEffect(j: Job, s: Run, step: Step)
    requires Can(j, s, step) && Plain(step)
    ensures var t, w := Do(j, s, step), step.w;
            && t.queues == s.queues && w < |s.workers| == |t.workers| && t.workers == s.workers[w := t.workers[w]]
            && Idle(t.workers[w].phase)
  {
  }

  lemma PlainSpent(j: Job, s: Run, step: Step, e: int, c: Chunk, asked: nat)
    requires Owned(j, s) && Spent(j, s, e, c, asked) && Can(j, s, step) && Plain(step)
    ensures Spent(j, Do(j, s, step), e, c, asked)
  {
    PlainEffect(j, s, step);
    SpentByOne(j, s, Do(j, s, step), step.w, e, c, asked, 0);
  }

  // No failure so far has been one for good.
  ghost predicate NoneGaveUp(s: Run)
  {
    forall w :: 0 <= w < |s.workers| ==> !GaveUp(s, w)
  }

  lemma NoneGivesUp(j: Job, s: Run, step: Step)
    requires NoneGaveUp(s) && !s.cancelled && Can(j, s, step) && !FatalStep(j, s, step)
    ensures NoneGaveUp(Do(j, s, step))
  {
    var t := Do(j, s, step);
    forall w | 0 <= w < |t.workers|
      ensures !GaveUp(t, w)
    {
      if w < |s.workers| { assert !GaveUp(s, w); }
    }
  }

  predicate NoWorkers(step: Step)
  {
    step.Spawn? || step.Cancel? || step.Retarget? || step.BeginPersist? || step.EndPersist?
  }

  // A step of no worker; a new one has nothing.
  lemma OtherSpent(j: Job, s: Run, step: Step, e: int, c: Chunk, asked: nat)
    requires Spent(j, s, e, c, asked) && Can(j, s, step) && NoWorkers(step)
    ensures Spent(j, Do(j, s, step), e, c, asked)
  {
    var t := Do(j, s, step);
    assert t.queues == s.queues;
    forall w | 0 <= w < |t.workers|
      ensures Tallied(j.o.retry, t.queues[e], t.workers[w], e, c, asked)
    {
      if w < |s.workers| {
        assert t.workers[w] == s.workers[w] && Tallied(j.o.retry, s.queues[e], s.workers[w], e, c, asked);
      } else {
        assert Hand(t.workers[w]) == None;
      }
    }
  }

  predicate Fetching(step: Step)
  {
    step.Answer? || step.Copy? || step.CopyFail? || step.CopyEnd?
  }

  lemma RefusedSpent(j: Job, s: Run, w: nat, r: Reply, e: int, c: Chunk, asked: nat)
    requires Owned(j, s) && Budgeted(j, s) && Spent(j, s, e, c, asked) && !s.cancelled
    requires Can(j, s, Answer(w, r)) && !FatalStep(j, s, Answer(w, r))
    ensures Spent(j, DoAnswer(j, s, w, r), e, c, asked + Asked(s, Answer(w, r), e, c))
  {
    RefusedForNow(j, s, w, r);
    AnswerSpent(j, s, w, r, e, c, asked);
  }

  lemma FetchingSpent(j: Job, s: Run, step: Step, e: int, c: Chunk, asked: nat)
    requires Owned(j, s) && Budgeted(j, s) && Spent(j, s, e, c, asked) && Fetching(step)
    requires !s.cancelled && Can(j, s, step) && !FatalStep(j, s, step)
    ensures Spent(j, Do(j, s, step), e, c, asked + Asked(s, step, e, c))
  {
    match step
    case Answer(w, r) => RefusedSpent(j, s, w, r, e, c, asked);
    case Copy(w, k) => CopySpent(j, s, w, k, e, c, asked);
    case CopyFail(w, torn) => CopyFailSpent(j, s, w, torn, e, c, asked);
    case CopyEnd(w) => CopyEndSpent(j, s, w, e, c, asked);
  }

  lemma QueueSpent(j: Job, s: Run, step: Step, e: int, c: Chunk, asked: nat)
    requires Owned(j, s) && Distinct(j) && Has(j.plan.regions, e, c) && Spent(j, s, e, c, asked) && NoneGaveUp(s)
    requires !s.cancelled && Can(j, s, step) && (step.Resolve? || step.PullNext? || step.Finished?)
    ensures Spent(j, Do(j, s, step), e, c, asked)
  {
    match step
    case Resolve(w) =>
      assert !GaveUp(s, w);
      ResolveSpent(j, s, w, e, c, asked);
    case PullNext(w) => PullSpent(j, s, w, e, c, asked);
    case Finished(w) => FinishedSpent(j, s, w, e, c, asked);
  }

  lemma SpentStep(j: Job, s: Run, step: Step, e: int, c: Chunk, asked: nat)
    requires Regular(j, s) && Has(j.plan.regions, e, c) && Spent(j, s, e, c, asked) && NoneGaveUp(s)
    requires !s.cancelled && Can(j, s, step) && !FatalStep(j, s, step)
    ensures Spent(j, Do(j, s, step), e, c, asked + Asked(s, step, e, c))
  {
    if Fetching(step) {
      FetchingSpent(j, s, step, e, c, asked);
    } else if step.Resolve? || step.PullNext? || step.Finished? {
      QueueSpent(j, s, step, e, c, asked);
    } else if Plain(step) {
      PlainSpent(j, s, step, e, c, asked);
    } else {
      OtherSpent(j, s, step, e, c, asked);
    }
  }

  // No answer that cannot heal, and no cancel, before step n.
  ghost predicate Healing(j: Job, ss: seq<Run>, steps: seq<Step>, n: nat)
    requires Execution(j, ss, steps) && n <= |steps|
  {
    forall i :: 0 <= i < n ==> Can(j, ss[i], steps[i]) && !ss[i].cancelled && !FatalStep(j, ss[i], steps[i])
  }

  lemma StartSpent(j: Job, s: Run, e: int, c: Chunk)
    requires AtStart(j, s) && Has(j.plan.regions, e, c)
    ensures Spent(j, s, e, c, 0) && NoneGaveUp(s)
  {
  }

  lemma {:induction false} SpentAlong(j: Job, ss: seq<Run>, steps: seq<Step>, n: nat, e: int, c: Chunk)
    requires Execution(j, ss, steps) && n <= |steps| && AtStart(j, ss[0]) && Has(j.plan.regions, e, c)
    requires Healing(j, ss, steps, n)
    ensures Regular(j, ss[n]) && NoneGaveUp(ss[n]) && Spent(j, ss[n], e, c, RequestCount(ss, steps, n, e, c))
  {
    if n == 0 {
      StartReady(j, ss[0]);
      StartSpent(j, ss[0], e, c);
    } else {
      SpentAlong(j, ss, steps, n - 1, e, c);
      var s, step := ss[n - 1], steps[n - 1];
      assert Can(j, s, step) && ss[n] == Do(j, s, step);
      BudgetKept(j, s, step);
      NoneGivesUp(j, s, step);
      SpentStep(j, s, step, e, c, RequestCount(ss, steps, n - 1, e, c));
    }
  }

  lemma LastPass(r: nat, stealing: bool, failures: nat)
    requires if stealing then failures == r else failures == 0
    ensures Passes(failures, r) + r + 1 == FetchLimit(r, stealing)
  {
    PassesProduct(failures, r);
    assert (r + 1) * (r + 1) == r * (r + 1) + r + 1;
  }

  // Only a worker whose chunk is out of attempts and out of passes counts an error.
  lemma OutOfPasses(j: Job, s: Run, step: Step)
    requires Regular(j, s) && NoneGaveUp(s) && !s.cancelled && Can(j, s, step) && Do(j, s, step).errors > s.errors
    ensures step.Resolve? && !s.workers[step.w].phase.permanent
    ensures var e := s.workers[step.w].region;
            s.queues[e].stealing ==> W.Failures(s.queues[e], s.workers[step.w].phase.c.index) == j.o.retry
  {
    if !step.Resolve? { OnlyResolveCounts(j, s, step); }
    var w := step.w;
    assert !GaveUp(s, w) && Hand(s.workers[w]) == Some(s.workers[w].phase.c);
    assert Tries(j, s.queues[s.workers[w].region], s.workers[w].phase.c);
  }

  // While no answer is one that cannot heal and nobody cancels, an error is counted only for
  // a chunk that has been asked for exactly as often as FetchesBounded allows; refused,
  // broken and unwritable attempts alike.
  lemma ErrorsCostFullAllowance(j: Job, ss: seq<Run>, steps: seq<Step>, n: nat)
    requires Execution(j, ss, steps) && n < |steps| && AtStart(j, ss[0])
    requires Healing(j, ss, steps, n) && !ss[n].cancelled && ss[n + 1].errors > ss[n].errors
    ensures steps[n].Resolve? && Can(j, ss[n], steps[n])
    ensures var e, c := ss[n].workers[steps[n].w].region, ss[n].workers[steps[n].w].phase.c;
            Has(j.plan.regions, e, c)
            && RequestCount(ss, steps, n, e, c) == FetchLimit(j.o.retry, j.plan.regions[e].stealing)
  {
    var s, step := ss[n], steps[n];
    assert Can(j, s, step) && ss[n + 1] == Do(j, s, step);
    ReadyAlong(j, ss, steps, n);
    OutOfPasses(j, s, step);
    var w := step.w;
    var e, c := s.workers[w].region, s.workers[w].phase.c;
    assert Hand(s.workers[w]) == Some(c);
    SpentAlong(j, ss, steps, n, e, c);
    assert Tallied(j.o.retry, s.queues[e], s.workers[w], e, c, RequestCount(ss, steps, n, e, c));
    LastPass(j.o.retry, s.queues[e].stealing, W.Failures(s.queues[e], c.index));
  }

  lemma {:induction false} ReadyAlong(j: Job, ss: seq<Run>, steps: seq<Step>, n: nat)
    requires Execution(j, ss, steps) && n <= |steps| && AtStart(j, ss[0]) && Healing(j, ss, steps, n)
    ensures Regular(j, ss[n]) && NoneGaveUp(ss[n])
  {
    if n == 0 {
      StartReady(j, ss[0]);
    } else {
      ReadyAlong(j, ss, steps, n - 1);
      var s, step := ss[n - 1], steps[n - 1];
      assert Can(j, s, step) && ss[n] == Do(j, s, step);
      BudgetKept(j, s, step);
      NoneGivesUp(j, s, step);
    }
  }
}
