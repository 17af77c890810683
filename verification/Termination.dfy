// Why every worker comes to an end: a measure that every worker step lowers, and a step that
// is always possible while a worker is left (the loops of internal/download/task_io.go).
module Termination {
  import opened Chunks
  import opened Layout
  import opened Workers
  import opened Ownership
  import opened Contents
  import opened BoundedWork
  import opened Sums
  import W = WorkQueue

  // ----- arithmetic -----

  function Times(k: nat, a: nat): nat
  {
    if k == 0 then 0 else a + Times(k - 1, a)
  }

  lemma {:induction false} TimesMonotone(k: nat, m: nat, a: nat)
    requires k <= m
    ensures Times(k, a) <= Times(m, a)
  {
    if k < m {
      TimesMonotone(k, m - 1, a);
    }
  }

  // ----- what is left in the queues -----

  // Requeues chunk c has left.
  function Credit(q: W.Queue, c: Chunk, limit: nat): nat
  {
    if W.Failures(q, c.index) < limit then limit - W.Failures(q, c.index) else 0
  }

  function Credits(cs: seq<Chunk>, q: W.Queue, limit: nat): nat
  {
    if cs == [] then 0 else Credit(q, cs[0], limit) + Credits(cs[1..], q, limit)
  }

  // Passes the region still allows: queued chunks plus requeues left.
  function PassesLeft(cs: seq<Chunk>, q: W.Queue, limit: nat): nat
  {
    |q.pending| + Credits(cs, q, limit)
  }

  lemma {:induction false} CreditsSame(cs: seq<Chunk>, q: W.Queue, q': W.Queue, limit: nat)
    requires forall c :: c in cs ==> W.Failures(q', c.index) == W.Failures(q, c.index)
    ensures Credits(cs, q', limit) == Credits(cs, q, limit)
  {
    if cs != [] {
      assert cs[0] in cs && forall c :: c in cs[1..] ==> c in cs;
      CreditsSame(cs[1..], q, q', limit);
    }
  }

  lemma ApartTail(cs: seq<Chunk>)
    requires cs != [] && forall i, k :: 0 <= i < k < |cs| ==> cs[i] != cs[k]
    ensures cs[0] !in cs[1..] && forall c :: c in cs <==> c == cs[0] || c in cs[1..]
    ensures forall i, k :: 0 <= i < k < |cs[1..]| ==> cs[1..][i] != cs[1..][k]
  {
    assert cs == [cs[0]] + cs[1..];
    assert forall i :: 0 <= i < |cs[1..]| ==> cs[1..][i] == cs[i + 1];
  }

  lemma {:induction false} CreditsFall(cs: seq<Chunk>, q: W.Queue, q': W.Queue, d: Chunk, limit: nat)
    requires d in cs && forall i, k :: 0 <= i < k < |cs| ==> cs[i] != cs[k]
    requires forall c :: c in cs && c != d ==> W.Failures(q', c.index) == W.Failures(q, c.index)
    ensures Credits(cs, q', limit) == Credits(cs, q, limit) - Credit(q, d, limit) + Credit(q', d, limit)
  {
    ApartTail(cs);
    if cs[0] == d {
      CreditsSame(cs[1..], q, q', limit);
    } else {
      CreditsFall(cs[1..], q, q', d, limit);
    }
  }

  // A requeue trades one credit for one place in the queue.
  lemma RequeuePasses(cs: seq<Chunk>, q: W.Queue, d: Chunk, limit: nat)
    requires Ordered(cs) && d in cs
    ensures PassesLeft(cs, W.Requeue(q, d, limit).0, limit) <= PassesLeft(cs, q, limit)
  {
    var q' := W.Requeue(q, d, limit).0;
    RequeueCounts(cs, q, d, limit);
    CreditsFall(cs, q, q', d, limit);
  }

  lemma MarkedPasses(cs: seq<Chunk>, q: W.Queue, c: Chunk, limit: nat)
    requires GoodQueue(cs, q) && InFlight(cs, q, c) && Ordered(cs)
    ensures PassesLeft(cs, W.MarkDone(q, c), limit) == PassesLeft(cs, q, limit)
  {
    MarkedQueue(cs, q, c);
    CreditsSame(cs, q, W.MarkDone(q, c), limit);
  }

  function Work(rs: seq<Region>, qs: seq<W.Queue>, limit: nat): nat
    requires |rs| == |qs|
  {
    if qs == [] then 0 else PassesLeft(rs[0].chunks, qs[0], limit) + Work(rs[1..], qs[1..], limit)
  }

  lemma {:induction false} WorkChange(rs: seq<Region>, qs: seq<W.Queue>, e: nat, q: W.Queue, limit: nat)
    requires |rs| == |qs| && e < |qs|
    ensures Work(rs, qs[e := q], limit)
         == Work(rs, qs, limit) - PassesLeft(rs[e].chunks, qs[e], limit) + PassesLeft(rs[e].chunks, q, limit)
  {
    if e == 0 {
      assert qs[0 := q][1..] == qs[1..];
    } else {
      assert qs[e := q][1..] == qs[1..][e - 1 := q];
      WorkChange(rs[1..], qs[1..], e - 1, q, limit);
    }
  }

  // ----- what is left in a worker -----

  // a bounds the steps of one attempt.
  function PhaseCost(r: nat, a: nat, ph: Phase): int
  {
    match ph
    case Top => 6
    case Loaded(_) => 5
    case Deciding(_) => 4
    case Ready => 3
    case Draining => 1
    case Exited => 0
    case Attempt(_, n) => (if n <= r then Times(r + 1 - n, a) else 0) + 9
    case Copying(_, n, _, _, off) => (if n <= r then Times(r - n, a) else 0) + a - 1 - off + 9
    case Fetched(_, _) => 8
    case Failed(_, _) => 8
    case Hashed(_) => 7
  }

  // A worker whose count is out of date will have to look again.
  function WorkerCost(r: nat, a: nat, conns: int, k: Worker): int
  {
    PhaseCost(r, a, k.phase) + (if (k.phase.Loaded? || k.phase.Deciding?) && k.phase.live != conns then 3 else 0)
  }

  function Costs(r: nat, a: nat, conns: int, ws: seq<Worker>): (c: seq<int>)
    ensures |c| == |ws| && forall v :: 0 <= v < |ws| ==> c[v] == WorkerCost(r, a, conns, ws[v])
  {
    seq(|ws|, w requires 0 <= w < |ws| => WorkerCost(r, a, conns, ws[w]))
  }

  lemma CostChange(r: nat, a: nat, conns: int, ws: seq<Worker>, w: nat, k: Worker)
    requires w < |ws|
    ensures Sum(Costs(r, a, conns, ws[w := k]))
         == Sum(Costs(r, a, conns, ws)) - WorkerCost(r, a, conns, ws[w]) + WorkerCost(r, a, conns, k)
  {
    SumChange(Costs(r, a, conns, ws), Costs(r, a, conns, ws[w := k]), w);
  }

  lemma StaleBound(r: nat, a: nat, conns: int, conns': int, ws: seq<Worker>)
    ensures Sum(Costs(r, a, conns', ws)) <= Sum(Costs(r, a, conns, ws)) + 3 * |ws|
  {
    SumWithin(Costs(r, a, conns, ws), Costs(r, a, conns', ws), 3);
  }

  // ----- the measure of a run -----

  function AttemptCost(j: Job): nat
  {
    |j.content| + 3
  }

  function PassCost(j: Job): nat
  {
    Times(j.o.retry + 1, AttemptCost(j)) + 10
  }

  // How often the connection count can still fall, at the price of every worker looking again.
  function CountCost(s: Run): nat
  {
    Times(if s.conns > 0 then s.conns else 0, 3 * (|s.workers| + s.unspawned) + 1)
  }

  function Measure(j: Job, s: Run): int
    requires |s.queues| == |j.plan.regions|
  {
    Times(Work(j.plan.regions, s.queues, j.o.retry), PassCost(j))
    + Sum(Costs(j.o.retry, AttemptCost(j), s.conns, s.workers)) + CountCost(s) + 7 * s.unspawned
  }

  // A worker only decides to retire above a target of at least one.
  ghost predicate Positive(s: Run)
  {
    s.target >= 1 && forall w :: 0 <= w < |s.workers| && s.workers[w].phase.Deciding? ==> s.workers[w].phase.live >= 1
  }

  ghost predicate Fit(j: Job, s: Run)
  {
    Regular(j, s) && Positive(s)
  }

  predicate IsWork(step: Step)
  {
    !(step.Cancel? || step.Retarget? || step.BeginPersist? || step.EndPersist?)
  }

  // Only worker w changes, to a cheaper phase.
  lemma CheaperPhase(j: Job, s: Run, t: Run, w: nat)
    requires |s.queues| == |j.plan.regions| && w < |s.workers| == |t.workers| && t.queues == s.queues
    requires t.workers == s.workers[w := t.workers[w]] && t.conns == s.conns && t.unspawned == s.unspawned
    requires WorkerCost(j.o.retry, AttemptCost(j), s.conns, t.workers[w])
             < WorkerCost(j.o.retry, AttemptCost(j), s.conns, s.workers[w])
    ensures Measure(j, t) < Measure(j, s)
  {
    CostChange(j.o.retry, AttemptCost(j), s.conns, s.workers, w, t.workers[w]);
  }

  // A worker leaves and the count falls by one.
  lemma CountFalls(j: Job, s: Run, t: Run, w: nat)
    requires |s.queues| == |j.plan.regions| && w < |s.workers| == |t.workers| && t.queues == s.queues
    requires t.workers == s.workers[w := t.workers[w]] && t.workers[w].phase == Exited && t.unspawned == s.unspawned
    requires s.conns >= 1 && t.conns == s.conns - 1
    requires WorkerCost(j.o.retry, AttemptCost(j), s.conns, s.workers[w]) >= 0
    ensures Measure(j, t) < Measure(j, s)
  {
    CostChange(j.o.retry, AttemptCost(j), s.conns, s.workers, w, t.workers[w]);
    StaleBound(j.o.retry, AttemptCost(j), s.conns, t.conns, t.workers);
    assert CountCost(s) == 3 * (|s.workers| + s.unspawned) + 1 + CountCost(t);
  }

  // Worker w and its queue trade; passes are paid for by the worker.
  lemma TradeMeasure(j: Job, s: Run, t: Run, w: nat)
    requires |s.queues| == |j.plan.regions| && Trades(s, w, t) && t.conns == s.conns && t.unspawned == s.unspawned
    requires var r, a, e := j.o.retry, AttemptCost(j), s.workers[w].region;
             var before, after := PassesLeft(j.plan.regions[e].chunks, s.queues[e], r),
                 PassesLeft(j.plan.regions[e].chunks, t.queues[e], r);
             && after <= before
             && WorkerCost(r, a, s.conns, t.workers[w]) <
                  WorkerCost(r, a, s.conns, s.workers[w]) + (if after < before then PassCost(j) else 0)
    ensures Measure(j, t) < Measure(j, s)
  {
    var r, e := j.o.retry, s.workers[w].region;
    WorkChange(j.plan.regions, s.queues, e, t.queues[e], r);
    var x, y := Work(j.plan.regions, s.queues, r), Work(j.plan.regions, t.queues, r);
    if y < x {
      TimesMonotone(y, x - 1, PassCost(j));
    }
    CostChange(r, AttemptCost(j), s.conns, s.workers, w, t.workers[w]);
  }

  lemma PullMeasure(j: Job, s: Run, w: nat)
    requires Shape(j, s) && Can(j, s, PullNext(w))
    ensures Measure(j, DoPull(s, w)) < Measure(j, s)
  {
    var t := DoPull(s, w);
    var e := s.workers[w].region;
    if s.queues[e].pending == [] {
      CheaperPhase(j, s, t, w);
    } else {
      CreditsSame(j.plan.regions[e].chunks, s.queues[e], t.queues[e], j.o.retry);
      TradeMeasure(j, s, t, w);
    }
  }

  lemma FinishedMeasure(j: Job, s: Run, w: nat)
    requires Owned(j, s) && Distinct(j) && Can(j, s, Finished(w))
    ensures |DoFinished(s, w).queues| == |s.queues| && Measure(j, DoFinished(s, w)) < Measure(j, s)
  {
    var t := DoFinished(s, w);
    var e := s.workers[w].region;
    assert Hand(s.workers[w]) == Some(s.workers[w].phase.c);
    MarkedPasses(j.plan.regions[e].chunks, s.queues[e], s.workers[w].phase.c, j.o.retry);
    TradeMeasure(j, s, t, w);
  }

  lemma ResolveMeasure(j: Job, s: Run, w: nat)
    requires Owned(j, s) && Distinct(j) && Can(j, s, Resolve(w))
    ensures |DoResolve(j, s, w).queues| == |s.queues| && Measure(j, DoResolve(j, s, w)) < Measure(j, s)
  {
    var t := DoResolve(j, s, w);
    var e := s.workers[w].region;
    assert Hand(s.workers[w]) == Some(s.workers[w].phase.c);
    if s.cancelled || s.workers[w].phase.permanent {
      CheaperPhase(j, s, t, w);
    } else {
      RequeuePasses(j.plan.regions[e].chunks, s.queues[e], s.workers[w].phase.c, j.o.retry);
      TradeMeasure(j, s, t, w);
    }
  }

  lemma FailedMeasure(j: Job, s: Run, u: Run, w: nat, off: nat, permanent: bool)
    requires |s.queues| == |j.plan.regions| && w < |s.workers| && u == s.(disk := u.disk)
    requires s.workers[w].phase.Attempt? || s.workers[w].phase.Copying?
    requires AttemptsOk(j, s.workers[w].phase)
    ensures var ph := s.workers[w].phase;
            var t := AttemptFailed(j, u, w, ph.c, ph.n, off, permanent);
            t.queues == s.queues && Measure(j, t) < Measure(j, s)
  {
    var ph := s.workers[w].phase;
    CheaperPhase(j, s, AttemptFailed(j, u, w, ph.c, ph.n, off, permanent), w);
  }

  lemma AnswerMeasure(j: Job, s: Run, w: nat, r: Reply)
    requires Shape(j, s) && Budgeted(j, s) && Can(j, s, Answer(w, r))
    ensures |DoAnswer(j, s, w, r).queues| == |s.queues| && Measure(j, DoAnswer(j, s, w, r)) < Measure(j, s)
  {
    var ph := s.workers[w].phase;
    assert AttemptsOk(j, ph);
    match Check(j, s.workers[w].region, ph.c, r)
    case Accept => CheaperPhase(j, s, DoAnswer(j, s, w, r), w);
    case Reject(permanent) => FailedMeasure(j, s, s, w, 0, permanent);
  }

  lemma CopyMeasure(j: Job, s: Run, w: nat, k: nat)
    requires Shape(j, s) && Budgeted(j, s) && CanCopy(j, s, w, k)
    ensures |DoCopy(j, s, w, k).queues| == |DoCopyFail(j, s, w, k).queues| == |s.queues|
    ensures k >= 1 ==> Measure(j, DoCopy(j, s, w, k)) < Measure(j, s)
    ensures Measure(j, DoCopyFail(j, s, w, k)) < Measure(j, s)
  {
    assert AttemptsOk(j, s.workers[w].phase);
    if k >= 1 {
      CheaperPhase(j, s, DoCopy(j, s, w, k), w);
    }
    FailedMeasure(j, s, s.(disk := Written(j, s, w, k)), w, s.workers[w].phase.off, false);
  }

  lemma CopyEndMeasure(j: Job, s: Run, w: nat)
    requires Shape(j, s) && Budgeted(j, s) && Can(j, s, CopyEnd(w))
    ensures |DoCopyEnd(j, s, w).queues| == |s.queues| && Measure(j, DoCopyEnd(j, s, w)) < Measure(j, s)
  {
    var ph := s.workers[w].phase;
    assert AttemptsOk(j, ph);
    FailedMeasure(j, s, s, w, ph.off, true);
    FailedMeasure(j, s, s, w, ph.off, false);
    CheaperPhase(j, s, At(s, w, Fetched(ph.c, Digest(ph.body))), w);
  }

  lemma SpawnMeasure(j: Job, s: Run)
    requires |s.queues| == |j.plan.regions| && s.unspawned > 0
    ensures Measure(j, Do(j, s, Spawn)) < Measure(j, s)
  {
    var t := Do(j, s, Spawn);
    var c := Costs(j.o.retry, AttemptCost(j), s.conns, s.workers);
    SumAppend(c, 6);
    assert Costs(j.o.retry, AttemptCost(j), s.conns, t.workers) == c + [6];
    assert CountCost(t) == CountCost(s);
  }

  lemma PlainMeasure(j: Job, s: Run, step: Step)
    requires Shape(j, s) && Positive(s) && Can(j, s, step) && Plain(step)
    ensures |Do(j, s, step).queues| == |s.queues| && Measure(j, Do(j, s, step)) < Measure(j, s)
  {
    var w, t := step.w, Do(j, s, step);
    if t.conns < s.conns {
      CountFalls(j, s, t, w);
    } else {
      CheaperPhase(j, s, t, w);
    }
  }

  lemma TransferMeasure(j: Job, s: Run, step: Step)
    requires Shape(j, s) && Budgeted(j, s) && Can(j, s, step)
    requires step.Answer? || step.Copy? || step.CopyFail? || step.CopyEnd?
    ensures |Do(j, s, step).queues| == |s.queues| && Measure(j, Do(j, s, step)) < Measure(j, s)
  {
    match step
    case Answer(w, r) => AnswerMeasure(j, s, w, r);
    case Copy(w, k) => CopyMeasure(j, s, w, k);
    case CopyFail(w, torn) => CopyMeasure(j, s, w, torn);
    case CopyEnd(w) => CopyEndMeasure(j, s, w);
  }

  lemma QueueMeasure(j: Job, s: Run, step: Step)
    requires Owned(j, s) && Distinct(j) && Can(j, s, step) && (step.PullNext? || step.Finished? || step.Resolve?)
    ensures |Do(j, s, step).queues| == |s.queues| && Measure(j, Do(j, s, step)) < Measure(j, s)
  {
    match step
    case PullNext(w) => PullMeasure(j, s, w);
    case Finished(w) => FinishedMeasure(j, s, w);
    case Resolve(w) => ResolveMeasure(j, s, w);
  }

  lemma BookkeepingMeasure(j: Job, s: Run, t: Run)
    requires |s.queues| == |j.plan.regions| && t.queues == s.queues && t.workers == s.workers
    requires t.conns == s.conns && t.unspawned == s.unspawned
    ensures Measure(j, t) == Measure(j, s)
  {
  }

  lemma WorkMeasure(j: Job, s: Run, step: Step)
    requires Fit(j, s) && Can(j, s, step) && IsWork(step) && !Plain(step)
    ensures |Do(j, s, step).queues| == |s.queues| && Measure(j, Do(j, s, step)) < Measure(j, s)
  {
    if step.Answer? || step.Copy? || step.CopyFail? || step.CopyEnd? {
      TransferMeasure(j, s, step);
    } else if step.Spawn? {
      SpawnMeasure(j, s);
    } else {
      QueueMeasure(j, s, step);
    }
  }

  lemma CheckpointMeasure(j: Job, s: Run, step: Step)
    requires |s.queues| == |j.plan.regions| && Can(j, s, step) && !IsWork(step) && !step.Retarget?
    ensures |Do(j, s, step).queues| == |s.queues| && Measure(j, Do(j, s, step)) == Measure(j, s)
  {
    BookkeepingMeasure(j, s, Do(j, s, step));
  }

  // Every worker step lowers the measure; checkpoints and a cancel leave it alone.
  lemma StepMeasure(j: Job, s: Run, step: Step)
    requires Fit(j, s) && Can(j, s, step) && !step.Retarget?
    ensures |Do(j, s, step).queues| == |s.queues|
    ensures if IsWork(step) then Measure(j, Do(j, s, step)) < Measure(j, s)
            else Measure(j, Do(j, s, step)) == Measure(j, s)
  {
    if Plain(step) {
      PlainMeasure(j, s, step);
    } else if IsWork(step) {
      WorkMeasure(j, s, step);
    } else {
      CheckpointMeasure(j, s, step);
    }
  }

  lemma MeasureNonNegative(j: Job, s: Run)
    requires Shape(j, s) && Budgeted(j, s)
    ensures Measure(j, s) >= 0
  {
    var c := Costs(j.o.retry, AttemptCost(j), s.conns, s.workers);
    forall w | 0 <= w < |c|
      ensures 0 <= c[w]
    {
      assert AttemptsOk(j, s.workers[w].phase);
    }
    SumNonNegative(c);
  }

  // ----- the invariant -----

  // Steps that leave the target alone and let nobody decide anew.
  ghost predicate DecidesNoMore(s: Run, t: Run)
  {
    && t.target == s.target && |t.workers| == |s.workers|
    && forall w :: 0 <= w < |s.workers| && t.workers[w].phase.Deciding? ==> t.workers[w] == s.workers[w]
  }

  lemma FailedDecides(j: Job, s: Run, w: nat, c: Chunk, n: nat, off: nat, permanent: bool)
    requires w < |s.workers|
    ensures DecidesNoMore(s, AttemptFailed(j, s, w, c, n, off, permanent))
  {
  }

  lemma TransferDecides(j: Job, s: Run, step: Step)
    requires Can(j, s, step) && (step.Answer? || step.CopyFail? || step.CopyEnd?)
    ensures DecidesNoMore(s, Do(j, s, step))
  {
    var ph := s.workers[step.w].phase;
    match step
    case Answer(w, r) =>
      FailedDecides(j, s, w, ph.c, ph.n, 0, true);
      FailedDecides(j, s, w, ph.c, ph.n, 0, false);
    case CopyFail(w, torn) => FailedDecides(j, s.(disk := Written(j, s, w, torn)), w, ph.c, ph.n, ph.off, false);
    case CopyEnd(w) =>
      FailedDecides(j, s, w, ph.c, ph.n, ph.off, true);
      FailedDecides(j, s, w, ph.c, ph.n, ph.off, false);
  }

  lemma PositiveKept(j: Job, s: Run, step: Step)
    requires Positive(s) && Can(j, s, step)
    ensures Positive(Do(j, s, step))
  {
    if step.Answer? || step.CopyFail? || step.CopyEnd? {
      TransferDecides(j, s, step);
    } else if !step.LoadTarget? && !step.Retarget? && !step.Spawn? {
      QuietDecides(j, s, step);
    }
  }

  lemma QuietDecides(j: Job, s: Run, step: Step)
    requires Can(j, s, step) && !step.LoadTarget? && !step.Retarget? && !step.Spawn?
    requires !(step.Answer? || step.CopyFail? || step.CopyEnd?)
    ensures DecidesNoMore(s, Do(j, s, step))
  {
  }

  lemma FitKept(j: Job, s: Run, step: Step)
    requires Fit(j, s) && Can(j, s, step) && FromServer(j, s, step)
    ensures Fit(j, Do(j, s, step))
  {
    BudgetKept(j, s, step);
    PositiveKept(j, s, step);
  }

  // ----- executions end -----

  function WorkSteps(steps: seq<Step>): nat
  {
    if steps == [] then 0 else WorkSteps(steps[..|steps| - 1]) + (if IsWork(steps[|steps| - 1]) then 1 else 0)
  }

  // However the scheduler and the server behave, a run takes at most Measure worker steps
  // while nobody changes the connection target.
  lemma {:induction false} WorkBounded(j: Job, ss: seq<Run>, steps: seq<Step>)
    requires Execution(j, ss, steps) && Fit(j, ss[0]) && forall i :: 0 <= i < |steps| ==> !steps[i].Retarget?
    ensures Fit(j, ss[|steps|]) && WorkSteps(steps) + Measure(j, ss[|steps|]) <= Measure(j, ss[0])
    ensures WorkSteps(steps) <= Measure(j, ss[0])
  {
    if steps != [] {
      var n := |steps| - 1;
      WorkBounded(j, ss[..n + 1], steps[..n]);
      assert Can(j, ss[n], steps[n]) && FromServer(j, ss[n], steps[n]) && ss[n + 1] == Do(j, ss[n], steps[n]);
      StepMeasure(j, ss[n], steps[n]);
      FitKept(j, ss[n], steps[n]);
    }
    MeasureNonNegative(j, ss[|steps|]);
  }

  // What worker w does next; a checkpoint in progress must end before a hash is stored.
  function NextStep(s: Run, w: nat): Step
    requires w < |s.workers| && !s.workers[w].phase.Exited?
  {
    match s.workers[w].phase
    case Top => LoadLive(w)
    case Loaded(_) => LoadTarget(w)
    case Deciding(_) => RetireCas(w)
    case Ready => PullNext(w)
    case Attempt(_, _) => Answer(w, NoReply)
    case Copying(_, _, body, _, off) => if off < |body| then Copy(w, |body| - off) else CopyEnd(w)
    case Fetched(_, _) => if s.mu.None? then StoreHash(w) else EndPersist(false)
    case Hashed(_) => Finished(w)
    case Failed(_, _) => Resolve(w)
    case Draining => Leave(w)
  }

  // No deadlock: a worker that has not exited can move, or waits for a checkpoint that can end.
  lemma Progress(j: Job, s: Run, w: nat)
    requires Regular(j, s) && w < |s.workers| && !s.workers[w].phase.Exited?
    ensures var step := NextStep(s, w);
            Can(j, s, step) && FromServer(j, s, step) && (IsWork(step) || (step.EndPersist? && s.mu.Some?))
  {
    var k := s.workers[w];
    if k.phase.Attempt? || k.phase.Copying? {
      assert Hand(k) == Some(k.phase.c) && AttemptsOk(j, k.phase);
      assert InFlight(j.plan.regions[k.region].chunks, s.queues[k.region], k.phase.c);
      ChunkFacts(j, k.region, k.phase.c);
    }
  }

  lemma ExecutionCons(j: Job, s: Run, step: Step, ss: seq<Run>, steps: seq<Step>)
    requires Execution(j, ss, steps) && Can(j, s, step) && FromServer(j, s, step) && ss[0] == Do(j, s, step)
    ensures Execution(j, [s] + ss, [step] + steps) && ([s] + ss)[|steps| + 1] == ss[|steps|]
  {
  }

  lemma NextKeepsFit(j: Job, s: Run, w: nat)
    requires Fit(j, s) && w < |s.workers| && !s.workers[w].phase.Exited?
    ensures var step := NextStep(s, w);
            && Can(j, s, step) && FromServer(j, s, step) && Fit(j, Do(j, s, step))
               && |Do(j, s, step).queues| == |s.queues|
            && 0 <= Measure(j, s)
            && (Measure(j, Do(j, s, step)) < Measure(j, s)
                || (Measure(j, Do(j, s, step)) == Measure(j, s) && s.mu.Some? && Do(j, s, step).mu.None?))
  {
    var step := NextStep(s, w);
    Progress(j, s, w);
    FitKept(j, s, step);
    StepMeasure(j, s, step);
    MeasureNonNegative(j, s);
  }

  // From every state that a run can reach, the workers can be brought to an end.
  lemma {:induction false} CanFinish(j: Job, s: Run) returns (ss: seq<Run>, steps: seq<Step>)
    requires Fit(j, s)
    ensures Execution(j, ss, steps) && ss[0] == s && AllExited(ss[|steps|])
    decreases Measure(j, s), if s.mu.Some? then 1 else 0
  {
    if AllExited(s) {
      ss, steps := [s], [];
    } else {
      var w: nat :| w < |s.workers| && !s.workers[w].phase.Exited?;
      var step := NextStep(s, w);
      NextKeepsFit(j, s, w);
      var rest, more := CanFinish(j, Do(j, s, step));
      ExecutionCons(j, s, step, rest, more);
      ss, steps := [s] + rest, [step] + more;
    }
  }

  // An execution that cannot be prolonged by a worker or the end of a checkpoint has no worker left.
  lemma StuckMeansExited(j: Job, ss: seq<Run>, steps: seq<Step>)
    requires Execution(j, ss, steps) && Fit(j, ss[0]) && forall i :: 0 <= i < |steps| ==> !steps[i].Retarget?
    requires var s := ss[|steps|];
             forall step :: (IsWork(step) || step.EndPersist?) && Can(j, s, step) ==> !FromServer(j, s, step)
    ensures AllExited(ss[|steps|])
  {
    WorkBounded(j, ss, steps);
    var s := ss[|steps|];
    forall w | 0 <= w < |s.workers|
      ensures s.workers[w].phase.Exited?
    {
      if !s.workers[w].phase.Exited? { Progress(j, s, w); }
    }
  }
}
