// Bounded work: how often a chunk can be fetched, and why every worker comes to an end
// (the retry loops of internal/download/task_io.go and Requeue of both queues).
module BoundedWork {
  import opened Chunks
  import opened Layout
  import opened Workers
  import opened Ownership
  import opened Contents
  import opened Sums
  import W = WorkQueue

  // ----- attempts and failures stay within the budget -----

  // retry + 1 attempts per pass; a stealing queue allows retry + 1 passes.
  ghost predicate Budgeted(j: Job, s: Run)
    requires Shape(j, s)
  {
    && (forall e, c :: 0 <= e < |s.queues| && c in s.queues[e].pending ==> Tries(j, s.queues[e], c))
    && (forall w :: 0 <= w < |s.workers| && Hand(s.workers[w]).Some? ==>
          Tries(j, s.queues[s.workers[w].region], Hand(s.workers[w]).value))
    && (forall w :: 0 <= w < |s.workers| ==> AttemptsOk(j, s.workers[w].phase))
  }

  ghost predicate Tries(j: Job, q: W.Queue, c: Chunk)
  {
    q.stealing ==> W.Failures(q, c.index) <= j.o.retry
  }

  ghost predicate AttemptsOk(j: Job, ph: Phase)
  {
    && (ph.Attempt? || ph.Copying? ==> ph.n <= j.o.retry)
    && (ph.Copying? ==> ph.off <= |ph.body| <= |j.content|)
  }

  // Failure counts of other chunks are left alone.
  lemma RequeueCounts(cs: seq<Chunk>, q: W.Queue, c: Chunk, limit: int)
    requires Ordered(cs) && c in cs
    ensures var (r, again) := W.Requeue(q, c, limit);
            && (forall d :: d in cs && d != c ==> W.Failures(r, d.index) == W.Failures(q, d.index))
            && (again ==>
                  && W.Failures(r, c.index) == W.Failures(q, c.index) + 1 <= limit
                  && q.stealing && r.pending == q.pending + [c])
            && (!again ==> r.pending == q.pending)
  {
    OrderedUnique(cs);
  }

  // A step that changes one worker's phase and no queue.
  lemma BudgetOne(j: Job, s: Run, w: nat, t: Run)
    requires Shape(j, s) && Shape(j, t) && Budgeted(j, s) && w < |s.workers| == |t.workers|
    requires t.queues == s.queues && t.workers == s.workers[w := t.workers[w]]
             && t.workers[w].region == s.workers[w].region
    requires AttemptsOk(j, t.workers[w].phase)
             && (Hand(t.workers[w]) == None || Hand(t.workers[w]) == Hand(s.workers[w]))
    ensures Budgeted(j, t)
  {
  }

  lemma FailedBudget(j: Job, s: Run, u: Run, w: nat, c: Chunk, n: nat, off: nat, permanent: bool)
    requires Shape(j, s) && Budgeted(j, s) && w < |s.workers| && u == s.(disk := u.disk)
             && Hand(s.workers[w]) == Some(c)
    ensures Shape(j, AttemptFailed(j, u, w, c, n, off, permanent))
            && Budgeted(j, AttemptFailed(j, u, w, c, n, off, permanent))
  {
    BudgetOne(j, s, w, AttemptFailed(j, u, w, c, n, off, permanent));
  }

  lemma AnswerBudget(j: Job, s: Run, w: nat, r: Reply)
    requires Sound(j) && Owned(j, s) && Budgeted(j, s) && Can(j, s, Answer(w, r)) && FromServer(j, s, Answer(w, r))
    ensures Shape(j, DoAnswer(j, s, w, r)) && Budgeted(j, DoAnswer(j, s, w, r))
  {
    var ph := s.workers[w].phase;
    assert Hand(s.workers[w]) == Some(ph.c);
    match Check(j, s.workers[w].region, ph.c, r)
    case Accept => BudgetOne(j, s, w, DoAnswer(j, s, w, r));
    case Reject(permanent) => FailedBudget(j, s, s, w, ph.c, ph.n, 0, permanent);
  }

  // A trade that leaves the counts of the chunks others hold within the budget.
  lemma TradeBudget(j: Job, s: Run, w: nat, t: Run)
    requires Owned(j, s) && Shape(j, t) && Budgeted(j, s) && Trades(s, w, t) && AttemptsOk(j, t.workers[w].phase)
    requires var e := s.workers[w].region;
             var cs, q, r := j.plan.regions[e].chunks, s.queues[e], t.queues[e];
             && (forall d :: d in r.pending ==> Tries(j, r, d))
             && (forall d :: d in cs && Some(d) != Hand(s.workers[w]) && Tries(j, q, d) ==> Tries(j, r, d))
             && (Hand(t.workers[w]).Some? ==> Tries(j, r, Hand(t.workers[w]).value))
    ensures Budgeted(j, t)
  {
    forall v | 0 <= v < |t.workers| && Hand(t.workers[v]).Some?
      ensures Tries(j, t.queues[t.workers[v].region], Hand(t.workers[v]).value)
    {
      if v != w {
        assert t.workers[v] == s.workers[v];
        if s.workers[v].region == s.workers[w].region { assert Hand(s.workers[v]) != Hand(s.workers[w]); }
      }
    }
  }

  lemma RequeueBudget(j: Job, cs: seq<Chunk>, q: W.Queue, c: Chunk)
    requires Ordered(cs) && InFlight(cs, q, c) && GoodQueue(cs, q) && forall d :: d in q.pending ==> Tries(j, q, d)
    ensures var r := W.Requeue(q, c, j.o.retry).0;
            && r.stealing == q.stealing
            && (forall d :: d in r.pending ==> Tries(j, r, d))
            && (forall d :: d in cs && d != c && Tries(j, q, d) ==> Tries(j, r, d))
  {
    RequeueCounts(cs, q, c, j.o.retry);
  }

  lemma ResolveBudget(j: Job, s: Run, w: nat)
    requires Owned(j, s) && Distinct(j) && Budgeted(j, s) && Can(j, s, Resolve(w))
    ensures Shape(j, DoResolve(j, s, w)) && Budgeted(j, DoResolve(j, s, w))
  {
    var e, c := s.workers[w].region, s.workers[w].phase.c;
    assert Hand(s.workers[w]) == Some(c);
    ResolveOwned(j, s, w);
    RequeueBudget(j, j.plan.regions[e].chunks, s.queues[e], c);
    TradeBudget(j, s, w, DoResolve(j, s, w));
  }

  lemma PullBudget(j: Job, s: Run, w: nat)
    requires Owned(j, s) && Budgeted(j, s) && Can(j, s, PullNext(w))
    ensures Shape(j, DoPull(s, w)) && Budgeted(j, DoPull(s, w))
  {
    PullOwned(j, s, w);
    if s.queues[s.workers[w].region].pending == [] {
      BudgetOne(j, s, w, DoPull(s, w));
    } else {
      PulledWithin(j, s.queues[s.workers[w].region]);
      TradeBudget(j, s, w, DoPull(s, w));
    }
  }

  // What is left in the queue, and what is handed out, was there before.
  lemma PulledWithin(j: Job, q: W.Queue)
    requires q.pending != [] && forall d :: d in q.pending ==> Tries(j, q, d)
    ensures var (r, c) := W.Pull(q);
            && (forall d :: d in r.pending ==> Tries(j, r, d)) && Tries(j, r, c.value)
            && (forall d :: Tries(j, q, d) ==> Tries(j, r, d))
  {
    assert forall d :: d in q.pending[1..] ==> d in q.pending;
    assert q.pending[0] in q.pending;
  }

  lemma FinishedBudget(j: Job, s: Run, w: nat)
    requires Owned(j, s) && Distinct(j) && Budgeted(j, s) && Can(j, s, Finished(w))
    ensures Shape(j, DoFinished(s, w)) && Budgeted(j, DoFinished(s, w))
  {
    var t := DoFinished(s, w);
    var e, c := s.workers[w].region, s.workers[w].phase.c;
    assert Hand(s.workers[w]) == Some(c);
    FinishedOwned(j, s, w);
    MarkedQueue(j.plan.regions[e].chunks, s.queues[e], c);
    MarkedTries(j, s, w);
    TradeBudget(j, s, w, t);
  }

  lemma MarkedTries(j: Job, s: Run, w: nat)
    requires Owned(j, s) && Distinct(j) && Budgeted(j, s) && Can(j, s, Finished(w))
    requires var e := s.workers[w].region; W.MarkDone(s.queues[e], s.workers[w].phase.c).pending == s.queues[e].pending
    ensures var e := s.workers[w].region;
            var q, r := s.queues[e], W.MarkDone(s.queues[e], s.workers[w].phase.c);
            && (forall d :: d in r.pending ==> Tries(j, r, d))
            && (forall d :: Tries(j, q, d) ==> Tries(j, r, d))
  {
  }

  lemma PlainBudget(j: Job, s: Run, step: Step)
    requires Shape(j, s) && Budgeted(j, s) && Can(j, s, step)
    requires Plain(step)
    ensures Shape(j, Do(j, s, step)) && Budgeted(j, Do(j, s, step))
  {
    BudgetOne(j, s, step.w, Do(j, s, step));
  }

  lemma CopyBudget(j: Job, s: Run, w: nat, k: nat)
    requires Shape(j, s) && Budgeted(j, s) && CanCopy(j, s, w, k)
    ensures Shape(j, DoCopy(j, s, w, k)) && Budgeted(j, DoCopy(j, s, w, k))
    ensures Shape(j, DoCopyFail(j, s, w, k)) && Budgeted(j, DoCopyFail(j, s, w, k))
  {
    var ph := s.workers[w].phase;
    assert AttemptsOk(j, ph);
    BudgetOne(j, s, w, DoCopy(j, s, w, k));
    FailedBudget(j, s, s.(disk := Written(j, s, w, k)), w, ph.c, ph.n, ph.off, false);
  }

  lemma CopyEndBudget(j: Job, s: Run, w: nat)
    requires Shape(j, s) && Budgeted(j, s) && Can(j, s, CopyEnd(w))
    ensures Shape(j, DoCopyEnd(j, s, w)) && Budgeted(j, DoCopyEnd(j, s, w))
  {
    var ph := s.workers[w].phase;
    FailedBudget(j, s, s, w, ph.c, ph.n, ph.off, true);
    FailedBudget(j, s, s, w, ph.c, ph.n, ph.off, false);
    BudgetOne(j, s, w, At(s, w, Fetched(ph.c, Digest(ph.body))));
  }

  ghost predicate Regular(j: Job, s: Run)
  {
    Sound(j) && Distinct(j) && Owned(j, s) && Budgeted(j, s)
  }

  lemma FetchBudget(j: Job, s: Run, step: Step)
    requires Sound(j) && Owned(j, s) && Budgeted(j, s) && Can(j, s, step) && FromServer(j, s, step)
    requires step.Answer? || step.Copy? || step.CopyFail? || step.CopyEnd?
    ensures Shape(j, Do(j, s, step)) && Budgeted(j, Do(j, s, step))
  {
    match step
    case Answer(w, r) => AnswerBudget(j, s, w, r);
    case Copy(w, k) => CopyBudget(j, s, w, k);
    case CopyFail(w, torn) => CopyBudget(j, s, w, torn);
    case CopyEnd(w) => CopyEndBudget(j, s, w);
  }

  lemma BudgetKept(j: Job, s: Run, step: Step)
    requires Regular(j, s) && Can(j, s, step) && FromServer(j, s, step)
    ensures Regular(j, Do(j, s, step))
  {
    OwnedKept(j, s, step);
    if step.Answer? || step.Copy? || step.CopyFail? || step.CopyEnd? {
      FetchBudget(j, s, step);
    } else if Plain(step) {
      PlainBudget(j, s, step);
    } else {
      match step
      case Resolve(w) => ResolveBudget(j, s, w);
      case PullNext(w) => PullBudget(j, s, w);
      case Finished(w) => FinishedBudget(j, s, w);
      case Spawn =>
      case Cancel =>
      case Retarget(_) =>
      case BeginPersist =>
      case EndPersist(_) =>
    }
  }

  // ----- fetches of one chunk -----

  // k passes of r + 1 attempts each.
  function Passes(k: nat, r: nat): nat
  {
    if k == 0 then 0 else r + 1 + Passes(k - 1, r)
  }

  lemma {:induction false} PassesProduct(k: nat, r: nat)
    ensures Passes(k, r) == k * (r + 1)
  {
    if k > 0 {
      PassesProduct(k - 1, r);
      assert k * (r + 1) == (k - 1) * (r + 1) + (r + 1);
    }
  }

  // Attempts still allowed in later passes over c, with r retries.
  function LaterTries(r: nat, q: W.Queue, c: Chunk): nat
  {
    if q.stealing && W.Failures(q, c.index) <= r then Passes(r - W.Failures(q, c.index), r) else 0
  }

  // Attempts left in a phase that is at attempt n.
  function PhaseTries(r: nat, ph: Phase): int
  {
    if ph.Attempt? then r + 1 - ph.n else if ph.Copying? then r - ph.n else 0
  }

  function TriesLeft(r: nat, q: W.Queue, k: Worker, e: int, c: Chunk): int
  {
    if k.region == e && Hand(k) == Some(c) then LaterTries(r, q, c) + PhaseTries(r, k.phase) else 0
  }

  function Lefts(r: nat, q: W.Queue, ws: seq<Worker>, e: int, c: Chunk): (a: seq<int>)
    ensures |a| == |ws| && forall v :: 0 <= v < |ws| ==> a[v] == TriesLeft(r, q, ws[v], e, c)
  {
    seq(|ws|, w requires 0 <= w < |ws| => TriesLeft(r, q, ws[w], e, c))
  }

  // What c's place in the queue allows.
  function QueuedTries(r: nat, q: W.Queue, c: Chunk): nat
  {
    if c in q.pending then LaterTries(r, q, c) + r + 1 else 0
  }

  // How many more requests chunk c of region e, with queue q, can cause.
  function Allowance(r: nat, q: W.Queue, ws: seq<Worker>, e: int, c: Chunk): int
  {
    QueuedTries(r, q, c) + Sum(Lefts(r, q, ws, e, c))
  }

  // Worker w changes and the queue becomes q'; nobody else's share changes.
  lemma AllowanceChange(r: nat, q: W.Queue, q': W.Queue, ws: seq<Worker>, w: nat, k: Worker, e: int, c: Chunk)
    requires w < |ws|
    requires forall v :: 0 <= v < |ws| && v != w ==> TriesLeft(r, q', ws[v], e, c) == TriesLeft(r, q, ws[v], e, c)
    ensures Allowance(r, q', ws[w := k], e, c)
         == Allowance(r, q, ws, e, c) - QueuedTries(r, q, c) + QueuedTries(r, q', c)
            - TriesLeft(r, q, ws[w], e, c) + TriesLeft(r, q', k, e, c)
  {
    SumChange(Lefts(r, q, ws, e, c), Lefts(r, q', ws[w := k], e, c), w);
  }

  ghost predicate NobodyElse(ws: seq<Worker>, w: nat, e: int, d: Chunk)
  {
    forall v :: 0 <= v < |ws| && v != w && ws[v].region == e ==> Hand(ws[v]) != Some(d)
  }

  // A failed chunk moves its later passes from the hand to the queue.
  lemma RequeueAllowance(j: Job, cs: seq<Chunk>, q: W.Queue, ws: seq<Worker>, w: nat, k: Worker, e: int, c: Chunk)
    requires Ordered(cs) && w < |ws| && ws[w].region == e && ws[w].phase.Failed? && Hand(k) == None && k.region == e
    requires forall v :: 0 <= v < |ws| && ws[v].region == e && Hand(ws[v]).Some? ==> Hand(ws[v]).value in cs
    requires InFlight(cs, q, ws[w].phase.c) && NobodyElse(ws, w, e, ws[w].phase.c) && Tries(j, q, ws[w].phase.c)
             && c in cs
    ensures Allowance(j.o.retry, W.Requeue(q, ws[w].phase.c, j.o.retry).0, ws[w := k], e, c)
         <= Allowance(j.o.retry, q, ws, e, c)
  {
    var r, d := j.o.retry, ws[w].phase.c;
    var q' := W.Requeue(q, d, r).0;
    RequeueCounts(cs, q, d, r);
    assert Hand(ws[w]) == Some(d);
    assert c != d ==> LaterTries(r, q', c) == LaterTries(r, q, c) && QueuedTries(r, q', c) == QueuedTries(r, q, c);
    AllowanceChange(r, q, q', ws, w, k, e, c);
  }

  lemma PulledTries(r: nat, q: W.Queue, c: Chunk)
    requires q.pending != [] && forall i, k :: 0 <= i < k < |q.pending| ==> q.pending[i] != q.pending[k]
    ensures QueuedTries(r, W.Pull(q).0, c)
         == QueuedTries(r, q, c) - (if c == q.pending[0] then LaterTries(r, q, c) + r + 1 else 0)
  {
    assert q.pending == [q.pending[0]] + q.pending[1..];
    assert forall i :: 0 <= i < |q.pending[1..]| ==> q.pending[1..][i] == q.pending[i + 1];
  }

  lemma PullAllowance(r: nat, q: W.Queue, ws: seq<Worker>, w: nat, e: int, c: Chunk)
    requires w < |ws| && ws[w].region == e && ws[w].phase.Ready?
    requires q.pending != [] && forall i, k :: 0 <= i < k < |q.pending| ==> q.pending[i] != q.pending[k]
    ensures Allowance(r, W.Pull(q).0, ws[w := ws[w].(phase := Attempt(q.pending[0], 0))], e, c)
            == Allowance(r, q, ws, e, c)
  {
    var k := ws[w].(phase := Attempt(q.pending[0], 0));
    PulledTries(r, q, c);
    assert LaterTries(r, W.Pull(q).0, c) == LaterTries(r, q, c);
    assert Hand(k) == Some(q.pending[0]) && Hand(ws[w]) == None;
    AllowanceChange(r, q, W.Pull(q).0, ws, w, k, e, c);
  }

  lemma MarkedAllowance(r: nat, cs: seq<Chunk>, q: W.Queue, ws: seq<Worker>, w: nat, e: int, c: Chunk)
    requires GoodQueue(cs, q) && Ordered(cs) && w < |ws| && ws[w].phase.Hashed? && InFlight(cs, q, ws[w].phase.c)
    ensures Allowance(r, W.MarkDone(q, ws[w].phase.c), ws[w := ws[w].(phase := Top)], e, c) <= Allowance(r, q, ws, e, c)
  {
    var q' := W.MarkDone(q, ws[w].phase.c);
    MarkedQueue(cs, q, ws[w].phase.c);
    assert LaterTries(r, q', c) == LaterTries(r, q, c) && QueuedTries(r, q', c) == QueuedTries(r, q, c);
    AllowanceChange(r, q, q', ws, w, ws[w].(phase := Top), e, c);
  }

  // ----- the allowance of a run -----

  function Left(j: Job, s: Run, e: int, c: Chunk): int
    requires 0 <= e < |s.queues|
  {
    Allowance(j.o.retry, s.queues[e], s.workers, e, c)
  }

  lemma LeftNonNegative(j: Job, s: Run, e: int, c: Chunk)
    requires Shape(j, s) && Budgeted(j, s) && 0 <= e < |s.queues|
    ensures Left(j, s, e, c) >= 0
  {
    var a := Lefts(j.o.retry, s.queues[e], s.workers, e, c);
    forall w | 0 <= w < |a|
      ensures 0 <= a[w]
    {
      assert AttemptsOk(j, s.workers[w].phase);
    }
    SumNonNegative(a);
  }

  ghost predicate Requests(s: Run, step: Step, e: int, c: Chunk)
  {
    step.Answer? && step.w < |s.workers| && s.workers[step.w].region == e && Hand(s.workers[step.w]) == Some(c)
  }

  // A worker that changes while the queues stay.
  lemma WorkerLeft(j: Job, s: Run, t: Run, w: nat, e: int, c: Chunk)
    requires 0 <= e < |s.queues| && t.queues == s.queues && w < |s.workers| == |t.workers|
    requires t.workers == s.workers[w := t.workers[w]]
    ensures Left(j, t, e, c) == Left(j, s, e, c)
              - TriesLeft(j.o.retry, s.queues[e], s.workers[w], e, c)
              + TriesLeft(j.o.retry, s.queues[e], t.workers[w], e, c)
  {
    AllowanceChange(j.o.retry, s.queues[e], s.queues[e], s.workers, w, t.workers[w], e, c);
  }

  // A trade in another region.
  lemma ElsewhereLeft(j: Job, s: Run, t: Run, w: nat, e: int, c: Chunk)
    requires 0 <= e < |s.queues| && Trades(s, w, t) && s.workers[w].region != e
    ensures Left(j, t, e, c) == Left(j, s, e, c)
  {
    AllowanceChange(j.o.retry, s.queues[e], s.queues[e], s.workers, w, t.workers[w], e, c);
  }

  lemma HandIsAlone(j: Job, s: Run, w: nat)
    requires Owned(j, s) && w < |s.workers| && Hand(s.workers[w]).Some?
    ensures NobodyElse(s.workers, w, s.workers[w].region, Hand(s.workers[w]).value)
  {
    forall v | 0 <= v < |s.workers| && v != w && s.workers[v].region == s.workers[w].region
      ensures Hand(s.workers[v]) != Hand(s.workers[w])
    {
      if v < w { assert Hand(s.workers[v]).Some? ==> Hand(s.workers[v]) != Hand(s.workers[w]); }
    }
  }

  lemma ResolveHere(j: Job, s: Run, w: nat, c: Chunk)
    requires Regular(j, s) && Can(j, s, Resolve(w)) && !s.cancelled && !s.workers[w].phase.permanent
    requires c in j.plan.regions[s.workers[w].region].chunks
    ensures Left(j, DoResolve(j, s, w), s.workers[w].region, c) <= Left(j, s, s.workers[w].region, c)
  {
    var e, d := s.workers[w].region, s.workers[w].phase.c;
    assert Hand(s.workers[w]) == Some(d);
    HandIsAlone(j, s, w);
    RequeueAllowance(j, j.plan.regions[e].chunks, s.queues[e], s.workers, w, DoResolve(j, s, w).workers[w], e, c);
  }

  lemma ResolveLeft(j: Job, s: Run, w: nat, e: int, c: Chunk)
    requires Regular(j, s) && Has(j.plan.regions, e, c) && Can(j, s, Resolve(w))
    ensures |DoResolve(j, s, w).queues| == |s.queues| && Left(j, DoResolve(j, s, w), e, c) <= Left(j, s, e, c)
  {
    var t := DoResolve(j, s, w);
    if e != s.workers[w].region {
      ElsewhereLeft(j, s, t, w, e, c);
    } else if s.cancelled || s.workers[w].phase.permanent {
      WorkerLeft(j, s, t, w, e, c);
    } else {
      ResolveHere(j, s, w, c);
    }
  }

  lemma PullLeft(j: Job, s: Run, w: nat, e: int, c: Chunk)
    requires Owned(j, s) && Has(j.plan.regions, e, c) && Can(j, s, PullNext(w))
    ensures |DoPull(s, w).queues| == |s.queues| && Left(j, DoPull(s, w), e, c) <= Left(j, s, e, c)
  {
    var t := DoPull(s, w);
    var f := s.workers[w].region;
    if s.queues[f].pending == [] {
      WorkerLeft(j, s, t, w, e, c);
    } else if e != f {
      ElsewhereLeft(j, s, t, w, e, c);
    } else {
      assert GoodQueue(j.plan.regions[f].chunks, s.queues[f]);
      PullAllowance(j.o.retry, s.queues[f], s.workers, w, e, c);
    }
  }

  lemma FinishedLeft(j: Job, s: Run, w: nat, e: int, c: Chunk)
    requires Owned(j, s) && Distinct(j) && Has(j.plan.regions, e, c) && Can(j, s, Finished(w))
    ensures |DoFinished(s, w).queues| == |s.queues| && Left(j, DoFinished(s, w), e, c) <= Left(j, s, e, c)
  {
    var t := DoFinished(s, w);
    var f := s.workers[w].region;
    assert Hand(s.workers[w]) == Some(s.workers[w].phase.c);
    if e != f {
      ElsewhereLeft(j, s, t, w, e, c);
    } else {
      assert GoodQueue(j.plan.regions[f].chunks, s.queues[f]);
      MarkedAllowance(j.o.retry, j.plan.regions[f].chunks, s.queues[f], s.workers, w, e, c);
    }
  }

  lemma SpawnLeft(j: Job, s: Run, e: int, c: Chunk)
    requires 0 <= e < |s.queues| && s.unspawned > 0
    ensures Left(j, Do(j, s, Spawn), e, c) == Left(j, s, e, c)
  {
    var t := Do(j, s, Spawn);
    var a := Lefts(j.o.retry, s.queues[e], s.workers, e, c);
    SumAppend(a, 0);
    assert Lefts(j.o.retry, s.queues[e], t.workers, e, c) == a + [0];
  }

  // An attempt that ends in an error gives up its try.
  lemma EndedLeft(j: Job, s: Run, u: Run, w: nat, off: nat, permanent: bool, e: int, c: Chunk)
    requires 0 <= e < |s.queues| && w < |s.workers| && u == s.(disk := u.disk) && AttemptsOk(j, s.workers[w].phase)
    requires s.workers[w].phase.Attempt? || s.workers[w].phase.Copying?
    ensures var ph := s.workers[w].phase;
            var t := AttemptFailed(j, u, w, ph.c, ph.n, off, permanent);
            |t.queues| == |s.queues| && Left(j, t, e, c) <= Left(j, s, e, c)
            && (ph.Attempt? && s.workers[w].region == e && ph.c == c ==> Left(j, t, e, c) < Left(j, s, e, c))
  {
    var ph := s.workers[w].phase;
    WorkerLeft(j, s, AttemptFailed(j, u, w, ph.c, ph.n, off, permanent), w, e, c);
  }

  lemma AnswerLeft(j: Job, s: Run, w: nat, r: Reply, e: int, c: Chunk)
    requires Shape(j, s) && Budgeted(j, s) && 0 <= e < |s.queues| && Can(j, s, Answer(w, r))
    ensures var t := DoAnswer(j, s, w, r);
            |t.queues| == |s.queues| && Left(j, t, e, c) <= Left(j, s, e, c)
            && (Requests(s, Answer(w, r), e, c) ==> Left(j, t, e, c) < Left(j, s, e, c))
  {
    var ph := s.workers[w].phase;
    assert AttemptsOk(j, ph);
    match Check(j, s.workers[w].region, ph.c, r)
    case Accept => WorkerLeft(j, s, DoAnswer(j, s, w, r), w, e, c);
    case Reject(permanent) => EndedLeft(j, s, s, w, 0, permanent, e, c);
  }

  lemma CopyLeft(j: Job, s: Run, w: nat, k: nat, e: int, c: Chunk)
    requires Shape(j, s) && Budgeted(j, s) && 0 <= e < |s.queues| && CanCopy(j, s, w, k)
    ensures |DoCopy(j, s, w, k).queues| == |DoCopyFail(j, s, w, k).queues| == |s.queues|
    ensures Left(j, DoCopy(j, s, w, k), e, c) <= Left(j, s, e, c)
    ensures Left(j, DoCopyFail(j, s, w, k), e, c) <= Left(j, s, e, c)
  {
    assert AttemptsOk(j, s.workers[w].phase);
    WorkerLeft(j, s, DoCopy(j, s, w, k), w, e, c);
    EndedLeft(j, s, s.(disk := Written(j, s, w, k)), w, s.workers[w].phase.off, false, e, c);
  }

  lemma CopyEndLeft(j: Job, s: Run, w: nat, e: int, c: Chunk)
    requires Shape(j, s) && Budgeted(j, s) && 0 <= e < |s.queues| && Can(j, s, CopyEnd(w))
    ensures |DoCopyEnd(j, s, w).queues| == |s.queues| && Left(j, DoCopyEnd(j, s, w), e, c) <= Left(j, s, e, c)
  {
    var ph := s.workers[w].phase;
    assert AttemptsOk(j, ph);
    EndedLeft(j, s, s, w, ph.off, true, e, c);
    EndedLeft(j, s, s, w, ph.off, false, e, c);
    WorkerLeft(j, s, At(s, w, Fetched(ph.c, Digest(ph.body))), w, e, c);
  }

  predicate Plain(step: Step)
  {
    step.LoadLive? || step.LoadTarget? || step.RetireCas? || step.SeeCancel? || step.Leave? || step.StoreHash?
  }

  lemma PlainLeft(j: Job, s: Run, step: Step, e: int, c: Chunk)
    requires 0 <= e < |s.queues| && Can(j, s, step) && Plain(step)
    ensures |Do(j, s, step).queues| == |s.queues| && Left(j, Do(j, s, step), e, c) <= Left(j, s, e, c)
  {
    WorkerLeft(j, s, Do(j, s, step), step.w, e, c);
  }

  // A request for a chunk uses up some of its allowance; no step ever adds to it.
  lemma StepAllowance(j: Job, s: Run, step: Step, e: int, c: Chunk)
    requires Regular(j, s) && Has(j.plan.regions, e, c) && Can(j, s, step)
    ensures |Do(j, s, step).queues| == |s.queues|
    ensures Left(j, Do(j, s, step), e, c) + (if Requests(s, step, e, c) then 1 else 0) <= Left(j, s, e, c)
  {
    if Plain(step) {
      PlainLeft(j, s, step, e, c);
    } else {
      match step
      case Answer(w, r) => AnswerLeft(j, s, w, r, e, c);
      case Copy(w, k) => CopyLeft(j, s, w, k, e, c);
      case CopyFail(w, torn) => CopyLeft(j, s, w, torn, e, c);
      case CopyEnd(w) => CopyEndLeft(j, s, w, e, c);
      case Resolve(w) => ResolveLeft(j, s, w, e, c);
      case PullNext(w) => PullLeft(j, s, w, e, c);
      case Finished(w) => FinishedLeft(j, s, w, e, c);
      case Spawn => SpawnLeft(j, s, e, c);
      case Cancel =>
      case Retarget(_) =>
      case BeginPersist =>
      case EndPersist(_) =>
    }
  }

  // ----- executions -----

  ghost predicate Execution(j: Job, ss: seq<Run>, steps: seq<Step>)
  {
    && |ss| == |steps| + 1
    && forall i :: 0 <= i < |steps| ==>
       Can(j, ss[i], steps[i]) && FromServer(j, ss[i], steps[i]) && ss[i + 1] == Do(j, ss[i], steps[i])
  }

  ghost function RequestCount(ss: seq<Run>, steps: seq<Step>, n: nat, e: int, c: Chunk): nat
    requires n <= |steps| < |ss|
  {
    if n == 0 then 0
    else RequestCount(ss, steps, n - 1, e, c) + (if Requests(ss[n - 1], steps[n - 1], e, c) then 1 else 0)
  }

  lemma {:induction false} RequestsPaid(j: Job, ss: seq<Run>, steps: seq<Step>, n: nat, e: int, c: Chunk)
    requires Execution(j, ss, steps) && n <= |steps| && Regular(j, ss[0]) && Has(j.plan.regions, e, c)
    ensures Regular(j, ss[n]) && RequestCount(ss, steps, n, e, c) + Left(j, ss[n], e, c) <= Left(j, ss[0], e, c)
  {
    if n > 0 {
      RequestsPaid(j, ss, steps, n - 1, e, c);
      assert Can(j, ss[n - 1], steps[n - 1]) && ss[n] == Do(j, ss[n - 1], steps[n - 1]);
      BudgetKept(j, ss[n - 1], steps[n - 1]);
      StepAllowance(j, ss[n - 1], steps[n - 1], e, c);
    }
  }

  // A run as it begins: nothing held, no failure counted.
  ghost predicate AtStart(j: Job, s: Run)
  {
    && Sound(j) && Distinct(j) && Owned(j, s)
    && (forall w :: 0 <= w < |s.workers| ==> s.workers[w].phase == Top)
    && (forall e :: 0 <= e < |s.queues| ==> s.queues[e].failed == map[])
  }

  function FetchLimit(r: nat, stealing: bool): nat
  {
    if stealing then (r + 1) * (r + 1) else r + 1
  }

  lemma StartLeft(r: nat, q: W.Queue, ws: seq<Worker>, e: int, c: Chunk)
    requires q.failed == map[] && forall w :: 0 <= w < |ws| ==> ws[w].phase == Top
    ensures Allowance(r, q, ws, e, c) <= FetchLimit(r, q.stealing)
  {
    SumZero(Lefts(r, q, ws, e, c));
    PassesProduct(r, r);
    assert (r + 1) * (r + 1) == r * (r + 1) + r + 1;
  }

  lemma StartReady(j: Job, s: Run)
    requires AtStart(j, s)
    ensures Regular(j, s)
  {
  }

  // Each chunk is requested at most (retry + 1)^2 times from a work-stealing queue and at
  // most retry + 1 times from a static one, in every execution of a run.
  lemma FetchesBounded(j: Job, ss: seq<Run>, steps: seq<Step>, e: int, c: Chunk)
    requires Execution(j, ss, steps) && AtStart(j, ss[0]) && Has(j.plan.regions, e, c)
    ensures RequestCount(ss, steps, |steps|, e, c) <= FetchLimit(j.o.retry, j.plan.regions[e].stealing)
  {
    StartReady(j, ss[0]);
    RequestsPaid(j, ss, steps, |steps|, e, c);
    LeftNonNegative(j, ss[|steps|], e, c);
    StartLeft(j.o.retry, ss[0].queues[e], ss[0].workers, e, c);
  }
}
