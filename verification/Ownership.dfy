// Who has which chunk: at every step each chunk of the layout is queued, held by exactly
// one worker, done, or accounted for by an error; and queued work always has a worker.
module Ownership {
  import opened Chunks
  import opened Layout
  import opened Workers
  import W = WorkQueue

  // The chunk in a worker's hands.
  function Hand(k: Worker): Option<Chunk>
  {
    if Holds(k.phase) then Some(k.phase.c) else None
  }

  ghost predicate HeldBy(ws: seq<Worker>, w: int, e: int, c: Chunk)
  {
    0 <= w < |ws| && ws[w].region == e && Hand(ws[w]) == Some(c)
  }

  ghost predicate Held(ws: seq<Worker>, e: int, c: Chunk)
  {
    exists w :: HeldBy(ws, w, e, c)
  }

  ghost predicate ActiveAt(ws: seq<Worker>, w: int, e: int)
  {
    0 <= w < |ws| && ws[w].region == e && Active(ws[w].phase)
  }

  ghost predicate HasActive(ws: seq<Worker>, e: int)
  {
    exists w :: ActiveAt(ws, w, e)
  }

  ghost predicate Shape(j: Job, s: Run)
  {
    && 1 <= |s.queues| == |j.plan.regions| <= 2
    && (forall e :: 0 <= e < |s.queues| ==> s.queues[e].stealing == j.plan.regions[e].stealing)
    && (forall w :: 0 <= w < |s.workers| ==> s.workers[w].region < |s.queues|)
  }

  // A queue and the layout of its region.
  ghost predicate GoodQueue(cs: seq<Chunk>, q: W.Queue)
  {
    && (forall c :: c in q.pending ==> c in cs && c.start !in q.done)
    && (forall i, k :: 0 <= i < k < |q.pending| ==> q.pending[i] != q.pending[k])
    && q.done <= Starts(cs)
  }

  // c belongs to the layout and is neither queued nor done.
  ghost predicate InFlight(cs: seq<Chunk>, q: W.Queue, c: Chunk)
  {
    c in cs && c !in q.pending && c.start !in q.done
  }

  ghost predicate QueuesGood(j: Job, s: Run)
    requires Shape(j, s)
  {
    forall e :: 0 <= e < |s.queues| ==> GoodQueue(j.plan.regions[e].chunks, s.queues[e])
  }

  ghost predicate HandsGood(j: Job, s: Run)
    requires Shape(j, s)
  {
    forall w :: 0 <= w < |s.workers| && Hand(s.workers[w]).Some? ==>
      InFlight(j.plan.regions[s.workers[w].region].chunks, s.queues[s.workers[w].region], Hand(s.workers[w]).value)
  }

  ghost predicate NoSharing(ws: seq<Worker>)
  {
    forall w, v :: 0 <= w < v < |ws| && Hand(ws[w]).Some? && ws[w].region == ws[v].region ==> Hand(ws[w]) != Hand(ws[v])
  }

  ghost predicate Located(j: Job, s: Run, e: int, c: Chunk)
    requires Shape(j, s) && 0 <= e < |s.queues|
  {
    c in s.queues[e].pending || c.start in s.queues[e].done || Held(s.workers, e, c)
  }

  // Without an error no chunk is ever lost sight of.
  ghost predicate Covered(j: Job, s: Run)
    requires Shape(j, s)
  {
    s.errors == 0 ==> forall e, c :: Has(j.plan.regions, e, c) ==> Located(j, s, e, c)
  }

  // Without an error or a cancel, queued work has a worker that will come back for it.
  ghost predicate Served(s: Run)
  {
    s.errors == 0 && !s.cancelled ==>
      forall e :: 0 <= e < |s.queues| && s.queues[e].pending != [] ==> HasActive(s.workers, e)
  }

  ghost predicate Owned(j: Job, s: Run)
  {
    Shape(j, s) && QueuesGood(j, s) && HandsGood(j, s) && NoSharing(s.workers)
  }

  ghost predicate Inv(j: Job, s: Run)
  {
    Owned(j, s) && Covered(j, s) && Served(s)
  }

  ghost predicate Distinct(j: Job)
  {
    forall e :: 0 <= e < |j.plan.regions| ==> Ordered(j.plan.regions[e].chunks)
  }

  lemma OrderedUnique(cs: seq<Chunk>)
    requires Ordered(cs)
    ensures forall c, d :: c in cs && d in cs && (c.start == d.start || c.index == d.index) ==> c == d
  {
  }

  // The one restriction on a schedule: a worker that retires while the run is going well and
  // work is queued in its region leaves there another worker that will still look at the queue.
  ghost predicate KeepsAWorker(s: Run, step: Step)
  {
    (step.RetireCas? && step.w < |s.workers| && s.workers[step.w].phase == Deciding(s.conns)
     && s.workers[step.w].region < |s.queues| && s.queues[s.workers[step.w].region].pending != []
     && s.errors == 0 && !s.cancelled)
    ==> exists v :: v != step.w && ActiveAt(s.workers, v, s.workers[step.w].region)
  }

  // ----- steps that move no chunk -----

  // Nothing a chunk's location depends on changes; workers may be added.
  ghost predicate Quiet(s: Run, t: Run)
  {
    && t.queues == s.queues && t.errors == s.errors && (s.cancelled ==> t.cancelled)
    && |s.workers| <= |t.workers|
    && (forall w :: 0 <= w < |s.workers| ==>
          && t.workers[w].region == s.workers[w].region
          && Hand(t.workers[w]) == Hand(s.workers[w])
          && (Active(s.workers[w].phase) ==> Active(t.workers[w].phase)))
    && (forall w :: |s.workers| <= w < |t.workers| ==> t.workers[w] == Worker(0, Top))
  }

  lemma QuietKeeps(j: Job, s: Run, t: Run)
    requires Inv(j, s) && Quiet(s, t)
    ensures Inv(j, t)
  {
    assert Owned(j, t);
    assert forall w, e, c :: HeldBy(s.workers, w, e, c) ==> HeldBy(t.workers, w, e, c);
    assert forall e, c :: Held(s.workers, e, c) ==> Held(t.workers, e, c);
    assert forall w, e :: ActiveAt(s.workers, w, e) ==> ActiveAt(t.workers, w, e);
    assert forall e :: HasActive(s.workers, e) ==> HasActive(t.workers, e);
  }

  predicate MovesNothing(step: Step)
  {
    !(step.RetireCas? || step.SeeCancel? || step.PullNext? || step.Finished? || step.Resolve? || step.Leave?)
  }

  lemma FailedAttemptIsQuiet(j: Job, s: Run, w: nat, c: Chunk, n: nat, off: nat, permanent: bool)
    requires w < |s.workers| && Hand(s.workers[w]) == Some(c)
    ensures Quiet(s, AttemptFailed(j, s, w, c, n, off, permanent))
  {
  }

  lemma AnswerIsQuiet(j: Job, s: Run, w: nat, r: Reply)
    requires Can(j, s, Answer(w, r))
    ensures Quiet(s, DoAnswer(j, s, w, r))
  {
    var ph := s.workers[w].phase;
    FailedAttemptIsQuiet(j, s, w, ph.c, ph.n, 0, true);
    FailedAttemptIsQuiet(j, s, w, ph.c, ph.n, 0, false);
  }

  lemma CopyFailIsQuiet(j: Job, s: Run, w: nat, torn: nat)
    requires CanCopy(j, s, w, torn)
    ensures Quiet(s, DoCopyFail(j, s, w, torn))
  {
    var ph := s.workers[w].phase;
    FailedAttemptIsQuiet(j, s.(disk := Written(j, s, w, torn)), w, ph.c, ph.n, ph.off, false);
  }

  lemma CopyEndIsQuiet(j: Job, s: Run, w: nat)
    requires Can(j, s, CopyEnd(w))
    ensures Quiet(s, DoCopyEnd(j, s, w))
  {
    var ph := s.workers[w].phase;
    FailedAttemptIsQuiet(j, s, w, ph.c, ph.n, ph.off, true);
    FailedAttemptIsQuiet(j, s, w, ph.c, ph.n, ph.off, false);
  }

  lemma QuietSteps(j: Job, s: Run, step: Step)
    requires Can(j, s, step) && MovesNothing(step)
    ensures Quiet(s, Do(j, s, step))
  {
    match step
    case Answer(w, r) => AnswerIsQuiet(j, s, w, r);
    case CopyFail(w, torn) => CopyFailIsQuiet(j, s, w, torn);
    case CopyEnd(w) => CopyEndIsQuiet(j, s, w);
    case Copy(w, k) => CopyIsQuiet(j, s, w, k);
    case _ =>
  }

  lemma CopyIsQuiet(j: Job, s: Run, w: nat, k: nat)
    requires CanCopy(j, s, w, k)
    ensures Quiet(s, DoCopy(j, s, w, k))
  {
  }

  // ----- a worker that leaves empty-handed -----

  ghost predicate Leaves(s: Run, w: nat, t: Run)
  {
    && w < |s.workers| && Hand(s.workers[w]) == None
    && t.queues == s.queues && t.errors == s.errors && t.cancelled == s.cancelled
    && |t.workers| == |s.workers| && t.workers == s.workers[w := t.workers[w]]
    && t.workers[w].region == s.workers[w].region && Hand(t.workers[w]) == None
  }

  lemma LeavingKeeps(j: Job, s: Run, w: nat, t: Run)
    requires Inv(j, s) && Leaves(s, w, t)
    requires s.cancelled || s.errors > 0 || s.queues[s.workers[w].region].pending == []
          || !Active(s.workers[w].phase) || exists v :: v != w && ActiveAt(s.workers, v, s.workers[w].region)
    ensures Inv(j, t)
  {
    assert Owned(j, t);
    assert forall v, e, c :: HeldBy(s.workers, v, e, c) ==> HeldBy(t.workers, v, e, c);
    assert forall e, c :: Held(s.workers, e, c) ==> Held(t.workers, e, c);
    forall e | 0 <= e < |t.queues| && t.queues[e].pending != [] && t.errors == 0 && !t.cancelled
      ensures HasActive(t.workers, e)
    {
      assert HasActive(s.workers, e);
      var v :| ActiveAt(s.workers, v, e);
      if v == w {
        var u :| u != w && ActiveAt(s.workers, u, s.workers[w].region);
        assert ActiveAt(t.workers, u, e);
      } else {
        assert ActiveAt(t.workers, v, e);
      }
    }
  }

  // ----- the steps that move a chunk -----

  // Worker w and the queue of its region trade one chunk; all else stays.
  ghost predicate Trades(s: Run, w: nat, t: Run)
  {
    && w < |s.workers| == |t.workers| && s.workers[w].region < |s.queues| == |t.queues|
    && t.workers == s.workers[w := t.workers[w]] && t.workers[w].region == s.workers[w].region
    && t.queues == s.queues[s.workers[w].region := t.queues[s.workers[w].region]]
    && t.cancelled == s.cancelled
  }

  // What a trade must do for chunks: nothing of the region becomes queued or done except what
  // w held or gives back, and w ends up holding only what nobody else has.
  lemma TradeKeepsOwned(j: Job, s: Run, w: nat, t: Run)
    requires Owned(j, s) && Trades(s, w, t)
    requires var e := s.workers[w].region;
             var cs, q, r := j.plan.regions[e].chunks, s.queues[e], t.queues[e];
             && r.stealing == q.stealing && GoodQueue(cs, r)
             && (forall c :: InFlight(cs, q, c) && Hand(s.workers[w]) != Some(c) ==>
                   Hand(t.workers[w]) == Some(c) || InFlight(cs, r, c))
             && (Hand(t.workers[w]).Some? ==>
                   InFlight(cs, r, Hand(t.workers[w]).value) && !InFlight(cs, q, Hand(t.workers[w]).value))
    ensures Owned(j, t)
  {
    var e := s.workers[w].region;
    forall v | 0 <= v < |t.workers| && v != w && t.workers[v].region == e && Hand(t.workers[v]).Some?
      ensures InFlight(j.plan.regions[e].chunks, t.queues[e], Hand(t.workers[v]).value)
      ensures Hand(t.workers[w]) != Hand(t.workers[v])
    {
      assert t.workers[v] == s.workers[v];
      assert InFlight(j.plan.regions[e].chunks, s.queues[e], Hand(s.workers[v]).value);
      assert Hand(s.workers[w]) != Hand(s.workers[v]);
    }
  }

  lemma TradeKeepsCovered(j: Job, s: Run, w: nat, t: Run)
    requires Shape(j, s) && Shape(j, t) && Covered(j, s) && Trades(s, w, t)
    requires t.errors == 0 ==> s.errors == 0
    requires var e := s.workers[w].region;
             t.errors == 0 ==> forall c :: c in j.plan.regions[e].chunks ==>
               ((c in s.queues[e].pending || c.start in s.queues[e].done || Hand(s.workers[w]) == Some(c)) ==>
                (c in t.queues[e].pending || c.start in t.queues[e].done || Hand(t.workers[w]) == Some(c)))
    ensures Covered(j, t)
  {
    var e := s.workers[w].region;
    if t.errors == 0 {
      forall f, c | Has(j.plan.regions, f, c)
        ensures Located(j, t, f, c)
      {
        assert Located(j, s, f, c);
        if Held(s.workers, f, c) {
          var v :| HeldBy(s.workers, v, f, c);
          if v != w { assert HeldBy(t.workers, v, f, c); }
        }
        if f == e && Hand(t.workers[w]) == Some(c) { assert HeldBy(t.workers, w, e, c); }
      }
    }
  }

  lemma TradeKeepsServed(s: Run, w: nat, t: Run)
    requires Served(s) && Trades(s, w, t)
    requires t.errors == 0 ==> s.errors == 0 && Active(t.workers[w].phase)
    ensures Served(t)
  {
    if t.errors == 0 && !t.cancelled {
      forall e | 0 <= e < |t.queues| && t.queues[e].pending != []
        ensures HasActive(t.workers, e)
      {
        if e == t.workers[w].region {
          assert ActiveAt(t.workers, w, e);
        } else {
          assert HasActive(s.workers, e);
          var v :| ActiveAt(s.workers, v, e);
          assert ActiveAt(t.workers, v, e);
        }
      }
    }
  }

  lemma PulledQueue(cs: seq<Chunk>, q: W.Queue)
    requires GoodQueue(cs, q) && q.pending != []
    ensures var (r, c) := W.Pull(q);
            && GoodQueue(cs, r) && InFlight(cs, r, c.value) && !InFlight(cs, q, c.value)
            && (forall d :: InFlight(cs, q, d) ==> InFlight(cs, r, d))
            && (forall d :: d in q.pending ==> d in r.pending || d == c.value)
  {
    var p := q.pending;
    assert p == [p[0]] + p[1..];
    assert forall i :: 0 <= i < |p[1..]| ==> p[1..][i] == p[i + 1];
  }

  lemma PullKeeps(j: Job, s: Run, w: nat)
    requires Inv(j, s) && CanAt(j, s, w) && s.workers[w].phase.Ready?
    ensures Inv(j, DoPull(s, w))
  {
    var t := DoPull(s, w);
    var e := s.workers[w].region;
    if s.queues[e].pending == [] {
      LeavingKeeps(j, s, w, t);
    } else {
      PullOwned(j, s, w);
      PulledQueue(j.plan.regions[e].chunks, s.queues[e]);
      TradeKeepsCovered(j, s, w, t);
      TradeKeepsServed(s, w, t);
    }
  }

  lemma MarkedQueue(cs: seq<Chunk>, q: W.Queue, c: Chunk)
    requires GoodQueue(cs, q) && InFlight(cs, q, c) && Ordered(cs)
    ensures var r := W.MarkDone(q, c);
            && r.pending == q.pending && r.done == q.done + {c.start} && GoodQueue(cs, r)
            && (forall d :: InFlight(cs, q, d) && d != c ==> InFlight(cs, r, d))
  {
    OrderedUnique(cs);
    W.MissingNone(q.pending, q.done + {c.start});
  }

  lemma FinishedKeeps(j: Job, s: Run, w: nat)
    requires Inv(j, s) && Distinct(j) && CanAt(j, s, w) && s.workers[w].phase.Hashed?
    ensures Inv(j, DoFinished(s, w))
  {
    var t := DoFinished(s, w);
    var e := s.workers[w].region;
    assert Hand(s.workers[w]) == Some(s.workers[w].phase.c);
    FinishedOwned(j, s, w);
    MarkedQueue(j.plan.regions[e].chunks, s.queues[e], s.workers[w].phase.c);
    TradeKeepsCovered(j, s, w, t);
    TradeKeepsServed(s, w, t);
  }

  lemma RequeuedQueue(cs: seq<Chunk>, q: W.Queue, c: Chunk, limit: int)
    requires GoodQueue(cs, q) && InFlight(cs, q, c)
    ensures var (r, again) := W.Requeue(q, c, limit);
            && GoodQueue(cs, r) && r.done == q.done && r.stealing == q.stealing
            && (forall d :: InFlight(cs, q, d) && d != c ==> InFlight(cs, r, d))
            && (forall d :: d in q.pending ==> d in r.pending)
            && (again ==> c in r.pending)
  {
    var (r, again) := W.Requeue(q, c, limit);
    if again {
      assert r.pending == q.pending + [c];
      assert r.pending[|q.pending|] == c;
    }
  }

  lemma ResolveKeeps(j: Job, s: Run, w: nat)
    requires Inv(j, s) && CanAt(j, s, w) && s.workers[w].phase.Failed?
    ensures Inv(j, DoResolve(j, s, w))
  {
    var t := DoResolve(j, s, w);
    var e := s.workers[w].region;
    assert Hand(s.workers[w]) == Some(s.workers[w].phase.c);
    ResolveOwned(j, s, w);
    RequeuedQueue(j.plan.regions[e].chunks, s.queues[e], s.workers[w].phase.c, j.o.retry);
    TradeKeepsCovered(j, s, w, t);
    TradeKeepsServed(s, w, t);
  }

  lemma KeepsBy(j: Job, s: Run, step: Step)
    requires Inv(j, s) && Distinct(j) && Can(j, s, step) && KeepsAWorker(s, step)
    ensures Inv(j, Do(j, s, step))
  {
    if MovesNothing(step) {
      QuietSteps(j, s, step);
      QuietKeeps(j, s, Do(j, s, step));
    } else {
      match step
      case RetireCas(w) => RetireKeeps(j, s, w);
      case SeeCancel(w) => LeavingKeeps(j, s, w, At(s, w, Draining));
      case PullNext(w) => PullKeeps(j, s, w);
      case Finished(w) => FinishedKeeps(j, s, w);
      case Resolve(w) => ResolveKeeps(j, s, w);
      case Leave(w) => LeavingKeeps(j, s, w, Do(j, s, step));
    }
  }

  // Otherwise the queued work of that region has nobody left.
  lemma WorkAbandoned(j: Job, s: Run, step: Step)
    requires Inv(j, s) && Can(j, s, step) && !KeepsAWorker(s, step)
    ensures !Inv(j, Do(j, s, step))
  {
    var w := step.w;
    var e, t := s.workers[w].region, DoRetire(s, w);
    forall v | ActiveAt(t.workers, v, e)
      ensures false
    {
      assert v != w && ActiveAt(s.workers, v, e);
    }
    assert !HasActive(t.workers, e);
  }

  // A step keeps the invariant if and only if it does not take the last worker away from
  // queued work; only a retirement can.
  lemma StepKeeps(j: Job, s: Run, step: Step)
    requires Inv(j, s) && Distinct(j) && Can(j, s, step)
    ensures Inv(j, Do(j, s, step)) <==> KeepsAWorker(s, step)
  {
    if KeepsAWorker(s, step) { KeepsBy(j, s, step); } else { WorkAbandoned(j, s, step); }
  }

  lemma RetireKeeps(j: Job, s: Run, w: nat)
    requires Inv(j, s) && CanAt(j, s, w) && s.workers[w].phase.Deciding? && KeepsAWorker(s, RetireCas(w))
    ensures Inv(j, DoRetire(s, w))
  {
    if s.conns == s.workers[w].phase.live {
      LeavingKeeps(j, s, w, DoRetire(s, w));
    } else {
      QuietKeeps(j, s, DoRetire(s, w));
    }
  }

  // Ownership alone needs nothing from the schedule.
  lemma PullOwned(j: Job, s: Run, w: nat)
    requires Owned(j, s) && CanAt(j, s, w) && s.workers[w].phase.Ready?
    ensures Owned(j, DoPull(s, w))
  {
    var e := s.workers[w].region;
    if s.queues[e].pending != [] {
      PulledQueue(j.plan.regions[e].chunks, s.queues[e]);
      TradeKeepsOwned(j, s, w, DoPull(s, w));
    }
  }

  lemma FinishedOwned(j: Job, s: Run, w: nat)
    requires Owned(j, s) && Distinct(j) && CanAt(j, s, w) && s.workers[w].phase.Hashed?
    ensures Owned(j, DoFinished(s, w))
  {
    assert Hand(s.workers[w]) == Some(s.workers[w].phase.c);
    MarkedQueue(j.plan.regions[s.workers[w].region].chunks, s.queues[s.workers[w].region], s.workers[w].phase.c);
    TradeKeepsOwned(j, s, w, DoFinished(s, w));
  }

  lemma ResolveOwned(j: Job, s: Run, w: nat)
    requires Owned(j, s) && CanAt(j, s, w) && s.workers[w].phase.Failed?
    ensures Owned(j, DoResolve(j, s, w))
  {
    assert Hand(s.workers[w]) == Some(s.workers[w].phase.c);
    RequeuedQueue(j.plan.regions[s.workers[w].region].chunks, s.queues[s.workers[w].region], s.workers[w].phase.c,
        j.o.retry);
    TradeKeepsOwned(j, s, w, DoResolve(j, s, w));
  }

  lemma LeavesOwned(j: Job, s: Run, w: nat, t: Run)
    requires Owned(j, s) && Leaves(s, w, t)
    ensures Owned(j, t)
  {
  }

  lemma QuietOwned(j: Job, s: Run, t: Run)
    requires Owned(j, s) && Quiet(s, t)
    ensures Owned(j, t)
  {
  }

  lemma OwnedKept(j: Job, s: Run, step: Step)
    requires Owned(j, s) && Distinct(j) && Can(j, s, step)
    ensures Owned(j, Do(j, s, step))
  {
    if MovesNothing(step) {
      QuietSteps(j, s, step);
      QuietOwned(j, s, Do(j, s, step));
    } else {
      match step
      case PullNext(w) => PullOwned(j, s, w);
      case Finished(w) => FinishedOwned(j, s, w);
      case Resolve(w) => ResolveOwned(j, s, w);
      case RetireCas(w) => LeavesOwned(j, s, w, DoRetire(s, w));
      case SeeCancel(w) => LeavesOwned(j, s, w, At(s, w, Draining));
      case Leave(w) => LeavesOwned(j, s, w, Do(j, s, step));
    }
  }

  // When every worker has gone without an error or a cancel, the done set is exactly the
  // layout and nothing is left in any queue.
  lemma NothingSkipped(j: Job, s: Run)
    requires Inv(j, s) && Completes(s)
    ensures forall e :: 0 <= e < |s.queues| ==>
            s.queues[e].pending == [] && s.queues[e].done == Starts(j.plan.regions[e].chunks)
  {
    forall e | 0 <= e < |s.queues|
      ensures s.queues[e].pending == [] && s.queues[e].done == Starts(j.plan.regions[e].chunks)
    {
      assert forall w :: !ActiveAt(s.workers, w, e);
      forall c | c in j.plan.regions[e].chunks
        ensures c.start in s.queues[e].done
      {
        assert Has(j.plan.regions, e, c);
        assert Located(j, s, e, c);
      }
    }
  }
}
