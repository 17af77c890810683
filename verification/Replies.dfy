// What an answer does to a worker and its chunk: accepted, tried again, or given up for good
// (fetchAndWrite, downloadChunk and worker of internal/download/task_io.go, IsPermanent of
// internal/transport/transport.go).
module Replies {
  import opened Chunks
  import opened Layout
  import opened Workers
  import opened Ownership
  import opened Contents
  import opened World
  import opened WorldProof
  import opened BoundedWork
  import opened Termination
  import opened Fatal
  import opened Drain
  import opened Runs
  import opened Patience
  import opened Completion
  import W = WorkQueue

  // ----- one answer -----

  // The file is asked for whole: its size is unknown, or it cannot be had in ranges.
  predicate AskedWhole(j: Job, c: Chunk)
  {
    j.p.totalSize < 0 || (j.p.singleStream && c.start == 0 && c.index == 0)
  }

  predicate Usable(j: Job, e: nat, c: Chunk, r: Reply)
    requires e < |j.plan.regions|
  {
    r.Reply? && if AskedWhole(j, c) then 200 <= r.status <= 299
                else r.status == 206 && r.rangeStart == Some(j.plan.regions[e].base + c.start)
  }

  // A client error other than a timeout or a throttling, or an answer to another question.
  predicate Hopeless(j: Job, e: nat, c: Chunk, r: Reply)
    requires e < |j.plan.regions|
  {
    r.Reply? && !Usable(j, e, c, r)
    && (r.status in {400, 401, 402, 403, 404, 405, 406, 407} || 409 <= r.status <= 428 || 430 <= r.status <= 499
        || (!AskedWhole(j, c) && (r.status == 200 || r.status == 206)))
  }

  // The three fates of an answer, while nobody cancels: a usable one is copied, a hopeless one
  // ends the worker's attempts at once, and any other costs one attempt.
  lemma AnswerExactly(j: Job, s: Run, w: nat, r: Reply)
    requires Can(j, s, Answer(w, r)) && !s.cancelled
    ensures var e, c, n, next := s.workers[w].region, s.workers[w].phase.c, s.workers[w].phase.n,
                                 Do(j, s, Answer(w, r)).workers[w].phase;
            && (next.Copying? <==> Usable(j, e, c, r))
            && (next == Failed(c, true) <==> Hopeless(j, e, c, r))
            && (!Usable(j, e, c, r) && !Hopeless(j, e, c, r) ==>
                  next == if n < j.o.retry then Attempt(c, n + 1) else Failed(c, false))
  {
  }

  // ----- a hopeless answer -----

  // Nobody will ask for the chunk again: it has been dropped, or is held by a worker that gave up.
  ghost predicate Abandoned(s: Run, e: int, c: Chunk)
  {
    Gone(s, e, c) || exists w :: HeldBy(s.workers, w, e, c) && GaveUp(s, w)
  }

  lemma FatalAbandons(j: Job, s: Run, step: Step)
    requires Can(j, s, step) && FatalStep(j, s, step)
    ensures Abandoned(Do(j, s, step), s.workers[step.w].region, s.workers[step.w].phase.c)
  {
    var t := Do(j, s, step);
    assert HeldBy(t.workers, step.w, s.workers[step.w].region, s.workers[step.w].phase.c) && GaveUp(t, step.w);
  }

  // A worker that gave up only leaves by dropping its chunk.
  lemma GivenUpDrops(j: Job, s: Run, w: nat)
    requires Owned(j, s) && Can(j, s, Resolve(w)) && GaveUp(s, w)
    ensures Gone(DoResolve(j, s, w), s.workers[w].region, s.workers[w].phase.c)
  {
    var e, c, t := s.workers[w].region, s.workers[w].phase.c, DoResolve(j, s, w);
    assert Hand(s.workers[w]) == Some(c);
    HandIsAlone(j, s, w);
    forall v
      ensures !HeldBy(t.workers, v, e, c)
    {
      if 0 <= v < |t.workers| && v != w { assert t.workers[v] == s.workers[v]; }
    }
  }

  // Such a worker stays as it is under every other step.
  lemma GaveUpSits(j: Job, s: Run, step: Step, w: nat, e: int, c: Chunk)
    requires Can(j, s, step) && GaveUp(s, w) && HeldBy(s.workers, w, e, c) && !(step.Resolve? && step.w == w)
    ensures GaveUp(Do(j, s, step), w) && HeldBy(Do(j, s, step).workers, w, e, c)
  {
    OthersStay(j, s, step, w);
    if MovesNothing(step) { QuietSteps(j, s, step); } else { OtherWorker(j, s, step, w); }
  }

  lemma OtherWorker(j: Job, s: Run, step: Step, w: nat)
    requires Can(j, s, step) && !MovesNothing(step) && GaveUp(s, w) && !(step.Resolve? && step.w == w)
    ensures w < |Do(j, s, step).workers| && Do(j, s, step).workers[w] == s.workers[w]
  {
  }

  lemma AbandonedStays(j: Job, s: Run, step: Step, e: int, c: Chunk)
    requires Owned(j, s) && Distinct(j) && Has(j.plan.regions, e, c) && Abandoned(s, e, c) && Can(j, s, step)
    ensures Abandoned(Do(j, s, step), e, c)
  {
    if Gone(s, e, c) {
      GoneStays(j, s, step, e, c);
    } else {
      var w: nat :| HeldBy(s.workers, w, e, c) && GaveUp(s, w);
      if step.Resolve? && step.w == w {
        GivenUpDrops(j, s, w);
      } else {
        GaveUpSits(j, s, step, w, e, c);
      }
    }
  }

  lemma NoRequestFor(j: Job, s: Run, step: Step, e: int, c: Chunk)
    requires Owned(j, s) && Abandoned(s, e, c) && Can(j, s, step)
    ensures !Requests(s, step, e, c)
  {
    if !Gone(s, e, c) {
      var w: nat :| HeldBy(s.workers, w, e, c) && GaveUp(s, w);
      HandIsAlone(j, s, w);
    }
    assert Requests(s, step, e, c) ==> HeldBy(s.workers, step.w, e, c);
  }

  // Once abandoned it stays abandoned, and its count does not move.
  ghost predicate Over(j: Job, ss: seq<Run>, steps: seq<Step>, n: nat, e: int, c: Chunk, asked: nat)
    requires n <= |steps| < |ss|
  {
    Owned(j, ss[n]) && Abandoned(ss[n], e, c) && RequestCount(ss, steps, n, e, c) == asked
  }

  ghost predicate OverNext(j: Job, ss: seq<Run>, steps: seq<Step>, n: nat, e: int, c: Chunk, asked: nat)
    requires n < |steps| < |ss|
  {
    Over(j, ss, steps, n, e, c, asked) ==> Over(j, ss, steps, n + 1, e, c, asked)
  }

  lemma StaysOver(j: Job, ss: seq<Run>, steps: seq<Step>, n: nat, e: int, c: Chunk, asked: nat)
    requires Execution(j, ss, steps) && n < |steps| && Has(j.plan.regions, e, c) && Distinct(j)
    ensures OverNext(j, ss, steps, n, e, c, asked)
  {
    if Over(j, ss, steps, n, e, c, asked) {
      var s, step := ss[n], steps[n];
      assert Can(j, s, step) && ss[n + 1] == Do(j, s, step);
      OwnedKept(j, s, step);
      AbandonedStays(j, s, step, e, c);
      NoRequestFor(j, s, step, e, c);
    }
  }

  lemma {:induction false} OverFrom(j: Job, ss: seq<Run>, steps: seq<Step>, i: nat, n: nat, e: int, c: Chunk,
                                    asked: nat)
    requires i <= n <= |steps| < |ss| && Over(j, ss, steps, i, e, c, asked)
    requires forall m: nat :: m < |steps| ==> OverNext(j, ss, steps, m, e, c, asked)
    ensures Over(j, ss, steps, n, e, c, asked)
    decreases n
  {
    if i < n {
      OverFrom(j, ss, steps, i, n - 1, e, c, asked);
      assert OverNext(j, ss, steps, n - 1, e, c, asked);
    }
  }

  lemma NeverAskedAgain(j: Job, ss: seq<Run>, steps: seq<Step>, i: nat, n: nat, e: int, c: Chunk)
    requires Execution(j, ss, steps) && i <= n <= |steps| && Has(j.plan.regions, e, c)
    requires Distinct(j) && Owned(j, ss[i]) && Abandoned(ss[i], e, c)
    ensures RequestCount(ss, steps, n, e, c) == RequestCount(ss, steps, i, e, c)
  {
    var asked := RequestCount(ss, steps, i, e, c);
    forall m: nat | m < |steps|
      ensures OverNext(j, ss, steps, m, e, c, asked)
    {
      StaysOver(j, ss, steps, m, e, c, asked);
    }
    OverFrom(j, ss, steps, i, n, e, c, asked);
  }

  // A dead link, say a 404, is asked for no more: the answer to this request was the last one
  // for its chunk in every continuation, and no continuation ends Completed.
  lemma HopelessEndsTheChunk(j: Job, ss: seq<Run>, steps: seq<Step>, i: nat, n: nat)
    requires Execution(j, ss, steps) && AtStart(j, ss[0]) && i < n <= |steps| && steps[i].Answer? && !ss[i].cancelled
    requires var w := steps[i].w;
             CanAt(j, ss[i], w) && ss[i].workers[w].phase.Attempt?
             && Hopeless(j, ss[i].workers[w].region, ss[i].workers[w].phase.c, steps[i].reply)
    ensures var e, c := ss[i].workers[steps[i].w].region, ss[i].workers[steps[i].w].phase.c;
            && Has(j.plan.regions, e, c) && !Completes(ss[n])
            && RequestCount(ss, steps, n, e, c) == RequestCount(ss, steps, i, e, c) + 1
  {
    var s, step := ss[i], steps[i];
    assert Can(j, s, step) && ss[i + 1] == Do(j, s, step);
    StartReady(j, ss[0]);
    RegularAlong(j, ss, steps, i);
    var e, c := s.workers[step.w].region, s.workers[step.w].phase.c;
    assert Hand(s.workers[step.w]) == Some(c);
    HopelessIsFatal(j, s, step.w, step.reply);
    FatalAbandons(j, s, step);
    OwnedKept(j, s, step);
    NeverAskedAgain(j, ss, steps, i + 1, n, e, c);
    FatalNeverCompletes(j, ss, steps, i, n);
  }

  lemma HopelessIsFatal(j: Job, s: Run, w: nat, r: Reply)
    requires Can(j, s, Answer(w, r)) && Hopeless(j, s.workers[w].region, s.workers[w].phase.c, r)
    ensures FatalStep(j, s, Answer(w, r))
  {
  }

  lemma {:induction false} RegularAlong(j: Job, ss: seq<Run>, steps: seq<Step>, n: nat)
    requires Execution(j, ss, steps) && n <= |steps| && Regular(j, ss[0])
    ensures Regular(j, ss[n])
  {
    if n > 0 {
      RegularAlong(j, ss, steps, n - 1);
      BudgetKept(j, ss[n - 1], steps[n - 1]);
    }
  }

  // ----- answers that heal -----

  // No reply, a timeout, a throttling, a server error or a usable answer; and a body that ends
  // cleanly is as long as it was asked for.
  predicate Heals(j: Job, s: Run, step: Step)
    requires Can(j, s, step)
  {
    match step
    case Answer(w, r) =>
      r.NoReply? || r.status == 408 || r.status == 429 || r.status >= 500
      || Usable(j, s.workers[w].region, s.workers[w].phase.c, r)
    case CopyEnd(w) => s.workers[w].phase.ending.Eof? ==> FullLength(j, s.workers[w].phase.c, |s.workers[w].phase.body|)
    case _ => true
  }

  lemma HealingIsNotFatal(j: Job, s: Run, step: Step)
    requires Can(j, s, step) && Heals(j, s, step)
    ensures !FatalStep(j, s, step)
  {
  }

  ghost predicate HealsUpTo(j: Job, ss: seq<Run>, steps: seq<Step>, n: nat)
    requires n < |ss| && n <= |steps|
  {
    && (forall i :: 0 <= i <= n ==> !ss[i].cancelled)
    && forall i :: 0 <= i < n ==> Can(j, ss[i], steps[i]) && Heals(j, ss[i], steps[i])
  }

  // While every answer so far is one of these and nobody cancels, no error is counted as long
  // as the failing chunk has requests left.
  lemma HealingErrorsCostAll(j: Job, ss: seq<Run>, steps: seq<Step>, n: nat)
    requires Execution(j, ss, steps) && n < |steps| && AtStart(j, ss[0])
    requires HealsUpTo(j, ss, steps, n)
    requires ss[n + 1].errors > ss[n].errors
    ensures steps[n].Resolve? && Can(j, ss[n], steps[n])
    ensures var e, c := ss[n].workers[steps[n].w].region, ss[n].workers[steps[n].w].phase.c;
            && Has(j.plan.regions, e, c)
            && RequestCount(ss, steps, n, e, c)
               == if j.plan.regions[e].stealing then (j.o.retry + 1) * (j.o.retry + 1) else j.o.retry + 1
  {
    HealsMeansHealing(j, ss, steps, n);
    ErrorsCostFullAllowance(j, ss, steps, n);
  }

  lemma HealsMeansHealing(j: Job, ss: seq<Run>, steps: seq<Step>, n: nat)
    requires Execution(j, ss, steps) && n < |steps|
    requires HealsUpTo(j, ss, steps, n)
    ensures Healing(j, ss, steps, n)
  {
    forall i | 0 <= i < n
      ensures !FatalStep(j, ss[i], steps[i])
    {
      HealingIsNotFatal(j, ss[i], steps[i]);
    }
  }

  // ----- a server that does what it is asked -----

  // The whole file for a plain request, exactly the range for a ranged one; nothing breaks off.
  predicate Perfect(j: Job, s: Run, step: Step)
    requires Can(j, s, step)
  {
    match step
    case Answer(w, r) =>
      var e, c := s.workers[w].region, s.workers[w].phase.c;
      r.Reply? && r.ending == Eof && (e < |j.plan.regions| && c in j.plan.regions[e].chunks ==> AsAsked(j, e, c, r))
    case CopyFail(_, _) => false
    case Cancel => false
    case _ => true
  }

  predicate AsAsked(j: Job, e: nat, c: Chunk, r: Reply)
    requires r.Reply? && e < |j.plan.regions|
  {
    if AskedWhole(j, c) then r.status == 200 && r.body == j.content
    else
      var lo, hi := j.plan.regions[e].base + c.start, j.plan.regions[e].base + c.end + 1;
      r.status == 206 && r.rangeStart == Some(lo) && 0 <= lo <= hi <= |j.content| && r.body == j.content[lo..hi]
  }

  predicate Smooth(j: Job, ph: Phase)
  {
    !ph.Failed? && (ph.Copying? ==> ph.ending == Eof && FullLength(j, ph.c, |ph.body|))
  }

  ghost predicate Untroubled(j: Job, s: Run)
  {
    s.errors == 0 && !s.cancelled && forall w :: 0 <= w < |s.workers| ==> Smooth(j, s.workers[w].phase)
  }

  lemma PerfectAnswer(j: Job, s: Run, w: nat, r: Reply)
    requires Sound(j) && Owned(j, s) && Can(j, s, Answer(w, r)) && Perfect(j, s, Answer(w, r))
    ensures var c := s.workers[w].phase.c;
            && Check(j, s.workers[w].region, c, r) == Accept && r.ending == Eof && FullLength(j, c, |r.body|)
  {
    assert Hand(s.workers[w]) == Some(s.workers[w].phase.c);
  }

  lemma SmoothOne(j: Job, s: Run, t: Run, w: nat)
    requires Untroubled(j, s) && w < |s.workers| == |t.workers| && t.workers == s.workers[w := t.workers[w]]
    requires t.errors == 0 && !t.cancelled && Smooth(j, t.workers[w].phase)
    ensures Untroubled(j, t)
  {
  }

  lemma PerfectStep(j: Job, s: Run, step: Step)
    requires Sound(j) && Owned(j, s) && Untroubled(j, s) && Can(j, s, step) && Perfect(j, s, step)
    ensures Untroubled(j, Do(j, s, step))
  {
    if step.Answer? {
      PerfectAnswer(j, s, step.w, step.reply);
      SmoothOne(j, s, DoAnswer(j, s, step.w, step.reply), step.w);
    } else if step.Copy? || step.CopyEnd? {
      PerfectCopy(j, s, step);
    } else if Plain(step) || step.PullNext? || step.Finished? {
      SmoothOne(j, s, Do(j, s, step), step.w);
    } else if step.Resolve? {
      assert false;
    }
  }

  lemma PerfectCopy(j: Job, s: Run, step: Step)
    requires Untroubled(j, s) && Can(j, s, step) && (step.Copy? || step.CopyEnd?)
    ensures Untroubled(j, Do(j, s, step))
  {
    assert Smooth(j, s.workers[step.w].phase);
    SmoothOne(j, s, Do(j, s, step), step.w);
  }

  lemma {:induction false} UntroubledAlong(j: Job, ss: seq<Run>, steps: seq<Step>, n: nat)
    requires Execution(j, ss, steps) && n <= |steps| && Regular(j, ss[0]) && Untroubled(j, ss[0])
    requires forall i :: 0 <= i < |steps| ==> Can(j, ss[i], steps[i]) && Perfect(j, ss[i], steps[i])
    ensures Regular(j, ss[n]) && Untroubled(j, ss[n])
  {
    if n > 0 {
      UntroubledAlong(j, ss, steps, n - 1);
      BudgetKept(j, ss[n - 1], steps[n - 1]);
      PerfectStep(j, ss[n - 1], steps[n - 1]);
    }
  }

  // A launched run, in any history, whose target nobody changes and which nobody cancels, against
  // a server that does what it is asked over a disk that does not fail: when it can go no
  // further it is Completed, and a file of known size is the server's.
  lemma PerfectServerCompletes(content: seq<byte>, ws: seq<World>, evs: seq<Event>, n: nat,
                               ss: seq<Run>, steps: seq<Step>)
    requires History(content, ws, evs) && n < |evs| && evs[n].Launch? && ws[n + 1].Busy?
    requires Execution(ws[n + 1].j, ss, steps) && ss[0] == ws[n + 1].s && Untouched(steps)
    requires forall i :: 0 <= i < |steps| ==>
               Can(ws[n + 1].j, ss[i], steps[i]) && Perfect(ws[n + 1].j, ss[i], steps[i])
    requires Stuck(ws[n + 1].j, ss[|steps|])
    ensures Completes(ss[|steps|])
    ensures ws[n + 1].j.p.totalSize > 0 ==> ss[|steps|].disk == content
  {
    var j := ws[n + 1].j;
    LaunchedWell(content, ws, evs, n);
    StartReady(j, ss[0]);
    LaunchUntroubled(content, ws, evs, n);
    UntroubledAlong(j, ss, steps, |steps|);
    StuckMeansExited(j, ss, steps);
    GoodAlong(j, ss, steps, |steps|);
    NothingSkipped(j, ss[|steps|]);
    if j.p.totalSize > 0 { AllDoneMeansEqual(j, ss[|steps|]); }
  }

  lemma LaunchUntroubled(content: seq<byte>, ws: seq<World>, evs: seq<Event>, n: nat)
    requires History(content, ws, evs) && n < |evs| && evs[n].Launch? && ws[n + 1].Busy?
    ensures Untroubled(ws[n + 1].j, ws[n + 1].s)
  {
    LaunchedWell(content, ws, evs, n);
    assert Occurs(content, ws[n], evs[n]) && ws[n + 1] == After(content, ws[n], evs[n]);
    NotCancelledYet(content, ws[n], evs[n]);
  }

  lemma NotCancelledYet(content: seq<byte>, w: World, ev: Event)
    requires w.Rest? && ev.Launch? && ev.o.conns >= 1 && Launched(content, w, ev).Busy?
    ensures !Launched(content, w, ev).s.cancelled
  {
    PlanShape(ev.o, ev.p);
    QueueCount(ev.o, ev.p, MakePlan(ev.o, ev.p), OpenDisk(ev.p, w.disk), w.control, ev.stale, ev.sampleOk);
  }
}
