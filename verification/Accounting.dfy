// The progress counter: bytesDone is exactly the bytes of done chunks plus the bytes of
// attempts in flight, in every state of every history (noteBytes and the roll-back of
// downloadChunk in internal/download/task_io.go).
module Accounting {
  import opened Chunks
  import opened Layout
  import opened Workers
  import opened Ownership
  import opened Contents
  import opened World
  import opened WorldProof
  import opened Runs
  import W = WorkQueue

  // Bytes of a worker's current attempt that the counter includes.
  function InFlightBytes(j: Job, k: Worker): int
  {
    match k.phase
    case Copying(_, _, _, _, off) => off
    case Fetched(c, _) => ChunkBytes(c, j.p.totalSize)
    case Hashed(c) => ChunkBytes(c, j.p.totalSize)
    case _ => 0
  }

  function Flights(j: Job, ws: seq<Worker>): int
  {
    if ws == [] then 0 else InFlightBytes(j, ws[0]) + Flights(j, ws[1..])
  }

  function DoneBytes(j: Job, qs: seq<W.Queue>): int
    requires 1 <= |qs| == |j.plan.regions| <= 2
  {
    BytesIn(j.plan.regions[0].chunks, qs[0].done, j.p.totalSize)
    + (if |qs| == 2 then BytesIn(j.plan.regions[1].chunks, qs[1].done, j.p.totalSize) else 0)
  }

  ghost predicate Balanced(j: Job, s: Run)
    requires Shape(j, s)
  {
    j.p.totalSize > 0 && !s.cancelled ==> s.bytesDone == DoneBytes(j, s.queues) + Flights(j, s.workers)
  }

  lemma {:induction false} FlightsUpdate(j: Job, ws: seq<Worker>, w: nat, k: Worker)
    requires w < |ws|
    ensures Flights(j, ws[w := k]) == Flights(j, ws) - InFlightBytes(j, ws[w]) + InFlightBytes(j, k)
  {
    if w == 0 {
      assert ws[0 := k][1..] == ws[1..];
    } else {
      assert ws[w := k][1..] == ws[1..][w - 1 := k];
      FlightsUpdate(j, ws[1..], w - 1, k);
    }
  }

  lemma {:induction false} FlightsAppend(j: Job, ws: seq<Worker>, k: Worker)
    ensures Flights(j, ws + [k]) == Flights(j, ws) + InFlightBytes(j, k)
  {
    if ws == [] {
      assert [] + [k] == [k] && [k][1..] == [];
    } else {
      assert (ws + [k])[1..] == ws[1..] + [k];
      FlightsAppend(j, ws[1..], k);
    }
  }

  lemma {:induction false} NoFlights(j: Job, ws: seq<Worker>)
    requires forall w :: 0 <= w < |ws| ==> InFlightBytes(j, ws[w]) == 0
    ensures Flights(j, ws) == 0
  {
    if ws != [] {
      NoFlights(j, ws[1..]);
    }
  }

  // ----- done bytes -----

  lemma {:induction false} BytesInUnion(cs: seq<Chunk>, a: set<int>, b: set<int>, total: int)
    requires a !! b
    ensures BytesIn(cs, a + b, total) == BytesIn(cs, a, total) + BytesIn(cs, b, total)
  {
    if cs != [] {
      BytesInUnion(cs[1..], a, b, total);
    }
  }

  lemma {:induction false} BytesInNone(cs: seq<Chunk>, a: set<int>, total: int)
    requires forall c :: c in cs ==> c.start !in a
    ensures BytesIn(cs, a, total) == 0
  {
    if cs != [] {
      assert forall c :: c in cs[1..] ==> c in cs;
      BytesInNone(cs[1..], a, total);
    }
  }

  lemma {:induction false} BytesInOne(cs: seq<Chunk>, c: Chunk, total: int)
    requires c in cs && forall i, k :: 0 <= i < k < |cs| ==> cs[i].start < cs[k].start
    ensures BytesIn(cs, {c.start}, total) == ChunkBytes(c, total)
  {
    assert forall i, k :: 0 <= i < k < |cs[1..]| ==> cs[1..][i] == cs[i + 1] && cs[1..][k] == cs[k + 1];
    if cs[0] == c {
      BytesInNone(cs[1..], {c.start}, total);
    } else {
      assert cs[0].start != c.start;
      BytesInOne(cs[1..], c, total);
    }
  }

  lemma MarkedBytes(cs: seq<Chunk>, done: set<int>, c: Chunk, total: int)
    requires Ordered(cs) && c in cs && c.start !in done
    ensures BytesIn(cs, done + {c.start}, total) == BytesIn(cs, done, total) + ChunkBytes(c, total)
  {
    BytesInUnion(cs, done, {c.start}, total);
    BytesInOne(cs, c, total);
  }

  // ----- steps -----

  // One worker changes and the done sets do not.
  ghost predicate OneWorker(s: Run, w: nat, t: Run)
  {
    && w < |s.workers| == |t.workers| && t.workers == s.workers[w := t.workers[w]]
    && |t.queues| == |s.queues| && (forall e :: 0 <= e < |s.queues| ==> t.queues[e].done == s.queues[e].done)
  }

  lemma OneWorkerBalanced(j: Job, s: Run, w: nat, t: Run)
    requires Shape(j, s) && Shape(j, t) && Balanced(j, s) && OneWorker(s, w, t)
    requires s.cancelled ==> t.cancelled
    requires j.p.totalSize > 0 && !t.cancelled ==>
               t.bytesDone - s.bytesDone == InFlightBytes(j, t.workers[w]) - InFlightBytes(j, s.workers[w])
    ensures Balanced(j, t)
  {
    FlightsUpdate(j, s.workers, w, t.workers[w]);
  }

  lemma FailedBalanced(j: Job, s: Run, u: Run, w: nat, c: Chunk, n: nat, off: nat, permanent: bool)
    requires Shape(j, s) && Balanced(j, s) && w < |s.workers| && u == s.(disk := u.disk)
    requires InFlightBytes(j, s.workers[w]) == off
    ensures Shape(j, AttemptFailed(j, u, w, c, n, off, permanent))
            && Balanced(j, AttemptFailed(j, u, w, c, n, off, permanent))
  {
    OneWorkerBalanced(j, s, w, AttemptFailed(j, u, w, c, n, off, permanent));
  }

  lemma AnswerBalanced(j: Job, s: Run, w: nat, r: Reply)
    requires Shape(j, s) && Balanced(j, s) && Can(j, s, Answer(w, r))
    ensures Shape(j, DoAnswer(j, s, w, r)) && Balanced(j, DoAnswer(j, s, w, r))
  {
    var ph := s.workers[w].phase;
    match Check(j, s.workers[w].region, ph.c, r)
    case Accept => OneWorkerBalanced(j, s, w, DoAnswer(j, s, w, r));
    case Reject(permanent) => FailedBalanced(j, s, s, w, ph.c, ph.n, 0, permanent);
  }

  lemma CopyEndBalanced(j: Job, s: Run, w: nat)
    requires Sound(j) && Owned(j, s) && Balanced(j, s) && Can(j, s, CopyEnd(w))
    ensures Shape(j, DoCopyEnd(j, s, w)) && Balanced(j, DoCopyEnd(j, s, w))
  {
    var ph := s.workers[w].phase;
    if ph.ending.Broken? {
      FailedBalanced(j, s, s, w, ph.c, ph.n, ph.off, false);
    } else if !FullLength(j, ph.c, ph.off) {
      FailedBalanced(j, s, s, w, ph.c, ph.n, ph.off, true);
    } else {
      FullMeansAll(j, s, w);
      OneWorkerBalanced(j, s, w, DoCopyEnd(j, s, w));
    }
  }

  lemma FullMeansAll(j: Job, s: Run, w: nat)
    requires Sound(j) && Owned(j, s) && w < |s.workers| && s.workers[w].phase.Copying?
    requires FullLength(j, s.workers[w].phase.c, s.workers[w].phase.off)
    ensures j.p.totalSize > 0 ==> s.workers[w].phase.off == ChunkBytes(s.workers[w].phase.c, j.p.totalSize)
  {
    var ph, e := s.workers[w].phase, s.workers[w].region;
    assert Hand(s.workers[w]) == Some(ph.c);
    ChunkFacts(j, e, ph.c);
    if j.p.totalSize > 0 && ph.c.end < 0 {
      WholeChunkAlone(j, e, ph.c);
    }
  }

  lemma WholeChunkAlone(j: Job, e: int, c: Chunk)
    requires Sound(j) && Has(j.plan.regions, e, c) && j.p.totalSize > 0 && c.end < 0
    ensures Lo(j.plan.regions[e], c) == 0
  {
    PlanSeparated(j.o, j.p);
    if !SplitsInTwo(j.o, j.p) {
      OneRegion(j.o, j.p);
      if !j.p.singleStream { CutOrdered(j.p.totalSize, StepAt(j.o, j.p, j.plan, 0)); }
    }
  }

  lemma FinishedBalanced(j: Job, s: Run, w: nat)
    requires Sound(j) && Owned(j, s) && Balanced(j, s) && Can(j, s, Finished(w))
    ensures Shape(j, DoFinished(s, w)) && Balanced(j, DoFinished(s, w))
  {
    var t := DoFinished(s, w);
    var e, c := s.workers[w].region, s.workers[w].phase.c;
    DistinctStarts(j);
    assert Hand(s.workers[w]) == Some(c);
    MarkedBytes(j.plan.regions[e].chunks, s.queues[e].done, c, j.p.totalSize);
    FlightsUpdate(j, s.workers, w, t.workers[w]);
  }

  lemma FetchBalanced(j: Job, s: Run, step: Step)
    requires Sound(j) && Owned(j, s) && Balanced(j, s) && Can(j, s, step)
    requires step.Answer? || step.Copy? || step.CopyFail? || step.CopyEnd?
    ensures Shape(j, Do(j, s, step)) && Balanced(j, Do(j, s, step))
  {
    match step
    case Answer(w, r) => AnswerBalanced(j, s, w, r);
    case CopyFail(w, torn) =>
      var ph := s.workers[w].phase;
      FailedBalanced(j, s, s.(disk := Written(j, s, w, torn)), w, ph.c, ph.n, ph.off, false);
    case CopyEnd(w) => CopyEndBalanced(j, s, w);
    case Copy(w, k) => CopyBalanced(j, s, w, k);
  }

  lemma StepBalanced(j: Job, s: Run, step: Step)
    requires Sound(j) && Owned(j, s) && Balanced(j, s) && Can(j, s, step)
    ensures Shape(j, Do(j, s, step)) && Balanced(j, Do(j, s, step))
  {
    if step.Answer? || step.Copy? || step.CopyFail? || step.CopyEnd? {
      FetchBalanced(j, s, step);
    } else {
      match step
      case Finished(w) => FinishedBalanced(j, s, w);
      case PullNext(w) => PullBalanced(j, s, w);
      case Resolve(w) => ResolveBalanced(j, s, w);
      case Spawn => FlightsAppend(j, s.workers, Worker(0, Top));
      case Cancel =>
      case Retarget(_) =>
      case BeginPersist =>
      case EndPersist(_) =>
      case _ => OtherBalanced(j, s, step);
    }
  }

  lemma PullBalanced(j: Job, s: Run, w: nat)
    requires Shape(j, s) && Balanced(j, s) && Can(j, s, PullNext(w))
    ensures Shape(j, DoPull(s, w)) && Balanced(j, DoPull(s, w))
  {
    OneWorkerBalanced(j, s, w, DoPull(s, w));
  }

  lemma ResolveBalanced(j: Job, s: Run, w: nat)
    requires Shape(j, s) && Balanced(j, s) && Can(j, s, Resolve(w))
    ensures Shape(j, DoResolve(j, s, w)) && Balanced(j, DoResolve(j, s, w))
  {
    ResolveFields(j, s, w);
    ResolveCounts(j, s, w);
    OneWorkerBalanced(j, s, w, DoResolve(j, s, w));
  }

  lemma ResolveCounts(j: Job, s: Run, w: nat)
    requires Can(j, s, Resolve(w))
    ensures var t := DoResolve(j, s, w);
            t.bytesDone == s.bytesDone && t.cancelled == s.cancelled && !t.workers[w].phase.Copying?
            && InFlightBytes(j, t.workers[w]) == InFlightBytes(j, s.workers[w])
  {
  }

  lemma CopyBalanced(j: Job, s: Run, w: nat, k: nat)
    requires Shape(j, s) && Balanced(j, s) && CanCopy(j, s, w, k)
    ensures Shape(j, DoCopy(j, s, w, k)) && Balanced(j, DoCopy(j, s, w, k))
  {
    OneWorkerBalanced(j, s, w, DoCopy(j, s, w, k));
  }

  // Steps that touch neither queue nor counter.
  lemma OtherBalanced(j: Job, s: Run, step: Step)
    requires Shape(j, s) && Balanced(j, s) && Can(j, s, step)
    requires step.LoadLive? || step.LoadTarget? || step.RetireCas? || step.SeeCancel? || step.StoreHash? || step.Leave?
    ensures Shape(j, Do(j, s, step)) && Balanced(j, Do(j, s, step))
  {
    OneWorkerBalanced(j, s, step.w, Do(j, s, step));
  }

  // ----- where a run starts and ends -----

  lemma {:induction false} BytesInRestrict(cs: seq<Chunk>, offsets: set<int>, keep: set<int>, total: int)
    requires forall c :: c in cs ==> c.start in keep
    ensures BytesIn(cs, offsets * keep, total) == BytesIn(cs, offsets, total)
  {
    if cs != [] {
      assert forall c :: c in cs[1..] ==> c in cs;
      BytesInRestrict(cs[1..], offsets, keep, total);
    }
  }

  lemma {:induction false} BytesInAnyTotal(cs: seq<Chunk>, starts: set<int>, t1: int, t2: int)
    requires t1 >= 0 && t2 >= 0 && forall c :: c in cs ==> c.end >= 0
    ensures BytesIn(cs, starts, t1) == BytesIn(cs, starts, t2)
  {
    if cs != [] {
      assert forall c :: c in cs[1..] ==> c in cs;
      BytesInAnyTotal(cs[1..], starts, t1, t2);
    }
  }

  // Seeding counts exactly the bytes of what it marks done.
  lemma SeedCounts(r: Region, offsets: set<int>, total: int)
    ensures var (q, already, ok) := W.Seed(FreshQueue(r), offsets, total); already == BytesIn(r.chunks, q.done, total)
  {
    var (q, already, ok) := W.Seed(FreshQueue(r), offsets, total);
    if ok {
      assert q.done == offsets * Starts(r.chunks);
      BytesInRestrict(r.chunks, offsets, Starts(r.chunks), total);
    } else {
      BytesInNone(r.chunks, {}, total);
    }
  }

  // What a run of known size starts from is balanced.
  lemma PreparedCounts(j: Job, disk: seq<byte>, control: Option<Control>, stale: bool, sampleOk: bool)
    requires Sound(j) && j.p.totalSize > 0 && 1 <= |j.plan.regions| <= 2
    requires control.Some? ==> ControlOk(j.content, control.value)
    ensures var r := Prepare(j.o, j.p, j.plan, disk, control, stale, sampleOk);
            |r.queues| == |j.plan.regions| && r.already == DoneBytes(j, r.queues)
  {
    var rs := j.plan.regions;
    BytesInNone(rs[0].chunks, {}, j.p.totalSize);
    if |rs| == 2 { BytesInNone(rs[1].chunks, {}, j.p.totalSize); }
    if Resumes(j.o, j.p, j.plan, control, stale) {
      ControlCounts(j, control.value);
    }
  }

  lemma ControlCounts(j: Job, cf: Control)
    requires Sound(j) && j.p.totalSize > 0 && 1 <= |j.plan.regions| <= 2
    requires ControlOk(j.content, cf) && Resumable(cf, j.o, j.p, j.plan)
    ensures var r := FromControl(j.o, j.p, j.plan, cf);
            |r.queues| == |j.plan.regions| && r.already == DoneBytes(j, r.queues)
  {
    var rs, total := j.plan.regions, j.p.totalSize;
    if SplitsInTwo(j.o, j.p) {
      TwoRegions(j.o, j.p);
      PlanSeparated(j.o, j.p);
      TwoRegionSeedAccepted(j.content, j.o, j.p, cf);
      var mid := j.plan.splitAt;
      SeedCounts(rs[0], OffsetsOf(j.plan, 0, cf.completed), mid);
      SeedCounts(rs[1], OffsetsOf(j.plan, 1, cf.completed), mid);
      var qs := SeedQueues(j.plan, cf.completed, total).0;
      BytesInAnyTotal(rs[0].chunks, qs[0].done, mid, total);
      BytesInAnyTotal(rs[1].chunks, qs[1].done, mid, total);
    } else {
      OneRegion(j.o, j.p);
      SeedCounts(rs[0], OffsetsOf(j.plan, 0, cf.completed), total);
    }
  }

  ghost predicate WorldBalanced(w: World)
  {
    w.Busy? ==> Shape(w.j, w.s) && Balanced(w.j, w.s)
  }

  lemma LaunchBalanced(content: seq<byte>, w: World, ev: Event)
    requires Safe(content, w) && ev.Launch? && Occurs(content, w, ev)
    ensures WorldBalanced(After(content, w, ev))
  {
    var j := Job(content, ev.o, ev.p, MakePlan(ev.o, ev.p));
    var disk := OpenDisk(ev.p, w.disk);
    PlanShape(ev.o, ev.p);
    SafeKept(content, w, ev);
    if ev.p.totalSize > 0 {
      PreparedCounts(j, disk, w.control, ev.stale, ev.sampleOk);
      NoFlights(j, InitialWorkers(ev.o, ev.p, j.plan));
      LaunchedFields(content, w, ev);
    }
  }

  // What the counter is computed from right after a launch.
  lemma LaunchedFields(content: seq<byte>, w: World, ev: Event)
    requires w.Rest? && ev.Launch? && ev.o.conns >= 1
    ensures var v := Launched(content, w, ev);
            1 <= |MakePlan(ev.o, ev.p).regions| <= 2 &&
            var r := Prepare(ev.o, ev.p, MakePlan(ev.o, ev.p), OpenDisk(ev.p, w.disk), w.control, ev.stale,
                ev.sampleOk);
            v.Busy? ==>
              && v.j == Job(content, ev.o, ev.p, MakePlan(ev.o, ev.p)) && v.s.queues == r.queues
              && v.s.bytesDone == r.already && v.s.workers == InitialWorkers(ev.o, ev.p, v.j.plan)
  {
    PlanShape(ev.o, ev.p);
  }

  // In every state of a run of known size that has not been cancelled, the counter is the
  // bytes of done chunks - resumed or fetched - plus those of the attempts in flight.
  lemma {:induction false} BalancedAlong(content: seq<byte>, ws: seq<World>, evs: seq<Event>, n: nat)
    requires History(content, ws, evs) && n < |ws|
    ensures WorldBalanced(ws[n])
  {
    if n > 0 {
      BalancedAlong(content, ws, evs, n - 1);
      HistorySafe(content, ws, evs, n - 1);
      BalancedAfter(content, ws[n - 1], evs[n - 1]);
    }
  }

  lemma BalancedAfter(content: seq<byte>, w: World, ev: Event)
    requires Safe(content, w) && WorldBalanced(w) && Occurs(content, w, ev)
    ensures WorldBalanced(After(content, w, ev))
  {
    match ev
    case Tamper(_, _) =>
    case Launch(_, _, _, _, _) => LaunchBalanced(content, w, ev);
    case Act(step) => StepBalanced(w.j, w.s, step);
    case Crash(_) =>
    case Finish(_) =>
  }

  // At Completed the counter is the file size.
  lemma CompletedCount(j: Job, s: Run)
    requires Sound(j) && Inv(j, s) && Balanced(j, s) && Completes(s) && j.p.totalSize > 0
    ensures s.bytesDone == j.p.totalSize
  {
    NothingSkipped(j, s);
    NoFlights(j, s.workers);
    RegionBytes(j.o, j.p);
    AllBytes(j.plan.regions[0].chunks, s.queues[0].done, j.p.totalSize);
    if |s.queues| == 2 { AllBytes(j.plan.regions[1].chunks, s.queues[1].done, j.p.totalSize); }
  }

  lemma {:induction false} AllBytes(cs: seq<Chunk>, starts: set<int>, total: int)
    requires forall c :: c in cs ==> c.start in starts
    ensures BytesIn(cs, starts, total) == SumBytes(cs, total)
  {
    if cs != [] {
      assert forall c :: c in cs[1..] ==> c in cs;
      AllBytes(cs[1..], starts, total);
    }
  }

  // ----- never past the file size -----

  // No body in flight is longer than what its chunk asked for.
  ghost predicate Modest(j: Job, s: Run)
  {
    forall w :: 0 <= w < |s.workers| ==> ModestPhase(j, s.workers[w].phase)
  }

  ghost predicate ModestPhase(j: Job, ph: Phase)
  {
    ph.Copying? ==> ph.off <= |ph.body| <= ChunkBytes(ph.c, j.p.totalSize)
  }

  // The server sends no more than the requested range.
  ghost predicate ModestReply(j: Job, s: Run, step: Step)
    requires Can(j, s, step)
  {
    step.Answer? && step.reply.Reply? ==> |step.reply.body| <= ChunkBytes(s.workers[step.w].phase.c, j.p.totalSize)
  }

  // A step that changes one worker's phase, if any, to a modest one.
  lemma ModestOne(j: Job, s: Run, w: nat, t: Run)
    requires Modest(j, s) && w < |s.workers| == |t.workers| && t.workers == s.workers[w := t.workers[w]]
    requires ModestPhase(j, t.workers[w].phase)
    ensures Modest(j, t)
  {
  }

  lemma ModestTransfer(j: Job, s: Run, step: Step)
    requires Modest(j, s) && Can(j, s, step) && ModestReply(j, s, step)
    requires step.Answer? || step.Copy? || step.CopyFail? || step.CopyEnd?
    ensures Modest(j, Do(j, s, step))
  {
    match step
    case Answer(w, r) => ModestOne(j, s, w, DoAnswer(j, s, w, r));
    case Copy(w, k) => assert ModestPhase(j, s.workers[w].phase); ModestOne(j, s, w, DoCopy(j, s, w, k));
    case CopyFail(w, torn) => ModestOne(j, s, w, DoCopyFail(j, s, w, torn));
    case CopyEnd(w) => ModestOne(j, s, w, DoCopyEnd(j, s, w));
  }

  lemma ModestKept(j: Job, s: Run, step: Step)
    requires Modest(j, s) && Can(j, s, step) && ModestReply(j, s, step)
    ensures Modest(j, Do(j, s, step))
  {
    if step.Answer? || step.Copy? || step.CopyFail? || step.CopyEnd? {
      ModestTransfer(j, s, step);
    } else if !(step.Spawn? || step.Cancel? || step.Retarget? || step.BeginPersist? || step.EndPersist?) {
      ModestOne(j, s, step.w, Do(j, s, step));
    }
  }

  ghost predicate ModestEvent(w: World, ev: Event)
  {
    w.Busy? && ev.Act? && Can(w.j, w.s, ev.step) ==> ModestReply(w.j, w.s, ev.step)
  }

  ghost predicate ModestWorld(w: World)
  {
    w.Busy? ==> Modest(w.j, w.s)
  }

  lemma ModestLaunch(content: seq<byte>, w: World, ev: Event)
    requires w.Rest? && ev.Launch? && ev.o.conns >= 1
    ensures ModestWorld(Launched(content, w, ev))
  {
    LaunchedFields(content, w, ev);
  }

  lemma ModestAfter(content: seq<byte>, w: World, ev: Event)
    requires Occurs(content, w, ev) && ModestWorld(w) && ModestEvent(w, ev)
    ensures ModestWorld(After(content, w, ev))
  {
    match ev
    case Tamper(_, _) =>
    case Launch(_, _, _, _, _) => ModestLaunch(content, w, ev);
    case Act(step) => ModestKept(w.j, w.s, step);
    case Crash(_) =>
    case Finish(_) =>
  }

  lemma {:induction false} ModestAlong(content: seq<byte>, ws: seq<World>, evs: seq<Event>, n: nat)
    requires History(content, ws, evs) && n < |ws|
    requires forall i :: 0 <= i < |evs| ==> ModestEvent(ws[i], evs[i])
    ensures ModestWorld(ws[n])
  {
    if n > 0 {
      ModestAlong(content, ws, evs, n - 1);
      ModestAfter(content, ws[n - 1], evs[n - 1]);
    }
  }

  function HandBytes(j: Job, k: Worker): int
  {
    if Hand(k).Some? then ChunkBytes(Hand(k).value, j.p.totalSize) else 0
  }

  // Bytes of the chunks held by the workers of one region.
  function HandsOf(j: Job, ws: seq<Worker>, e: nat): int
  {
    if ws == [] then 0 else (if ws[0].region == e then HandBytes(j, ws[0]) else 0) + HandsOf(j, ws[1..], e)
  }

  function HandStarts(ws: seq<Worker>, e: nat): set<int>
  {
    if ws == [] then {}
    else (if ws[0].region == e && Hand(ws[0]).Some? then {Hand(ws[0]).value.start} else {}) + HandStarts(ws[1..], e)
  }

  lemma {:induction false} HandStartsMembers(ws: seq<Worker>, e: nat, x: int) returns (w: nat)
    requires x in HandStarts(ws, e)
    ensures w < |ws| && ws[w].region == e && Hand(ws[w]).Some? && Hand(ws[w]).value.start == x
  {
    if ws[0].region == e && Hand(ws[0]).Some? && Hand(ws[0]).value.start == x {
      w := 0;
    } else {
      w := HandStartsMembers(ws[1..], e, x);
      w := w + 1;
    }
  }

  lemma HeldOnce(cs: seq<Chunk>, ws: seq<Worker>, e: nat)
    requires Ordered(cs) && NoSharing(ws) && ws != [] && ws[0].region == e && Hand(ws[0]).Some?
    requires forall w :: 0 <= w < |ws| && ws[w].region == e && Hand(ws[w]).Some? ==> Hand(ws[w]).value in cs
    ensures Hand(ws[0]).value.start !in HandStarts(ws[1..], e)
  {
    OrderedUnique(cs);
    if Hand(ws[0]).value.start in HandStarts(ws[1..], e) {
      var w := HandStartsMembers(ws[1..], e, Hand(ws[0]).value.start);
      assert false;
    }
  }

  // Held chunks of a region are distinct, so their bytes add up as a set of the layout.
  lemma {:induction false} HandsAreBytes(j: Job, cs: seq<Chunk>, ws: seq<Worker>, e: nat)
    requires Ordered(cs) && NoSharing(ws)
    requires forall w :: 0 <= w < |ws| && ws[w].region == e && Hand(ws[w]).Some? ==> Hand(ws[w]).value in cs
    ensures HandsOf(j, ws, e) == BytesIn(cs, HandStarts(ws, e), j.p.totalSize)
  {
    if ws == [] {
      BytesInNone(cs, {}, j.p.totalSize);
    } else {
      var rest := ws[1..];
      assert forall w :: 0 <= w < |rest| ==> rest[w] == ws[w + 1];
      HandsAreBytes(j, cs, rest, e);
      if ws[0].region == e && Hand(ws[0]).Some? {
        HeldOnce(cs, ws, e);
        BytesInUnion(cs, {Hand(ws[0]).value.start}, HandStarts(rest, e), j.p.totalSize);
        BytesInOne(cs, Hand(ws[0]).value, j.p.totalSize);
      } else {
        assert {} + HandStarts(rest, e) == HandStarts(rest, e);
      }
    }
  }

  lemma {:induction false} FlightsBounded(j: Job, s: Run, ws: seq<Worker>)
    requires j.p.totalSize > 0
    requires forall k :: k in ws ==> k.region < 2 && 0 <= InFlightBytes(j, k) <= HandBytes(j, k)
    ensures Flights(j, ws) <= HandsOf(j, ws, 0) + HandsOf(j, ws, 1)
  {
    if ws != [] {
      assert forall k :: k in ws[1..] ==> k in ws;
      assert ws[0] in ws;
      FlightsBounded(j, s, ws[1..]);
    }
  }

  lemma {:induction false} BytesInAtMost(cs: seq<Chunk>, starts: set<int>, total: int)
    requires total > 0 && forall c :: c in cs && c.end >= 0 ==> c.start <= c.end
    ensures 0 <= BytesIn(cs, starts, total) <= SumBytes(cs, total)
  {
    if cs != [] {
      assert forall c :: c in cs[1..] ==> c in cs;
      assert cs[0] in cs;
      BytesInAtMost(cs[1..], starts, total);
    }
  }

  // Done bytes and held bytes of one region fit in it together.
  lemma RegionBounded(j: Job, s: Run, e: nat)
    requires Sound(j) && Owned(j, s) && j.p.totalSize > 0 && e < |s.queues|
    ensures var cs := j.plan.regions[e].chunks;
            BytesIn(cs, s.queues[e].done, j.p.totalSize) + HandsOf(j, s.workers, e) <= SumBytes(cs, j.p.totalSize)
  {
    var cs := j.plan.regions[e].chunks;
    DistinctStarts(j);
    NonEmptyChunks(j);
    assert forall c :: c in cs ==> Has(j.plan.regions, e, c);
    HandsAreBytes(j, cs, s.workers, e);
    if x :| x in s.queues[e].done && x in HandStarts(s.workers, e) {
      var w := HandStartsMembers(s.workers, e, x);
      assert false;
    }
    BytesInUnion(cs, s.queues[e].done, HandStarts(s.workers, e), j.p.totalSize);
    BytesInAtMost(cs, s.queues[e].done + HandStarts(s.workers, e), j.p.totalSize);
  }

  lemma {:induction false} NoHandsThere(j: Job, ws: seq<Worker>, e: nat)
    requires forall w :: 0 <= w < |ws| ==> ws[w].region != e
    ensures HandsOf(j, ws, e) == 0
  {
    if ws != [] {
      NoHandsThere(j, ws[1..], e);
    }
  }

  lemma {:induction false} FlightsNatural(j: Job, ws: seq<Worker>)
    requires forall k :: k in ws ==> 0 <= InFlightBytes(j, k)
    ensures 0 <= Flights(j, ws)
  {
    if ws != [] {
      assert forall k :: k in ws[1..] ==> k in ws;
      assert ws[0] in ws;
      FlightsNatural(j, ws[1..]);
    }
  }

  lemma FlightsWithinHands(j: Job, s: Run)
    requires Sound(j) && Owned(j, s) && Modest(j, s) && j.p.totalSize > 0
    ensures forall k :: k in s.workers ==> k.region < 2 && 0 <= InFlightBytes(j, k) <= HandBytes(j, k)
  {
    NonEmptyChunks(j);
    forall k | k in s.workers
      ensures k.region < 2 && 0 <= InFlightBytes(j, k) <= HandBytes(j, k)
    {
      var w :| 0 <= w < |s.workers| && s.workers[w] == k;
      if Hand(k).Some? { assert Has(j.plan.regions, k.region, Hand(k).value); }
    }
  }

  lemma DoneBytesNatural(j: Job, s: Run)
    requires Sound(j) && Shape(j, s) && j.p.totalSize > 0
    ensures 0 <= DoneBytes(j, s.queues)
  {
    NonEmptyChunks(j);
    forall e, c | 0 <= e < |s.queues| && c in j.plan.regions[e].chunks && c.end >= 0
      ensures c.start <= c.end
    {
      assert Has(j.plan.regions, e, c);
    }
    BytesInAtMost(j.plan.regions[0].chunks, s.queues[0].done, j.p.totalSize);
    if |s.queues| == 2 { BytesInAtMost(j.plan.regions[1].chunks, s.queues[1].done, j.p.totalSize); }
  }

  // While no body runs past its range the counter stays between zero and the file size.
  lemma NeverPastTotal(j: Job, s: Run)
    requires Sound(j) && Owned(j, s) && Balanced(j, s) && Modest(j, s) && j.p.totalSize > 0 && !s.cancelled
    ensures 0 <= s.bytesDone <= j.p.totalSize
  {
    FlightsWithinHands(j, s);
    FlightsNatural(j, s.workers);
    DoneBytesNatural(j, s);
    FlightsBounded(j, s, s.workers);
    RegionBytes(j.o, j.p);
    RegionBounded(j, s, 0);
    if |s.queues| == 2 { RegionBounded(j, s, 1); } else { NoHandsThere(j, s.workers, 1); }
  }

  // Along any history whose server sends no more than it was asked for, on any schedule,
  // progress stays within the file in every state of an uncancelled run.
  lemma ProgressWithinFile(content: seq<byte>, ws: seq<World>, evs: seq<Event>, n: nat)
    requires History(content, ws, evs) && n < |ws| && ws[n].Busy? && ws[n].j.p.totalSize > 0 && !ws[n].s.cancelled
    requires forall i :: 0 <= i < |evs| ==> ModestEvent(ws[i], evs[i])
    ensures 0 <= ws[n].s.bytesDone <= ws[n].j.p.totalSize
  {
    HistorySafe(content, ws, evs, n);
    BalancedAlong(content, ws, evs, n);
    ModestAlong(content, ws, evs, n);
    NeverPastTotal(ws[n].j, ws[n].s);
  }

  // At Completed the counter is the whole file, under the schedule restriction of the
  // end-to-end theorem; what the server sent does not matter.
  lemma FullAtCompleted(content: seq<byte>, ws: seq<World>, evs: seq<Event>, n: nat)
    requires History(content, ws, evs) && n < |ws| && ws[n].Busy? && ws[n].j.p.totalSize > 0 && Completes(ws[n].s)
    requires forall i :: 0 <= i < |evs| ==> Tended(ws[i], evs[i])
    ensures ws[n].s.bytesDone == ws[n].j.p.totalSize
  {
    HistoryInv(content, ws, evs, n);
    BalancedAlong(content, ws, evs, n);
    CompletedCount(ws[n].j, ws[n].s);
  }
}
