// Which schedules keep a worker: none lowers the target, or single-region runs whose
// reductions never coincide with a worker that is on its way out (retireIfAboveTarget,
// AdjustConns and the deferred decrement of internal/download/task_io.go and task.go).
module Drain {
  import opened Chunks
  import opened Layout
  import opened Workers
  import opened Ownership
  import opened Contents
  import opened World
  import opened WorldProof

  // After an error or a cancel a run no longer promises anything, so it needs no discipline.
  predicate Troubled(s: Run)
  {
    s.cancelled || s.errors > 0
  }

  lemma TroubleStays(j: Job, s: Run, step: Step)
    requires Troubled(s) && Can(j, s, step)
    ensures Troubled(Do(j, s, step))
  {
    if MovesNothing(step) { QuietSteps(j, s, step); }
  }

  lemma TroubleTends(s: Run, step: Step)
    requires Troubled(s)
    ensures KeepsAWorker(s, step)
  {
  }

  // ----- the target is never lowered -----

  predicate NeverLowers(s: Run, step: Step)
  {
    step.Retarget? && !Troubled(s) ==> step.t >= s.target
  }

  // Every count a worker can have read is within the target, so nobody ever retires.
  ghost predicate Level(s: Run)
  {
    s.conns <= s.target && forall w :: 0 <= w < |s.workers| ==>
      !s.workers[w].phase.Deciding? && (s.workers[w].phase.Loaded? ==> s.workers[w].phase.live <= s.target)
  }

  // Steps that leave the connection counters alone and put no worker before the queue check.
  ghost predicate CountersKept(s: Run, t: Run)
  {
    && t.conns == s.conns && t.target == s.target && |t.workers| == |s.workers|
    && forall w :: 0 <= w < |s.workers| && t.workers[w] != s.workers[w] ==>
         !t.workers[w].phase.Loaded? && !t.workers[w].phase.Deciding? && !t.workers[w].phase.Exited?
         && !s.workers[w].phase.Exited? && (s.workers[w].phase.Draining? ==> t.workers[w].phase.Draining?)
  }

  predicate Transfers(step: Step)
  {
    step.SeeCancel? || step.PullNext? || step.Answer? || step.Copy? || step.CopyFail? || step.CopyEnd?
    || step.StoreHash? || step.Finished? || step.Resolve? || step.BeginPersist? || step.EndPersist? || step.Cancel?
  }

  lemma FailedKeepsCounters(j: Job, s: Run, w: nat, c: Chunk, n: nat, off: nat, permanent: bool)
    requires w < |s.workers| && Holds(s.workers[w].phase)
    ensures CountersKept(s, AttemptFailed(j, s, w, c, n, off, permanent))
  {
  }

  lemma CopyFailKeepsCounters(j: Job, s: Run, w: nat, torn: nat)
    requires CanCopy(j, s, w, torn)
    ensures CountersKept(s, DoCopyFail(j, s, w, torn))
  {
    var ph := s.workers[w].phase;
    FailedKeepsCounters(j, s.(disk := Written(j, s, w, torn)), w, ph.c, ph.n, ph.off, false);
  }

  lemma CopyEndKeepsCounters(j: Job, s: Run, w: nat)
    requires Can(j, s, CopyEnd(w))
    ensures CountersKept(s, DoCopyEnd(j, s, w))
  {
    var ph := s.workers[w].phase;
    FailedKeepsCounters(j, s, w, ph.c, ph.n, ph.off, false);
    FailedKeepsCounters(j, s, w, ph.c, ph.n, ph.off, true);
  }

  lemma AnswerKeepsCounters(j: Job, s: Run, w: nat, r: Reply)
    requires Can(j, s, Answer(w, r))
    ensures CountersKept(s, DoAnswer(j, s, w, r))
  {
    var ph := s.workers[w].phase;
    FailedKeepsCounters(j, s, w, ph.c, ph.n, 0, false);
    FailedKeepsCounters(j, s, w, ph.c, ph.n, 0, true);
  }

  lemma TransfersKeepCounters(j: Job, s: Run, step: Step)
    requires Can(j, s, step) && Transfers(step)
    ensures CountersKept(s, Do(j, s, step))
  {
    match step
    case Answer(w, r) => AnswerKeepsCounters(j, s, w, r);
    case CopyFail(w, torn) => CopyFailKeepsCounters(j, s, w, torn);
    case CopyEnd(w) => CopyEndKeepsCounters(j, s, w);
    case _ => PlainTransfers(j, s, step);
  }

  lemma PlainTransfers(j: Job, s: Run, step: Step)
    requires Can(j, s, step) && Transfers(step) && !step.Answer? && !step.CopyFail? && !step.CopyEnd?
    ensures CountersKept(s, Do(j, s, step))
  {
  }

  lemma LevelKept(j: Job, s: Run, step: Step)
    requires Level(s) && Can(j, s, step) && NeverLowers(s, step) && !Troubled(s)
    ensures Level(Do(j, s, step)) && !step.RetireCas?
  {
    if Transfers(step) {
      TransfersKeepCounters(j, s, step);
    }
  }

  // Level as long as it matters.
  ghost predicate LevelOrTroubled(s: Run)
  {
    Troubled(s) || Level(s)
  }

  lemma LevelOrTroubledKept(j: Job, s: Run, step: Step)
    requires LevelOrTroubled(s) && Can(j, s, step) && NeverLowers(s, step)
    ensures LevelOrTroubled(Do(j, s, step)) && KeepsAWorker(s, step)
  {
    if Troubled(s) {
      TroubleStays(j, s, step);
      TroubleTends(s, step);
    } else {
      LevelKept(j, s, step);
    }
  }

  // ----- reductions of a single-region run -----

  function Present(ws: seq<Worker>): nat
  {
    if ws == [] then 0 else (if ws[0].phase.Exited? then 0 else 1) + Present(ws[1..])
  }

  lemma {:induction false} PresentUpdate(ws: seq<Worker>, w: nat, k: Worker)
    requires w < |ws|
    ensures Present(ws[w := k])
            == Present(ws) - (if ws[w].phase.Exited? then 0 else 1) + (if k.phase.Exited? then 0 else 1)
  {
    if w == 0 {
      assert ws[0 := k][1..] == ws[1..];
    } else {
      assert ws[w := k][1..] == ws[1..][w - 1 := k];
      PresentUpdate(ws[1..], w - 1, k);
    }
  }

  lemma {:induction false} PresentAppend(ws: seq<Worker>, k: Worker)
    ensures Present(ws + [k]) == Present(ws) + (if k.phase.Exited? then 0 else 1)
  {
    if ws == [] {
      assert [] + [k] == [k] && [k][1..] == [];
    } else {
      assert (ws + [k])[1..] == ws[1..] + [k];
      PresentAppend(ws[1..], k);
    }
  }

  lemma {:induction false} PresentSome(ws: seq<Worker>) returns (v: nat)
    requires Present(ws) >= 1
    ensures v < |ws| && !ws[v].phase.Exited?
  {
    if !ws[0].phase.Exited? {
      v := 0;
    } else {
      v := PresentSome(ws[1..]);
      v := v + 1;
    }
  }

  // The counter never claims more connections than there are workers still counted in it,
  // and a worker only thinks of retiring when it has read at least two.
  ghost predicate Headcount(s: Run)
  {
    && s.conns <= Present(s.workers) && s.target >= 1
    && forall w :: 0 <= w < |s.workers| && s.workers[w].phase.Deciding? ==> s.workers[w].phase.live >= 2
  }

  // No worker retires from queued work while another has left its loop but is still counted.
  predicate CleanDrain(s: Run, step: Step)
  {
    (step.RetireCas? && step.w < |s.workers| && s.workers[step.w].phase == Deciding(s.conns)
     && s.workers[step.w].region < |s.queues| && s.queues[s.workers[step.w].region].pending != [] && !Troubled(s))
    ==> forall w :: 0 <= w < |s.workers| ==> !s.workers[w].phase.Draining?
  }

  lemma {:induction false} PresentSame(a: seq<Worker>, b: seq<Worker>)
    requires |a| == |b| && forall w :: 0 <= w < |a| ==> (a[w].phase.Exited? <==> b[w].phase.Exited?)
    ensures Present(a) == Present(b)
  {
    if a != [] {
      PresentSame(a[1..], b[1..]);
    }
  }

  lemma HeadcountKept(j: Job, s: Run, step: Step)
    requires Headcount(s) && Can(j, s, step)
    ensures Headcount(Do(j, s, step))
  {
    if Transfers(step) {
      TransfersKeepCounters(j, s, step);
      PresentSame(s.workers, Do(j, s, step).workers);
    } else {
      match step
      case Retarget(_) =>
      case Spawn => PresentAppend(s.workers, Worker(0, Top));
      case LoadLive(w) => PresentUpdate(s.workers, w, s.workers[w].(phase := Loaded(s.conns)));
      case LoadTarget(w) => PresentUpdate(s.workers, w, DoLoadTarget(s, w).workers[w]);
      case RetireCas(w) => RetireCounts(j, s, w);
      case Leave(w) => PresentUpdate(s.workers, w, s.workers[w].(phase := Exited));
    }
  }

  lemma RetireCounts(j: Job, s: Run, w: nat)
    requires Headcount(s) && Can(j, s, RetireCas(w))
    ensures Headcount(DoRetire(s, w))
  {
    PresentUpdate(s.workers, w, DoRetire(s, w).workers[w]);
  }

  // With one region, a clean drain always leaves a worker behind.
  lemma CleanDrainKeeps(s: Run, step: Step)
    requires Headcount(s) && |s.queues| == 1 && CleanDrain(s, step)
    requires forall v :: 0 <= v < |s.workers| ==> s.workers[v].region < |s.queues|
    ensures KeepsAWorker(s, step)
  {
    if step.RetireCas? && step.w < |s.workers| && s.workers[step.w].phase == Deciding(s.conns)
       && s.queues[s.workers[step.w].region].pending != [] && !Troubled(s) {
      PresentUpdate(s.workers, step.w, Worker(0, Exited));
      var v := PresentSome(s.workers[step.w := Worker(0, Exited)]);
      assert v != step.w && ActiveAt(s.workers, v, s.workers[step.w].region);
    }
  }

  // ----- runs that survive every reduction -----

  // No chunk is ever taken back.
  predicate NeverRequeues(o: Options, plan: Plan)
  {
    o.retry == 0 || forall r :: r in plan.regions ==> !r.stealing
  }

  // Single-region runs in which chunks are never taken back, or only one worker is ever counted.
  predicate Robust(o: Options, p: Probe)
  {
    var plan := MakePlan(o, p);
    |plan.regions| == 1 && (o.retry == 0 || !plan.regions[0].stealing || WorkerCount(o, p, plan) <= 1)
  }

  ghost predicate Dry(s: Run)
  {
    s.cancelled || s.errors > 0 || (|s.queues| == 1 && s.queues[0].pending == [])
  }

  // Nobody is on the way out before the work is.
  ghost predicate DrainsLast(s: Run)
  {
    (exists w :: 0 <= w < |s.workers| && s.workers[w].phase.Draining?) ==> Dry(s)
  }

  lemma NothingComesBack(j: Job, s: Run, w: nat)
    requires Shape(j, s) && NeverRequeues(j.o, j.plan) && Can(j, s, Resolve(w)) && |s.queues| == 1
    ensures Dry(s) ==> Dry(DoResolve(j, s, w))
    ensures DoResolve(j, s, w).workers[w].phase.Draining? ==> Dry(DoResolve(j, s, w))
  {
    assert j.plan.regions[0] in j.plan.regions;
  }

  // With one region and no requeue, a dry run stays dry.
  lemma DryStays(j: Job, s: Run, step: Step)
    requires Shape(j, s) && NeverRequeues(j.o, j.plan) && Can(j, s, step) && |s.queues| == 1 && Dry(s)
    ensures Dry(Do(j, s, step))
  {
    if MovesNothing(step) {
      QuietSteps(j, s, step);
    } else if step.Resolve? {
      NothingComesBack(j, s, step.w);
    }
  }

  // Who starts to leave does so from a dry run.
  lemma LeavesDry(j: Job, s: Run, step: Step, v: nat)
    requires Shape(j, s) && NeverRequeues(j.o, j.plan) && Can(j, s, step) && |s.queues| == 1
    requires v < |Do(j, s, step).workers| && Do(j, s, step).workers[v].phase.Draining?
    ensures (v < |s.workers| && s.workers[v].phase.Draining?) || Dry(Do(j, s, step))
  {
    if step.Resolve? {
      NothingComesBack(j, s, step.w);
    } else if step.SeeCancel? || step.PullNext? {
      GoesFromDry(j, s, step, v);
    } else if Transfers(step) {
      NobodyStartsToLeave(j, s, step, v);
    } else {
      CountersLeaveNobody(j, s, step, v);
    }
  }

  lemma GoesFromDry(j: Job, s: Run, step: Step, v: nat)
    requires Shape(j, s) && Can(j, s, step) && |s.queues| == 1 && (step.SeeCancel? || step.PullNext?)
    requires v < |Do(j, s, step).workers| && Do(j, s, step).workers[v].phase.Draining?
    ensures (v < |s.workers| && s.workers[v].phase.Draining?) || Dry(Do(j, s, step))
  {
  }

  lemma CountersLeaveNobody(j: Job, s: Run, step: Step, v: nat)
    requires Can(j, s, step) && !Transfers(step)
    requires v < |Do(j, s, step).workers| && Do(j, s, step).workers[v].phase.Draining?
    ensures v < |s.workers| && s.workers[v].phase.Draining?
  {
  }

  lemma NobodyStartsToLeave(j: Job, s: Run, step: Step, v: nat)
    requires Can(j, s, step) && Transfers(step) && !step.SeeCancel? && !step.PullNext? && !step.Resolve?
    requires v < |Do(j, s, step).workers| && Do(j, s, step).workers[v].phase.Draining?
    ensures v < |s.workers| && s.workers[v].phase.Draining?
  {
    if step.Answer? || step.CopyFail? || step.CopyEnd? {
      NoAttemptLeaves(j, s, step);
      assert v != step.w;
    }
  }

  lemma NoAttemptLeaves(j: Job, s: Run, step: Step)
    requires Can(j, s, step) && (step.Answer? || step.CopyFail? || step.CopyEnd?)
    ensures |Do(j, s, step).workers| == |s.workers| && !Do(j, s, step).workers[step.w].phase.Draining?
    ensures forall v :: 0 <= v < |s.workers| && v != step.w ==> Do(j, s, step).workers[v] == s.workers[v]
  {
    var ph := s.workers[step.w].phase;
    match step
    case Answer(w, r) =>
      FailedStays(j, s, w, ph.c, ph.n, 0, true);
      FailedStays(j, s, w, ph.c, ph.n, 0, false);
    case CopyFail(w, torn) => FailedStays(j, s.(disk := Written(j, s, w, torn)), w, ph.c, ph.n, ph.off, false);
    case CopyEnd(w) =>
      FailedStays(j, s, w, ph.c, ph.n, ph.off, true);
      FailedStays(j, s, w, ph.c, ph.n, ph.off, false);
  }

  lemma FailedStays(j: Job, s: Run, w: nat, c: Chunk, n: nat, off: nat, permanent: bool)
    requires w < |s.workers|
    ensures var t := AttemptFailed(j, s, w, c, n, off, permanent);
            && |t.workers| == |s.workers| && !t.workers[w].phase.Draining?
            && forall v :: 0 <= v < |s.workers| && v != w ==> t.workers[v] == s.workers[v]
  {
  }

  lemma DrainsLastKept(j: Job, s: Run, step: Step)
    requires Shape(j, s) && NeverRequeues(j.o, j.plan) && Can(j, s, step) && |s.queues| == 1 && DrainsLast(s)
    ensures DrainsLast(Do(j, s, step))
  {
    var t := Do(j, s, step);
    if v :| 0 <= v < |t.workers| && t.workers[v].phase.Draining? {
      LeavesDry(j, s, step, v);
      if Dry(s) { DryStays(j, s, step); }
    }
  }

  // Then a retirement can only take the last worker away from an empty queue.
  lemma DrainsLastKeepsAWorker(j: Job, s: Run, step: Step)
    requires Shape(j, s) && |s.queues| == 1 && Headcount(s) && DrainsLast(s)
    ensures KeepsAWorker(s, step)
  {
    if step.RetireCas? && step.w < |s.workers| && s.workers[step.w].phase == Deciding(s.conns) {
      PresentUpdate(s.workers, step.w, Worker(0, Exited));
      var v := PresentSome(s.workers[step.w := Worker(0, Exited)]);
      if !s.workers[v].phase.Draining? {
        assert v != step.w && ActiveAt(s.workers, v, s.workers[step.w].region);
      }
    }
  }

  // Only one worker is counted: nobody ever reads a count above the target.
  ghost predicate Solo(s: Run)
  {
    s.conns <= 1 <= s.target && forall w :: 0 <= w < |s.workers| ==>
      !s.workers[w].phase.Deciding? && (s.workers[w].phase.Loaded? ==> s.workers[w].phase.live <= 1)
  }

  lemma SoloKept(j: Job, s: Run, step: Step)
    requires Solo(s) && Can(j, s, step)
    ensures Solo(Do(j, s, step)) && KeepsAWorker(s, step)
  {
    if Transfers(step) {
      TransfersKeepCounters(j, s, step);
    }
  }

  // ----- whole histories -----

  lemma {:induction false} AllPresent(ws: seq<Worker>)
    requires forall w :: 0 <= w < |ws| ==> !ws[w].phase.Exited?
    ensures Present(ws) == |ws|
  {
    if ws != [] {
      AllPresent(ws[1..]);
    }
  }

  // How a launched run begins: nobody has read a count, and the target is the count.
  lemma LaunchedCounters(content: seq<byte>, w: World, ev: Event)
    requires w.Rest? && ev.Launch? && ev.o.conns >= 1 && Launched(content, w, ev).Busy?
    ensures var v := Launched(content, w, ev);
            && v.j == Job(content, ev.o, ev.p, MakePlan(ev.o, ev.p))
            && Level(v.s) && v.s.conns == WorkerCount(ev.o, ev.p, v.j.plan) >= 1
            && (forall k :: 0 <= k < |v.s.workers| ==> v.s.workers[k].phase.Top?)
            && (|v.s.queues| == 1 ==> Headcount(v.s))
  {
    var plan := MakePlan(ev.o, ev.p);
    PlanShape(ev.o, ev.p);
    QueueCount(ev.o, ev.p, plan, OpenDisk(ev.p, w.disk), w.control, ev.stale, ev.sampleOk);
    LaunchedFields(content, w, ev);
    Crew(ev.o, ev.p);
    AllPresent(InitialWorkers(ev.o, ev.p, plan));
  }

  lemma LaunchedFields(content: seq<byte>, w: World, ev: Event)
    requires w.Rest? && ev.Launch? && ev.o.conns >= 1 && Launched(content, w, ev).Busy?
    ensures var v, plan := Launched(content, w, ev), MakePlan(ev.o, ev.p);
            && v.j == Job(content, ev.o, ev.p, plan) && v.s.workers == InitialWorkers(ev.o, ev.p, plan)
            && v.s.conns == v.s.target == WorkerCount(ev.o, ev.p, plan) && |v.s.queues| == |plan.regions|
  {
    PlanShape(ev.o, ev.p);
    QueueCount(ev.o, ev.p, MakePlan(ev.o, ev.p), OpenDisk(ev.p, w.disk), w.control, ev.stale, ev.sampleOk);
  }

  // The workers a run is launched with.
  lemma Crew(o: Options, p: Probe)
    requires o.conns >= 1
    ensures var plan := MakePlan(o, p);
            var ks := InitialWorkers(o, p, plan);
            && WorkerCount(o, p, plan) >= 1 && (|plan.regions| == 1 ==> |ks| == WorkerCount(o, p, plan))
            && forall k :: 0 <= k < |ks| ==> ks[k].phase.Top?
  {
  }

  lemma StepsKeepQueueCount(j: Job, s: Run, step: Step)
    requires Can(j, s, step)
    ensures |Do(j, s, step).queues| == |s.queues|
  {
    if MovesNothing(step) {
      QuietSteps(j, s, step);
    }
  }

  ghost predicate Raised(w: World, ev: Event)
  {
    w.Busy? && ev.Act? ==> NeverLowers(w.s, ev.step)
  }

  lemma {:induction false} LevelAlong(content: seq<byte>, ws: seq<World>, evs: seq<Event>, n: nat)
    requires History(content, ws, evs) && n < |ws|
    requires forall i :: 0 <= i < |evs| ==> Raised(ws[i], evs[i])
    ensures ws[n].Busy? ==> LevelOrTroubled(ws[n].s)
  {
    if n > 0 {
      var w, ev := ws[n - 1], evs[n - 1];
      LevelAlong(content, ws, evs, n - 1);
      assert Occurs(content, w, ev) && ws[n] == After(content, w, ev) && Raised(w, ev);
      if ev.Launch? && ws[n].Busy? { LaunchedCounters(content, w, ev); }
      if ev.Act? { LevelOrTroubledKept(w.j, w.s, ev.step); }
    }
  }

  // If no connection target is lowered while a run goes well, every layout - one region or two - delivers.
  lemma EndToEndNeverLowered(content: seq<byte>, ws: seq<World>, evs: seq<Event>, n: nat)
    requires History(content, ws, evs) && n < |ws|
    requires forall i :: 0 <= i < |evs| ==> Raised(ws[i], evs[i])
    requires ws[n].Rest? && ws[n].finished.Some? && ws[n].finished.value.p.totalSize > 0
    ensures ws[n].disk == content
  {
    forall i | 0 <= i < |evs|
      ensures Tended(ws[i], evs[i])
    {
      LevelAlong(content, ws, evs, i);
      assert Occurs(content, ws[i], evs[i]) && Raised(ws[i], evs[i]);
      if ws[i].Busy? && evs[i].Act? { LevelOrTroubledKept(ws[i].j, ws[i].s, evs[i].step); }
    }
    EndToEnd(content, ws, evs, n);
  }

  // Robust runs: anything goes. Otherwise two regions: no reductions; one region: any
  // reductions that drain cleanly.
  ghost predicate Disciplined(w: World, ev: Event)
  {
    w.Busy? && ev.Act? && !Robust(w.j.o, w.j.p) ==>
      if |w.s.queues| == 1 then CleanDrain(w.s, ev.step) else NeverLowers(w.s, ev.step)
  }

  ghost predicate CountersOk(j: Job, s: Run)
  {
    if |s.queues| == 1 then
      && Headcount(s)
      && (NeverRequeues(j.o, j.plan) ==> DrainsLast(s))
      && (WorkerCount(j.o, j.p, j.plan) <= 1 ==> Solo(s))
    else LevelOrTroubled(s)
  }

  lemma LaunchedCountersOk(content: seq<byte>, w: World, ev: Event)
    requires w.Rest? && ev.Launch? && ev.o.conns >= 1 && Launched(content, w, ev).Busy?
    ensures CountersOk(Launched(content, w, ev).j, Launched(content, w, ev).s)
  {
    LaunchedCounters(content, w, ev);
  }

  lemma SingleKept(j: Job, s: Run, step: Step)
    requires Shape(j, s) && Can(j, s, step) && |s.queues| == 1 && CountersOk(j, s)
    ensures |Do(j, s, step).queues| == 1 && CountersOk(j, Do(j, s, step))
  {
    StepsKeepQueueCount(j, s, step);
    HeadcountKept(j, s, step);
    if NeverRequeues(j.o, j.plan) { DrainsLastKept(j, s, step); }
    if WorkerCount(j.o, j.p, j.plan) <= 1 { SoloKept(j, s, step); }
  }

  lemma SingleTends(j: Job, s: Run, step: Step)
    requires Sound(j) && Shape(j, s) && Can(j, s, step) && |s.queues| == 1 && CountersOk(j, s)
    requires Robust(j.o, j.p) || CleanDrain(s, step)
    ensures KeepsAWorker(s, step)
  {
    if WorkerCount(j.o, j.p, j.plan) <= 1 {
      SoloKept(j, s, step);
    } else if Robust(j.o, j.p) {
      assert NeverRequeues(j.o, j.plan);
      DrainsLastKeepsAWorker(j, s, step);
    } else {
      CleanDrainKeeps(s, step);
    }
  }

  lemma DisciplineTends(content: seq<byte>, w: World, ev: Event)
    requires WorldInv(content, w) && Occurs(content, w, ev) && Disciplined(w, ev) && (w.Busy? ==> CountersOk(w.j, w.s))
    ensures Tended(w, ev)
    ensures var v := After(content, w, ev); v.Busy? ==> CountersOk(v.j, v.s)
  {
    if ev.Launch? && Launched(content, w, ev).Busy? { LaunchedCountersOk(content, w, ev); }
    if w.Busy? && ev.Act? {
      if |w.s.queues| == 1 {
        SingleKept(w.j, w.s, ev.step);
        SingleTends(w.j, w.s, ev.step);
      } else {
        StepsKeepQueueCount(w.j, w.s, ev.step);
        LevelOrTroubledKept(w.j, w.s, ev.step);
      }
    }
  }

  lemma {:induction false} DisciplineAlong(content: seq<byte>, ws: seq<World>, evs: seq<Event>, n: nat)
    requires History(content, ws, evs) && n < |ws|
    requires forall i :: 0 <= i < |evs| ==> Disciplined(ws[i], evs[i])
    ensures WorldInv(content, ws[n]) && (ws[n].Busy? ==> CountersOk(ws[n].j, ws[n].s))
  {
    if n > 0 {
      DisciplineAlong(content, ws, evs, n - 1);
      assert Occurs(content, ws[n - 1], evs[n - 1]) && Disciplined(ws[n - 1], evs[n - 1]);
      DisciplineTends(content, ws[n - 1], evs[n - 1]);
      EventKeeps(content, ws[n - 1], evs[n - 1]);
    }
  }

  // Connection targets may move in any way in robust runs, and in all runs after an error or a
  // cancel; before that, in other single-region runs as long as no worker retires from queued
  // work while another has left its loop uncounted; in two-region runs only upwards.
  lemma EndToEndReduced(content: seq<byte>, ws: seq<World>, evs: seq<Event>, n: nat)
    requires History(content, ws, evs) && n < |ws|
    requires forall i :: 0 <= i < |evs| ==> Disciplined(ws[i], evs[i])
    requires ws[n].Rest? && ws[n].finished.Some? && ws[n].finished.value.p.totalSize > 0
    ensures ws[n].disk == content
  {
    DisciplineAlong(content, ws, evs, n);
  }
}
