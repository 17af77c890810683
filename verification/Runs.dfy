// What holds in every history, whatever the schedule: the connection target may move at any
// time and workers may be lost. Safety of checkpoints, the fetch bound and the end of every
// run need no discipline; only completeness does (see WorldProof and Drain).
module Runs {
  import opened Chunks
  import opened Layout
  import opened Workers
  import opened Ownership
  import opened Contents
  import opened World
  import opened WorldProof
  import opened BoundedWork
  import opened Termination

  ghost predicate Safe(content: seq<byte>, w: World)
  {
    match w
    case Rest(_, control, _) => control.Some? ==> ControlOk(content, control.value)
    case Busy(j, s) => j.content == content && Fit(j, s) && Intact(j, s)
  }

  lemma LaunchFailures(o: Options, p: Probe, plan: Plan, disk: seq<byte>, control: Option<Control>, stale: bool,
      sampleOk: bool)
    requires 1 <= |plan.regions| <= 2
    ensures forall e :: 0 <= e < |Prepare(o, p, plan, disk, control, stale, sampleOk).queues| ==>
              Prepare(o, p, plan, disk, control, stale, sampleOk).queues[e].failed == map[]
  {
  }

  lemma OpenedAtStart(j: Job, disk: seq<byte>, control: Option<Control>, stale: bool, sampleOk: bool)
    requires Sound(j) && j.o.conns >= 1 && (j.p.totalSize > 0 ==> |disk| == j.p.totalSize)
    requires control.Some? ==> ControlOk(j.content, control.value)
    ensures 1 <= |j.plan.regions| <= 2
    ensures var s := Opened(j, Prepare(j.o, j.p, j.plan, disk, control, stale, sampleOk), disk, control);
            AtStart(j, s) && Positive(s) && Inv(j, s) && Intact(j, s) && s.mu.None?
  {
    PrepareIsGood(j, disk, control, stale, sampleOk);
    OpenedIsGood(j, disk, Prepare(j.o, j.p, j.plan, disk, control, stale, sampleOk), control);
    LaunchFailures(j.o, j.p, j.plan, disk, control, stale, sampleOk);
    WorkersEverywhere(j);
    DistinctStarts(j);
    WorkerCountPositive(j.o, j.p);
  }

  lemma PersistedAtStart(j: Job, s: Run, saved: bool)
    requires AtStart(j, s) && Positive(s) && Inv(j, s) && Intact(j, s) && s.mu.None?
    ensures var t := Do(j, Do(j, s, BeginPersist), EndPersist(saved));
            AtStart(j, t) && Positive(t) && Inv(j, t) && Intact(j, t)
  {
    PersistedIsGood(j, s, saved);
  }

  // A launched run begins with nothing held, no failure counted and its workers at the top.
  lemma LaunchAtStart(content: seq<byte>, w: World, ev: Event)
    requires Safe(content, w) && ev.Launch? && Occurs(content, w, ev) && Launched(content, w, ev).Busy?
    ensures var v := Launched(content, w, ev);
            v.j.content == content && AtStart(v.j, v.s) && Positive(v.s) && Inv(v.j, v.s) && Intact(v.j, v.s)
  {
    var j := Job(content, ev.o, ev.p, MakePlan(ev.o, ev.p));
    var disk := OpenDisk(ev.p, w.disk);
    OpenedAtStart(j, disk, w.control, ev.stale, ev.sampleOk);
    var r := Prepare(j.o, j.p, j.plan, disk, w.control, ev.stale, ev.sampleOk);
    PersistedAtStart(j, Opened(j, r, disk, w.control), ev.saved);
  }

  lemma WorkerCountPositive(o: Options, p: Probe)
    requires o.conns >= 1
    ensures WorkerCount(o, p, MakePlan(o, p)) >= 1
  {
  }

  lemma SafeKept(content: seq<byte>, w: World, ev: Event)
    requires Safe(content, w) && Occurs(content, w, ev)
    ensures Safe(content, After(content, w, ev))
  {
    match ev
    case Tamper(_, _) =>
    case Launch(_, _, _, _, _) =>
      if Launched(content, w, ev).Busy? {
        LaunchAtStart(content, w, ev);
        StartReady(Launched(content, w, ev).j, Launched(content, w, ev).s);
      }
    case Act(step) =>
      StepIntact(w.j, w.s, step);
      FitKept(w.j, w.s, step);
    case Crash(_) =>
    case Finish(_) =>
  }

  lemma {:induction false} HistorySafe(content: seq<byte>, ws: seq<World>, evs: seq<Event>, n: nat)
    requires History(content, ws, evs) && n < |ws|
    ensures Safe(content, ws[n])
  {
    if n > 0 {
      HistorySafe(content, ws, evs, n - 1);
      SafeKept(content, ws[n - 1], evs[n - 1]);
    }
  }

  // Every control file a run has saved, at every moment of every history, carries a digest of
  // the bytes now on disk for each offset it lists.
  lemma EveryCheckpointVerifiable(content: seq<byte>, ws: seq<World>, evs: seq<Event>, n: nat)
    requires History(content, ws, evs) && n < |ws| && ws[n].Busy? && ws[n].s.own && ws[n].j.p.totalSize > 0
    ensures ws[n].s.control.Some? && Shape(ws[n].j, ws[n].s)
    ensures var cf := ws[n].s.control.value;
            forall off :: off in cf.completed ==>
              off in cf.hashes && exists e, c :: DigestOfDisk(ws[n].j, ws[n].s, off, cf.hashes[off], e, c)
  {
    HistorySafe(content, ws, evs, n);
    CheckpointVerifiable(ws[n].j, ws[n].s);
  }

  // From every moment of every history the run in progress takes a bounded number of worker
  // steps until the target is next changed, and it can always be brought to its end.
  lemma EveryRunEnds(content: seq<byte>, ws: seq<World>, evs: seq<Event>, n: nat, ss: seq<Run>, steps: seq<Step>)
    returns (tail: seq<Run>, more: seq<Step>)
    requires History(content, ws, evs) && n < |ws| && ws[n].Busy?
    requires Execution(ws[n].j, ss, steps) && ss[0] == ws[n].s && forall i :: 0 <= i < |steps| ==> !steps[i].Retarget?
    ensures |ws[n].s.queues| == |ws[n].j.plan.regions| && WorkSteps(steps) <= Measure(ws[n].j, ws[n].s)
    ensures Execution(ws[n].j, tail, more) && tail[0] == ss[|steps|] && AllExited(tail[|more|])
  {
    HistorySafe(content, ws, evs, n);
    WorkBounded(ws[n].j, ss, steps);
    tail, more := CanFinish(ws[n].j, ss[|steps|]);
  }

  // In every execution that starts from a launch, each chunk is requested at most
  // (retry + 1)^2 times under the work-stealing queue and retry + 1 times under the static one.
  lemma FetchesOfARun(content: seq<byte>, ws: seq<World>, evs: seq<Event>, n: nat,
                      ss: seq<Run>, steps: seq<Step>, e: int, c: Chunk)
    requires History(content, ws, evs) && n < |evs| && evs[n].Launch? && ws[n + 1].Busy?
    requires Execution(ws[n + 1].j, ss, steps) && ss[0] == ws[n + 1].s && Has(ws[n + 1].j.plan.regions, e, c)
    ensures RequestCount(ss, steps, |steps|, e, c)
         <= FetchLimit(ws[n + 1].j.o.retry, ws[n + 1].j.plan.regions[e].stealing)
  {
    HistorySafe(content, ws, evs, n);
    assert Occurs(content, ws[n], evs[n]) && ws[n + 1] == After(content, ws[n], evs[n]);
    LaunchAtStart(content, ws[n], evs[n]);
    FetchesBounded(ws[n + 1].j, ss, steps, e, c);
  }
}
