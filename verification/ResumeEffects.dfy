// What resuming is for: exactly when the next run takes a checkpoint over, what it then does not
// fetch again, and what a checkpoint lists (task_start.go and task_persist.go of internal/download).
module ResumeEffects {
  import opened Chunks
  import opened Layout
  import opened Workers
  import opened Ownership
  import opened Contents
  import opened Sums
  import opened World
  import opened WorldProof
  import opened BoundedWork
  import opened Runs
  import opened Accounting
  import opened IntactResume
  import W = WorkQueue

  // ----- the decision -----

  // The run in v starts from the listed offsets: each begins a chunk of its layout that is done
  // and not queued, no other chunk is done, and the counter is their bytes. A destination at
  // rest says that nothing was left to do.
  ghost predicate StartsFrom(v: World, listed: set<int>)
  {
    v.Busy? ==>
      && 1 <= |v.s.queues| == |v.j.plan.regions| <= 2
      && (forall off :: off in listed ==> exists e, c :: Begins(v, off, e, c))
      && (forall e, c :: Has(v.j.plan.regions, e, c) ==>
            (c.start in v.s.queues[e].done <==> Lo(v.j.plan.regions[e], c) in listed)
            && (c in v.s.queues[e].pending <==> Lo(v.j.plan.regions[e], c) !in listed))
      && v.s.bytesDone == DoneBytes(v.j, v.s.queues)
  }

  ghost predicate Begins(v: World, off: int, e: int, c: Chunk)
    requires v.Busy? && |v.s.queues| == |v.j.plan.regions|
  {
    Has(v.j.plan.regions, e, c) && Lo(v.j.plan.regions[e], c) == off && c.start in v.s.queues[e].done
  }

  // The saved checkpoint fits the next run: the five recorded fields are those of its layout,
  // an unset profile fits every one.
  predicate Fits(cf: Control, o: Options, p: Probe)
  {
    var plan := MakePlan(o, p);
    && cf.totalSize == p.totalSize && cf.chunkSize == plan.effective && cf.splitAt == plan.splitAt
    && (cf.profile == o.profile || cf.profile == Unset)
    && cf.region2 == (if |plan.regions| == 2 then AriaSplit(p.totalSize - plan.splitAt, o.split, o.minSplit).1 else 0)
  }

  lemma FitsIsTheGuard(cf: Control, o: Options, p: Probe)
    requires p.totalSize > 0
    ensures Fits(cf, o, p) <==> Resumable(cf, o, p, MakePlan(o, p))
  {
  }

  // ----- what the queues take over -----

  lemma SeededExactly(plan: Plan, offsets: set<int>, total: int, e: int, c: Chunk)
    requires Separated(plan) && 1 <= |plan.regions| <= 2 && Has(plan.regions, e, c)
    requires SeedQueues(plan, offsets, total).2 && (|plan.regions| == 2 ==> !plan.regions[1].stealing)
    ensures var qs := SeedQueues(plan, offsets, total).0;
            && |qs| == |plan.regions|
            && (c.start in qs[e].done <==> Lo(plan.regions[e], c) in offsets)
            && (c in qs[e].pending <==> Lo(plan.regions[e], c) !in offsets)
  {
    OffsetMatches(plan, offsets, e, c);
    SeedFacts(plan.regions[e], OffsetsOf(plan, e, offsets),
              if e == 1 then plan.regions[1].base else if |plan.regions| == 2 then plan.splitAt else total);
    MissingMembers(plan.regions[e].chunks, OffsetsOf(plan, e, offsets));
    SeedFacts(plan.regions[0], OffsetsOf(plan, 0, offsets), if |plan.regions| == 2 then plan.splitAt else total);
    assert c.start in Starts(plan.regions[e].chunks);
  }

  // The state a launch leaves, in terms of what was prepared.
  lemma LaunchedFrom(content: seq<byte>, w: World, ev: Event)
    requires w.Rest? && ev.Launch? && ev.o.conns >= 1 && Launched(content, w, ev).Busy?
    ensures var v, plan := Launched(content, w, ev), MakePlan(ev.o, ev.p);
            1 <= |plan.regions| <= 2 &&
            var r := Prepare(ev.o, ev.p, plan, OpenDisk(ev.p, w.disk), w.control, ev.stale, ev.sampleOk);
            && v.j == Job(content, ev.o, ev.p, plan) && v.s.queues == r.queues && v.s.bytesDone == r.already
            && |r.queues| == |plan.regions|
  {
    PlanShape(ev.o, ev.p);
    QueueCount(ev.o, ev.p, MakePlan(ev.o, ev.p), OpenDisk(ev.p, w.disk), w.control, ev.stale, ev.sampleOk);
  }

  lemma FreshTakesNothing(plan: Plan)
    requires 1 <= |plan.regions| <= 2
    ensures forall e :: 0 <= e < |plan.regions| ==> FromScratch(plan).queues[e].done == {}
    ensures |FromScratch(plan).queues| == |plan.regions| && FromScratch(plan).already == 0
  {
  }

  // A run that starts from scratch starts from no listed offset.
  lemma ScratchStartsFromNothing(v: World, plan: Plan, listed: set<int>)
    requires v.Busy? && v.j.plan == plan && 1 <= |plan.regions| <= 2 && v.s.queues == FromScratch(plan).queues
    requires listed != {}
    ensures !StartsFrom(v, listed)
  {
    FreshTakesNothing(plan);
    Inhabited(listed);
    var off :| off in listed;
    assert forall e, c :: !Begins(v, off, e, c);
  }

  // ----- the next run over an intact file -----

  // A run that has a checkpoint of its own with something in it.
  ghost predicate Saved(w: World)
  {
    w.Busy? && w.j.p.totalSize > 0 && w.s.own && w.s.control.Some? && w.s.control.value.completed != {}
  }

  // The listed offsets, as chunks of the next run's layout.
  lemma ListedIn(j: Job, s: Run, o: Options, off: int) returns (e: int, c: Chunk)
    requires Sound(j) && j.p.totalSize > 0 && Shape(j, s) && Intact(j, s) && s.own && s.control.Some?
    requires off in s.control.value.completed && Resumable(s.control.value, o, j.p, MakePlan(o, j.p))
    ensures Has(MakePlan(o, j.p).regions, e, c) && Lo(MakePlan(o, j.p).regions[e], c) == off
  {
    e, c := ListedChunk(j, s, off);
    assert OwnControl(j, s, s.control.value);
    SameChunk(j.o, o, j.p, s.control.value, e, c);
  }

  lemma PlanKinds(o: Options, p: Probe)
    ensures 1 <= |MakePlan(o, p).regions| <= 2
    ensures |MakePlan(o, p).regions| == 2 ==> !MakePlan(o, p).regions[1].stealing
  {
    PlanShape(o, p);
  }

  // A run prepared from the control file of a saved run.
  lemma TakesOver(j: Job, s: Run, v: World, o: Options)
    requires Sound(j) && j.p.totalSize > 0 && Shape(j, s) && Intact(j, s) && s.own && s.control.Some?
    requires Resumable(s.control.value, o, j.p, MakePlan(o, j.p))
    requires v.Busy? && v.j == Job(j.content, o, j.p, MakePlan(o, j.p))
    requires 1 <= |v.j.plan.regions| <= 2
    requires var r := FromControl(o, j.p, v.j.plan, s.control.value);
             v.s.queues == r.queues && v.s.bytesDone == r.already
    ensures StartsFrom(v, s.control.value.completed)
  {
    var cf, plan := s.control.value, v.j.plan;
    SeedAccepted(j, s, o);
    PlanSeparated(o, j.p);
    PlanKinds(o, j.p);
    OwnIsOk(j, s, cf);
    ControlCounts(v.j, cf);
    forall e, c | Has(plan.regions, e, c)
      ensures c.start in v.s.queues[e].done <==> Lo(plan.regions[e], c) in cf.completed
      ensures c in v.s.queues[e].pending <==> Lo(plan.regions[e], c) !in cf.completed
    {
      SeededExactly(plan, cf.completed, j.p.totalSize, e, c);
    }
    forall off | off in cf.completed
      ensures exists e, c :: Begins(v, off, e, c)
    {
      var e, c := ListedIn(j, s, o, off);
      assert Begins(v, off, e, c);
    }
  }

  // Everything the decision depends on.
  ghost predicate Decided(cf: Control, o: Options, p: Probe, stale: bool, sampleOk: bool)
  {
    && o.resume && !stale && sampleOk && Fits(cf, o, p)
    && forall off :: off in cf.completed ==> !Overhangs(o, p, MakePlan(o, p), off)
  }

  // What Prepare makes of the intact file, in full.
  lemma PreparedExactly(j: Job, s: Run, o: Options, stale: bool, sampleOk: bool)
    requires Sound(j) && j.p.totalSize > 0 && Shape(j, s) && Intact(j, s) && s.own && s.control.Some?
    requires s.control.value.completed != {}
    ensures var cf, plan := s.control.value, MakePlan(o, j.p);
            1 <= |plan.regions| <= 2 &&
            var r := Prepare(o, j.p, plan, OpenDisk(j.p, s.disk), s.control, stale, sampleOk);
            r == if Decided(cf, o, j.p, stale, sampleOk) then FromControl(o, j.p, plan, cf) else FromScratch(plan)
  {
    PlanShape(o, j.p);
    FitsIsTheGuard(s.control.value, o, j.p);
    if o.resume && !stale && Fits(s.control.value, o, j.p) {
      IntactPrepare(j, s, o, sampleOk);
    }
  }

  // At any moment of any history in which the run has a checkpoint with something in it, crash
  // with the file untouched and launch with any options: the next run starts from exactly the
  // listed offsets if and only if it may resume, the ETags do not differ, the sampled compare
  // passes, the five recorded fields fit, and no listed chunk overhangs the region boundary.
  lemma TakenOverExactly(content: seq<byte>, ws: seq<World>, evs: seq<Event>, n: nat, ev: Event)
    requires History(content, ws, evs) && n < |ws| && Saved(ws[n])
    requires ev.Launch? && ev.o.conns >= 1 && ev.p == ws[n].j.p
    ensures var rest := After(content, ws[n], Crash(ws[n].s.disk));
            Occurs(content, rest, ev) &&
            (StartsFrom(After(content, rest, ev), ws[n].s.control.value.completed)
             <==> Decided(ws[n].s.control.value, ev.o, ev.p, ev.stale, ev.sampleOk))
  {
    var j, s := ws[n].j, ws[n].s;
    HistorySafe(content, ws, evs, n);
    CrashLeaves(content, ws[n]);
    PreparedExactly(j, s, ev.o, ev.stale, ev.sampleOk);
    Decides(content, j, s, ev);
  }

  lemma Decides(content: seq<byte>, j: Job, s: Run, ev: Event)
    requires Sound(j) && j.content == content && j.p.totalSize > 0 && Shape(j, s) && Intact(j, s) && s.own
    requires s.control.Some? && s.control.value.completed != {}
    requires ev.Launch? && ev.o.conns >= 1 && ev.p == j.p && 1 <= |MakePlan(ev.o, ev.p).regions| <= 2
    requires var cf, plan := s.control.value, MakePlan(ev.o, ev.p);
             Prepare(ev.o, ev.p, plan, OpenDisk(ev.p, s.disk), s.control, ev.stale, ev.sampleOk)
             == if Decided(cf, ev.o, ev.p, ev.stale, ev.sampleOk) then FromControl(ev.o, ev.p, plan, cf)
                else FromScratch(plan)
    ensures StartsFrom(Launched(content, Rest(s.disk, s.control, None), ev), s.control.value.completed)
            <==> Decided(s.control.value, ev.o, ev.p, ev.stale, ev.sampleOk)
  {
    var cf, v := s.control.value, Launched(content, Rest(s.disk, s.control, None), ev);
    FitsIsTheGuard(cf, ev.o, ev.p);
    FreshTakesNothing(MakePlan(ev.o, ev.p));
    if v.Busy? {
      LaunchedFrom(content, Rest(s.disk, s.control, None), ev);
      if Decided(cf, ev.o, ev.p, ev.stale, ev.sampleOk) {
        TakesOver(j, s, v, ev.o);
      } else {
        ScratchStartsFromNothing(v, MakePlan(ev.o, ev.p), cf.completed);
      }
    }
  }

  // ----- the same options again -----

  lemma OwnOptionsFit(j: Job, s: Run, cf: Control)
    requires Sound(j) && j.p.totalSize > 0 && Shape(j, s) && OwnControl(j, s, cf)
    ensures Fits(cf, j.o, j.p)
  {
    if SplitsInTwo(j.o, j.p) { TwoRegions(j.o, j.p); } else { OneRegion(j.o, j.p); }
  }

  // The same command again after a crash: what was listed is not lost.
  lemma SameCommandResumes(content: seq<byte>, ws: seq<World>, evs: seq<Event>, n: nat, saved: bool)
    requires History(content, ws, evs) && n < |ws| && Saved(ws[n]) && ws[n].j.o.resume && ws[n].j.o.conns >= 1
    requires forall off :: off in ws[n].s.control.value.completed ==>
               !Overhangs(ws[n].j.o, ws[n].j.p, ws[n].j.plan, off)
    ensures var rest := After(content, ws[n], Crash(ws[n].s.disk));
            var ev := Launch(ws[n].j.o, ws[n].j.p, false, true, saved);
            Occurs(content, rest, ev) && StartsFrom(After(content, rest, ev), ws[n].s.control.value.completed)
  {
    var j, s := ws[n].j, ws[n].s;
    BusyIntact(content, ws, evs, n);
    OwnOptionsFit(j, s, s.control.value);
    TakenOverExactly(content, ws, evs, n, Launch(j.o, j.p, false, true, saved));
  }

  // ----- what is taken over is not fetched again -----

  lemma NothingLeftFor(j: Job, s: Run, e: int, c: Chunk)
    requires AtStart(j, s) && Has(j.plan.regions, e, c) && c !in s.queues[e].pending
    ensures Left(j, s, e, c) == 0
  {
    SumZero(Lefts(j.o.retry, s.queues[e], s.workers, e, c));
  }

  // After such a launch no execution ever asks for a listed chunk.
  lemma ListedNeverAsked(content: seq<byte>, ws: seq<World>, evs: seq<Event>, n: nat, ev: Event,
                         ss: seq<Run>, steps: seq<Step>, e: int, c: Chunk)
    requires History(content, ws, evs) && n < |ws| && Saved(ws[n])
    requires ev.Launch? && ev.o.conns >= 1 && ev.p == ws[n].j.p
    requires Decided(ws[n].s.control.value, ev.o, ev.p, ev.stale, ev.sampleOk)
    requires var v := Launched(content, Rest(ws[n].s.disk, ws[n].s.control, None), ev);
             v.Busy? && Execution(v.j, ss, steps) && ss[0] == v.s && Has(v.j.plan.regions, e, c)
             && Lo(v.j.plan.regions[e], c) in ws[n].s.control.value.completed
    ensures RequestCount(ss, steps, |steps|, e, c) == 0
  {
    var rest := Rest(ws[n].s.disk, ws[n].s.control, None);
    var v := Launched(content, rest, ev);
    TakenOverExactly(content, ws, evs, n, ev);
    CrashLeaves(content, ws[n]);
    HistorySafe(content, ws, evs, n);
    CrashIsSafe(content, ws[n]);
    LaunchAtStart(content, rest, ev);
    StartReady(v.j, v.s);
    NothingLeftFor(v.j, v.s, e, c);
    RequestsPaid(v.j, ss, steps, |steps|, e, c);
    LeftNonNegative(v.j, ss[|steps|], e, c);
  }

  lemma CrashIsSafe(content: seq<byte>, w: World)
    requires w.Busy? && Safe(content, w)
    ensures Safe(content, Rest(w.s.disk, w.s.control, None))
  {
  }

  // A checkpoint that lists every chunk: the next run ends at once, as Completed.
  lemma AllListedEndsAtOnce(content: seq<byte>, ws: seq<World>, evs: seq<Event>, n: nat, ev: Event)
    requires History(content, ws, evs) && n < |ws| && Saved(ws[n])
    requires ev.Launch? && ev.o.conns >= 1 && ev.p == ws[n].j.p
    requires Decided(ws[n].s.control.value, ev.o, ev.p, ev.stale, ev.sampleOk)
    requires forall e, c :: Has(MakePlan(ev.o, ev.p).regions, e, c) ==>
               Lo(MakePlan(ev.o, ev.p).regions[e], c) in ws[n].s.control.value.completed
    ensures var v := Launched(content, Rest(ws[n].s.disk, ws[n].s.control, None), ev);
            v == Rest(ws[n].s.disk, None, Some(Job(content, ev.o, ev.p, MakePlan(ev.o, ev.p))))
  {
    var rest := Rest(ws[n].s.disk, ws[n].s.control, None);
    var v := Launched(content, rest, ev);
    TakenOverExactly(content, ws, evs, n, ev);
    CrashLeaves(content, ws[n]);
    BusyIntact(content, ws, evs, n);
    PlanShape(ev.o, ev.p);
    if v.Busy? {
      LaunchedFrom(content, rest, ev);
      LaunchedShort(content, rest, ev);
      WholeCount(v.j, v.s.queues);
    } else {
      assert OpenDisk(ev.p, rest.disk) == rest.disk;
    }
  }

  lemma LaunchedShort(content: seq<byte>, w: World, ev: Event)
    requires w.Rest? && ev.Launch? && ev.o.conns >= 1 && Launched(content, w, ev).Busy? && ev.p.totalSize > 0
    ensures Launched(content, w, ev).s.bytesDone < ev.p.totalSize
  {
    LaunchedFrom(content, w, ev);
  }

  // All chunks together are the file.
  lemma WholeCount(j: Job, qs: seq<W.Queue>)
    requires j.plan == MakePlan(j.o, j.p) && j.p.totalSize > 0 && 1 <= |qs| == |j.plan.regions| <= 2
    requires forall e, c :: Has(j.plan.regions, e, c) ==> c.start in qs[e].done
    ensures DoneBytes(j, qs) == j.p.totalSize
  {
    RegionBytes(j.o, j.p);
    forall e, c | 0 <= e < |qs| && c in j.plan.regions[e].chunks
      ensures c.start in qs[e].done
    {
      assert Has(j.plan.regions, e, c);
    }
    AllBytes(j.plan.regions[0].chunks, qs[0].done, j.p.totalSize);
    if |qs| == 2 { AllBytes(j.plan.regions[1].chunks, qs[1].done, j.p.totalSize); }
  }

  // ----- what a checkpoint lists -----

  lemma DoneGrows(j: Job, s: Run, step: Step)
    requires Can(j, s, step)
    ensures |Do(j, s, step).queues| == |s.queues|
    ensures forall e :: 0 <= e < |s.queues| ==> s.queues[e].done <= Do(j, s, step).queues[e].done
  {
    if MovesNothing(step) { QuietSteps(j, s, step); }
  }

  // Nothing done becomes undone.
  ghost predicate KeepsDone(s: Run, t: Run)
  {
    |t.queues| == |s.queues| && forall e :: 0 <= e < |s.queues| ==> s.queues[e].done <= t.queues[e].done
  }

  ghost predicate NextKeeps(ss: seq<Run>, i: nat)
    requires i + 1 < |ss|
  {
    KeepsDone(ss[i], ss[i + 1])
  }

  lemma {:induction false} KeptBetween(ss: seq<Run>, a: nat, b: nat)
    requires a <= b < |ss| && forall i: nat :: i + 1 < |ss| ==> NextKeeps(ss, i)
    ensures KeepsDone(ss[a], ss[b])
    decreases b
  {
    if a < b {
      KeptBetween(ss, a, b - 1);
      assert NextKeeps(ss, b - 1);
      DoneThrough(ss[a], ss[b - 1], ss[b]);
    }
  }

  lemma DoneOnlyGrows(j: Job, ss: seq<Run>, steps: seq<Step>, a: nat, b: nat)
    requires Execution(j, ss, steps) && a <= b <= |steps|
    ensures KeepsDone(ss[a], ss[b])
  {
    forall i: nat | i + 1 < |ss|
      ensures NextKeeps(ss, i)
    {
      StepKeepsDone(j, ss, steps, i);
    }
    KeptBetween(ss, a, b);
  }

  lemma DoneThrough(s: Run, t: Run, u: Run)
    requires KeepsDone(s, t) && KeepsDone(t, u)
    ensures KeepsDone(s, u)
  {
  }

  lemma StepKeepsDone(j: Job, ss: seq<Run>, steps: seq<Step>, n: nat)
    requires Execution(j, ss, steps) && n < |steps|
    ensures KeepsDone(ss[n], ss[n + 1])
  {
    assert Can(j, ss[n], steps[n]) && ss[n + 1] == Do(j, ss[n], steps[n]);
    DoneGrows(j, ss[n], steps[n]);
  }

  // While a checkpoint is being written nobody else writes one.
  lemma MuStays(j: Job, s: Run, step: Step)
    requires Can(j, s, step) && s.mu.Some? && !step.EndPersist?
    ensures Do(j, s, step).mu == s.mu
  {
  }

  lemma {:induction false} MuHeld(j: Job, ss: seq<Run>, steps: seq<Step>, a: nat, b: nat)
    requires Execution(j, ss, steps) && a < b <= |steps| && steps[a] == BeginPersist
    requires forall i :: a < i < b ==> !steps[i].EndPersist?
    ensures |ss[a].queues| >= 1 && ss[b].mu == Some(ss[a].queues[0].done)
    decreases b
  {
    assert Can(j, ss[a], steps[a]) && ss[a + 1] == Do(j, ss[a], steps[a]);
    if a + 1 < b {
      MuHeld(j, ss, steps, a, b - 1);
      MuStays(j, ss[b - 1], steps[b - 1]);
    }
  }

  // Each listed offset begins a chunk that is done, and has a digest.
  ghost predicate ListsOnlyDone(j: Job, s: Run, cf: Control)
    requires Shape(j, s)
  {
    forall off :: off in cf.completed ==> DoneAt(j, s, off) && off in cf.hashes
  }

  lemma ListedAbsolute(j: Job, s: Run, first: set<int>, e: int, c: Chunk)
    requires 1 <= |s.queues| == |j.plan.regions| <= 2 && Has(j.plan.regions, e, c) && j.plan.regions[0].base == 0
    requires if e == 0 then c.start in first else c.start in s.queues[1].done
    ensures Lo(j.plan.regions[e], c) in Snapshot(j, s, first).completed
  {
    if e == 1 { assert c.start + j.plan.regions[1].base in Shifted(s.queues[1].done, j.plan.regions[1].base); }
  }

  // A checkpoint lists every chunk that was done when it was begun, and none that is not done
  // when it is written, with the digest recorded for it.
  lemma CheckpointLists(j: Job, ss: seq<Run>, steps: seq<Step>, a: nat, b: nat)
    requires Execution(j, ss, steps) && a < b < |steps| && steps[a] == BeginPersist && steps[b] == EndPersist(true)
    requires forall i :: a < i < b ==> !steps[i].EndPersist?
    requires Sound(j) && Owned(j, ss[a]) && Owned(j, ss[b]) && Intact(j, ss[b])
    ensures Shape(j, ss[b + 1]) && ss[b + 1].control.Some? && ss[b + 1].own
    ensures forall e, c :: Has(j.plan.regions, e, c) && c.start in ss[a].queues[e].done ==>
              Lo(j.plan.regions[e], c) in ss[b + 1].control.value.completed
    ensures ListsOnlyDone(j, ss[b + 1], ss[b + 1].control.value)
  {
    var s := ss[b];
    assert Can(j, s, steps[b]) && ss[b + 1] == Do(j, s, steps[b]) && FromServer(j, s, steps[b]);
    DoneOnlyGrows(j, ss, steps, a, b);
    MuHeld(j, ss, steps, a, b);
    PlanWellLaid(j.o, j.p);
    forall e, c | Has(j.plan.regions, e, c) && c.start in ss[a].queues[e].done
      ensures Lo(j.plan.regions[e], c) in ss[b + 1].control.value.completed
    {
      ListedAbsolute(j, s, s.mu.value, e, c);
    }
    StepIntact(j, s, steps[b]);
  }
}
