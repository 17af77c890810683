// What an undisturbed checkpoint is worth: exactly when a next run, under whatever options,
// takes over what the last one recorded; and that concurrent transfers never touch the same
// bytes (internal/download/resume_impl.go, task_start.go, chunkqueue.go and engine.go).
module IntactResume {
  import opened Chunks
  import opened Layout
  import opened Workers
  import opened Ownership
  import opened Contents
  import opened World
  import opened WorldProof
  import opened Runs
  import opened Witness
  import opened ReductionWitness

  // ----- the layout of the next run -----

  // The recorded run and a run that passes the guard agree on every chunk.
  lemma SameChunk(o1: Options, o2: Options, p: Probe, cf: Control, e: int, c: Chunk)
    requires p.totalSize > 0 && Has(MakePlan(o1, p).regions, e, c)
    requires cf.totalSize == p.totalSize && cf.profile == o1.profile
    requires cf.chunkSize == RecordedChunkSize(o1, p, MakePlan(o1, p))
    requires cf.splitAt == MakePlan(o1, p).splitAt && cf.region2 == Region2Size(o1, p, MakePlan(o1, p))
    requires Resumable(cf, o2, p, MakePlan(o2, p))
    ensures |MakePlan(o2, p).regions| == |MakePlan(o1, p).regions| && Has(MakePlan(o2, p).regions, e, c)
    ensures MakePlan(o2, p).regions[e].base == MakePlan(o1, p).regions[e].base
  {
    if p.singleStream {
      OneRegion(o1, p);
      OneRegion(o2, p);
    } else {
      GuardFixesLayout(o1, p, o2, p, cf);
    }
  }

  // ----- one completed chunk -----

  // A listed offset is the start of a chunk whose bytes are on disk and have the digest.
  lemma ListedChunk(j: Job, s: Run, off: int) returns (e: int, c: Chunk)
    requires Sound(j) && j.p.totalSize > 0 && Shape(j, s) && Intact(j, s) && s.own && s.control.Some?
    requires off in s.control.value.completed
    ensures Has(j.plan.regions, e, c) && Lo(j.plan.regions[e], c) == off && off in s.control.value.hashes
    ensures var hi := Hi(j.plan.regions[e], c, j.p.totalSize);
            0 <= off < hi <= |s.disk| == j.p.totalSize && s.control.value.hashes[off] == Digest(s.disk[off..hi])
  {
    CheckpointVerifiable(j, s);
    PlanWellLaid(j.o, j.p);
    assert InFile(j.plan.regions, j.p.totalSize);
    e, c :| DigestOfDisk(j, s, off, s.control.value.hashes[off], e, c);
  }

  // Its span under the next run's options.
  lemma SpanAfter(j: Job, s: Run, o: Options, off: int) returns (hi: int)
    requires Sound(j) && j.p.totalSize > 0 && Shape(j, s) && Intact(j, s) && s.own && s.control.Some?
    requires off in s.control.value.completed && Resumable(s.control.value, o, j.p, MakePlan(o, j.p))
    ensures off in s.control.value.hashes && 0 <= off < hi <= |s.disk|
    ensures s.control.value.hashes[off] == Digest(s.disk[off..hi])
    ensures var (first, last) := ChunkSpan(o, j.p, MakePlan(o, j.p), off);
            first == off && hi - 1 <= last < |s.disk| && (last == hi - 1 <==> !Overhangs(o, j.p, MakePlan(o, j.p), off))
  {
    var e, c := ListedChunk(j, s, off);
    assert OwnControl(j, s, s.control.value);
    SameChunk(j.o, o, j.p, s.control.value, e, c);
    SpanAgreement(o, j.p, e, c);
    hi := Hi(j.plan.regions[e], c, j.p.totalSize);
  }

  // The recomputed span of a completed chunk is hashed to the recorded digest exactly when it
  // does not run over the region boundary.
  lemma IntactSpan(j: Job, s: Run, o: Options, off: int)
    requires Sound(j) && j.p.totalSize > 0 && Shape(j, s) && Intact(j, s) && s.own && s.control.Some?
    requires off in s.control.value.completed && Resumable(s.control.value, o, j.p, MakePlan(o, j.p))
    ensures SpanMatches(o, j.p, MakePlan(o, j.p), s.disk, s.control.value, off)
            <==> !Overhangs(o, j.p, MakePlan(o, j.p), off)
  {
    var hi := SpanAfter(j, s, o, off);
    var (first, last) := ChunkSpan(o, j.p, MakePlan(o, j.p), off);
    assert |s.disk[off..hi]| == hi - off && |s.disk[first..last + 1]| == last + 1 - off;
  }

  // ----- the next run -----

  // The offsets of a saved checkpoint are taken over by every layout that passes the guard.
  lemma TakenOver(j: Job, s: Run, o: Options, off: int)
    requires Sound(j) && j.p.totalSize > 0 && Shape(j, s) && Intact(j, s) && s.own && s.control.Some?
    requires off in s.control.value.completed && Resumable(s.control.value, o, j.p, MakePlan(o, j.p))
    ensures 1 <= |MakePlan(o, j.p).regions| <= 2
    ensures FromControl(o, j.p, MakePlan(o, j.p), s.control.value).already > 0
  {
    var cf, plan := s.control.value, MakePlan(o, j.p);
    var e, c := ListedChunk(j, s, off);
    assert OwnControl(j, s, cf);
    SameChunk(j.o, o, j.p, cf, e, c);
    PlanWellLaid(o, j.p);
    SeedAccepted(j, s, o);
    PlanSeparated(o, j.p);
    OffsetMatches(plan, cf.completed, e, c);
    SeedTakes(plan, cf.completed, j.p.totalSize, e, c);
    CountedIfDone(o, j.p, cf, e, c);
  }

  lemma SeedTakes(plan: Plan, offsets: set<int>, total: int, e: int, c: Chunk)
    requires 1 <= |plan.regions| <= 2 && Has(plan.regions, e, c) && c.start in OffsetsOf(plan, e, offsets)
    requires SeedQueues(plan, offsets, total).2 && (|plan.regions| == 2 ==> !plan.regions[1].stealing)
    ensures c.start in SeedQueues(plan, offsets, total).0[e].done
  {
    SeedFacts(plan.regions[0], OffsetsOf(plan, 0, offsets), if |plan.regions| == 2 then plan.splitAt else total);
    if |plan.regions| == 2 { SeedFacts(plan.regions[1], OffsetsOf(plan, 1, offsets), plan.regions[1].base); }
  }

  // A checkpoint never lists more offsets than the layout has chunks.
  lemma SeedAccepted(j: Job, s: Run, o: Options)
    requires Sound(j) && j.p.totalSize > 0 && Shape(j, s) && Intact(j, s) && s.own && s.control.Some?
    requires Resumable(s.control.value, o, j.p, MakePlan(o, j.p)) && 1 <= |MakePlan(o, j.p).regions| <= 2
    ensures SeedQueues(MakePlan(o, j.p), s.control.value.completed, j.p.totalSize).2
  {
    var cf, plan := s.control.value, MakePlan(o, j.p);
    OwnIsOk(j, s, cf);
    if SplitsInTwo(o, j.p) {
      TwoRegionSeedAccepted(j.content, o, j.p, cf);
    } else {
      OneRegion(o, j.p);
      forall off | off in cf.completed
        ensures off in Starts(plan.regions[0].chunks)
      {
        var e, c := ListedChunk(j, s, off);
        SameChunk(j.o, o, j.p, cf, e, c);
      }
      StartsAtMost(plan.regions[0].chunks, cf.completed);
      SeedFacts(plan.regions[0], cf.completed, j.p.totalSize);
    }
  }

  lemma CoverageFull(j: Job, s: Run)
    requires Sound(j) && j.p.totalSize > 0 && Shape(j, s) && Intact(j, s) && s.own && s.control.Some?
    requires s.control.value.completed != {}
    ensures FullCoverage(s.control.value)
  {
    var cf := s.control.value;
    forall off | off in cf.completed
      ensures off in cf.hashes.Keys
    {
      var e, c := ListedChunk(j, s, off);
    }
    Inhabited(cf.completed);
  }

  // What the next run makes of an undisturbed file: it starts from exactly what was recorded
  // if and only if the sampled compare with the server passes and no listed chunk overhangs
  // the region boundary; otherwise it starts from scratch.
  lemma IntactPrepare(j: Job, s: Run, o: Options, sampleOk: bool)
    requires Sound(j) && j.p.totalSize > 0 && Shape(j, s) && Intact(j, s) && s.own && s.control.Some?
    requires o.resume && Resumable(s.control.value, o, j.p, MakePlan(o, j.p)) && s.control.value.completed != {}
    ensures var cf, plan := s.control.value, MakePlan(o, j.p);
            1 <= |plan.regions| <= 2 &&
            var r := Prepare(o, j.p, plan, OpenDisk(j.p, s.disk), Some(cf), false, sampleOk);
            var good := sampleOk && forall off :: off in cf.completed ==> !Overhangs(o, j.p, plan, off);
            && FromControl(o, j.p, plan, cf) != FromScratch(plan)
            && r == if good then FromControl(o, j.p, plan, cf) else FromScratch(plan)
  {
    var cf, plan := s.control.value, MakePlan(o, j.p);
    SomethingTaken(j, s, o);
    IntactVerified(j, s, o);
    SpansDecide(o, j.p, plan, s.disk, cf, sampleOk);
  }

  lemma SomethingTaken(j: Job, s: Run, o: Options)
    requires Sound(j) && j.p.totalSize > 0 && Shape(j, s) && Intact(j, s) && s.own && s.control.Some?
    requires Resumable(s.control.value, o, j.p, MakePlan(o, j.p)) && s.control.value.completed != {}
    ensures 1 <= |MakePlan(o, j.p).regions| <= 2 && FullCoverage(s.control.value)
    ensures FromControl(o, j.p, MakePlan(o, j.p), s.control.value).already > 0
    ensures OpenDisk(j.p, s.disk) == s.disk
  {
    CoverageFull(j, s);
    Inhabited(s.control.value.completed);
    var any :| any in s.control.value.completed;
    TakenOver(j, s, o, any);
    var e, c := ListedChunk(j, s, any);
  }

  // With a digest for every offset and something to resume, the spans and the sample decide.
  lemma SpansDecide(o: Options, p: Probe, plan: Plan, disk: seq<byte>, cf: Control, sampleOk: bool)
    requires 1 <= |plan.regions| <= 2 && o.resume && Resumable(cf, o, p, plan) && FullCoverage(cf)
    requires p.totalSize > 0 && FromControl(o, p, plan, cf).already > 0
    ensures var good := sampleOk && forall off :: off in cf.completed ==> SpanMatches(o, p, plan, disk, cf, off);
            && FromControl(o, p, plan, cf) != FromScratch(plan)
            && Prepare(o, p, plan, disk, Some(cf), false, sampleOk)
               == if good then FromControl(o, p, plan, cf) else FromScratch(plan)
  {
  }

  // Over an untouched file all recorded spans match exactly when none overhangs.
  lemma IntactVerified(j: Job, s: Run, o: Options)
    requires Sound(j) && j.p.totalSize > 0 && Shape(j, s) && Intact(j, s) && s.own && s.control.Some?
    requires Resumable(s.control.value, o, j.p, MakePlan(o, j.p)) && s.control.value.completed != {}
    ensures var cf, plan := s.control.value, MakePlan(o, j.p);
            (forall off :: off in cf.completed ==> SpanMatches(o, j.p, plan, s.disk, cf, off))
            <==> forall off :: off in cf.completed ==> !Overhangs(o, j.p, plan, off)
  {
    forall off | off in s.control.value.completed
      ensures SpanMatches(o, j.p, MakePlan(o, j.p), s.disk, s.control.value, off)
              <==> !Overhangs(o, j.p, MakePlan(o, j.p), off)
    {
      IntactSpan(j, s, o, off);
    }
  }

  // At any moment of any history: crash, leaving the file as it is, and launch under any
  // options that pass the guard.
  lemma ResumeAfterCrash(content: seq<byte>, ws: seq<World>, evs: seq<Event>, n: nat, o: Options, sampleOk: bool)
    requires History(content, ws, evs) && n < |ws| && ws[n].Busy? && ws[n].s.own && ws[n].j.p.totalSize > 0
    requires ws[n].s.control.Some? && ws[n].s.control.value.completed != {}
    requires o.resume && Resumable(ws[n].s.control.value, o, ws[n].j.p, MakePlan(o, ws[n].j.p))
    ensures var p, plan := ws[n].j.p, MakePlan(o, ws[n].j.p);
            var rest := After(content, ws[n], Crash(ws[n].s.disk));
            var cf := rest.control.value;
            1 <= |plan.regions| <= 2 && FromControl(o, p, plan, cf) != FromScratch(plan) &&
            (Prepare(o, p, plan, OpenDisk(p, rest.disk), rest.control, false, sampleOk) == FromControl(o, p, plan, cf)
             <==> sampleOk && forall off :: off in cf.completed ==> !Overhangs(o, p, plan, off))
  {
    CrashLeaves(content, ws[n]);
    BusyIntact(content, ws, evs, n);
    IntactPrepare(ws[n].j, ws[n].s, o, sampleOk);
    var cf, p, plan := ws[n].s.control.value, ws[n].j.p, MakePlan(o, ws[n].j.p);
    assert FromControl(o, p, plan, cf) != FromScratch(plan);
  }

  lemma CrashLeaves(content: seq<byte>, w: World)
    requires w.Busy?
    ensures After(content, w, Crash(w.s.disk)) == Rest(w.s.disk, w.s.control, None)
  {
  }

  lemma BusyIntact(content: seq<byte>, ws: seq<World>, evs: seq<Event>, n: nat)
    requires History(content, ws, evs) && n < |ws| && ws[n].Busy?
    ensures Sound(ws[n].j) && Shape(ws[n].j, ws[n].s) && Intact(ws[n].j, ws[n].s)
  {
    HistorySafe(content, ws, evs, n);
  }

  // A single-region checkpoint is rejected only by the sampled compare.
  lemma OneRegionResumes(content: seq<byte>, ws: seq<World>, evs: seq<Event>, n: nat, o: Options, sampleOk: bool)
    requires History(content, ws, evs) && n < |ws| && ws[n].Busy? && ws[n].s.own && ws[n].j.p.totalSize > 0
    requires ws[n].s.control.Some? && ws[n].s.control.value.completed != {} && |ws[n].j.plan.regions| == 1
    requires o.resume && Resumable(ws[n].s.control.value, o, ws[n].j.p, MakePlan(o, ws[n].j.p))
    ensures var p, plan, cf := ws[n].j.p, MakePlan(o, ws[n].j.p), ws[n].s.control;
            1 <= |plan.regions| <= 2 &&
            Prepare(o, p, plan, OpenDisk(p, ws[n].s.disk), cf, false, sampleOk)
            == if sampleOk then FromControl(o, p, plan, cf.value) else FromScratch(plan)
  {
    var j, s := ws[n].j, ws[n].s;
    HistorySafe(content, ws, evs, n);
    IntactPrepare(j, s, o, sampleOk);
    forall off | off in s.control.value.completed
      ensures |MakePlan(o, j.p).regions| == 1
    {
      var e, c := ListedChunk(j, s, off);
      assert OwnControl(j, s, s.control.value);
      SameChunk(j.o, o, j.p, s.control.value, e, c);
    }
  }

  // ----- an intact file that is rejected -----

  // Region 1 finished, checkpoint saved, crash with the file untouched: if the chunk size does
  // not divide the split offset, the next run under the same options starts from scratch.
  lemma IntactYetRejected(content: seq<byte>, o: Options, p: Probe) returns (ws: seq<World>, evs: seq<Event>)
    requires SplitsInTwo(o, p) && p.totalSize == |content| && o.resume
    requires MakePlan(o, p).splitAt % EffectiveStep(o.chunkSize) != 0
    ensures History(content, ws, evs) && |evs| > 0 && ws[|evs| - 1].Busy?
            && evs[|evs| - 1] == Crash(ws[|evs| - 1].s.disk)
    ensures ws[|evs|].Rest? && ws[|evs|].control.Some?
    ensures var w, plan := ws[|evs|], MakePlan(o, p);
            && Resumes(o, p, plan, w.control, false) && w.control.value.completed != {} && 1 <= |plan.regions| <= 2
            && Prepare(o, p, plan, OpenDisk(p, w.disk), w.control, false, true) == FromScratch(plan)
  {
    var j, s, off;
    ws, evs, j, s, off := SavedOverhang(content, o, p);
    Rejected(content, ws, evs, j, s, off);
    ws, evs := Extend(content, ws, evs, Busy(j, s), Crash(s.disk));
  }

  lemma Rejected(content: seq<byte>, ws: seq<World>, evs: seq<Event>, j: Job, s: Run, off: int)
    requires Ends(content, ws, evs, Busy(j, s)) && s.own && s.control.Some? && j.p.totalSize > 0 && j.o.resume
    requires Resumable(s.control.value, j.o, j.p, MakePlan(j.o, j.p))
    requires off in s.control.value.completed && Overhangs(j.o, j.p, MakePlan(j.o, j.p), off)
    ensures 1 <= |MakePlan(j.o, j.p).regions| <= 2
    ensures Prepare(j.o, j.p, MakePlan(j.o, j.p), OpenDisk(j.p, s.disk), s.control, false, true)
            == FromScratch(MakePlan(j.o, j.p))
  {
    HistorySafe(content, ws, evs, |evs|);
    IntactPrepare(j, s, j.o, true);
  }

  // Region 1 fetched and saved, with its last chunk among the offsets.
  lemma SavedOverhang(content: seq<byte>, o: Options, p: Probe)
    returns (ws: seq<World>, evs: seq<Event>, j: Job, s: Run, off: int)
    requires SplitsInTwo(o, p) && p.totalSize == |content| && MakePlan(o, p).splitAt % EffectiveStep(o.chunkSize) != 0
    ensures j == Job(content, o, p, MakePlan(o, p)) && Ends(content, ws, evs, Busy(j, s))
    ensures s.own && s.control.Some? && Resumable(s.control.value, o, p, j.plan)
    ensures off in s.control.value.completed && Overhangs(o, p, j.plan, off)
  {
    j := Job(content, o, p, MakePlan(o, p));
    TwoRegions(o, p);
    OverhangExactly(o, p);
    var c :| Has(j.plan.regions, 0, c) && Overhangs(o, p, j.plan, c.start);
    off := c.start;
    ws, evs, s := FinishRegion1(content, o, p);
    ws, evs := Act1(content, ws, evs, j, s, BeginPersist);
    s := Do(j, s, BeginPersist);
    ws, evs := Act1(content, ws, evs, j, s, EndPersist(true));
    s := Do(j, s, EndPersist(true));
  }

  // ----- disjoint transfers -----

  // Where a chunk of a run can be.
  ghost predicate Somewhere(j: Job, s: Run, e: int, c: Chunk)
    requires Shape(j, s)
  {
    Has(j.plan.regions, e, c) && (c in s.queues[e].pending || c.start in s.queues[e].done || Held(s.workers, e, c))
  }

  // At every moment of every history, on any schedule: two chunks that are queued, held or
  // done occupy disjoint bytes of the file, no two workers hold the same chunk, and a held
  // chunk is neither queued nor done.
  lemma NoTwoOnOneByte(content: seq<byte>, ws: seq<World>, evs: seq<Event>, n: nat)
    requires History(content, ws, evs) && n < |ws| && ws[n].Busy? && ws[n].j.p.totalSize > 0
    ensures Shape(ws[n].j, ws[n].s)
    ensures forall e, c, f, d ::
              Somewhere(ws[n].j, ws[n].s, e, c) && Somewhere(ws[n].j, ws[n].s, f, d) && (e != f || c != d)
              ==> Apart(ws[n].j.plan.regions, ws[n].j.p.totalSize, e, c, f, d)
    ensures forall e, c ::
              Held(ws[n].s.workers, e, c) && 0 <= e < |ws[n].s.queues|
              ==> Has(ws[n].j.plan.regions, e, c) && c !in ws[n].s.queues[e].pending
                  && c.start !in ws[n].s.queues[e].done
    ensures forall e, c, w, v :: HeldBy(ws[n].s.workers, w, e, c) && HeldBy(ws[n].s.workers, v, e, c) ==> w == v
  {
    var j, s := ws[n].j, ws[n].s;
    HistorySafe(content, ws, evs, n);
    PlanWellLaid(j.o, j.p);
    assert AllApart(j.plan.regions, j.p.totalSize);
    forall e, c | Held(s.workers, e, c) && 0 <= e < |s.queues|
      ensures Has(j.plan.regions, e, c) && c !in s.queues[e].pending && c.start !in s.queues[e].done
    {
      var w :| HeldBy(s.workers, w, e, c);
      assert InFlight(j.plan.regions[e].chunks, s.queues[e], c);
    }
    forall e, c, w, v | HeldBy(s.workers, w, e, c) && HeldBy(s.workers, v, e, c)
      ensures w == v
    {
    }
  }
}
