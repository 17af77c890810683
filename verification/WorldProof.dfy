// Safety over any sequence of runs: a run that ends Completed leaves the server's file.
module WorldProof {
  import opened Chunks
  import opened Layout
  import opened Workers
  import opened Ownership
  import opened Contents
  import opened World
  import W = WorkQueue

  // ----- resuming -----

  lemma OverhangEndsAtSplit(o: Options, p: Probe, e: int, c: Chunk)
    requires p.totalSize > 0 && Has(MakePlan(o, p).regions, e, c)
    requires Overhangs(o, p, MakePlan(o, p), Lo(MakePlan(o, p).regions[e], c))
    ensures MakePlan(o, p).splitAt > 0 && Hi(MakePlan(o, p).regions[e], c, p.totalSize) == MakePlan(o, p).splitAt
  {
    var plan := MakePlan(o, p);
    if SplitsInTwo(o, p) {
      TwoRegions(o, p);
      if e == 0 { CutOrdered(plan.splitAt, EffectiveStep(o.chunkSize)); }
      else { CutOrdered(p.totalSize - plan.splitAt, Region2Size(o, p, plan)); }
    } else {
      OneRegion(o, p);
    }
  }

  // A listed chunk whose recomputed span matches its digest is on disk, and the digest is
  // of exactly its bytes - even if the file was damaged before.
  lemma MatchedSpanIsVouched(j: Job, disk: seq<byte>, cf: Control, e: int, c: Chunk)
    requires Sound(j) && j.p.totalSize > 0 && Has(j.plan.regions, e, c) && |disk| == j.p.totalSize
    requires ControlOk(j.content, cf) && Resumable(cf, j.o, j.p, j.plan)
    requires var lo := Lo(j.plan.regions[e], c);
             lo in cf.completed && SpanMatches(j.o, j.p, j.plan, disk, cf, lo)
    ensures var lo := Lo(j.plan.regions[e], c);
            lo in cf.hashes && Vouched(j, disk, cf.hashes[lo], lo, Hi(j.plan.regions[e], c, j.p.totalSize))
  {
    var lo, hi := Lo(j.plan.regions[e], c), Hi(j.plan.regions[e], c, j.p.totalSize);
    SpanAgreement(j.o, j.p, e, c);
    var (first, last) := ChunkSpan(j.o, j.p, j.plan, lo);
    var h := cf.hashes[lo];
    assert h.of == disk[lo..last + 1] && |h.of| == last + 1 - lo;
    if Overhangs(j.o, j.p, j.plan, lo) {
      OverhangEndsAtSplit(j.o, j.p, e, c);
    }
    assert last == hi - 1;
    forall q | lo <= q < hi
      ensures disk[q] == j.content[q]
    {
      assert disk[lo..last + 1][q - lo] == h.of[q - lo] == j.content[lo..lo + |h.of|][q - lo];
    }
  }

  // What a run starts from: every chunk queued or done, every done chunk vouched for.
  ghost predicate GoodStart(j: Job, disk: seq<byte>, r: Prepared)
  {
    && |r.queues| == |j.plan.regions|
    && (forall e :: 0 <= e < |r.queues| ==>
          Splits(j.plan.regions[e].chunks, r.queues[e]) && r.queues[e].stealing == j.plan.regions[e].stealing)
    && (forall e, c :: Has(j.plan.regions, e, c) && c.start in r.queues[e].done ==>
          Recorded(j, disk, r.hashes, j.plan.regions[e], c))
  }

  lemma ScratchIsGood(j: Job, disk: seq<byte>)
    requires Sound(j)
    ensures 1 <= |j.plan.regions| <= 2 && GoodStart(j, disk, FromScratch(j.plan))
  {
    PlanWellLaid(j.o, j.p);
    FreshSplits(j.plan);
  }

  lemma ResumeIsGood(j: Job, disk: seq<byte>, cf: Control, sampleOk: bool)
    requires Sound(j) && (j.p.totalSize > 0 ==> |disk| == j.p.totalSize)
    requires ControlOk(j.content, cf) && Resumable(cf, j.o, j.p, j.plan)
    requires 1 <= |j.plan.regions| <= 2
    requires var r := FromControl(j.o, j.p, j.plan, cf);
             r.already <= 0 || Verified(j.o, j.p, j.plan, disk, cf, sampleOk)
    ensures GoodStart(j, disk, FromControl(j.o, j.p, j.plan, cf))
  {
    var r := FromControl(j.o, j.p, j.plan, cf);
    FromControlSeeds(j.content, j.o, j.p, cf);
    forall e, c | Has(j.plan.regions, e, c) && c.start in r.queues[e].done
      ensures Recorded(j, disk, r.hashes, j.plan.regions[e], c)
    {
      var lo := Lo(j.plan.regions[e], c);
      assert lo in cf.completed && lo in cf.hashes && r.hashes[lo] == cf.hashes[lo];
      if j.p.totalSize > 0 {
        CountedWhenDone(j, cf, e, c);
        assert forall off :: off in cf.completed ==> off in cf.hashes.Keys;
        assert FullCoverage(cf);
        assert SpanMatches(j.o, j.p, j.plan, disk, cf, lo);
        MatchedSpanIsVouched(j, disk, cf, e, c);
      }
    }
  }

  lemma CountedWhenDone(j: Job, cf: Control, e: int, c: Chunk)
    requires Sound(j) && j.p.totalSize > 0 && Has(j.plan.regions, e, c) && 1 <= |j.plan.regions| <= 2
    requires ControlOk(j.content, cf) && Resumable(cf, j.o, j.p, j.plan)
    requires |FromControl(j.o, j.p, j.plan, cf).queues| == |j.plan.regions|
    requires c.start in FromControl(j.o, j.p, j.plan, cf).queues[e].done
    ensures FromControl(j.o, j.p, j.plan, cf).already > 0
  {
    if SplitsInTwo(j.o, j.p) {
      TwoRegionSeedAccepted(j.content, j.o, j.p, cf);
    } else {
      OneRegion(j.o, j.p);
      RefusedMeansEmpty(j.plan, cf.completed, j.p.totalSize);
    }
    CountedIfDone(j.o, j.p, cf, e, c);
  }

  lemma PrepareIsGood(j: Job, disk: seq<byte>, control: Option<Control>, stale: bool, sampleOk: bool)
    requires Sound(j) && (j.p.totalSize > 0 ==> |disk| == j.p.totalSize)
    requires control.Some? ==> ControlOk(j.content, control.value)
    ensures 1 <= |j.plan.regions| <= 2
    ensures GoodStart(j, disk, Prepare(j.o, j.p, j.plan, disk, control, stale, sampleOk))
  {
    ScratchIsGood(j, disk);
    if Resumes(j.o, j.p, j.plan, control, stale) {
      var r := FromControl(j.o, j.p, j.plan, control.value);
      if !(r.already > 0 && !Verified(j.o, j.p, j.plan, disk, control.value, sampleOk)) {
        ResumeIsGood(j, disk, control.value, sampleOk);
      }
    }
  }

  // ----- opening -----

  lemma OpenedIsGood(j: Job, disk: seq<byte>, r: Prepared, control: Option<Control>)
    requires Sound(j) && j.o.conns >= 1 && 1 <= |j.plan.regions| <= 2
    requires GoodStart(j, disk, r) && (j.p.totalSize > 0 ==> |disk| == j.p.totalSize)
    requires control.Some? ==> ControlOk(j.content, control.value)
    ensures Inv(j, Opened(j, r, disk, control)) && Intact(j, Opened(j, r, disk, control))
  {
    var s := Opened(j, r, disk, control);
    WorkersEverywhere(j);
    assert Owned(j, s);
    assert Covered(j, s) by {
      assert forall e, c :: Has(j.plan.regions, e, c) ==> Located(j, s, e, c);
    }
    assert Served(s);
    assert PhasesOk(j, s);
  }

  lemma WorkersEverywhere(j: Job)
    requires Sound(j) && j.o.conns >= 1
    ensures var ws := InitialWorkers(j.o, j.p, j.plan);
            && (forall w :: 0 <= w < |ws| ==> ws[w].phase == Top && ws[w].region < |j.plan.regions|)
            && (forall e :: 0 <= e < |j.plan.regions| ==> HasActive(ws, e))
  {
    var ws := InitialWorkers(j.o, j.p, j.plan);
    PlanWellLaid(j.o, j.p);
    assert ActiveAt(ws, 0, 0);
    if |j.plan.regions| == 2 {
      assert ActiveAt(ws, Max(1, j.o.conns / 2), 1);
    }
  }

  // The first control file of a run is written from a good state.
  lemma PersistedIsGood(j: Job, s: Run, saved: bool)
    requires Sound(j) && Inv(j, s) && Intact(j, s) && s.mu.None?
    ensures var t := Do(j, Do(j, s, BeginPersist), EndPersist(saved)); Inv(j, t) && Intact(j, t)
  {
    DistinctStarts(j);
    StepKeeps(j, s, BeginPersist);
    StepIntact(j, s, BeginPersist);
    var u := Do(j, s, BeginPersist);
    StepKeeps(j, u, EndPersist(saved));
    StepIntact(j, u, EndPersist(saved));
  }

  lemma {:induction false} PositiveSum(cs: seq<Chunk>, total: int)
    requires total > 0 && forall c :: c in cs && c.end >= 0 ==> c.start <= c.end
    ensures SumBytes(cs, total) >= |cs|
  {
    if cs != [] {
      assert forall c :: c in cs[1..] ==> c in cs;
      assert cs[0] in cs;
      PositiveSum(cs[1..], total);
    }
  }

  // The chunks of a known-size file are not empty.
  lemma NonEmptyChunks(j: Job)
    requires Sound(j) && j.p.totalSize > 0
    ensures forall e, c :: Has(j.plan.regions, e, c) && c.end >= 0 ==> c.start <= c.end
  {
    PlanWellLaid(j.o, j.p);
    var rs, total := j.plan.regions, j.p.totalSize;
    assert InFile(rs, total);
    forall e, c | Has(rs, e, c) && c.end >= 0
      ensures c.start <= c.end
    {
      assert Lo(rs[e], c) < Hi(rs[e], c, total);
    }
  }

  lemma RegionComplete(j: Job, q: W.Queue, e: int, total: int)
    requires Sound(j) && j.p.totalSize > 0 && total > 0 && 0 <= e < |j.plan.regions|
    requires Splits(j.plan.regions[e].chunks, q)
    ensures SumBytes(q.pending, total) >= 0
    ensures SumBytes(q.pending, total) <= 0 ==> q.done == Starts(j.plan.regions[e].chunks)
  {
    NonEmptyChunks(j);
    assert forall c :: c in q.pending ==> Has(j.plan.regions, e, c);
    PositiveSum(q.pending, total);
  }

  // The byte count of a resume is the file size less what is left to fetch.
  lemma CountIsRest(j: Job, cf: Control)
    requires Sound(j) && j.p.totalSize > 0 && 1 <= |j.plan.regions| <= 2
    requires FromControl(j.o, j.p, j.plan, cf).already > 0
    ensures var r := FromControl(j.o, j.p, j.plan, cf);
            |r.queues| == |j.plan.regions| && (|r.queues| == 2 ==> 0 < j.plan.splitAt) &&
            var t0 := if |r.queues| == 2 then j.plan.splitAt else j.p.totalSize;
            r.already == j.p.totalSize - SumBytes(r.queues[0].pending, t0)
                       - (if |r.queues| == 2 then SumBytes(r.queues[1].pending, t0) else 0)
  {
    var rs, total := j.plan.regions, j.p.totalSize;
    RegionBytes(j.o, j.p);
    if SplitsInTwo(j.o, j.p) {
      TwoRegions(j.o, j.p);
      PlanSeparated(j.o, j.p);
      SeedFacts(rs[0], OffsetsOf(j.plan, 0, cf.completed), j.plan.splitAt);
      SeedFacts(rs[1], OffsetsOf(j.plan, 1, cf.completed), rs[1].base);
      SumAnyTotal(rs[0].chunks, j.plan.splitAt, total);
      SumAnyTotal(rs[1].chunks, j.plan.splitAt, total);
    } else {
      OneRegion(j.o, j.p);
      SeedFacts(rs[0], OffsetsOf(j.plan, 0, cf.completed), total);
    }
  }

  // If the bytes taken over reach the file size, nothing is left to fetch.
  lemma CountReachesTotal(j: Job, disk: seq<byte>, cf: Control)
    requires Sound(j) && j.p.totalSize > 0 && 1 <= |j.plan.regions| <= 2
    requires var r := FromControl(j.o, j.p, j.plan, cf); GoodStart(j, disk, r) && r.already >= j.p.totalSize
    ensures var r := FromControl(j.o, j.p, j.plan, cf);
            forall e :: 0 <= e < |r.queues| ==> r.queues[e].done == Starts(j.plan.regions[e].chunks)
  {
    var r := FromControl(j.o, j.p, j.plan, cf);
    CountIsRest(j, cf);
    var t0 := if |r.queues| == 2 then j.plan.splitAt else j.p.totalSize;
    RegionComplete(j, r.queues[0], 0, t0);
    if |r.queues| == 2 {
      RegionComplete(j, r.queues[1], 1, t0);
    }
  }

  lemma AlreadyComplete(j: Job, disk: seq<byte>, control: Option<Control>, stale: bool, sampleOk: bool)
    requires Sound(j) && j.o.conns >= 1 && j.p.totalSize > 0 && |disk| == j.p.totalSize
    requires control.Some? ==> ControlOk(j.content, control.value)
    requires 1 <= |j.plan.regions| <= 2
    requires Prepare(j.o, j.p, j.plan, disk, control, stale, sampleOk).already >= j.p.totalSize
    ensures disk == j.content
  {
    PrepareIsGood(j, disk, control, stale, sampleOk);
    var r := Prepare(j.o, j.p, j.plan, disk, control, stale, sampleOk);
    assert r == FromControl(j.o, j.p, j.plan, control.value);
    CountReachesTotal(j, disk, control.value);
    var s := Opened(j, r, disk, control);
    OpenedIsGood(j, disk, r, control);
    AllDoneMeansEqual(j, s);
  }

  lemma LaunchKeeps(content: seq<byte>, w: World, ev: Event)
    requires WorldInv(content, w) && ev.Launch? && Occurs(content, w, ev)
    ensures WorldInv(content, After(content, w, ev))
  {
    var plan := MakePlan(ev.o, ev.p);
    var j := Job(content, ev.o, ev.p, plan);
    var disk := OpenDisk(ev.p, w.disk);
    PlanShape(ev.o, ev.p);
    PrepareIsGood(j, disk, w.control, ev.stale, ev.sampleOk);
    var r := Prepare(ev.o, ev.p, plan, disk, w.control, ev.stale, ev.sampleOk);
    if ev.p.totalSize > 0 && r.already >= ev.p.totalSize {
      AlreadyComplete(j, disk, w.control, ev.stale, ev.sampleOk);
    } else {
      OpenedIsGood(j, disk, r, w.control);
      PersistedIsGood(j, Opened(j, r, disk, w.control), ev.saved);
    }
  }

  // ----- runs -----

  // The schedule restriction, lifted to events.
  ghost predicate Tended(w: World, ev: Event)
  {
    w.Busy? && ev.Act? ==> KeepsAWorker(w.s, ev.step)
  }

  lemma EventKeeps(content: seq<byte>, w: World, ev: Event)
    requires WorldInv(content, w) && Occurs(content, w, ev) && Tended(w, ev)
    ensures WorldInv(content, After(content, w, ev))
  {
    match ev
    case Tamper(_, _) =>
    case Launch(_, _, _, _, _) => LaunchKeeps(content, w, ev);
    case Act(step) =>
      DistinctStarts(w.j);
      StepKeeps(w.j, w.s, step);
      StepIntact(w.j, w.s, step);
    case Crash(_) =>
    case Finish(_) =>
      if Completes(w.s) && w.j.p.totalSize > 0 {
        NothingSkipped(w.j, w.s);
        AllDoneMeansEqual(w.j, w.s);
      }
  }

  // A history: one world per moment, one event between each two.
  ghost predicate History(content: seq<byte>, ws: seq<World>, evs: seq<Event>)
  {
    && |ws| == |evs| + 1
    && ws[0].Rest? && ws[0].control.None? && ws[0].finished.None?
    && forall i :: 0 <= i < |evs| ==> Occurs(content, ws[i], evs[i]) && ws[i + 1] == After(content, ws[i], evs[i])
  }

  lemma {:induction false} HistoryInv(content: seq<byte>, ws: seq<World>, evs: seq<Event>, n: nat)
    requires History(content, ws, evs) && n < |ws|
    requires forall i :: 0 <= i < |evs| ==> Tended(ws[i], evs[i])
    ensures WorldInv(content, ws[n])
  {
    if n > 0 {
      HistoryInv(content, ws, evs, n - 1);
      EventKeeps(content, ws[n - 1], evs[n - 1]);
    }
  }

  // End to end: whatever was on disk before, however often runs were cancelled, failed,
  // crashed (leaving anything in the file) or were tampered with in between, and whatever
  // options each had, a run of known size that ends Completed leaves the server's bytes.
  lemma EndToEnd(content: seq<byte>, ws: seq<World>, evs: seq<Event>, n: nat)
    requires History(content, ws, evs) && n < |ws|
    requires forall i :: 0 <= i < |evs| ==> Tended(ws[i], evs[i])
    requires ws[n].Rest? && ws[n].finished.Some? && ws[n].finished.value.p.totalSize > 0
    ensures ws[n].disk == content
  {
    HistoryInv(content, ws, evs, n);
  }
}
