// Any sequence of runs over one destination: Start, the steps of the run, crashes, verdicts,
// and arbitrary damage to the file between runs (internal/download/task_start.go).
module World {
  import opened Chunks
  import opened Layout
  import opened Workers
  import opened Ownership
  import opened Contents
  import W = WorkQueue

  // finished is the job of a run that has just ended Completed.
  datatype World =
    | Rest(disk: seq<byte>, control: Option<Control>, finished: Option<Job>)
    | Busy(j: Job, s: Run)

  datatype Event =
    // Anything may happen to the file while no run is active; the control file may be deleted.
    | Tamper(disk: seq<byte>, dropControl: bool)
    // stale: both ETags are known and differ. sampleOk: the sampled server compare passed.
    // saved: the control file could be written.
    | Launch(o: Options, p: Probe, stale: bool, sampleOk: bool, saved: bool)
    | Act(step: Step)
    // The file may be left with anything in it.
    | Crash(left: seq<byte>)
    | Finish(removed: bool)

  // ----- preparing a run -----

  function Truncate(d: seq<byte>, n: nat): seq<byte>
  {
    if |d| >= n then d[..n] else d + seq(n - |d|, _ => 0)
  }

  function OpenDisk(p: Probe, d: seq<byte>): seq<byte>
  {
    if p.totalSize > 0 then Truncate(d, p.totalSize) else d
  }

  predicate FullCoverage(cf: Control)
  {
    cf.hashes != map[] && cf.completed <= cf.hashes.Keys
  }

  predicate SpanMatches(o: Options, p: Probe, plan: Plan, disk: seq<byte>, cf: Control, off: int)
  {
    var (first, last) := ChunkSpan(o, p, plan, off);
    0 <= first <= last < |disk| && off in cf.hashes && Digest(disk[first..last + 1]) == cf.hashes[off]
  }

  predicate HashesVerify(o: Options, p: Probe, plan: Plan, disk: seq<byte>, cf: Control)
  {
    p.totalSize > 0 ==> forall off :: off in cf.completed ==> SpanMatches(o, p, plan, disk, cf, off)
  }

  predicate Verified(o: Options, p: Probe, plan: Plan, disk: seq<byte>, cf: Control, sampleOk: bool)
  {
    (FullCoverage(cf) ==> HashesVerify(o, p, plan, disk, cf)) && sampleOk
  }

  datatype Prepared = Prepared(queues: seq<W.Queue>, already: int, hashes: map<int, Digest>)

  function FromScratch(plan: Plan): Prepared
    requires 1 <= |plan.regions| <= 2
  {
    Prepared(FreshQueues(plan), 0, map[])
  }

  // A set of offsets the layout cannot hold is not trusted: no bytes are counted and no
  // digests kept, but whatever the queues took over stays in them.
  function FromControl(o: Options, p: Probe, plan: Plan, cf: Control): Prepared
    requires 1 <= |plan.regions| <= 2
  {
    var (qs, already, ok) := SeedQueues(plan, cf.completed, p.totalSize);
    if ok then
      var done := AbsoluteDone(plan.regions, qs);
      Prepared(qs, already, map off | off in done && off in cf.hashes :: cf.hashes[off])
    else Prepared(qs, 0, map[])
  }

  predicate Resumes(o: Options, p: Probe, plan: Plan, control: Option<Control>, stale: bool)
  {
    o.resume && control.Some? && !stale && Resumable(control.value, o, p, plan)
  }

  function Prepare(o: Options, p: Probe, plan: Plan, disk: seq<byte>, control: Option<Control>, stale: bool,
      sampleOk: bool): Prepared
    requires 1 <= |plan.regions| <= 2
  {
    if !Resumes(o, p, plan, control, stale) then FromScratch(plan)
    else
      var r := FromControl(o, p, plan, control.value);
      if r.already > 0 && !Verified(o, p, plan, disk, control.value, sampleOk) then FromScratch(plan) else r
  }

  // ----- launching -----

  function Connections(o: Options, p: Probe): int
  {
    if p.totalSize <= 0 && p.singleStream then 1 else Max(o.conns, o.preset)
  }

  function WorkerCount(o: Options, p: Probe, plan: Plan): int
  {
    if o.profile == Aria2c && plan.ariaSplit > 0 then Min(Connections(o, p), plan.ariaSplit) else Connections(o, p)
  }

  function InitialWorkers(o: Options, p: Probe, plan: Plan): seq<Worker>
    requires o.conns >= 1
  {
    if |plan.regions| == 2 then
      var n0 := Max(1, o.conns / 2);
      seq(n0, _ => Worker(0, Top)) + seq(Max(1, o.conns - n0), _ => Worker(1, Top))
    else seq(Max(WorkerCount(o, p, plan), 0), _ => Worker(0, Top))
  }

  function Opened(j: Job, r: Prepared, disk: seq<byte>, control: Option<Control>): Run
    requires j.o.conns >= 1
  {
    var n := WorkerCount(j.o, j.p, j.plan);
    Run(r.queues, InitialWorkers(j.o, j.p, j.plan), disk, r.hashes, r.already, 0, n, n, 0, false, None, control, false)
  }

  function Launched(content: seq<byte>, w: World, ev: Event): World
    requires w.Rest? && ev.Launch? && ev.o.conns >= 1
  {
    PlanShape(ev.o, ev.p);
    var plan := MakePlan(ev.o, ev.p);
    var j := Job(content, ev.o, ev.p, plan);
    var disk := OpenDisk(ev.p, w.disk);
    var r := Prepare(ev.o, ev.p, plan, disk, w.control, ev.stale, ev.sampleOk);
    if ev.p.totalSize > 0 && r.already >= ev.p.totalSize then Rest(disk, None, Some(j))
    else
      QueueCount(ev.o, ev.p, plan, disk, w.control, ev.stale, ev.sampleOk);
      Busy(j, Do(j, Do(j, Opened(j, r, disk, w.control), BeginPersist), EndPersist(ev.saved)))
  }

  lemma PlanShape(o: Options, p: Probe)
    ensures 1 <= |MakePlan(o, p).regions| <= 2
  {
    PlanWellLaid(o, p);
  }

  lemma QueueCount(o: Options, p: Probe, plan: Plan, disk: seq<byte>, control: Option<Control>, stale: bool,
      sampleOk: bool)
    requires 1 <= |plan.regions| <= 2
    ensures |Prepare(o, p, plan, disk, control, stale, sampleOk).queues| == |plan.regions|
  {
  }

  // ----- the transition relation -----

  predicate Occurs(content: seq<byte>, w: World, ev: Event)
  {
    match ev
    case Tamper(_, _) => w.Rest?
    case Launch(o, p, _, _, _) => w.Rest? && o.conns >= 1 && (p.totalSize >= 0 ==> p.totalSize == |content|)
    case Act(step) => w.Busy? && Can(w.j, w.s, step) && FromServer(w.j, w.s, step)
    case Crash(_) => w.Busy?
    case Finish(_) => w.Busy? && AllExited(w.s) && w.s.mu.None?
  }

  function After(content: seq<byte>, w: World, ev: Event): World
    requires Occurs(content, w, ev)
  {
    match ev
    case Tamper(disk, dropControl) => Rest(disk, if dropControl then None else w.control, None)
    case Launch(_, _, _, _, _) => Launched(content, w, ev)
    case Act(step) => w.(s := Do(w.j, w.s, step))
    case Crash(left) => Rest(left, w.s.control, None)
    case Finish(removed) =>
      if Completes(w.s) then Rest(w.s.disk, if removed then None else w.s.control, Some(w.j))
      else Rest(w.s.disk, w.s.control, None)
  }

  ghost predicate WorldInv(content: seq<byte>, w: World)
  {
    match w
    case Rest(disk, control, finished) =>
      && (control.Some? ==> ControlOk(content, control.value))
      && (finished.Some? && finished.value.p.totalSize > 0 ==> disk == content)
    case Busy(j, s) => j.content == content && Sound(j) && Inv(j, s) && Intact(j, s)
  }

  // ----- seeding queues from a control file -----

  lemma SeedFacts(r: Region, offsets: set<int>, total: int)
    ensures var (q, already, ok) := W.Seed(FreshQueue(r), offsets, total);
            && q.stealing == r.stealing
            && (ok ==> q.done == offsets * Starts(r.chunks) && q.pending == Missing(r.chunks, offsets)
                       && already == SumBytes(r.chunks, total) - SumBytes(q.pending, total))
            && (!ok ==> q == FreshQueue(r) && already == 0)
            && (!r.stealing ==> ok)
            && (ok <== |offsets| <= |r.chunks|)
  {
    SplitBytes(r.chunks, offsets, total);
    assert {} + (offsets * Starts(r.chunks)) == offsets * Starts(r.chunks);
  }

  // Seeded or fresh, a queue splits its region into done and pending.
  ghost predicate Splits(cs: seq<Chunk>, q: W.Queue)
  {
    GoodQueue(cs, q) && forall c :: c in cs ==> c in q.pending || c.start in q.done
  }

  lemma SeededSplits(cs: seq<Chunk>, offsets: set<int>, stealing: bool, failed: map<nat, nat>)
    requires Ordered(cs)
    ensures Splits(cs, W.Queue(stealing, Missing(cs, offsets), offsets * Starts(cs), failed))
  {
    MissingMembers(cs, offsets);
    MissingUnique(cs, offsets);
  }

  lemma {:induction false} MissingUnique(cs: seq<Chunk>, offsets: set<int>)
    requires forall i, k :: 0 <= i < k < |cs| ==> cs[i] != cs[k]
    ensures forall i, k :: 0 <= i < k < |Missing(cs, offsets)| ==> Missing(cs, offsets)[i] != Missing(cs, offsets)[k]
  {
    if cs != [] {
      assert forall i, k :: 0 <= i < k < |cs[1..]| ==> cs[1..][i] == cs[i + 1] != cs[k + 1] == cs[1..][k];
      MissingUnique(cs[1..], offsets);
      MissingMembers(cs[1..], offsets);
      assert cs[0] !in cs[1..];
    }
  }

  // A control file this program wrote never holds more region-1 offsets than region 1 has
  // chunks, so a two-region resume is always accepted.
  lemma TwoRegionSeedAccepted(content: seq<byte>, o: Options, p: Probe, cf: Control)
    requires ControlOk(content, cf) && SplitsInTwo(o, p) && Resumable(cf, o, p, MakePlan(o, p))
    ensures SeedQueues(MakePlan(o, p), cf.completed, p.totalSize).2
  {
    var plan := MakePlan(o, p);
    TwoRegions(o, p);
    var mine := OffsetsOf(plan, 0, cf.completed);
    assert mine <= Starts(plan.regions[0].chunks);
    StartsAtMost(plan.regions[0].chunks, mine);
    SeedFacts(plan.regions[0], mine, plan.splitAt);
  }

  lemma FreshSplits(plan: Plan)
    requires 1 <= |plan.regions| <= 2
    requires forall e :: 0 <= e < |plan.regions| ==> Ordered(plan.regions[e].chunks)
    ensures forall e :: 0 <= e < |plan.regions| ==> Splits(plan.regions[e].chunks, FreshQueues(plan)[e])
    ensures forall e :: 0 <= e < |plan.regions| ==>
              FreshQueues(plan)[e].done == {} && FreshQueues(plan)[e].stealing == plan.regions[e].stealing
  {
    forall e | 0 <= e < |plan.regions|
      ensures Splits(plan.regions[e].chunks, FreshQueues(plan)[e])
    {
      var cs := plan.regions[e].chunks;
      assert forall c :: c in cs ==> c.start !in {};
    }
  }

  // What FromControl makes of a trustworthy control file.
  ghost predicate Seeded(plan: Plan, cf: Control, r: Prepared)
  {
    && |r.queues| == |plan.regions|
    && (forall e :: 0 <= e < |r.queues| ==>
          Splits(plan.regions[e].chunks, r.queues[e]) && r.queues[e].stealing == plan.regions[e].stealing)
    && (forall e, c :: Has(plan.regions, e, c) && c.start in r.queues[e].done ==>
          Lo(plan.regions[e], c) in cf.completed
          && (Lo(plan.regions[e], c) in cf.hashes ==>
                Lo(plan.regions[e], c) in r.hashes
                    && r.hashes[Lo(plan.regions[e], c)] == cf.hashes[Lo(plan.regions[e], c)]))
  }

  lemma SeedRegion(r: Region, offsets: set<int>, total: int)
    requires Ordered(r.chunks)
    ensures var q := W.Seed(FreshQueue(r), offsets, total).0;
            Splits(r.chunks, q) && q.stealing == r.stealing && q.done <= offsets
  {
    var (q, _, ok) := W.Seed(FreshQueue(r), offsets, total);
    SeedFacts(r, offsets, total);
    if ok {
      SeededSplits(r.chunks, offsets, r.stealing, q.failed);
    } else {
      FreshSplits(Plan([r], 0, 0, 0));
      assert FreshQueues(Plan([r], 0, 0, 0))[0] == FreshQueue(r);
    }
  }

  lemma ControlQueues(o: Options, p: Probe, cf: Control)
    ensures var plan := MakePlan(o, p);
            1 <= |plan.regions| <= 2 &&
            var qs := FromControl(o, p, plan, cf).queues;
            |qs| == |plan.regions| && forall e :: 0 <= e < |qs| ==>
              Splits(plan.regions[e].chunks, qs[e]) && qs[e].stealing == plan.regions[e].stealing
              && qs[e].done <= OffsetsOf(plan, e, cf.completed)
  {
    var plan := MakePlan(o, p);
    PlanWellLaid(o, p);
    var rs := plan.regions;
    SeedRegion(rs[0], OffsetsOf(plan, 0, cf.completed), if |rs| == 2 then plan.splitAt else p.totalSize);
    if |rs| == 2 {
      SeedRegion(rs[1], OffsetsOf(plan, 1, cf.completed), rs[1].base);
    }
  }

  // One region, and a set the layout cannot hold: nothing was taken over.
  lemma RefusedMeansEmpty(plan: Plan, offsets: set<int>, total: int)
    requires |plan.regions| == 1
    ensures !SeedQueues(plan, offsets, total).2 ==> SeedQueues(plan, offsets, total).0[0].done == {}
  {
    SeedFacts(plan.regions[0], OffsetsOf(plan, 0, offsets), total);
  }

  lemma FromControlSeeds(content: seq<byte>, o: Options, p: Probe, cf: Control)
    requires ControlOk(content, cf) && Resumable(cf, o, p, MakePlan(o, p))
    ensures 1 <= |MakePlan(o, p).regions| <= 2
    ensures Seeded(MakePlan(o, p), cf, FromControl(o, p, MakePlan(o, p), cf))
  {
    var plan := MakePlan(o, p);
    var rs := plan.regions;
    ControlQueues(o, p, cf);
    PlanSeparated(o, p);
    var r := FromControl(o, p, plan, cf);
    if SplitsInTwo(o, p) {
      TwoRegionSeedAccepted(content, o, p, cf);
    } else {
      OneRegion(o, p);
      RefusedMeansEmpty(plan, cf.completed, p.totalSize);
    }
    forall e, c | Has(rs, e, c) && c.start in r.queues[e].done
      ensures Lo(rs[e], c) in cf.completed
      ensures Lo(rs[e], c) in cf.hashes ==>
              Lo(rs[e], c) in r.hashes && r.hashes[Lo(rs[e], c)] == cf.hashes[Lo(rs[e], c)]
    {
      OffsetMatches(plan, cf.completed, e, c);
      DoneIsListed(plan, r.queues, e, c);
    }
  }

  lemma DoneIsListed(plan: Plan, qs: seq<W.Queue>, e: int, c: Chunk)
    requires Separated(plan) && |qs| == |plan.regions| && Has(plan.regions, e, c) && c.start in qs[e].done
    ensures Lo(plan.regions[e], c) in AbsoluteDone(plan.regions, qs)
  {
  }

  // Bytes are counted as soon as a chunk of a file of known size is taken over.
  lemma CountedIfDone(o: Options, p: Probe, cf: Control, e: int, c: Chunk)
    requires p.totalSize > 0 && Has(MakePlan(o, p).regions, e, c)
    requires 1 <= |MakePlan(o, p).regions| <= 2
    requires var (qs, already, ok) := SeedQueues(MakePlan(o, p), cf.completed, p.totalSize); ok && c.start in qs[e].done
    ensures SeedQueues(MakePlan(o, p), cf.completed, p.totalSize).1 > 0
  {
    var plan := MakePlan(o, p);
    var rs := plan.regions;
    PlanSeparated(o, p);
    PlanWellLaid(o, p);
    assert InFile(rs, p.totalSize);
    forall f, d | Has(rs, f, d) && d.end >= 0
      ensures d.start <= d.end
    {
      assert Lo(rs[f], d) < Hi(rs[f], d, p.totalSize);
    }
    assert forall f, d :: 0 <= f < |rs| && d in rs[f].chunks ==> Has(rs, f, d);
    var t0 := if |rs| == 2 then plan.splitAt else p.totalSize;
    PositiveBytes(rs[0].chunks, OffsetsOf(plan, 0, cf.completed), t0);
    SeedFacts(rs[0], OffsetsOf(plan, 0, cf.completed), t0);
    if |rs| == 2 {
      PositiveBytes(rs[1].chunks, OffsetsOf(plan, 1, cf.completed), rs[1].base);
      SeedFacts(rs[1], OffsetsOf(plan, 1, cf.completed), rs[1].base);
      TwoRegions(o, p);
    }
  }

  lemma {:induction false} PositiveBytes(cs: seq<Chunk>, starts: set<int>, total: int)
    requires total > 0 && forall c :: c in cs && c.end >= 0 ==> c.start <= c.end
    ensures BytesIn(cs, starts, total) >= 0
    ensures (exists c :: c in cs && c.start in starts) ==> BytesIn(cs, starts, total) > 0
  {
    if cs != [] {
      assert forall c :: c in cs[1..] ==> c in cs;
      assert cs[0] in cs;
      PositiveBytes(cs[1..], starts, total);
    }
  }

  // A control file this program did not write can list more region-1 offsets than region 1
  // has chunks. It is then refused, but what region 2 took over stays done, with no byte of
  // it counted or verified, whatever is on disk.
  lemma RefusedControlKeepsRegion2(o: Options, p: Probe, disk: seq<byte>, cf: Control, sampleOk: bool)
    requires SplitsInTwo(o, p) && o.resume && Resumable(cf, o, p, MakePlan(o, p))
    ensures var plan := MakePlan(o, p);
            |plan.regions| == 2 &&
            var r := Prepare(o, p, plan, disk, Some(cf), false, sampleOk);
            |OffsetsOf(plan, 0, cf.completed)| > |plan.regions[0].chunks| ==>
              r.already == 0 && r.hashes == map[] && r.queues[0].done == {}
              && r.queues[1].done == OffsetsOf(plan, 1, cf.completed) * Starts(plan.regions[1].chunks)
  {
    var plan := MakePlan(o, p);
    TwoRegions(o, p);
    SeedFacts(plan.regions[0], OffsetsOf(plan, 0, cf.completed), plan.splitAt);
    SeedFacts(plan.regions[1], OffsetsOf(plan, 1, cf.completed), plan.regions[1].base);
  }

  lemma SeedsNothingExactly(r: Region, offsets: set<int>, total: int)
    requires !r.stealing
    ensures W.Seed(FreshQueue(r), offsets, total).0 == FreshQueue(r) <==> offsets !! Starts(r.chunks)
  {
    SeedFacts(r, offsets, total);
    if offsets !! Starts(r.chunks) {
      assert offsets * Starts(r.chunks) == {};
      assert forall c :: c in r.chunks ==> c.start in Starts(r.chunks);
      W.MissingNone(r.chunks, offsets);
    } else {
      var x :| x in offsets && x in Starts(r.chunks);
      assert x in offsets * Starts(r.chunks);
    }
  }

  // A refusal is a fresh start if and only if no listed offset begins a chunk of region 2.
  lemma RefusalIsFreshExactly(o: Options, p: Probe, disk: seq<byte>, cf: Control, sampleOk: bool)
    requires SplitsInTwo(o, p) && o.resume && Resumable(cf, o, p, MakePlan(o, p))
    ensures var plan := MakePlan(o, p);
            |plan.regions| == 2 &&
            (|OffsetsOf(plan, 0, cf.completed)| > |plan.regions[0].chunks| ==>
               (Prepare(o, p, plan, disk, Some(cf), false, sampleOk) == FromScratch(plan)
                <==> OffsetsOf(plan, 1, cf.completed) !! Starts(plan.regions[1].chunks)))
  {
    var plan := MakePlan(o, p);
    TwoRegions(o, p);
    SeedFacts(plan.regions[0], OffsetsOf(plan, 0, cf.completed), plan.splitAt);
    SeedsNothingExactly(plan.regions[1], OffsetsOf(plan, 1, cf.completed), plan.regions[1].base);
  }
}
