// From options and probe to chunk lists, and from a control file back to seeded queues
// (internal/download/task_start.go, task_persist.go and the span arithmetic of resume_impl.go).
module Layout {
  import opened Chunks
  import W = WorkQueue

  newtype byte = b: int | 0 <= b < 0x100

  // SHA-256 as a free constructor: equal digests come from equal bytes.
  datatype Digest = Digest(of: seq<byte>)

  // The engine profile after "smart" has been resolved; Unset is the empty string.
  datatype Profile = Unset | Odm | Aria2c | Both

  // preset is a connection target raised before the run started (0 if none).
  datatype Options = Options(profile: Profile, chunkSize: int, split: int, minSplit: int,
                             conns: int, preset: int, retry: nat, resume: bool)

  datatype Probe = Probe(totalSize: int, singleStream: bool)

  // A queue, the offset its chunks are relative to, and its complete chunk list.
  datatype Region = Region(base: int, stealing: bool, chunks: seq<Chunk>)

  datatype Plan = Plan(regions: seq<Region>, splitAt: int, effective: int, ariaSplit: int)

  // The recorded state of an interrupted run. Offsets are absolute.
  datatype Control = Control(totalSize: int, chunkSize: int, profile: Profile, splitAt: int,
                             region2: int, completed: set<int>, hashes: map<int, Digest>)

  const TINY := 4 * 1024 * 1024

  function QueueSize(p: Probe): int { if p.singleStream then -1 else p.totalSize }

  predicate SplitsInTwo(o: Options, p: Probe)
  {
    o.profile == Both && QueueSize(p) > 0 && QueueSize(p) >= TINY && o.conns >= 2
  }

  function MakePlan(o: Options, p: Probe): Plan
  {
    var qs := QueueSize(p);
    if SplitsInTwo(o, p) then
      var mid := Max(qs / 2, 1);
      var n2 := AriaSplit(qs - mid, o.split, o.minSplit).0;
      Plan([Region(0, true, FixedChunks(mid, o.chunkSize)),
            Region(mid, false, StaticChunks(qs - mid, n2))], mid, o.chunkSize, n2)
    else if o.profile == Aria2c && qs > 0 then
      var (n, seg) := AriaSplit(qs, o.split, o.minSplit);
      Plan([Region(0, false, StaticChunks(qs, n))], 0, seg, n)
    else
      Plan([Region(0, true, FixedChunks(qs, o.chunkSize))], 0, o.chunkSize, 0)
  }

  // Chunk size recorded in the control file.
  function RecordedChunkSize(o: Options, p: Probe, plan: Plan): int
  {
    if o.profile == Aria2c && plan.ariaSplit > 0 && p.totalSize > 0
    then AriaSplit(p.totalSize, o.split, o.minSplit).1 else o.chunkSize
  }

  function Region2Size(o: Options, p: Probe, plan: Plan): int
  {
    if |plan.regions| == 2 && p.totalSize > 0
    then AriaSplit(p.totalSize - plan.splitAt, o.split, o.minSplit).1 else 0
  }

  // May the recorded offsets be applied to this run's layout?
  predicate Resumable(cf: Control, o: Options, p: Probe, plan: Plan)
  {
    && cf.totalSize == p.totalSize
    && cf.chunkSize == plan.effective
    && (cf.profile == Unset || cf.profile == o.profile)
    && cf.splitAt == plan.splitAt
    && cf.region2 == Region2Size(o, p, plan)
  }

  // ----- absolute byte ranges -----

  function Lo(r: Region, c: Chunk): int { r.base + c.start }

  function Hi(r: Region, c: Chunk, total: int): int
  {
    if c.end < 0 then total else r.base + c.end + 1
  }

  // c is a chunk of region e.
  ghost predicate Has(rs: seq<Region>, e: int, c: Chunk)
  {
    0 <= e < |rs| && c in rs[e].chunks
  }

  ghost predicate Apart(rs: seq<Region>, total: int, e: int, c: Chunk, f: int, d: Chunk)
    requires 0 <= e < |rs| && 0 <= f < |rs|
  {
    Hi(rs[e], c, total) <= Lo(rs[f], d) || Hi(rs[f], d, total) <= Lo(rs[e], c)
  }

  // What every layout of a file of known size gives: non-empty ranges inside the file,
  // pairwise disjoint across both regions, that leave no byte out.
  ghost predicate InFile(rs: seq<Region>, total: int)
  {
    forall e, c :: Has(rs, e, c) ==> 0 <= Lo(rs[e], c) < Hi(rs[e], c, total) <= total
  }

  ghost predicate AllApart(rs: seq<Region>, total: int)
  {
    forall e, c, f, d :: Has(rs, e, c) && Has(rs, f, d) && (e != f || c != d) ==> Apart(rs, total, e, c, f, d)
  }

  ghost predicate HasByte(rs: seq<Region>, total: int, p: int)
  {
    exists e, c :: Has(rs, e, c) && Lo(rs[e], c) <= p < Hi(rs[e], c, total)
  }

  ghost predicate NoGap(rs: seq<Region>, total: int)
  {
    forall p :: 0 <= p < total ==> HasByte(rs, total, p)
  }

  ghost predicate Covers(rs: seq<Region>, total: int)
  {
    InFile(rs, total) && AllApart(rs, total) && NoGap(rs, total)
  }

  ghost predicate WellLaid(rs: seq<Region>, total: int)
  {
    && 1 <= |rs| <= 2
    && rs[0].base == 0
    && (forall e :: 0 <= e < |rs| ==> Ordered(rs[e].chunks))
    && (total > 0 ==> Covers(rs, total))
  }

  // A stretch of a region cut every `step` bytes.
  ghost predicate InSome(cs: seq<Chunk>, p: int)
  {
    exists c :: c in cs && c.start <= p <= c.end
  }

  lemma CutApart(total: int, step: int, c: Chunk, d: Chunk)
    requires total >= 1 && step >= 1
    requires c in CutFrom(0, 0, total, step) && d in CutFrom(0, 0, total, step) && c != d
    ensures c.end < d.start || d.end < c.start
  {
    var cs := CutFrom(0, 0, total, step);
    CutTiles(0, 0, total, step);
    var i :| 0 <= i < |cs| && cs[i] == c;
    var j :| 0 <= j < |cs| && cs[j] == d;
    if i < j { TilesDisjoint(cs, 0, total, i, j); } else { TilesDisjoint(cs, 0, total, j, i); }
  }

  lemma CutLeavesNothing(total: int, step: int, p: int)
    requires step >= 1 && 0 <= p < total
    ensures InSome(CutFrom(0, 0, total, step), p)
  {
    var cs := CutFrom(0, 0, total, step);
    CutTiles(0, 0, total, step);
    TilesCover(cs, 0, total, p);
    var i :| 0 <= i < |cs| && cs[i].start <= p <= cs[i].end;
    assert cs[i] in cs;
  }

  // How the two-region plan is cut.
  lemma TwoRegions(o: Options, p: Probe)
    requires SplitsInTwo(o, p)
    ensures var plan := MakePlan(o, p);
            var seg := Region2Size(o, p, plan);
            && |plan.regions| == 2 && plan.regions[0].base == 0 && plan.regions[1].base == plan.splitAt
            && 0 < plan.splitAt < p.totalSize && 1 <= seg <= p.totalSize - plan.splitAt
            && plan.regions[0].chunks == CutFrom(0, 0, plan.splitAt, EffectiveStep(o.chunkSize))
            && plan.regions[1].chunks == CutFrom(0, 0, p.totalSize - plan.splitAt, seg)
  {
    var mid := p.totalSize / 2;
    AriaSegment(p.totalSize - mid, o.split, o.minSplit);
  }

  lemma OneRegion(o: Options, p: Probe)
    requires !SplitsInTwo(o, p)
    ensures var plan := MakePlan(o, p);
            && |plan.regions| == 1 && plan.regions[0].base == 0 && plan.splitAt == 0
            && plan.effective == RecordedChunkSize(o, p, plan)
            && (p.singleStream || p.totalSize < 0 ==> plan.regions[0].chunks == [Chunk(0, 0, -1)])
            && (!p.singleStream && p.totalSize == 0 ==> plan.regions[0].chunks == [])
            && (!p.singleStream && p.totalSize > 0 ==>
                  plan.regions[0].chunks == CutFrom(0, 0, p.totalSize, StepAt(o, p, plan, 0)))
  {
    if o.profile == Aria2c && QueueSize(p) > 0 {
      AriaSegment(p.totalSize, o.split, o.minSplit);
    }
  }

  // Regions cut one after the other, each into its own step.
  ghost predicate CutInTurn(rs: seq<Region>, total: int, mid: int, step0: int, step1: int)
  {
    && step0 >= 1 && step1 >= 1 && 1 <= mid <= total
    && |rs| == (if mid < total then 2 else 1)
    && rs[0].base == 0 && rs[0].chunks == CutFrom(0, 0, mid, step0)
    && (mid < total ==> rs[1].base == mid && rs[1].chunks == CutFrom(0, 0, total - mid, step1))
  }

  lemma CutsApart(rs: seq<Region>, total: int, mid: int, step0: int, step1: int, e: int, c: Chunk, f: int, d: Chunk)
    requires CutInTurn(rs, total, mid, step0, step1) && Has(rs, e, c) && Has(rs, f, d) && (e != f || c != d)
    ensures Apart(rs, total, e, c, f, d)
  {
    if e == f == 0 {
      CutApart(mid, step0, c, d);
      CutOrdered(mid, step0);
    } else if e == f == 1 {
      CutApart(total - mid, step1, c, d);
      CutOrdered(total - mid, step1);
    } else {
      CutOrdered(mid, step0);
      CutOrdered(total - mid, step1);
    }
  }

  lemma CutsLeaveNothing(rs: seq<Region>, total: int, mid: int, step0: int, step1: int, p: int)
    requires CutInTurn(rs, total, mid, step0, step1) && 0 <= p < total
    ensures HasByte(rs, total, p)
  {
    if p < mid {
      CutLeavesNothing(mid, step0, p);
      var c :| c in rs[0].chunks && c.start <= p <= c.end;
      assert Has(rs, 0, c);
    } else {
      CutLeavesNothing(total - mid, step1, p - mid);
      var c :| c in rs[1].chunks && c.start <= p - mid <= c.end;
      assert Has(rs, 1, c);
    }
  }

  // Such regions cover the file.
  lemma CutsCover(rs: seq<Region>, total: int, mid: int, step0: int, step1: int)
    requires CutInTurn(rs, total, mid, step0, step1)
    ensures WellLaid(rs, total)
  {
    CutsAllApart(rs, total, mid, step0, step1);
    CutsNoGap(rs, total, mid, step0, step1);
    CutsInFile(rs, total, mid, step0, step1);
  }

  lemma CutsAllApart(rs: seq<Region>, total: int, mid: int, step0: int, step1: int)
    requires CutInTurn(rs, total, mid, step0, step1)
    ensures AllApart(rs, total)
  {
    forall e, c, f, d | Has(rs, e, c) && Has(rs, f, d) && (e != f || c != d)
      ensures Apart(rs, total, e, c, f, d)
    {
      CutsApart(rs, total, mid, step0, step1, e, c, f, d);
    }
  }

  lemma CutsNoGap(rs: seq<Region>, total: int, mid: int, step0: int, step1: int)
    requires CutInTurn(rs, total, mid, step0, step1)
    ensures NoGap(rs, total)
  {
    forall p | 0 <= p < total
      ensures HasByte(rs, total, p)
    {
      CutsLeaveNothing(rs, total, mid, step0, step1, p);
    }
  }

  lemma CutsInFile(rs: seq<Region>, total: int, mid: int, step0: int, step1: int)
    requires CutInTurn(rs, total, mid, step0, step1)
    ensures InFile(rs, total) && forall e :: 0 <= e < |rs| ==> Ordered(rs[e].chunks)
  {
    CutOrdered(mid, step0);
    CutOrdered(total - mid, step1);
  }

  // Every plan Start can build: one region or two, the absolute ranges partition the file.
  lemma PlanWellLaid(o: Options, p: Probe)
    ensures WellLaid(MakePlan(o, p).regions, p.totalSize)
  {
    var plan := MakePlan(o, p);
    var rs, total := plan.regions, p.totalSize;
    if SplitsInTwo(o, p) {
      TwoRegions(o, p);
      CutsCover(rs, total, plan.splitAt, EffectiveStep(o.chunkSize), Region2Size(o, p, plan));
    } else {
      OneRegion(o, p);
      if total > 0 && !p.singleStream {
        CutsCover(rs, total, total, StepAt(o, p, plan, 0), 1);
      } else if total > 0 {
        assert rs[0].chunks == [Chunk(0, 0, -1)];
        forall q | 0 <= q < total
          ensures HasByte(rs, total, q)
        {
          assert Has(rs, 0, Chunk(0, 0, -1));
        }
      }
    }
  }

  // ----- spans recomputed at resume time -----

  // Size of the chunk that begins at an absolute offset, as the hash check sees it.
  function StepAt(o: Options, p: Probe, plan: Plan, start: int): (step: int)
    ensures step >= 1
  {
    if |plan.regions| == 2 && start >= plan.splitAt && Region2Size(o, p, plan) > 0 then Region2Size(o, p, plan)
    else if o.profile == Aria2c && RecordedChunkSize(o, p, plan) > 0 then RecordedChunkSize(o, p, plan)
    else EffectiveStep(o.chunkSize)
  }

  // First and last byte the hash check reads for the chunk at `start`.
  function ChunkSpan(o: Options, p: Probe, plan: Plan, start: int): (int, int)
  {
    if p.singleStream then (0, p.totalSize - 1)
    else
      var end := start + StepAt(o, p, plan, start) - 1;
      (start, if p.totalSize > 0 && end >= p.totalSize then p.totalSize - 1 else end)
  }

  // The one chunk whose recomputed span is too long: the last of region 1 when the
  // chunk size does not divide the split offset.
  predicate Overhangs(o: Options, p: Probe, plan: Plan, start: int)
  {
    |plan.regions| == 2 && start < plan.splitAt && start + EffectiveStep(o.chunkSize) > plan.splitAt
  }

  // The recomputed span of a chunk is its exact byte range if and only if it does not
  // overhang the region boundary; and it always begins where the chunk does and covers it.
  lemma SpanAgreement(o: Options, p: Probe, e: int, c: Chunk)
    requires p.totalSize > 0
    requires Has(MakePlan(o, p).regions, e, c)
    ensures var plan := MakePlan(o, p);
            var r := plan.regions[e];
            var (first, last) := ChunkSpan(o, p, plan, Lo(r, c));
            && first == Lo(r, c) && Hi(r, c, p.totalSize) - 1 <= last < p.totalSize
            && (last == Hi(r, c, p.totalSize) - 1 <==> !Overhangs(o, p, plan, Lo(r, c)))
  {
    var plan := MakePlan(o, p);
    if SplitsInTwo(o, p) {
      TwoRegions(o, p);
      CutOrdered(plan.splitAt, EffectiveStep(o.chunkSize));
      CutOrdered(p.totalSize - plan.splitAt, Region2Size(o, p, plan));
    } else {
      OneRegion(o, p);
      if !p.singleStream {
        CutOrdered(p.totalSize, StepAt(o, p, plan, 0));
        assert StepAt(o, p, plan, Lo(plan.regions[e], c)) == StepAt(o, p, plan, 0);
      }
    }
  }

  // A cut whose step divides its length ends every chunk on a multiple of the step.
  lemma StartsAtMultiple(mid: int, step: int, c: Chunk) returns (i: nat)
    requires step >= 1 && c in CutFrom(0, 0, mid, step)
    ensures c.start == i * step < mid
  {
    var cs := CutFrom(0, 0, mid, step);
    i :| i < |cs| && cs[i] == c;
    CutAt(0, 0, mid, step, i);
  }

  lemma EvenCutFits(mid: int, step: int, c: Chunk)
    requires step >= 1 && mid >= 1 && mid % step == 0 && c in CutFrom(0, 0, mid, step)
    ensures c.start + step <= mid
  {
    var i := StartsAtMultiple(mid, step, c);
    var k := Multiple(mid, step);
    NextMultiple(mid, step, i, k);
  }

  lemma Multiple(a: int, b: int) returns (k: int)
    requires b >= 1 && a % b == 0
    ensures a == b * k
  {
    k := a / b;
  }

  lemma NextMultiple(mid: int, step: int, i: nat, k: int)
    requires step >= 1 && mid == step * k && i * step < mid
    ensures i * step + step <= mid
  {
    assert i * step == step * i && step * (i + 1) == step * i + step;
    MulMonotone(step, k, i);
    MulMonotone(step, i + 1, k);
  }

  lemma UnevenCutOverhangs(mid: int, step: int) returns (c: Chunk)
    requires step >= 1 && mid >= 1 && mid % step != 0
    ensures c in CutFrom(0, 0, mid, step) && c.start < mid < c.start + step
  {
    var cs := CutFrom(0, 0, mid, step);
    CutTiles(0, 0, mid, step);
    TilesCover(cs, 0, mid, mid - 1);
    var i :| 0 <= i < |cs| && cs[i].start <= mid - 1 <= cs[i].end;
    c := cs[i];
    CutAt(0, 0, mid, step, i);
    NotTheEnd(mid, step, i);
  }

  lemma NotTheEnd(mid: int, step: int, i: nat)
    requires step >= 1 && mid % step != 0
    ensures i * step + step != mid
  {
    MultipleHasNoRemainder(i + 1, step);
    assert i * step + step == (i + 1) * step;
  }

  // Some chunk overhangs exactly when the chunk size does not divide the split offset.
  lemma OverhangExactly(o: Options, p: Probe)
    requires SplitsInTwo(o, p)
    ensures var plan := MakePlan(o, p);
            (exists c :: Has(plan.regions, 0, c) && Overhangs(o, p, plan, c.start))
              <==> plan.splitAt % EffectiveStep(o.chunkSize) != 0
  {
    var plan := MakePlan(o, p);
    TwoRegions(o, p);
    if plan.splitAt % EffectiveStep(o.chunkSize) != 0 {
      var c := UnevenCutOverhangs(plan.splitAt, EffectiveStep(o.chunkSize));
      assert Has(plan.regions, 0, c) && Overhangs(o, p, plan, c.start);
    } else {
      forall c | Has(plan.regions, 0, c)
        ensures !Overhangs(o, p, plan, c.start)
      {
        EvenCutFits(plan.splitAt, EffectiveStep(o.chunkSize), c);
      }
    }
  }

  lemma MultipleHasNoRemainder(k: int, n: int)
    requires n >= 1
    ensures (k * n) % n == 0
  {
    var q, r := (k * n) / n, (k * n) % n;
    assert (k - q) * n == r;
    MulMonotone(n, k - q, -1);
    MulMonotone(n, 1, k - q);
    assert n * (k - q) == (k - q) * n;
  }

  // ----- the resume guard -----

  // For range-capable files the recorded fields pin both chunk lists: whatever --split,
  // --min-split-size or the connection budget have become, a run that passes the guard
  // rebuilds exactly the recorded run's chunks.
  lemma GuardFixesLayout(o1: Options, p1: Probe, o2: Options, p2: Probe, cf: Control)
    requires p1.totalSize > 0 && !p1.singleStream && !p2.singleStream
    requires cf.totalSize == p1.totalSize && cf.profile == o1.profile
    requires cf.chunkSize == RecordedChunkSize(o1, p1, MakePlan(o1, p1))
    requires cf.splitAt == MakePlan(o1, p1).splitAt && cf.region2 == Region2Size(o1, p1, MakePlan(o1, p1))
    requires Resumable(cf, o2, p2, MakePlan(o2, p2))
    ensures MakePlan(o1, p1).regions == MakePlan(o2, p2).regions
        || (cf.profile == Unset && o2.profile == Aria2c
            && MakePlan(o1, p1).regions[0].chunks == MakePlan(o2, p2).regions[0].chunks
            && |MakePlan(o1, p1).regions| == |MakePlan(o2, p2).regions| == 1)
  {
    if SplitsInTwo(o1, p1) { TwoRegions(o1, p1); } else { OneRegion(o1, p1); }
    if SplitsInTwo(o2, p2) { TwoRegions(o2, p2); } else { OneRegion(o2, p2); }
    if !SplitsInTwo(o1, p1) && o2.profile == Aria2c {
      AriaSegment(p1.totalSize, o2.split, o2.minSplit);
    }
  }

  // ----- seeding the queues from recorded offsets -----

  function FreshQueue(r: Region): W.Queue
  {
    W.Fresh(r.stealing, r.chunks)
  }

  function FreshQueues(plan: Plan): seq<W.Queue>
    requires 1 <= |plan.regions| <= 2
  {
    if |plan.regions| == 2 then [FreshQueue(plan.regions[0]), FreshQueue(plan.regions[1])]
    else [FreshQueue(plan.regions[0])]
  }

  // The recorded offsets that belong to a region, relative to it.
  function OffsetsOf(plan: Plan, e: int, offsets: set<int>): set<int>
  {
    if |plan.regions| != 2 then offsets
    else if e == 0 then set off | off in offsets && off < plan.splitAt
    else set off | off in offsets && off >= plan.splitAt :: off - plan.splitAt
  }

  // Both queues are seeded, but only the first one's answer decides.
  function SeedQueues(plan: Plan, offsets: set<int>, total: int): (seq<W.Queue>, int, bool)
    requires 1 <= |plan.regions| <= 2
  {
    var (q0, a0, ok) := W.Seed(FreshQueue(plan.regions[0]), OffsetsOf(plan, 0, offsets),
                               if |plan.regions| == 2 then plan.splitAt else total);
    if |plan.regions| == 2 then
      var (q1, a1, _) := W.Seed(FreshQueue(plan.regions[1]), OffsetsOf(plan, 1, offsets), plan.regions[1].base);
      ([q0, q1], a0 + a1, ok)
    else ([q0], a0, ok)
  }

  // The completed offsets of all queues as the control file lists them.
  function AbsoluteDone(rs: seq<Region>, qs: seq<W.Queue>): set<int>
    requires 1 <= |rs| == |qs| <= 2
  {
    if |rs| == 2 then qs[0].done + Shifted(qs[1].done, rs[1].base) else qs[0].done
  }

  function Shifted(offsets: set<int>, base: int): set<int>
  {
    set off | off in offsets :: off + base
  }

  // ----- resume round trip -----

  function SumBytes(cs: seq<Chunk>, total: int): int
  {
    if cs == [] then 0 else ChunkBytes(cs[0], total) + SumBytes(cs[1..], total)
  }

  lemma {:induction false} SplitBytes(cs: seq<Chunk>, done: set<int>, total: int)
    ensures BytesIn(cs, done, total) + SumBytes(Missing(cs, done), total) == SumBytes(cs, total)
  {
    if cs != [] {
      SplitBytes(cs[1..], done, total);
      if cs[0].start !in done {
        assert Missing(cs, done)[1..] == Missing(cs[1..], done);
      }
    }
  }

  lemma {:induction false} TilesBytes(cs: seq<Chunk>, lo: int, hi: int, total: int)
    requires Tiles(cs, lo, hi) && 0 <= lo && 0 <= total
    ensures SumBytes(cs, total) == hi - lo
  {
    if cs != [] {
      TilesBytes(cs[1..], cs[0].end + 1, hi, total);
    }
  }

  lemma {:induction false} StartsAtMost(cs: seq<Chunk>, some: set<int>)
    requires some <= Starts(cs)
    ensures |some| <= |cs|
  {
    if cs == [] {
      assert some == {};
    } else {
      var last := cs[|cs| - 1];
      assert cs == cs[..|cs| - 1] + [last];
      W.StartsSnoc(cs[..|cs| - 1], last);
      StartsAtMost(cs[..|cs| - 1], some - {last.start});
      assert some <= (some - {last.start}) + {last.start};
      if last.start in some {
        assert some == (some - {last.start}) + {last.start};
      } else {
        assert some == some - {last.start};
      }
    }
  }

  // The absolute starts of a plan's chunks.
  ghost predicate SomeChunkAt(rs: seq<Region>, off: int)
  {
    exists e, c :: Has(rs, e, c) && Lo(rs[e], c) == off
  }

  lemma RegionBytes(o: Options, p: Probe)
    requires p.totalSize > 0
    ensures var rs := MakePlan(o, p).regions;
            p.totalSize == SumBytes(rs[0].chunks, p.totalSize)
                         + (if |rs| == 2 then SumBytes(rs[1].chunks, p.totalSize) else 0)
  {
    var plan := MakePlan(o, p);
    if SplitsInTwo(o, p) {
      TwoRegions(o, p);
      var mid := plan.splitAt;
      CutTiles(0, 0, mid, EffectiveStep(o.chunkSize));
      CutTiles(0, 0, p.totalSize - mid, Region2Size(o, p, plan));
      TilesBytes(plan.regions[0].chunks, 0, mid, p.totalSize);
      TilesBytes(plan.regions[1].chunks, 0, p.totalSize - mid, p.totalSize);
    } else {
      OneRegion(o, p);
      if !p.singleStream {
        CutTiles(0, 0, p.totalSize, StepAt(o, p, plan, 0));
        TilesBytes(plan.regions[0].chunks, 0, p.totalSize, p.totalSize);
      } else {
        assert plan.regions[0].chunks[1..] == [];
      }
    }
  }

  // The facts about a plan that splitting offsets by region relies on.
  ghost predicate Separated(plan: Plan)
  {
    && 1 <= |plan.regions| <= 2
    && plan.regions[0].base == 0
    && (|plan.regions| == 2 ==>
          && plan.regions[1].base == plan.splitAt >= 0
          && (forall c :: c in plan.regions[0].chunks ==> 0 <= c.start < plan.splitAt && c.end >= 0)
          && (forall c :: c in plan.regions[1].chunks ==> 0 <= c.start && c.end >= 0))
  }

  lemma PlanSeparated(o: Options, p: Probe)
    ensures Separated(MakePlan(o, p))
  {
    if SplitsInTwo(o, p) {
      TwoRegions(o, p);
      var plan := MakePlan(o, p);
      CutOrdered(plan.splitAt, EffectiveStep(o.chunkSize));
      CutOrdered(p.totalSize - plan.splitAt, Region2Size(o, p, plan));
    } else {
      OneRegion(o, p);
    }
  }

  lemma OffsetMatches(plan: Plan, saved: set<int>, e: int, c: Chunk)
    requires Separated(plan) && Has(plan.regions, e, c)
    ensures Lo(plan.regions[e], c) in saved <==> c.start in OffsetsOf(plan, e, saved)
  {
    if |plan.regions| == 2 && e == 1 {
      var off := c.start + plan.splitAt;
      assert off - plan.splitAt == c.start;
    }
  }

  // Every recorded offset lands in the region it came from, on one of its chunks.
  lemma RegionOffsets(plan: Plan, saved: set<int>, e: int)
    requires Separated(plan) && 0 <= e < |plan.regions|
    requires forall off :: off in saved ==> SomeChunkAt(plan.regions, off)
    ensures OffsetsOf(plan, e, saved) <= Starts(plan.regions[e].chunks)
  {
    forall x | x in OffsetsOf(plan, e, saved)
      ensures x in Starts(plan.regions[e].chunks)
    {
      var off := x + plan.regions[e].base;
      assert off in saved;
      assert SomeChunkAt(plan.regions, off);
      var f, c :| Has(plan.regions, f, c) && Lo(plan.regions[f], c) == off;
      assert f == e;
    }
  }

  // Seeding one fresh queue with a subset of its own chunk starts.
  lemma SeedOne(r: Region, offsets: set<int>, total: int)
    requires offsets <= Starts(r.chunks)
    ensures var (q, already, ok) := W.Seed(FreshQueue(r), offsets, total);
            && ok && q.done == offsets && q.pending == Missing(r.chunks, offsets)
            && already == SumBytes(r.chunks, total) - SumBytes(q.pending, total)
            && (forall c :: c in r.chunks ==> (c in q.pending <==> c.start !in offsets))
  {
    StartsAtMost(r.chunks, offsets);
    SplitBytes(r.chunks, offsets, total);
    MissingMembers(r.chunks, offsets);
  }

  lemma {:induction false} SumAnyTotal(cs: seq<Chunk>, t1: int, t2: int)
    requires t1 >= 0 && t2 >= 0 && forall c :: c in cs ==> c.end >= 0
    ensures SumBytes(cs, t1) == SumBytes(cs, t2)
  {
    if cs != [] {
      assert forall c :: c in cs[1..] ==> c in cs;
      SumAnyTotal(cs[1..], t1, t2);
    }
  }

  // For any set of chunks of a layout: recording their absolute starts, splitting them by
  // region and seeding fresh queues is accepted, leaves as work exactly the other chunks,
  // counts every byte that is not left as work, and would record the same set again.
  lemma ResumeRoundTrip(o: Options, p: Probe, saved: set<int>)
    requires p.totalSize > 0
    requires forall off :: off in saved ==> SomeChunkAt(MakePlan(o, p).regions, off)
    ensures var plan := MakePlan(o, p);
            var rs := plan.regions;
            1 <= |rs| <= 2 &&
            var (qs, already, ok) := SeedQueues(plan, saved, p.totalSize);
            && ok && |qs| == |rs|
            && (forall e, c :: Has(rs, e, c) ==>
                  (c in qs[e].pending <==> Lo(rs[e], c) !in saved)
                  && (c.start in qs[e].done <==> Lo(rs[e], c) in saved))
            && (forall e :: 0 <= e < |qs| ==> qs[e].pending == Missing(rs[e].chunks, OffsetsOf(plan, e, saved)))
            && already == p.totalSize - SumBytes(qs[0].pending, p.totalSize)
                          - (if |rs| == 2 then SumBytes(qs[1].pending, p.totalSize) else 0)
            && AbsoluteDone(rs, qs) == saved
  {
    var plan := MakePlan(o, p);
    PlanSeparated(o, p);
    RegionBytes(o, p);
    RoundTripOn(plan, saved, p.totalSize);
  }

  lemma RoundTripOn(plan: Plan, saved: set<int>, total: int)
    requires Separated(plan) && total > 0
    requires forall off :: off in saved ==> SomeChunkAt(plan.regions, off)
    ensures var rs := plan.regions;
            var (qs, already, ok) := SeedQueues(plan, saved, total);
            && ok && |qs| == |rs|
            && (forall e, c :: Has(rs, e, c) ==>
                  (c in qs[e].pending <==> Lo(rs[e], c) !in saved)
                  && (c.start in qs[e].done <==> Lo(rs[e], c) in saved))
            && (forall e :: 0 <= e < |qs| ==> qs[e].pending == Missing(rs[e].chunks, OffsetsOf(plan, e, saved)))
            && already == SumBytes(rs[0].chunks, total) - SumBytes(qs[0].pending, total)
                 + (if |rs| == 2 then SumBytes(rs[1].chunks, total) - SumBytes(qs[1].pending, total) else 0)
            && AbsoluteDone(rs, qs) == saved
  {
    var rs := plan.regions;
    forall e, c | Has(rs, e, c)
      ensures Lo(rs[e], c) in saved <==> c.start in OffsetsOf(plan, e, saved)
    {
      OffsetMatches(plan, saved, e, c);
    }
    RegionOffsets(plan, saved, 0);
    if |rs| == 2 {
      SeedOne(rs[0], OffsetsOf(plan, 0, saved), plan.splitAt);
      RegionOffsets(plan, saved, 1);
      SeedOne(rs[1], OffsetsOf(plan, 1, saved), plan.splitAt);
      RejoinsRegions(plan, saved);
      RegionTotals(rs[0], OffsetsOf(plan, 0, saved), plan.splitAt, total);
      RegionTotals(rs[1], OffsetsOf(plan, 1, saved), plan.splitAt, total);
    } else {
      SeedOne(rs[0], OffsetsOf(plan, 0, saved), total);
    }
  }

  lemma RegionTotals(r: Region, offsets: set<int>, t1: int, t2: int)
    requires t1 >= 0 && t2 >= 0 && forall c :: c in r.chunks ==> c.end >= 0
    ensures SumBytes(r.chunks, t1) == SumBytes(r.chunks, t2)
    ensures SumBytes(Missing(r.chunks, offsets), t1) == SumBytes(Missing(r.chunks, offsets), t2)
  {
    MissingMembers(r.chunks, offsets);
    SumAnyTotal(r.chunks, t1, t2);
    SumAnyTotal(Missing(r.chunks, offsets), t1, t2);
  }

  lemma RejoinsRegions(plan: Plan, saved: set<int>)
    requires |plan.regions| == 2 && plan.regions[1].base == plan.splitAt
    ensures OffsetsOf(plan, 0, saved) + Shifted(OffsetsOf(plan, 1, saved), plan.splitAt) == saved
  {
    var both := OffsetsOf(plan, 0, saved) + Shifted(OffsetsOf(plan, 1, saved), plan.splitAt);
    forall off
      ensures off in both <==> off in saved
    {
      if off in saved && off >= plan.splitAt {
        assert off - plan.splitAt in OffsetsOf(plan, 1, saved);
      }
    }
  }
}
