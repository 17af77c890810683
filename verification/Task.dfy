// The parts of a task that its own goroutine runs alone: laying out the queues, resuming
// from a control file, verifying what was resumed, and writing checkpoints
// (internal/download/task_start.go, resume_impl.go and task_persist.go).
module Tasks {
  import opened Chunks
  import opened Layout
  import opened Workers
  import opened World
  import opened ChunkQueues
  import opened StaticQueues
  import W = WorkQueue

  const BUFFER := 64 * 1024

  // ----- loops over offsets -----

  lemma ShiftedMember(s: set<int>, base: int, x: int)
    ensures x in Shifted(s, base) <==> x - base in s
  {
    if x - base in s { assert x == (x - base) + base; }
  }

  method SplitOffsets(offsets: set<int>, splitAt: int) returns (done1: set<int>, done2: set<int>)
    ensures done1 == set off | off in offsets && off < splitAt
    ensures done2 == set off | off in offsets && off >= splitAt :: off - splitAt
  {
    done1, done2 := {}, {};
    var rest := offsets;
    while rest != {}
      invariant rest <= offsets
      invariant forall x :: x in done1 <==> x in offsets - rest && x < splitAt
      invariant forall x :: x in done2 <==> x + splitAt in offsets - rest && x >= 0
      decreases |rest|
    {
      Inhabited(rest);
      var off :| off in rest;
      rest := rest - {off};
      if off >= splitAt {
        done2 := done2 + {off - splitAt};
      } else {
        done1 := done1 + {off};
      }
    }
    AllSplit(offsets, splitAt, done1, done2);
  }

  lemma AllSplit(offsets: set<int>, splitAt: int, done1: set<int>, done2: set<int>)
    requires forall x :: x in done1 <==> x in offsets && x < splitAt
    requires forall x :: x in done2 <==> x + splitAt in offsets && x >= 0
    ensures done1 == set off | off in offsets && off < splitAt
    ensures done2 == set off | off in offsets && off >= splitAt :: off - splitAt
  {
    var low := set off | off in offsets && off < splitAt;
    var shifted := set off | off in offsets && off >= splitAt :: off - splitAt;
    assert forall x :: x in low <==> x in done1;
    assert done1 == low;
    forall x
      ensures x in done2 <==> x in shifted
    {
      if x in shifted {
        var off :| off in offsets && off >= splitAt && x == off - splitAt;
        assert x + splitAt == off;
      }
      if x in done2 { assert x == (x + splitAt) - splitAt; }
    }
  }

  lemma AllCopied(offsets: set<int>, base: int, recorded: map<int, Digest>, into: map<int, Digest>, r: map<int, Digest>)
    requires forall x :: x in r <==> x in into || (x - base in offsets && x in recorded)
    requires forall x :: x in r ==> r[x] == if x - base in offsets && x in recorded then recorded[x] else into[x]
    ensures r == into + map off | off in Shifted(offsets, base) && off in recorded :: recorded[off]
  {
    var found := map off | off in Shifted(offsets, base) && off in recorded :: recorded[off];
    forall x
      ensures x in found <==> x - base in offsets && x in recorded
    {
      ShiftedMember(offsets, base, x);
    }
    assert forall x :: x in r <==> x in into + found;
    assert forall x :: x in r ==> r[x] == (into + found)[x];
  }

  // Carry the recorded digests of `offsets`, moved up by `base`, over into `into`.
  method CopyHashes(offsets: set<int>, base: int, recorded: map<int, Digest>, into: map<int, Digest>)
      returns (r: map<int, Digest>)
    ensures r == into + map off | off in Shifted(offsets, base) && off in recorded :: recorded[off]
  {
    r := into;
    var rest := offsets;
    while rest != {}
      invariant rest <= offsets
      invariant forall x :: x in r <==> x in into || (x - base in offsets - rest && x in recorded)
      invariant forall x :: x in r ==>
                r[x] == if x - base in offsets - rest && x in recorded then recorded[x] else into[x]
      decreases |rest|
    {
      Inhabited(rest);
      var off :| off in rest;
      rest := rest - {off};
      if off + base in recorded {
        r := r[off + base := recorded[off + base]];
      }
    }
    assert offsets - rest == offsets;
    AllCopied(offsets, base, recorded, into, r);
  }

  method HasFullHashCoverage(cf: Control) returns (full: bool)
    ensures full == FullCoverage(cf)
  {
    if cf.hashes == map[] {
      return false;
    }
    var rest := cf.completed;
    while rest != {}
      invariant rest <= cf.completed && cf.completed - rest <= cf.hashes.Keys
      decreases |rest|
    {
      Inhabited(rest);
      var off :| off in rest;
      if off !in cf.hashes {
        return false;
      }
      rest := rest - {off};
    }
    full := true;
  }

  lemma SliceJoin(d: seq<byte>, a: nat, b: nat, c: nat)
    requires a <= b <= c <= |d|
    ensures d[a..c] == d[a..b] + d[b..c]
  {
  }

  // Hash the bytes [start, end] of the file through a fixed buffer; reading past the end of
  // the file is an error. A hasher is the sequence of bytes it has been fed.
  method HashSpan(disk: seq<byte>, start: int, end: int) returns (h: seq<byte>, ok: bool)
    requires start <= end
    ensures ok <==> 0 <= start && end < |disk|
    ensures ok ==> h == disk[start..end + 1]
  {
    h := [];
    var pos := start;
    while pos <= end
      invariant start <= pos <= end + 1
      invariant pos > start ==> 0 <= start && pos <= |disk|
      invariant 0 <= start <= |disk| ==> pos <= |disk| && h == disk[start..pos]
      decreases end - pos
    {
      var n := BUFFER;
      if pos + n - 1 > end {
        n := end - pos + 1;
      }
      if pos < 0 || pos + n > |disk| {
        return h, false;
      }
      SliceJoin(disk, start, pos, pos + n);
      h := h + disk[pos..pos + n];
      pos := pos + n;
    }
    ok := true;
  }

  // Every completed chunk against the bytes on disk; the first difference fails the resume.
  method VerifyResumedHashes(o: Options, p: Probe, plan: Plan, disk: seq<byte>, cf: Control) returns (ok: bool)
    ensures ok == HashesVerify(o, p, plan, disk, cf)
  {
    if p.totalSize <= 0 {
      return true;
    }
    var rest := cf.completed;
    while rest != {}
      invariant rest <= cf.completed
      invariant forall off :: off in cf.completed - rest ==> SpanMatches(o, p, plan, disk, cf, off)
      decreases |rest|
    {
      Inhabited(rest);
      var off :| off in rest;
      if off !in cf.hashes {
        return false;
      }
      var (start, end) := ChunkSpan(o, p, plan, off);
      if end < start {
        return false;
      }
      var h, read := HashSpan(disk, start, end);
      if !read || Digest(h) != cf.hashes[off] {
        return false;
      }
      rest := rest - {off};
    }
    assert cf.completed - rest == cf.completed;
    ok := true;
  }

  // ----- writing a body -----

  function Joined(pieces: seq<seq<byte>>): seq<byte>
    decreases |pieces|
  {
    if pieces == [] then [] else Joined(pieces[..|pieces| - 1]) + pieces[|pieces| - 1]
  }

  // Byte i of a file after b has been written at `at`.
  function ByteAt(d: seq<byte>, at: nat, b: seq<byte>, i: nat): byte
  {
    if at <= i < at + |b| then b[i - at] else if i < |d| then d[i] else 0
  }

  lemma WrittenByte(d: seq<byte>, at: nat, b: seq<byte>, i: nat)
    requires b != [] && i < Max(|d|, at + |b|)
    ensures |WriteAt(d, at, b)| == Max(|d|, at + |b|) && WriteAt(d, at, b)[i] == ByteAt(d, at, b, i)
  {
  }

  lemma ByteOfTwo(d: seq<byte>, first: seq<byte>, at: nat, a: seq<byte>, b: seq<byte>, i: nat)
    requires |first| == Max(|d|, at + |a|) && (i < |first| ==> first[i] == ByteAt(d, at, a, i))
    ensures ByteAt(first, at + |a|, b, i) == ByteAt(d, at, a + b, i)
  {
  }

  lemma SecondWrite(d: seq<byte>, at: nat, a: seq<byte>, b: seq<byte>, i: nat)
    requires a != [] && b != [] && i < Max(|d|, at + |a| + |b|)
    ensures |WriteAt(WriteAt(d, at, a), at + |a|, b)| == Max(|d|, at + |a| + |b|)
    ensures WriteAt(WriteAt(d, at, a), at + |a|, b)[i] == WriteAt(d, at, a + b)[i]
  {
    WrittenByte(d, at, a, 0);
    if i < Max(|d|, at + |a|) { WrittenByte(d, at, a, i); }
    SecondByte(d, WriteAt(d, at, a), at, a, b, i);
  }

  lemma SecondByte(d: seq<byte>, first: seq<byte>, at: nat, a: seq<byte>, b: seq<byte>, i: nat)
    requires a != [] && b != [] && i < Max(|d|, at + |a| + |b|)
    requires |first| == Max(|d|, at + |a|) && (i < |first| ==> first[i] == ByteAt(d, at, a, i))
    ensures |WriteAt(first, at + |a|, b)| == Max(|d|, at + |a| + |b|)
    ensures WriteAt(first, at + |a|, b)[i] == WriteAt(d, at, a + b)[i]
  {
    ByteOfTwo(d, first, at, a, b, i);
    WrittenByte(d, at, a + b, i);
    WrittenByte(first, at + |a|, b, i);
  }

  lemma SameBytes(x: seq<byte>, y: seq<byte>)
    requires |x| == |y| && forall i :: 0 <= i < |x| ==> x[i] == y[i]
    ensures x == y
  {
  }

  lemma BothWrites(d: seq<byte>, at: nat, a: seq<byte>, b: seq<byte>)
    requires a != [] && b != []
    ensures WriteAt(WriteAt(d, at, a), at + |a|, b) == WriteAt(d, at, a + b)
  {
    var twice, once := WriteAt(WriteAt(d, at, a), at + |a|, b), WriteAt(d, at, a + b);
    WrittenByte(d, at, a + b, 0);
    SecondWrite(d, at, a, b, 0);
    forall i | 0 <= i < |once|
      ensures twice[i] == once[i]
    {
      SecondWrite(d, at, a, b, i);
    }
    SameBytes(twice, once);
  }

  // Two writes, one behind the other, are one write.
  lemma WriteTwice(d: seq<byte>, at: nat, a: seq<byte>, b: seq<byte>)
    ensures WriteAt(WriteAt(d, at, a), at + |a|, b) == WriteAt(d, at, a + b)
  {
    if a == [] {
      assert a + b == b;
    } else if b == [] {
      assert a + b == a;
    } else {
      BothWrites(d, at, a, b);
    }
  }

  // The copy loop: the pieces a body is read in, written one behind the other from `base`.
  // The read after the last piece ends the body (a clean end, or an error); failAt is the
  // piece whose write fails, if any. Whatever the pieces are, the bytes on disk, the bytes
  // hashed and the bytes counted are the same body.
  method CopyChunkFrom(disk: seq<byte>, base: nat, pieces: seq<seq<byte>>, broken: bool, failAt: Option<nat>)
    returns (left: seq<byte>, off: nat, hashed: seq<byte>, ok: bool)
    ensures var k := if failAt.Some? && failAt.value < |pieces| then failAt.value else |pieces|;
            && hashed == Joined(pieces[..k]) && off == |hashed| && left == WriteAt(disk, base, hashed)
            && (ok <==> k == |pieces| && !broken)
  {
    left, off, hashed := disk, 0, [];
    for i := 0 to |pieces|
      invariant failAt.Some? ==> failAt.value >= i
      invariant hashed == Joined(pieces[..i]) && off == |hashed| && left == WriteAt(disk, base, hashed)
    {
      if failAt == Some(i) {
        return left, off, hashed, false;
      }
      assert pieces[..i + 1][..i] == pieces[..i];
      WriteTwice(disk, base, hashed, pieces[i]);
      left := WriteAt(left, base + off, pieces[i]);
      hashed := hashed + pieces[i];
      off := off + |pieces[i]|;
    }
    assert pieces[..|pieces|] == pieces;
    ok := !broken;
  }

  lemma CopiedPhase(j: Job, s: Run, w: nat, k: nat)
    requires CanCopy(j, s, w, k)
    ensures var t, ph := DoCopy(j, s, w, k), s.workers[w].phase;
            t == s.(disk := Written(j, s, w, k), bytesDone := s.bytesDone + k,
                    workers := s.workers[w := Worker(s.workers[w].region, ph.(off := ph.off + k))])
  {
  }

  lemma WriteTwiceAs(d: seq<byte>, at: nat, a: seq<byte>, b: seq<byte>, next: nat, both: seq<byte>)
    requires next == at + |a| && both == a + b
    ensures WriteAt(WriteAt(d, at, a), next, b) == WriteAt(d, at, both)
  {
    WriteTwice(d, at, a, b);
  }

  lemma Slices(d: seq<byte>, at: nat, next: nat, body: seq<byte>, lo: nat, mid: nat, hi: nat,
               b: seq<byte>, all: seq<byte>)
    requires lo <= mid <= hi <= |body| && next == at + (mid - lo) && b == body[mid..hi] && all == body[lo..hi]
    ensures WriteAt(WriteAt(d, at, body[lo..mid]), next, b) == WriteAt(d, at, all)
  {
    SliceJoin(body, lo, mid, hi);
    WriteTwiceAs(d, at, body[lo..mid], b, next, all);
  }

  lemma WrittenIs(j: Job, s: Run, w: nat, k: nat, disk: seq<byte>, at: int, body: seq<byte>, lo: nat, hi: nat)
    requires CanCopy(j, s, w, k) && s.disk == disk && s.workers[w].phase.body == body
    requires s.workers[w].phase.off == lo && hi == lo + k
    requires at == FileOffset(j, s.workers[w].region, s.workers[w].phase.c) + lo
    ensures 0 <= at && hi <= |body| && Written(j, s, w, k) == WriteAt(disk, at, body[lo..hi])
  {
  }

  lemma CopiedBytes(j: Job, s: Run, t: Run, w: nat, k: nat, m: nat)
    requires CanCopy(j, s, w, k + m) && CanCopy(j, t, w, m)
    requires t.workers[w] == Worker(s.workers[w].region, s.workers[w].phase.(off := s.workers[w].phase.off + k))
    requires CanCopy(j, s, w, k) && t.disk == Written(j, s, w, k)
    ensures Written(j, t, w, m) == Written(j, s, w, k + m)
  {
    var ph := s.workers[w].phase;
    var at, lo, mid, hi := FileOffset(j, s.workers[w].region, ph.c) + ph.off, ph.off, ph.off + k, ph.off + k + m;
    WrittenIs(j, s, w, k, s.disk, at, ph.body, lo, mid);
    WrittenIs(j, s, w, k + m, s.disk, at, ph.body, lo, hi);
    WrittenIs(j, t, w, m, t.disk, at + k, ph.body, mid, hi);
    Slices(s.disk, at, at + k, ph.body, lo, mid, hi, ph.body[mid..hi], ph.body[lo..hi]);
  }

  // In the worker machine, too, it does not matter into how many reads a body falls.
  lemma CopiesCompose(j: Job, s: Run, w: nat, k: nat, m: nat)
    requires CanCopy(j, s, w, k + m)
    ensures CanCopy(j, s, w, k) && CanCopy(j, DoCopy(j, s, w, k), w, m)
    ensures DoCopy(j, DoCopy(j, s, w, k), w, m) == DoCopy(j, s, w, k + m)
  {
    var t := DoCopy(j, s, w, k);
    CopiedPhase(j, s, w, k);
    CopiedPhase(j, s, w, k + m);
    CopiedPhase(j, t, w, m);
    CopiedBytes(j, s, t, w, k, m);
  }

  // ----- the task -----

  // One queue per region: the shared chunk queue (alone, or for region 1), the static
  // segments (alone, or for region 2).
  class Task {
    const o: Options
    const p: Probe
    var shared: ChunkQueue?
    var segments: StaticQueue?
    var splitAt: int
    var effective: int
    var ariaSplit: int
    var bytesDone: int
    var hashes: map<int, Digest>

    ghost predicate Valid()
      reads this, segments
    {
      && (shared != null || segments != null) && (segments != null ==> segments.Valid())
      && (shared != null && segments != null <==> SplitsInTwo(o, p))
      && (shared == null <==> o.profile == Aria2c && QueueSize(p) > 0)
      && splitAt == Layout().splitAt && effective == Layout().effective && ariaSplit == Layout().ariaSplit
    }

    ghost function Layout(): Plan
    {
      MakePlan(o, p)
    }

    ghost function Queues(): seq<W.Queue>
      reads this, shared, segments
      requires Valid()
    {
      if shared == null then [segments.View()]
      else if segments == null then [shared.View()]
      else [shared.View(), segments.View()]
    }

    ghost predicate Untouched()
      reads this, shared, segments
    {
      Valid() && Queues() == FreshQueues(Layout()) && (segments != null ==> segments.next == 0 && segments.done == {})
    }

    // The layout decision of Start.
    static method LayOut(o: Options, p: Probe)
      returns (shared: ChunkQueue?, segments: StaticQueue?, splitAt: int, effective: int, ariaSplit: int)
      ensures var plan := MakePlan(o, p);
              splitAt == plan.splitAt && effective == plan.effective && ariaSplit == plan.ariaSplit
      ensures shared != null && segments != null <==> SplitsInTwo(o, p)
      ensures shared == null <==> o.profile == Aria2c && QueueSize(p) > 0
      ensures shared != null || segments != null
      ensures shared != null ==> fresh(shared) && shared.View() == FreshQueue(MakePlan(o, p).regions[0])
      ensures segments != null ==>
                fresh(segments) && segments.Valid() && segments.next == 0 && segments.done == {}
                && segments.View() == FreshQueue(MakePlan(o, p).regions[if shared == null then 0 else 1])
    {
      shared, segments, splitAt, effective, ariaSplit := null, null, 0, o.chunkSize, 0;
      var qs := if p.singleStream then -1 else p.totalSize;
      var isAria := o.profile == Aria2c;
      var isBoth := o.profile == Both;
      if isAria && qs > 0 {
        var (n, seg) := AriaSplit(qs, o.split, o.minSplit);
        effective, ariaSplit := seg, n;
      }
      if isBoth && qs > 0 && qs < 4 * 1024 * 1024 {
        isBoth := false;
      }
      if isBoth && qs > 0 {
        if o.conns < 2 {
          isBoth := false;
        }
      }
      if isBoth && qs > 0 {
        splitAt := Max(qs / 2, 1);
        var (n2, _) := AriaSplit(qs - splitAt, o.split, o.minSplit);
        shared := new ChunkQueue(splitAt, o.chunkSize);
        segments := new StaticQueue(qs - splitAt, n2);
        ariaSplit := n2;
      } else if isAria && qs > 0 {
        segments := new StaticQueue(qs, ariaSplit);
      } else {
        shared := new ChunkQueue(qs, effective);
      }
    }

    constructor (options: Options, probe: Probe)
      ensures o == options && p == probe && Untouched() && hashes == map[] && bytesDone == 0
      ensures shared != null ==> fresh(shared)
      ensures segments != null ==> fresh(segments)
    {
      o, p := options, probe;
      bytesDone, hashes := 0, map[];
      var c, q, at, size, n := LayOut(options, probe);
      shared, segments, splitAt, effective, ariaSplit := c, q, at, size, n;
    }

    // Recorded offsets are split over the regions; only the shared queue may refuse them.
    method Seed(offsets: set<int>) returns (already: int, ok: bool)
      requires Untouched()
      modifies shared, segments
      ensures Valid() && 1 <= |Layout().regions| <= 2
      ensures (Queues(), already, ok) == SeedQueues(Layout(), offsets, p.totalSize)
    {
      PlanShape(o, p);
      SegmentsAreWhole();
      if shared != null && segments != null {
        var done1, done2 := SplitOffsets(offsets, splitAt);
        assert done1 == OffsetsOf(Layout(), 0, offsets) && done2 == OffsetsOf(Layout(), 1, offsets);
        var a1, a2, accepted;
        a1, ok := shared.ResetCompletedOffsets(done1, splitAt);
        a2, accepted := segments.ResetCompletedOffsets(done2, splitAt);
        already := a1 + a2;
      } else if shared != null {
        already, ok := shared.ResetCompletedOffsets(offsets, p.totalSize);
      } else {
        already, ok := segments.ResetCompletedOffsets(offsets, p.totalSize);
      }
    }

    // An untouched static queue holds all its segments, and they have an end.
    lemma SegmentsAreWhole()
      requires Untouched()
      ensures segments != null ==> forall c :: c in segments.chunks ==> c.end >= 0
      ensures segments != null ==> p.totalSize >= 0 && splitAt >= 0
    {
      if segments != null {
        W.MissingNone(segments.chunks, {});
        assert segments.chunks[0..] == segments.chunks;
        if SplitsInTwo(o, p) {
          TwoRegions(o, p);
          CutOrdered(p.totalSize - splitAt, Region2Size(o, p, Layout()));
        } else {
          OneRegion(o, p);
          CutOrdered(p.totalSize, StepAt(o, p, Layout(), 0));
        }
      }
    }

    // Offsets the queues list as completed, region 2's made absolute.
    ghost function Completed(): set<int>
      requires Valid() && 1 <= |Queues()| == |Layout().regions| <= 2
      reads this, shared, segments
    {
      AbsoluteDone(Layout().regions, Queues())
    }

    // Keep the digests of what the queues took over.
    method RestoreChunkHashes(cf: Control)
      requires Valid() && 1 <= |Queues()| == |Layout().regions| <= 2
      modifies this`hashes
      ensures hashes == old(hashes) + map off | off in Completed() && off in cf.hashes :: cf.hashes[off]
    {
      if cf.hashes == map[] {
        return;
      }
      ghost var before := hashes;
      if shared != null && segments != null {
        TwoRegions(o, p);
        hashes := CopyHashes(shared.completed, 0, cf.hashes, hashes);
        hashes := CopyHashes(segments.done, splitAt, cf.hashes, hashes);
        BothCopied(shared.completed, segments.done, splitAt, cf.hashes, before);
      } else if shared != null {
        hashes := CopyHashes(shared.completed, 0, cf.hashes, hashes);
        NoShift(shared.completed);
      } else {
        hashes := CopyHashes(segments.done, 0, cf.hashes, hashes);
        NoShift(segments.done);
      }
    }

    // The resume decision of Start: the guard, the region split, the byte count, the digests.
    method Resume(control: Option<Control>, stale: bool) returns (already: int)
      requires Untouched() && hashes == map[] && bytesDone == 0
      modifies this`bytesDone, this`hashes, shared, segments
      ensures Valid() && 1 <= |Layout().regions| <= 2 && bytesDone == already
      ensures Prepared(Queues(), already, hashes)
           == if Resumes(o, p, Layout(), control, stale) then FromControl(o, p, Layout(), control.value)
               else FromScratch(Layout())
    {
      PlanShape(o, p);
      already := 0;
      if o.resume && control.Some? {
        var cf := control.value;
        if stale {
        } else if cf.totalSize == p.totalSize && cf.chunkSize == effective
            && (cf.profile == Unset || cf.profile == o.profile)
          && cf.splitAt == splitAt && cf.region2 == Region2Size(o, p, MakePlan(o, p)) {
          var ok;
          already, ok := Seed(cf.completed);
          if !ok {
            already := 0;
          } else {
            bytesDone := already;
            RestoreChunkHashes(cf);
            assert map[] + (map off | off in Completed() && off in cf.hashes :: cf.hashes[off])
                == map off | off in Completed() && off in cf.hashes :: cf.hashes[off];
          }
        }
      }
    }

    // The same layout again, from scratch.
    method Rebuild()
      requires Valid()
      modifies this`shared, this`segments
      ensures Untouched()
      ensures shared != null ==> fresh(shared)
      ensures segments != null ==> fresh(segments)
    {
      var qs := if p.singleStream then -1 else p.totalSize;
      if shared != null && segments != null {
        var (n2, _) := AriaSplit(qs - splitAt, o.split, o.minSplit);
        shared := new ChunkQueue(splitAt, o.chunkSize);
        segments := new StaticQueue(qs - splitAt, n2);
      } else if o.profile == Aria2c && qs > 0 {
        segments := new StaticQueue(qs, ariaSplit);
      } else {
        shared := new ChunkQueue(qs, effective);
      }
    }

    // Everything Start does between the layout and the first worker. sampleOk is the answer
    // of the sampled compare with the server.
    method PrepareRun(control: Option<Control>, stale: bool, disk: seq<byte>, sampleOk: bool) returns (already: int)
      requires Untouched() && hashes == map[] && bytesDone == 0
      modifies this, shared, segments
      ensures Valid() && 1 <= |Layout().regions| <= 2 && bytesDone == already
      ensures Prepared(Queues(), already, hashes) == Prepare(o, p, Layout(), disk, control, stale, sampleOk)
    {
      already := Resume(control, stale);
      if already > 0 {
        var cf := control.value;
        var good := true;
        var full := HasFullHashCoverage(cf);
        if full {
          good := VerifyResumedHashes(o, p, MakePlan(o, p), disk, cf);
        }
        if !(good && sampleOk) {
          already := 0;
          bytesDone := 0;
          hashes := map[];
          Rebuild();
        }
      }
    }

    // The recorded digests of completed chunks only.
    method SnapshotChunkHashes(completed: set<int>) returns (out: map<int, Digest>)
      ensures out == map off | off in completed && off in hashes :: hashes[off]
    {
      if hashes == map[] {
        return map[];
      }
      out := CopyHashes(completed, 0, hashes, map[]);
      NoShift(completed);
    }

    // What a checkpoint writes is what the worker machine says it writes.
    method PersistControl() returns (cf: Control)
      requires Valid() && 1 <= |Queues()| == |Layout().regions| <= 2
      ensures forall j: Job, s: Run ::
                j.o == o && j.p == p && j.plan == Layout() && s.queues == Queues() && s.hashes == hashes
                ==> cf == Snapshot(j, s, s.queues[0].done)
    {
      var completed: set<int>;
      if shared != null && segments != null {
        TwoRegions(o, p);
        completed := shared.completed + Shifted(segments.done, splitAt);
      } else if shared != null {
        completed := shared.completed;
      } else {
        completed := segments.done;
      }
      var sums := SnapshotChunkHashes(completed);
      cf := Control(p.totalSize, RecordedChunkSize(o, p, MakePlan(o, p)), o.profile, splitAt,
                    Region2Size(o, p, MakePlan(o, p)), completed, sums);
    }
  }

  lemma NoShift(s: set<int>)
    ensures Shifted(s, 0) == s
  {
    forall x
      ensures x in Shifted(s, 0) <==> x in s
    {
      ShiftedMember(s, 0, x);
    }
  }

  lemma BothCopied(a: set<int>, b: set<int>, base: int, recorded: map<int, Digest>, into: map<int, Digest>)
    ensures (into + map off | off in Shifted(a, 0) && off in recorded :: recorded[off])
              + (map off | off in Shifted(b, base) && off in recorded :: recorded[off])
         == into + map off | off in a + Shifted(b, base) && off in recorded :: recorded[off]
  {
    NoShift(a);
  }
}
