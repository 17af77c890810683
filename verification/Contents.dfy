// What is on disk and what the digests say: at every step each done chunk holds the server's
// bytes, its recorded digest is of exactly those bytes, and so is every saved control file.
module Contents {
  import opened Chunks
  import opened Layout
  import opened Workers
  import opened Ownership
  import W = WorkQueue

  // The probe does not lie about a size it reports, and the plan is the one Start builds.
  ghost predicate Sound(j: Job)
  {
    && j.plan == MakePlan(j.o, j.p)
    && (j.p.totalSize >= 0 ==> j.p.totalSize == |j.content|)
  }

  ghost predicate GoodBytes(content: seq<byte>, disk: seq<byte>, lo: int, hi: int)
  {
    0 <= lo <= hi <= |disk| && hi <= |content| && forall p :: lo <= p < hi ==> disk[p] == content[p]
  }

  // d is the digest of the content from `at` on, for as long as d says.
  ghost predicate HashFits(content: seq<byte>, at: int, d: Digest)
  {
    0 <= at && at + |d.of| <= |content| && d.of == content[at..at + |d.of|]
  }

  // A chunk [lo, hi) has a digest of content; when the size is known, of exactly its own
  // bytes, and the disk holds them.
  ghost predicate Vouched(j: Job, disk: seq<byte>, d: Digest, lo: int, hi: int)
  {
    && HashFits(j.content, lo, d)
    && (j.p.totalSize > 0 ==> |d.of| == hi - lo && GoodBytes(j.content, disk, lo, hi))
  }

  ghost predicate Recorded(j: Job, disk: seq<byte>, hashes: map<int, Digest>, r: Region, c: Chunk)
  {
    var lo := Lo(r, c);
    lo in hashes && Vouched(j, disk, hashes[lo], lo, Hi(r, c, j.p.totalSize))
  }

  ghost predicate PhaseOk(j: Job, disk: seq<byte>, hashes: map<int, Digest>, r: Region, ph: Phase)
  {
    match ph
    case Copying(c, n, body, ending, off) =>
      && 0 <= Lo(r, c) <= |j.content| && off <= |body| && body <= j.content[Lo(r, c)..]
      && (j.p.totalSize > 0 ==> GoodBytes(j.content, disk, Lo(r, c), Lo(r, c) + off))
    case Fetched(c, sum) => Vouched(j, disk, sum, Lo(r, c), Hi(r, c, j.p.totalSize))
    case Hashed(c) => Recorded(j, disk, hashes, r, c)
    case _ => true
  }

  ghost predicate PhasesOk(j: Job, s: Run)
    requires Shape(j, s)
  {
    forall w :: 0 <= w < |s.workers| ==>
      PhaseOk(j, s.disk, s.hashes, j.plan.regions[s.workers[w].region], s.workers[w].phase)
  }

  ghost predicate DoneOk(j: Job, s: Run)
    requires Shape(j, s)
  {
    forall e, c :: Has(j.plan.regions, e, c) && c.start in s.queues[e].done ==>
      Recorded(j, s.disk, s.hashes, j.plan.regions[e], c)
  }

  // A control file any run may trust after checking digests: each offset has a digest of the
  // content at that offset, and region 1 lists chunks of region 1 that stay inside it.
  ghost predicate ControlOk(content: seq<byte>, cf: Control)
  {
    && (forall off :: off in cf.completed ==> off in cf.hashes && HashFits(content, off, cf.hashes[off]))
    && (cf.splitAt > 0 ==> forall off :: off in cf.completed && off < cf.splitAt ==>
          off in Starts(FixedChunks(cf.splitAt, cf.chunkSize)) && off + |cf.hashes[off].of| <= cf.splitAt)
  }

  // A control file saved by this run, seen from the current state.
  ghost predicate OwnControl(j: Job, s: Run, cf: Control)
    requires Shape(j, s)
  {
    && cf.totalSize == j.p.totalSize && cf.profile == j.o.profile && cf.region2 == Region2Size(j.o, j.p, j.plan)
    && cf.splitAt == j.plan.splitAt && cf.chunkSize == RecordedChunkSize(j.o, j.p, j.plan)
    && (forall off :: off in cf.completed ==>
          && DoneAt(j, s, off)
          && off in cf.hashes && off in s.hashes && cf.hashes[off] == s.hashes[off])
  }

  // A chunk that starts at this absolute offset is done.
  ghost predicate DoneAt(j: Job, s: Run, off: int)
    requires Shape(j, s)
  {
    exists e, c :: Has(j.plan.regions, e, c) && Lo(j.plan.regions[e], c) == off && c.start in s.queues[e].done
  }

  ghost predicate SavedOk(j: Job, s: Run)
    requires Shape(j, s)
  {
    && (s.mu.Some? ==> s.mu.value <= s.queues[0].done)
    && (s.control.Some? ==> ControlOk(j.content, s.control.value))
    && (s.own ==> s.control.Some? && OwnControl(j, s, s.control.value))
  }

  ghost predicate Intact(j: Job, s: Run)
    requires Shape(j, s)
  {
    && (j.p.totalSize > 0 ==> |s.disk| == j.p.totalSize)
    && PhasesOk(j, s) && DoneOk(j, s) && SavedOk(j, s)
  }

  // ----- facts about a plan's chunks -----

  // A plain GET writes where a ranged one would, and a full-length body fills the chunk.
  lemma ChunkFacts(j: Job, e: int, c: Chunk)
    requires Sound(j) && Has(j.plan.regions, e, c)
    ensures FileOffset(j, e, c) == AbsStart(j, e, c) >= 0
    ensures j.p.totalSize > 0 ==> forall n: nat {:trigger FullLength(j, c, n)} ::
              FullLength(j, c, n) <==> n == Hi(j.plan.regions[e], c, j.p.totalSize) - Lo(j.plan.regions[e], c)
  {
    if SplitsInTwo(j.o, j.p) {
      TwoRegions(j.o, j.p);
      CutOrdered(j.plan.splitAt, EffectiveStep(j.o.chunkSize));
      CutOrdered(j.p.totalSize - j.plan.splitAt, Region2Size(j.o, j.p, j.plan));
    } else {
      OneRegion(j.o, j.p);
      if !j.p.singleStream && j.p.totalSize > 0 {
        CutOrdered(j.p.totalSize, StepAt(j.o, j.p, j.plan, 0));
      }
    }
  }

  // No two chunks of a plan start at the same byte of the file.
  lemma DistinctStarts(j: Job)
    requires Sound(j)
    ensures Distinct(j)
    ensures forall e, c, f, d ::
              (Has(j.plan.regions, e, c) && Has(j.plan.regions, f, d)
                  && Lo(j.plan.regions[e], c) == Lo(j.plan.regions[f], d))
              ==> e == f && c == d
  {
    PlanWellLaid(j.o, j.p);
    if j.p.totalSize <= 0 {
      OneRegion(j.o, j.p);
    } else {
      var rs, total := j.plan.regions, j.p.totalSize;
      forall e, c, f, d | Has(rs, e, c) && Has(rs, f, d) && (e != f || c != d)
        ensures Lo(rs[e], c) != Lo(rs[f], d)
      {
        assert Apart(rs, total, e, c, f, d);
      }
    }
  }

  // ----- writes -----

  // Every good byte stays good.
  ghost predicate Improves(content: seq<byte>, d: seq<byte>, d': seq<byte>)
  {
    |d'| == |d| && forall p :: 0 <= p < |d| && p < |content| && d[p] == content[p] ==> d'[p] == content[p]
  }

  lemma HonestWrite(content: seq<byte>, d: seq<byte>, lo: nat, body: seq<byte>, off: nat, k: nat)
    requires lo <= |content| == |d| && body <= content[lo..] && off + k <= |body|
    ensures var d' := WriteAt(d, lo + off, body[off..off + k]);
            Improves(content, d, d')
            && (GoodBytes(content, d, lo, lo + off) ==> GoodBytes(content, d', lo, lo + off + k))
  {
    var b := HonestSlice(content, lo, body, off, k);
    RightWrite(content, d, lo + off, b);
    if GoodBytes(content, d, lo, lo + off) {
      GoodJoin(content, d, WriteAt(d, lo + off, b), lo, lo + off, lo + off + k);
    }
  }

  lemma HonestByte(content: seq<byte>, lo: nat, body: seq<byte>, p: nat)
    requires lo <= |content| && body <= content[lo..] && p < |body|
    ensures lo + p < |content| && body[p] == content[lo + p]
  {
    assert body[p] == content[lo..][p];
  }

  lemma HonestSlice(content: seq<byte>, lo: nat, body: seq<byte>, off: nat, k: nat) returns (b: seq<byte>)
    requires lo <= |content| && body <= content[lo..] && off + k <= |body|
    ensures b == body[off..off + k] && lo + off + |b| <= |content|
    ensures forall i :: 0 <= i < |b| ==> b[i] == content[lo + off + i]
  {
    b := body[off..off + k];
    forall i | 0 <= i < |b|
      ensures b[i] == content[lo + off + i]
    {
      HonestByte(content, lo, body, off + i);
    }
  }

  // Right bytes, written where they belong.
  lemma RightWrite(content: seq<byte>, d: seq<byte>, at: nat, b: seq<byte>)
    requires at + |b| <= |content| == |d| && forall i :: 0 <= i < |b| ==> b[i] == content[at + i]
    ensures var d' := WriteAt(d, at, b); Improves(content, d, d') && GoodBytes(content, d', at, at + |b|)
  {
  }

  lemma GoodJoin(content: seq<byte>, d: seq<byte>, d': seq<byte>, lo: int, mid: int, hi: int)
    requires GoodBytes(content, d, lo, mid) && Improves(content, d, d') && GoodBytes(content, d', mid, hi)
    ensures GoodBytes(content, d', lo, hi)
  {
  }

  lemma PhaseFrame(j: Job, d: seq<byte>, d': seq<byte>, hashes: map<int, Digest>, r: Region, ph: Phase)
    requires PhaseOk(j, d, hashes, r, ph) && (j.p.totalSize > 0 ==> Improves(j.content, d, d'))
    ensures PhaseOk(j, d', hashes, r, ph)
  {
  }

  lemma DiskFrame(j: Job, s: Run, t: Run)
    requires Shape(j, s) && Shape(j, t) && Intact(j, s)
    requires t.queues == s.queues && t.hashes == s.hashes && t.mu == s.mu && t.control == s.control && t.own == s.own
    requires j.p.totalSize > 0 ==> Improves(j.content, s.disk, t.disk)
    requires PhasesOk(j, t)
    ensures Intact(j, t)
  {
    forall e, c | Has(j.plan.regions, e, c) && c.start in t.queues[e].done
      ensures Recorded(j, t.disk, t.hashes, j.plan.regions[e], c)
    {
      assert Recorded(j, s.disk, s.hashes, j.plan.regions[e], c);
    }
    assert forall off :: DoneAt(j, s, off) ==> DoneAt(j, t, off);
  }

  // A step that replaces one worker's phase and otherwise only improves the disk.
  lemma PhaseStep(j: Job, s: Run, w: nat, t: Run)
    requires Shape(j, s) && Shape(j, t) && Intact(j, s) && w < |s.workers|
    requires t.queues == s.queues && t.hashes == s.hashes && t.mu == s.mu && t.control == s.control && t.own == s.own
    requires j.p.totalSize > 0 ==> Improves(j.content, s.disk, t.disk)
    requires |t.workers| == |s.workers| && t.workers == s.workers[w := t.workers[w]]
    requires t.workers[w].region == s.workers[w].region
    requires PhaseOk(j, t.disk, t.hashes, j.plan.regions[t.workers[w].region], t.workers[w].phase)
    ensures Intact(j, t)
  {
    forall v | 0 <= v < |t.workers|
      ensures PhaseOk(j, t.disk, t.hashes, j.plan.regions[t.workers[v].region], t.workers[v].phase)
    {
      if v != w {
        PhaseFrame(j, s.disk, t.disk, s.hashes, j.plan.regions[s.workers[v].region], s.workers[v].phase);
      }
    }
    DiskFrame(j, s, t);
  }

  predicate Idle(ph: Phase)
  {
    !ph.Copying? && !ph.Fetched? && !ph.Hashed?
  }

  lemma FailedAttempt(j: Job, s: Run, u: Run, w: nat, c: Chunk, n: nat, off: nat, permanent: bool)
    requires Shape(j, s) && Intact(j, s) && w < |s.workers|
    requires u == s.(disk := u.disk) && (j.p.totalSize > 0 ==> Improves(j.content, s.disk, u.disk))
    ensures Shape(j, AttemptFailed(j, u, w, c, n, off, permanent))
    ensures Intact(j, AttemptFailed(j, u, w, c, n, off, permanent))
  {
    var t := AttemptFailed(j, u, w, c, n, off, permanent);
    PhaseStep(j, s, w, t);
  }

  lemma AnswerKeeps(j: Job, s: Run, w: nat, r: Reply)
    requires Sound(j) && Owned(j, s) && Intact(j, s)
    requires Can(j, s, Answer(w, r)) && Honest(j, s.workers[w].phase.c, r)
    ensures Shape(j, DoAnswer(j, s, w, r)) && Intact(j, DoAnswer(j, s, w, r))
  {
    var ph := s.workers[w].phase;
    var e := s.workers[w].region;
    match Check(j, e, ph.c, r)
    case Accept =>
      assert Hand(s.workers[w]) == Some(ph.c);
      ChunkFacts(j, e, ph.c);
      PhaseStep(j, s, w, DoAnswer(j, s, w, r));
    case Reject(permanent) => FailedAttempt(j, s, s, w, ph.c, ph.n, 0, permanent);
  }

  // What a copying worker holds.
  lemma CopyFacts(j: Job, s: Run, w: nat, k: nat)
    requires Sound(j) && Owned(j, s) && Intact(j, s) && CanCopy(j, s, w, k)
    ensures var ph := s.workers[w].phase;
            var lo := Lo(j.plan.regions[s.workers[w].region], ph.c);
            && FileOffset(j, s.workers[w].region, ph.c) == lo >= 0
            && (j.p.totalSize > 0 ==>
                  lo <= |j.content| == |s.disk| && ph.body <= j.content[lo..] && ph.off + k <= |ph.body|
                  && GoodBytes(j.content, s.disk, lo, lo + ph.off))
  {
    var ph := s.workers[w].phase;
    var e := s.workers[w].region;
    assert Hand(s.workers[w]) == Some(ph.c);
    ChunkFacts(j, e, ph.c);
    assert PhaseOk(j, s.disk, s.hashes, j.plan.regions[e], ph);
  }

  lemma WriteOf(j: Job, s: Run, w: nat, k: nat, lo: nat)
    requires CanCopy(j, s, w, k) && FileOffset(j, s.workers[w].region, s.workers[w].phase.c) == lo
    requires var ph := s.workers[w].phase;
             lo <= |j.content| == |s.disk| && ph.body <= j.content[lo..] && ph.off + k <= |ph.body|
             && GoodBytes(j.content, s.disk, lo, lo + ph.off)
    ensures Improves(j.content, s.disk, Written(j, s, w, k))
    ensures GoodBytes(j.content, Written(j, s, w, k), lo, lo + s.workers[w].phase.off + k)
  {
    HonestWrite(j.content, s.disk, lo, s.workers[w].phase.body, s.workers[w].phase.off, k);
  }

  // The write a copying worker is about to make.
  lemma CopyWrite(j: Job, s: Run, w: nat, k: nat)
    requires Sound(j) && Owned(j, s) && Intact(j, s) && CanCopy(j, s, w, k)
    ensures var ph := s.workers[w].phase;
            var lo := Lo(j.plan.regions[s.workers[w].region], ph.c);
            j.p.totalSize > 0 ==>
              Improves(j.content, s.disk, Written(j, s, w, k))
                  && GoodBytes(j.content, Written(j, s, w, k), lo, lo + ph.off + k)
  {
    CopyFacts(j, s, w, k);
    if j.p.totalSize > 0 {
      WriteOf(j, s, w, k, Lo(j.plan.regions[s.workers[w].region], s.workers[w].phase.c));
    }
  }

  lemma CopyKeeps(j: Job, s: Run, w: nat, k: nat)
    requires Sound(j) && Owned(j, s) && Intact(j, s) && CanCopy(j, s, w, k)
    ensures Shape(j, DoCopy(j, s, w, k)) && Intact(j, DoCopy(j, s, w, k))
  {
    CopyWrite(j, s, w, k);
    assert PhaseOk(j, s.disk, s.hashes, j.plan.regions[s.workers[w].region], s.workers[w].phase);
    PhaseStep(j, s, w, DoCopy(j, s, w, k));
  }

  lemma CopyFailKeeps(j: Job, s: Run, w: nat, torn: nat)
    requires Sound(j) && Owned(j, s) && Intact(j, s) && CanCopy(j, s, w, torn)
    ensures Shape(j, DoCopyFail(j, s, w, torn)) && Intact(j, DoCopyFail(j, s, w, torn))
  {
    CopyWrite(j, s, w, torn);
    var ph := s.workers[w].phase;
    FailedAttempt(j, s, s.(disk := Written(j, s, w, torn)), w, ph.c, ph.n, ph.off, false);
  }

  lemma CopyEndKeeps(j: Job, s: Run, w: nat)
    requires Sound(j) && Owned(j, s) && Intact(j, s) && Can(j, s, CopyEnd(w))
    ensures Shape(j, DoCopyEnd(j, s, w)) && Intact(j, DoCopyEnd(j, s, w))
  {
    var ph := s.workers[w].phase;
    var e := s.workers[w].region;
    assert Hand(s.workers[w]) == Some(ph.c);
    assert PhaseOk(j, s.disk, s.hashes, j.plan.regions[e], ph);
    if ph.ending.Broken? {
      FailedAttempt(j, s, s, w, ph.c, ph.n, ph.off, false);
    } else if !FullLength(j, ph.c, ph.off) {
      FailedAttempt(j, s, s, w, ph.c, ph.n, ph.off, true);
    } else {
      WholeBodyKeeps(j, s, w);
    }
  }

  lemma WholeBodyKeeps(j: Job, s: Run, w: nat)
    requires Sound(j) && Owned(j, s) && Intact(j, s) && Can(j, s, CopyEnd(w)) && s.workers[w].phase.ending.Eof?
    requires FullLength(j, s.workers[w].phase.c, s.workers[w].phase.off)
    ensures Shape(j, DoCopyEnd(j, s, w)) && Intact(j, DoCopyEnd(j, s, w))
  {
    var ph, e := s.workers[w].phase, s.workers[w].region;
    assert Hand(s.workers[w]) == Some(ph.c);
    assert PhaseOk(j, s.disk, s.hashes, j.plan.regions[e], ph);
    WholeBodyVouched(j, s, e, ph);
    assert DoCopyEnd(j, s, w) == At(s, w, Fetched(ph.c, Digest(ph.body)));
    PhaseStep(j, s, w, DoCopyEnd(j, s, w));
  }

  lemma WholeBodyVouched(j: Job, s: Run, e: nat, ph: Phase)
    requires Sound(j) && ph.Copying? && Has(j.plan.regions, e, ph.c) && ph.off == |ph.body|
    requires PhaseOk(j, s.disk, s.hashes, j.plan.regions[e], ph) && FullLength(j, ph.c, ph.off)
    ensures PhaseOk(j, s.disk, s.hashes, j.plan.regions[e], Fetched(ph.c, Digest(ph.body)))
  {
    ChunkFacts(j, e, ph.c);
    var lo := Lo(j.plan.regions[e], ph.c);
    assert ph.body == j.content[lo..][..|ph.body|] == j.content[lo..lo + |ph.body|];
  }

  // ----- hashes -----

  // Adding a digest at an offset where no recorded chunk starts disturbs nobody.
  lemma NewHashFrame(j: Job, s: Run, t: Run, lo: int, sum: Digest)
    requires Shape(j, s) && Shape(j, t) && Intact(j, s)
    requires t == s.(workers := t.workers, hashes := s.hashes[lo := sum])
    requires forall e, c :: Has(j.plan.regions, e, c) && c.start in s.queues[e].done ==> Lo(j.plan.regions[e], c) != lo
    requires PhasesOk(j, t)
    ensures Intact(j, t)
  {
    forall e, c | Has(j.plan.regions, e, c) && c.start in t.queues[e].done
      ensures Recorded(j, t.disk, t.hashes, j.plan.regions[e], c)
    {
      assert Recorded(j, s.disk, s.hashes, j.plan.regions[e], c);
    }
    forall off | DoneAt(j, s, off)
      ensures DoneAt(j, t, off) && off != lo
    {
      var e, c :| Has(j.plan.regions, e, c) && Lo(j.plan.regions[e], c) == off && c.start in s.queues[e].done;
      assert c.start in t.queues[e].done;
    }
  }

  lemma PhaseNewHash(j: Job, d: seq<byte>, hashes: map<int, Digest>, lo: int, sum: Digest, r: Region, ph: Phase)
    requires PhaseOk(j, d, hashes, r, ph) && (ph.Hashed? ==> Lo(r, ph.c) != lo)
    ensures PhaseOk(j, d, hashes[lo := sum], r, ph)
  {
  }

  // Chunks in different hands start at different offsets of the file.
  lemma HandsApart(j: Job, s: Run, w: nat, v: nat)
    requires Sound(j) && Owned(j, s) && w < |s.workers| && v < |s.workers| && w != v
    requires Hand(s.workers[w]).Some? && Hand(s.workers[v]).Some?
    ensures Lo(j.plan.regions[s.workers[w].region], Hand(s.workers[w]).value)
         != Lo(j.plan.regions[s.workers[v].region], Hand(s.workers[v]).value)
  {
    DistinctStarts(j);
    assert Has(j.plan.regions, s.workers[w].region, Hand(s.workers[w]).value);
    assert Has(j.plan.regions, s.workers[v].region, Hand(s.workers[v]).value);
  }

  lemma StoreHashPhases(j: Job, s: Run, w: nat)
    requires Sound(j) && Owned(j, s) && Intact(j, s) && Can(j, s, StoreHash(w))
    ensures Shape(j, DoStoreHash(j, s, w)) && PhasesOk(j, DoStoreHash(j, s, w))
  {
    var t := DoStoreHash(j, s, w);
    var k := s.workers[w];
    var lo := AbsStart(j, k.region, k.phase.c);
    assert PhaseOk(j, s.disk, s.hashes, j.plan.regions[k.region], k.phase);
    forall v | 0 <= v < |t.workers| && v != w
      ensures PhaseOk(j, t.disk, t.hashes, j.plan.regions[t.workers[v].region], t.workers[v].phase)
    {
      var m := s.workers[v];
      if m.phase.Hashed? { HandsApart(j, s, w, v); }
      PhaseNewHash(j, s.disk, s.hashes, lo, k.phase.sum, j.plan.regions[m.region], m.phase);
    }
  }

  lemma StoreHashKeeps(j: Job, s: Run, w: nat)
    requires Sound(j) && Owned(j, s) && Intact(j, s) && Can(j, s, StoreHash(w))
    ensures Shape(j, DoStoreHash(j, s, w)) && Intact(j, DoStoreHash(j, s, w))
  {
    var k := s.workers[w];
    StoreHashPhases(j, s, w);
    DistinctStarts(j);
    assert Hand(k) == Some(k.phase.c) && Has(j.plan.regions, k.region, k.phase.c);
    NewHashFrame(j, s, DoStoreHash(j, s, w), AbsStart(j, k.region, k.phase.c), k.phase.sum);
  }

  // ----- queue and bookkeeping steps -----

  // Queues may only gain done offsets; phases, disk, digests and saved state stay good.
  lemma QueueStep(j: Job, s: Run, w: nat, t: Run)
    requires Shape(j, s) && Shape(j, t) && Intact(j, s) && w < |s.workers|
    requires t.disk == s.disk && t.hashes == s.hashes && t.mu == s.mu && t.control == s.control && t.own == s.own
    requires |t.workers| == |s.workers| && t.workers == s.workers[w := t.workers[w]]
    requires t.workers[w].region == s.workers[w].region && Idle(t.workers[w].phase)
    requires forall e :: 0 <= e < |s.queues| ==> s.queues[e].done <= t.queues[e].done
    requires forall e, c :: Has(j.plan.regions, e, c) && c.start in t.queues[e].done && c.start !in s.queues[e].done ==>
               Recorded(j, s.disk, s.hashes, j.plan.regions[e], c)
    ensures Intact(j, t)
  {
    assert PhasesOk(j, t);
    assert DoneOk(j, t);
    forall off | DoneAt(j, s, off)
      ensures DoneAt(j, t, off)
    {
      var e, c :| Has(j.plan.regions, e, c) && Lo(j.plan.regions[e], c) == off && c.start in s.queues[e].done;
      assert c.start in t.queues[e].done;
    }
  }

  lemma FinishedIntact(j: Job, s: Run, w: nat)
    requires Sound(j) && Owned(j, s) && Intact(j, s) && Can(j, s, Finished(w))
    ensures Shape(j, DoFinished(s, w)) && Intact(j, DoFinished(s, w))
  {
    var t := DoFinished(s, w);
    var ph := s.workers[w].phase;
    var e := s.workers[w].region;
    DistinctStarts(j);
    assert Hand(s.workers[w]) == Some(ph.c);
    assert PhaseOk(j, s.disk, s.hashes, j.plan.regions[e], ph);
    forall f, c | Has(j.plan.regions, f, c) && c.start in t.queues[f].done && c.start !in s.queues[f].done
      ensures Recorded(j, s.disk, s.hashes, j.plan.regions[f], c)
    {
      assert f == e && Lo(j.plan.regions[f], c) == Lo(j.plan.regions[e], ph.c);
    }
    QueueStep(j, s, w, t);
  }

  lemma PullIntact(j: Job, s: Run, w: nat)
    requires Shape(j, s) && Intact(j, s) && Can(j, s, PullNext(w))
    ensures Shape(j, DoPull(s, w)) && Intact(j, DoPull(s, w))
  {
    PullFields(j, s, w);
    QueueStep(j, s, w, DoPull(s, w));
  }

  lemma PullFields(j: Job, s: Run, w: nat)
    requires Shape(j, s) && Can(j, s, PullNext(w))
    ensures var t := DoPull(s, w);
            && Shape(j, t) && |t.queues| == |s.queues|
            && t.disk == s.disk && t.hashes == s.hashes && t.mu == s.mu && t.control == s.control && t.own == s.own
            && |t.workers| == |s.workers| && t.workers == s.workers[w := t.workers[w]]
            && t.workers[w].region == s.workers[w].region && Idle(t.workers[w].phase)
            && forall e :: 0 <= e < |s.queues| ==> t.queues[e].done == s.queues[e].done
  {
  }

  lemma ResolveFields(j: Job, s: Run, w: nat)
    requires Shape(j, s) && Can(j, s, Resolve(w))
    ensures var t := DoResolve(j, s, w);
            && Shape(j, t) && |t.queues| == |s.queues|
            && t.disk == s.disk && t.hashes == s.hashes && t.mu == s.mu && t.control == s.control && t.own == s.own
            && |t.workers| == |s.workers| && t.workers == s.workers[w := t.workers[w]]
            && t.workers[w].region == s.workers[w].region && Idle(t.workers[w].phase)
            && forall e :: 0 <= e < |s.queues| ==> t.queues[e].done == s.queues[e].done
  {
    RequeueDone(s.queues[s.workers[w].region], s.workers[w].phase.c, j.o.retry);
  }

  lemma RequeueDone(q: W.Queue, c: Chunk, limit: int)
    ensures var r := W.Requeue(q, c, limit).0; r.done == q.done && r.stealing == q.stealing
  {
  }

  lemma ResolveIntact(j: Job, s: Run, w: nat)
    requires Shape(j, s) && Intact(j, s) && Can(j, s, Resolve(w))
    ensures Shape(j, DoResolve(j, s, w)) && Intact(j, DoResolve(j, s, w))
  {
    ResolveFields(j, s, w);
    QueueStep(j, s, w, DoResolve(j, s, w));
  }

  // ----- checkpoints -----

  lemma SnapshotOwn(j: Job, s: Run, first: set<int>)
    requires Sound(j) && Owned(j, s) && Intact(j, s) && first <= s.queues[0].done
    ensures OwnControl(j, s, Snapshot(j, s, first))
  {
    var cf := Snapshot(j, s, first);
    PlanWellLaid(j.o, j.p);
    forall off | off in cf.completed
      ensures DoneAt(j, s, off) && off in s.hashes
    {
      if off in first {
        var c :| c in j.plan.regions[0].chunks && c.start == off;
        assert Has(j.plan.regions, 0, c) && c.start in s.queues[0].done;
        assert Recorded(j, s.disk, s.hashes, j.plan.regions[0], c);
      } else {
        var x :| x in s.queues[1].done && off == x + j.plan.regions[1].base;
        assert x in Starts(j.plan.regions[1].chunks);
        var c :| c in j.plan.regions[1].chunks && c.start == x;
        assert Has(j.plan.regions, 1, c) && c.start in s.queues[1].done;
        assert Recorded(j, s.disk, s.hashes, j.plan.regions[1], c);
      }
    }
  }

  lemma OwnOffsetFits(j: Job, e: int, c: Chunk, d: Digest)
    requires Sound(j) && Has(j.plan.regions, e, c) && j.plan.splitAt > 0 && Lo(j.plan.regions[e], c) < j.plan.splitAt
    requires |d.of| == Hi(j.plan.regions[e], c, j.p.totalSize) - Lo(j.plan.regions[e], c) || j.p.totalSize <= 0
    ensures Lo(j.plan.regions[e], c) in Starts(FixedChunks(j.plan.splitAt, RecordedChunkSize(j.o, j.p, j.plan)))
    ensures Lo(j.plan.regions[e], c) + |d.of| <= j.plan.splitAt
  {
    if SplitsInTwo(j.o, j.p) { TwoRegions(j.o, j.p); } else { OneRegion(j.o, j.p); }
    CutOrdered(j.plan.splitAt, EffectiveStep(j.o.chunkSize));
    CutOrdered(j.p.totalSize - j.plan.splitAt, Region2Size(j.o, j.p, j.plan));
    assert e == 0;
  }

  // A control file of this run can be trusted by any later run.
  lemma OwnIsOk(j: Job, s: Run, cf: Control)
    requires Sound(j) && Shape(j, s) && Intact(j, s) && OwnControl(j, s, cf)
    ensures ControlOk(j.content, cf)
  {
    var rs := j.plan.regions;
    forall off | off in cf.completed
      ensures off in cf.hashes && HashFits(j.content, off, cf.hashes[off])
      ensures cf.splitAt > 0 && off < cf.splitAt ==>
                off in Starts(FixedChunks(cf.splitAt, cf.chunkSize)) && off + |cf.hashes[off].of| <= cf.splitAt
    {
      assert DoneAt(j, s, off);
      var e, c :| Has(rs, e, c) && Lo(rs[e], c) == off && c.start in s.queues[e].done;
      assert Recorded(j, s.disk, s.hashes, rs[e], c);
      if cf.splitAt > 0 && off < cf.splitAt {
        OwnOffsetFits(j, e, c, cf.hashes[off]);
      }
    }
  }

  lemma EndPersistKeeps(j: Job, s: Run, saved: bool)
    requires Sound(j) && Owned(j, s) && Intact(j, s) && Can(j, s, EndPersist(saved))
    ensures Shape(j, DoEndPersist(j, s, saved)) && Intact(j, DoEndPersist(j, s, saved))
  {
    var t := DoEndPersist(j, s, saved);
    assert forall off :: DoneAt(j, s, off) ==> DoneAt(j, t, off);
    if saved {
      SnapshotOwn(j, s, s.mu.value);
      OwnIsOk(j, s, t.control.value);
      assert OwnControl(j, t, t.control.value);
    }
  }

  lemma SpawnKeeps(j: Job, s: Run)
    requires Shape(j, s) && Intact(j, s) && s.unspawned > 0
    ensures Shape(j, Do(j, s, Spawn)) && Intact(j, Do(j, s, Spawn))
  {
    var t := Do(j, s, Spawn);
    assert forall off :: DoneAt(j, s, off) ==> DoneAt(j, t, off);
  }

  lemma BookkeepingKeeps(j: Job, s: Run, step: Step)
    requires Shape(j, s) && Intact(j, s) && Can(j, s, step)
    requires step.Cancel? || step.Retarget? || step.BeginPersist?
    ensures Shape(j, Do(j, s, step)) && Intact(j, Do(j, s, step))
  {
    var t := Do(j, s, step);
    assert forall off :: DoneAt(j, s, off) ==> DoneAt(j, t, off);
  }

  // Worker steps that carry no bytes.
  lemma PlainStepKeeps(j: Job, s: Run, step: Step)
    requires Shape(j, s) && Intact(j, s) && Can(j, s, step)
    requires step.LoadLive? || step.LoadTarget? || step.RetireCas? || step.SeeCancel? || step.Leave?
    ensures Shape(j, Do(j, s, step)) && Intact(j, Do(j, s, step))
  {
    PhaseStep(j, s, step.w, Do(j, s, step));
  }

  // Every step with an honest server, on any schedule, keeps the bytes and digests good.
  lemma StepIntact(j: Job, s: Run, step: Step)
    requires Sound(j) && Owned(j, s) && Intact(j, s) && Can(j, s, step) && FromServer(j, s, step)
    ensures Shape(j, Do(j, s, step)) && Intact(j, Do(j, s, step))
  {
    match step
    case Answer(w, r) => AnswerKeeps(j, s, w, r);
    case Copy(w, k) => CopyKeeps(j, s, w, k);
    case CopyFail(w, torn) => CopyFailKeeps(j, s, w, torn);
    case CopyEnd(w) => CopyEndKeeps(j, s, w);
    case StoreHash(w) => StoreHashKeeps(j, s, w);
    case Finished(w) => FinishedIntact(j, s, w);
    case PullNext(w) => PullIntact(j, s, w);
    case Resolve(w) => ResolveIntact(j, s, w);
    case EndPersist(saved) => EndPersistKeeps(j, s, saved);
    case Spawn => SpawnKeeps(j, s);
    case Cancel => BookkeepingKeeps(j, s, step);
    case Retarget(t) => BookkeepingKeeps(j, s, step);
    case BeginPersist => BookkeepingKeeps(j, s, step);
    case _ => PlainStepKeeps(j, s, step);
  }

  // ----- what this buys -----

  // Each completed offset of a control file saved by this run carries a digest of the bytes
  // now on disk for the chunk that starts there.
  ghost predicate DigestOfDisk(j: Job, s: Run, off: int, d: Digest, e: int, c: Chunk)
    requires Shape(j, s)
  {
    && Has(j.plan.regions, e, c) && Lo(j.plan.regions[e], c) == off && c.start in s.queues[e].done
    && 0 <= off <= Hi(j.plan.regions[e], c, j.p.totalSize) <= |s.disk|
    && d == Digest(s.disk[off..Hi(j.plan.regions[e], c, j.p.totalSize)])
  }

  lemma CheckpointVerifiable(j: Job, s: Run)
    requires Sound(j) && j.p.totalSize > 0 && Shape(j, s) && Intact(j, s) && s.own
    ensures s.control.Some?
    ensures forall off :: off in s.control.value.completed ==>
              off in s.control.value.hashes && exists e, c :: DigestOfDisk(j, s, off, s.control.value.hashes[off], e, c)
  {
    var cf := s.control.value;
    forall off | off in cf.completed
      ensures off in cf.hashes && exists e, c :: DigestOfDisk(j, s, off, cf.hashes[off], e, c)
    {
      assert DoneAt(j, s, off);
      var e, c :| Has(j.plan.regions, e, c) && Lo(j.plan.regions[e], c) == off && c.start in s.queues[e].done;
      assert Recorded(j, s.disk, s.hashes, j.plan.regions[e], c);
      var hi := Hi(j.plan.regions[e], c, j.p.totalSize);
      assert s.disk[off..hi] == j.content[off..hi];
      assert DigestOfDisk(j, s, off, cf.hashes[off], e, c);
    }
  }

  // When the done set is the whole layout, the file is the server's file.
  lemma AllDoneMeansEqual(j: Job, s: Run)
    requires Sound(j) && j.p.totalSize > 0 && Shape(j, s) && Intact(j, s)
    requires forall e :: 0 <= e < |s.queues| ==> s.queues[e].done == Starts(j.plan.regions[e].chunks)
    ensures s.disk == j.content
  {
    PlanWellLaid(j.o, j.p);
    forall p | 0 <= p < |s.disk|
      ensures s.disk[p] == j.content[p]
    {
      assert HasByte(j.plan.regions, j.p.totalSize, p);
      var e, c :| Has(j.plan.regions, e, c) && Lo(j.plan.regions[e], c) <= p < Hi(j.plan.regions[e], c, j.p.totalSize);
      assert Recorded(j, s.disk, s.hashes, j.plan.regions[e], c);
    }
  }
}
