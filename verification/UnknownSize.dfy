// Files whose size is unknown or zero: what a plain request writes over whatever was there
// (task_start.go and task_io.go of internal/download; nothing truncates such a file).
module UnknownSize {
  import opened Chunks
  import opened Layout
  import opened Workers
  import opened Ownership
  import opened Contents
  import opened World
  import opened WorldProof
  import opened BoundedWork
  import opened Drain
  import opened Completion
  import W = WorkQueue

  // The first m bytes of the file are the server's.
  predicate Right(content: seq<byte>, disk: seq<byte>, m: int)
  {
    0 <= m <= |content| && m <= |disk| && disk[..m] == content[..m]
  }

  // What a phase has already put on disk.
  predicate PhaseRight(j: Job, disk: seq<byte>, ph: Phase)
  {
    match ph
    case Copying(_, _, body, _, off) => off <= |body| && body <= j.content && Right(j.content, disk, off)
    case Fetched(_, _) => Right(j.content, disk, |j.content|)
    case Hashed(_) => Right(j.content, disk, |j.content|)
    case _ => true
  }

  // len: the length of the file when the run began.
  ghost predicate Growing(j: Job, s: Run, len: nat)
  {
    && |s.queues| == 1 && len <= |s.disk| <= Max(len, |j.content|)
    && (s.queues[0].done != {} ==> Right(j.content, s.disk, |j.content|))
    && forall w :: 0 <= w < |s.workers| ==> PhaseRight(j, s.disk, s.workers[w].phase)
  }

  // A body that ends cleanly is all there is.
  predicate WholeBodies(j: Job, s: Run, step: Step)
  {
    step.CopyEnd? && step.w < |s.workers| && s.workers[step.w].phase.Copying? && s.workers[step.w].phase.ending.Eof?
    ==> |s.workers[step.w].phase.body| == |j.content|
  }

  // Every chunk in a worker's hands is fetched by a plain request from the beginning.
  ghost predicate AllWhole(j: Job, s: Run)
  {
    forall w :: 0 <= w < |s.workers| && Hand(s.workers[w]).Some? ==> Whole(j, Hand(s.workers[w]).value)
  }

  lemma OnlyWhole(j: Job, s: Run)
    requires Sound(j) && j.p.totalSize <= 0 && Owned(j, s)
    ensures |s.queues| == 1 && AllWhole(j, s)
  {
    OneRegion(j.o, j.p);
    forall w | 0 <= w < |s.workers| && Hand(s.workers[w]).Some?
      ensures Whole(j, Hand(s.workers[w]).value)
    {
      var e := s.workers[w].region;
      assert InFlight(j.plan.regions[e].chunks, s.queues[e], Hand(s.workers[w]).value);
    }
  }

  // ----- writing -----

  // A piece of a good body, written where it belongs.
  lemma PieceWritten(content: seq<byte>, disk: seq<byte>, body: seq<byte>, off: nat, k: nat, len: nat)
    requires off + k <= |body| && body <= content && Right(content, disk, off) && len <= |disk| <= Max(len, |content|)
    ensures var d := WriteAt(disk, off, body[off..off + k]);
            && len <= |d| <= Max(len, |content|) && Right(content, d, off + k)
            && forall m :: Right(content, disk, m) ==> Right(content, d, m)
  {
    var d := WriteAt(disk, off, body[off..off + k]);
    assert |d| == Max(|disk|, off + k);
    forall i | 0 <= i < |d|
      ensures d[i] == if off <= i < off + k then content[i] else disk[i]
    {
      if off <= i < off + k { assert body[off..off + k][i - off] == body[i] == content[i]; }
    }
    RightAgain(content, disk, d, off, off + k);
    forall m | Right(content, disk, m)
      ensures Right(content, d, m)
    {
      RightAgain(content, disk, d, m, m);
    }
  }

  lemma RightAgain(content: seq<byte>, disk: seq<byte>, d: seq<byte>, m: nat, m': nat)
    requires Right(content, disk, m) && m <= m' <= |content| && m' <= |d| && |disk| <= |d|
    requires forall i :: 0 <= i < m ==> d[i] == content[i] || d[i] == disk[i]
    requires forall i :: m <= i < m' ==> d[i] == content[i]
    ensures Right(content, d, m')
  {
    forall i | 0 <= i < m'
      ensures d[i] == content[i]
    {
      if i < m { assert disk[i] == disk[..m][i] == content[..m][i]; }
    }
  }

  lemma PhasesKept(j: Job, disk: seq<byte>, d: seq<byte>, ph: Phase)
    requires PhaseRight(j, disk, ph) && forall m :: Right(j.content, disk, m) ==> Right(j.content, d, m)
    ensures PhaseRight(j, d, ph)
  {
  }

  lemma WrittenRight(j: Job, s: Run, w: nat, k: nat, len: nat)
    requires Growing(j, s, len) && AllWhole(j, s) && CanCopy(j, s, w, k)
    ensures var d, ph := Written(j, s, w, k), s.workers[w].phase;
            && len <= |d| <= Max(len, |j.content|) && Right(j.content, d, ph.off + k)
            && forall m :: Right(j.content, s.disk, m) ==> Right(j.content, d, m)
  {
    var ph := s.workers[w].phase;
    assert Hand(s.workers[w]) == Some(ph.c) && PhaseRight(j, s.disk, ph);
    PieceWritten(j.content, s.disk, ph.body, ph.off, k, len);
  }

  // One worker goes on over the new disk.
  lemma GrowsOne(j: Job, s: Run, t: Run, w: nat, len: nat)
    requires Growing(j, s, len) && w < |s.workers| == |t.workers| && t.workers == s.workers[w := t.workers[w]]
    requires |t.queues| == 1 && t.queues[0].done == s.queues[0].done && len <= |t.disk| <= Max(len, |j.content|)
    requires forall m :: Right(j.content, s.disk, m) ==> Right(j.content, t.disk, m)
    requires PhaseRight(j, t.disk, t.workers[w].phase)
    ensures Growing(j, t, len)
  {
    forall v | 0 <= v < |t.workers|
      ensures PhaseRight(j, t.disk, t.workers[v].phase)
    {
      if v != w { PhasesKept(j, s.disk, t.disk, s.workers[v].phase); }
    }
  }

  lemma CopyGrows(j: Job, s: Run, w: nat, k: nat, len: nat)
    requires Growing(j, s, len) && AllWhole(j, s) && CanCopy(j, s, w, k)
    ensures Growing(j, DoCopy(j, s, w, k), len) && Growing(j, DoCopyFail(j, s, w, k), len)
  {
    assert PhaseRight(j, s.disk, s.workers[w].phase);
    WrittenRight(j, s, w, k, len);
    GrowsOne(j, s, DoCopy(j, s, w, k), w, len);
    GrowsOne(j, s, DoCopyFail(j, s, w, k), w, len);
  }

  // The bytes a plain request brings are the first of the content.
  lemma AnswerGrows(j: Job, s: Run, w: nat, r: Reply, len: nat)
    requires Growing(j, s, len) && AllWhole(j, s) && Can(j, s, Answer(w, r)) && FromServer(j, s, Answer(w, r))
    ensures Growing(j, DoAnswer(j, s, w, r), len)
  {
    assert Hand(s.workers[w]) == Some(s.workers[w].phase.c);
    GrowsOne(j, s, DoAnswer(j, s, w, r), w, len);
  }

  lemma CopyEndGrows(j: Job, s: Run, w: nat, len: nat)
    requires Growing(j, s, len) && Can(j, s, CopyEnd(w)) && WholeBodies(j, s, CopyEnd(w))
    ensures Growing(j, DoCopyEnd(j, s, w), len)
  {
    assert PhaseRight(j, s.disk, s.workers[w].phase);
    GrowsOne(j, s, DoCopyEnd(j, s, w), w, len);
  }

  lemma FinishedGrows(j: Job, s: Run, w: nat, len: nat)
    requires Growing(j, s, len) && Can(j, s, Finished(w))
    ensures Growing(j, DoFinished(s, w), len)
  {
    assert PhaseRight(j, s.disk, s.workers[w].phase);
  }

  lemma PlainGrows(j: Job, s: Run, step: Step, len: nat)
    requires Growing(j, s, len) && Can(j, s, step) && Plain(step)
    ensures Growing(j, Do(j, s, step), len)
  {
    assert PhaseRight(j, s.disk, s.workers[step.w].phase);
    GrowsOne(j, s, Do(j, s, step), step.w, len);
  }

  lemma QueueGrows(j: Job, s: Run, step: Step, len: nat)
    requires Growing(j, s, len) && Can(j, s, step) && (step.PullNext? || step.Resolve?)
    ensures Growing(j, Do(j, s, step), len)
  {
    GrowsOne(j, s, Do(j, s, step), step.w, len);
  }

  lemma StepGrows(j: Job, s: Run, step: Step, len: nat)
    requires Growing(j, s, len) && AllWhole(j, s)
    requires Can(j, s, step) && FromServer(j, s, step) && WholeBodies(j, s, step)
    ensures Growing(j, Do(j, s, step), len)
  {
    match step
    case Answer(w, r) => AnswerGrows(j, s, w, r, len);
    case Copy(w, k) => CopyGrows(j, s, w, k, len);
    case CopyFail(w, torn) => CopyGrows(j, s, w, torn, len);
    case CopyEnd(w) => CopyEndGrows(j, s, w, len);
    case Finished(w) => FinishedGrows(j, s, w, len);
    case PullNext(_) => QueueGrows(j, s, step, len);
    case Resolve(_) => QueueGrows(j, s, step, len);
    case Spawn =>
    case Cancel =>
    case Retarget(_) =>
    case BeginPersist =>
    case EndPersist(_) =>
    case _ => PlainGrows(j, s, step, len);
  }

  lemma {:induction false} GrowsAlong(j: Job, ss: seq<Run>, steps: seq<Step>, n: nat, len: nat)
    requires Execution(j, ss, steps) && n <= |steps| && Sound(j) && Distinct(j) && j.p.totalSize <= 0
    requires Owned(j, ss[0]) && Growing(j, ss[0], len)
    requires forall i :: 0 <= i < |steps| ==> WholeBodies(j, ss[i], steps[i])
    ensures Owned(j, ss[n]) && Growing(j, ss[n], len)
  {
    if n > 0 {
      GrowsAlong(j, ss, steps, n - 1, len);
      var s, step := ss[n - 1], steps[n - 1];
      assert Can(j, s, step) && FromServer(j, s, step) && ss[n] == Do(j, s, step) && WholeBodies(j, s, step);
      OnlyWhole(j, s);
      OwnedKept(j, s, step);
      StepGrows(j, s, step, len);
    }
  }

  // ----- the verdict -----

  // With everything done the file begins with the content; it is the content exactly if it
  // was not longer before.
  lemma DoneMeansPrefix(j: Job, s: Run, len: nat)
    requires Sound(j) && j.p.totalSize <= 0 && Growing(j, s, len) && |j.plan.regions| == 1
    requires s.queues[0].done == Starts(j.plan.regions[0].chunks)
    ensures s.disk == j.content <==> len <= |j.content|
  {
    OneRegion(j.o, j.p);
    if QueueSize(j.p) < 0 {
      assert Chunk(0, 0, -1) in j.plan.regions[0].chunks;
      assert 0 in s.queues[0].done;
    } else {
      assert j.content == [] && Right(j.content, s.disk, 0);
    }
    assert s.disk[..|j.content|] == j.content[..|j.content|] == j.content;
    if len <= |j.content| { assert s.disk[..|j.content|] == s.disk; }
  }

  lemma FreshStart(content: seq<byte>, w: World, ev: Event)
    requires w.Rest? && ev.Launch? && Occurs(content, w, ev) && ev.p.totalSize <= 0
    requires !ev.o.resume || w.control.None?
    ensures var v := Launched(content, w, ev); v.Busy? && Growing(v.j, v.s, |w.disk|) && v.s.disk == w.disk
  {
    OneRegion(ev.o, ev.p);
    PlanShape(ev.o, ev.p);
  }

  // A fresh run of a file of unknown or zero size, in any history, whose target nobody changes
  // and whose clean bodies are complete: if it ends Completed, the file is the server's if and
  // only if what was there before was not longer.
  lemma UnknownSizeExactly(content: seq<byte>, ws: seq<World>, evs: seq<Event>, n: nat, ss: seq<Run>, steps: seq<Step>)
    requires History(content, ws, evs) && n < |evs| && evs[n].Launch? && ws[n + 1].Busy? && evs[n].p.totalSize <= 0
    requires !evs[n].o.resume || ws[n].control.None?
    requires Execution(ws[n + 1].j, ss, steps) && ss[0] == ws[n + 1].s && Untouched(steps)
    requires forall i :: 0 <= i < |steps| ==> WholeBodies(ws[n + 1].j, ss[i], steps[i])
    requires Completes(ss[|steps|])
    ensures ss[|steps|].disk == content <==> |ws[n].disk| <= |content|
  {
    assert Occurs(content, ws[n], evs[n]) && ws[n + 1] == After(content, ws[n], evs[n]);
    FreshStart(content, ws[n], evs[n]);
    LaunchedWell(content, ws, evs, n);
    var j := ws[n + 1].j;
    GrowsAlong(j, ss, steps, |steps|, |ws[n].disk|);
    GoodAlong(j, ss, steps, |steps|);
    NothingSkipped(j, ss[|steps|]);
    DoneMeansPrefix(j, ss[|steps|], |ws[n].disk|);
  }
}
