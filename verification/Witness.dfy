// Histories that end Completed with the wrong file: why EndToEnd restricts what it does.
module Witness {
  import opened Chunks
  import opened Layout
  import opened Workers
  import opened World
  import opened WorldProof
  import opened Drain
  import W = WorkQueue

  // No target is touched.
  ghost predicate Calm(evs: seq<Event>)
  {
    forall i :: 0 <= i < |evs| ==> !(evs[i].Act? && evs[i].step.Retarget?)
  }

  // Every run is launched with the same options over the same probe.
  ghost predicate Only(evs: seq<Event>, o: Options, p: Probe)
  {
    forall i :: 0 <= i < |evs| && evs[i].Launch? ==> evs[i].o == o && evs[i].p == p
  }

  ghost predicate Ends(content: seq<byte>, ws: seq<World>, evs: seq<Event>, w: World)
  {
    History(content, ws, evs) && ws[|evs|] == w
  }

  // One more event at the end of a history.
  lemma Extend(content: seq<byte>, ws: seq<World>, evs: seq<Event>, w: World, ev: Event)
      returns (ws': seq<World>, evs': seq<Event>)
    requires Ends(content, ws, evs, w) && Occurs(content, w, ev)
    ensures Ends(content, ws', evs', After(content, w, ev)) && evs' == evs + [ev] && ws' == ws + [After(content, w, ev)]
    ensures Calm(evs) && !(ev.Act? && ev.step.Retarget?) ==> Calm(evs')
  {
    ws', evs' := ws + [After(content, w, ev)], evs + [ev];
  }

  lemma Act1(content: seq<byte>, ws: seq<World>, evs: seq<Event>, j: Job, s: Run, step: Step)
      returns (ws': seq<World>, evs': seq<Event>)
    requires Ends(content, ws, evs, Busy(j, s)) && Can(j, s, step) && FromServer(j, s, step)
    ensures Ends(content, ws', evs', Busy(j, Do(j, s, step))) && evs' == evs + [Act(step)]
    ensures Calm(evs) && !step.Retarget? ==> Calm(evs')
    ensures Only(evs, j.o, j.p) ==> Only(evs', j.o, j.p)
  {
    ws', evs' := Extend(content, ws, evs, Busy(j, s), Act(step));
  }

  lemma AtTwice(s: Run, w: nat, a: Phase, b: Phase)
    requires w < |s.workers|
    ensures At(At(s, w, a), w, b) == At(s, w, b)
  {
    assert s.workers[w := s.workers[w].(phase := a)][w := s.workers[w].(phase := b)]
        == s.workers[w := s.workers[w].(phase := b)];
  }

  // A worker whose count is within the target walks up to the queue.
  lemma WalkUp(content: seq<byte>, ws: seq<World>, evs: seq<Event>, j: Job, s: Run, w: nat)
      returns (ws': seq<World>, evs': seq<Event>)
    requires Ends(content, ws, evs, Busy(j, s)) && CanAt(j, s, w)
    requires s.workers[w].phase == Top && s.conns <= s.target
    ensures Ends(content, ws', evs', Busy(j, At(s, w, Ready))) && (Calm(evs) ==> Calm(evs'))
    ensures Only(evs, j.o, j.p) ==> Only(evs', j.o, j.p)
  {
    var s1 := At(s, w, Loaded(s.conns));
    ws', evs' := Act1(content, ws, evs, j, s, LoadLive(w));
    ws', evs' := Act1(content, ws', evs', j, s1, LoadTarget(w));
    AtTwice(s, w, Loaded(s.conns), Ready);
  }

  // ... and, if nothing is queued for it, goes home.
  lemma GoHome(content: seq<byte>, ws: seq<World>, evs: seq<Event>, j: Job, s: Run, w: nat)
      returns (ws': seq<World>, evs': seq<Event>)
    requires Ends(content, ws, evs, Busy(j, s)) && CanAt(j, s, w)
    requires s.workers[w].phase == Top && 0 < s.conns <= s.target && s.queues[s.workers[w].region].pending == []
    ensures Ends(content, ws', evs', Busy(j, At(s.(conns := s.conns - 1), w, Exited))) && (Calm(evs) ==> Calm(evs'))
    ensures Only(evs, j.o, j.p) ==> Only(evs', j.o, j.p)
  {
    ws', evs' := WalkUp(content, ws, evs, j, s, w);
    ws', evs' := Act1(content, ws', evs', j, At(s, w, Ready), PullNext(w));
    AtTwice(s, w, Ready, Draining);
    ws', evs' := Act1(content, ws', evs', j, At(s, w, Draining), Leave(w));
    AtTwice(s.(conns := s.conns - 1), w, Draining, Exited);
  }

  // The state after worker w has fetched chunk c whole from `body`.
  function AfterFetch(j: Job, s: Run, w: nat, c: Chunk, body: seq<byte>): Run
    requires CanAt(j, s, w) && FileOffset(j, s.workers[w].region, c) >= 0
  {
    var e := s.workers[w].region;
    At(s.(disk := WriteAt(s.disk, FileOffset(j, e, c), body), bytesDone := s.bytesDone + |body|,
          hashes := s.hashes[AbsStart(j, e, c) := Digest(body)],
          queues := s.queues[e := W.MarkDone(s.queues[e], c)]), w, Top)
  }

  // The run with body b written for worker w, before its phase moves on.
  function Wrote(j: Job, s: Run, w: nat, c: Chunk, b: seq<byte>): Run
    requires CanAt(j, s, w) && FileOffset(j, s.workers[w].region, c) >= 0
  {
    s.(disk := WriteAt(s.disk, FileOffset(j, s.workers[w].region, c), b), bytesDone := s.bytesDone + |b|)
  }

  lemma CopyAll(content: seq<byte>, ws: seq<World>, evs: seq<Event>, j: Job, s: Run, w: nat, c: Chunk, b: seq<byte>)
    returns (ws': seq<World>, evs': seq<Event>)
    requires CanAt(j, s, w) && FileOffset(j, s.workers[w].region, c) >= 0
    requires Ends(content, ws, evs, Busy(j, At(s, w, Copying(c, 0, b, Eof, 0))))
    ensures Ends(content, ws', evs', Busy(j, At(Wrote(j, s, w, c, b), w, Copying(c, 0, b, Eof, |b|))))
    ensures (Calm(evs) ==> Calm(evs')) && (Only(evs, j.o, j.p) ==> Only(evs', j.o, j.p))
  {
    var s1 := At(s, w, Copying(c, 0, b, Eof, 0));
    ws', evs' := ws, evs;
    if b != [] {
      ws', evs' := Act1(content, ws', evs', j, s1, Copy(w, |b|));
      assert b[0..|b|] == b;
      AtTwice(Wrote(j, s, w, c, b), w, Copying(c, 0, b, Eof, 0), Copying(c, 0, b, Eof, |b|));
    }
  }

  lemma WrapUp(content: seq<byte>, ws: seq<World>, evs: seq<Event>, j: Job, u: Run, w: nat, c: Chunk, b: seq<byte>)
    returns (ws': seq<World>, evs': seq<Event>)
    requires CanAt(j, u, w) && u.mu.None? && FullLength(j, c, |b|)
    requires Ends(content, ws, evs, Busy(j, At(u, w, Copying(c, 0, b, Eof, |b|))))
    ensures var e := u.workers[w].region;
            Ends(content, ws', evs', Busy(j, At(u.(hashes := u.hashes[AbsStart(j, e, c) := Digest(b)],
              queues := u.queues[e := W.MarkDone(u.queues[e], c)]), w, Top)))
    ensures (Calm(evs) ==> Calm(evs')) && (Only(evs, j.o, j.p) ==> Only(evs', j.o, j.p))
  {
    var e := u.workers[w].region;
    var v := u.(hashes := u.hashes[AbsStart(j, e, c) := Digest(b)]);
    ws', evs' := Act1(content, ws, evs, j, At(u, w, Copying(c, 0, b, Eof, |b|)), CopyEnd(w));
    AtTwice(u, w, Copying(c, 0, b, Eof, |b|), Fetched(c, Digest(b)));
    ws', evs' := Act1(content, ws', evs', j, At(u, w, Fetched(c, Digest(b))), StoreHash(w));
    AtTwice(v, w, Fetched(c, Digest(b)), Hashed(c));
    ws', evs' := Act1(content, ws', evs', j, At(v, w, Hashed(c)), Finished(w));
    AtTwice(v.(queues := u.queues[e := W.MarkDone(u.queues[e], c)]), w, Hashed(c), Top);
  }

  // A fetch that goes well.
  lemma Fetch(content: seq<byte>, ws: seq<World>, evs: seq<Event>, j: Job, s: Run, w: nat, c: Chunk, r: Reply)
    returns (ws': seq<World>, evs': seq<Event>)
    requires Ends(content, ws, evs, Busy(j, s)) && CanAt(j, s, w) && s.workers[w].phase == Attempt(c, 0) && s.mu.None?
    requires FileOffset(j, s.workers[w].region, c) >= 0
    requires Check(j, s.workers[w].region, c, r) == Accept && r.ending == Eof && Honest(j, c, r)
             && FullLength(j, c, |r.body|)
    ensures Ends(content, ws', evs', Busy(j, AfterFetch(j, s, w, c, r.body))) && (Calm(evs) ==> Calm(evs'))
    ensures Only(evs, j.o, j.p) ==> Only(evs', j.o, j.p)
  {
    ws', evs' := Act1(content, ws, evs, j, s, Answer(w, r));
    ws', evs' := CopyAll(content, ws', evs', j, s, w, c, r.body);
    ws', evs' := WrapUp(content, ws', evs', j, Wrote(j, s, w, c, r.body), w, c, r.body);
  }

  // A history that ends in a Completed run over probe p with a file that is not the server's.
  ghost predicate WrongFile(content: seq<byte>, ws: seq<World>, evs: seq<Event>, p: Probe)
  {
    && History(content, ws, evs)
    && ws[|evs|].Rest? && ws[|evs|].finished.Some? && ws[|evs|].finished.value.p == p
    && ws[|evs|].disk != content
  }

  // ----- files of unknown or zero size -----

  const ONE := Options(Odm, 1, 1, 1, 1, 0, 0, false)

  // The run that ONE launches over a file with one byte too many.
  function LongRun(content: seq<byte>, j: Job): Run
    requires |j.plan.regions| >= 1
  {
    Run([FreshQueue(j.plan.regions[0])], [Worker(0, Top)], content + [0], map[], 0, 0, 1, 1, 0, false, None, None,
        false)
  }

  lemma LaunchLong(content: seq<byte>, p: Probe) returns (ws: seq<World>, evs: seq<Event>)
    requires p.totalSize <= 0 && (p.totalSize == 0 ==> content == [])
    ensures |MakePlan(ONE, p).regions| == 1
    ensures var j := Job(content, ONE, p, MakePlan(ONE, p));
            Ends(content, ws, evs, Busy(j, LongRun(content, j))) && Calm(evs)
  {
    var j := Job(content, ONE, p, MakePlan(ONE, p));
    OneRegion(ONE, p);
    ws, evs := [Rest([], None, None)], [];
    ws, evs := Extend(content, ws, evs, Rest([], None, None), Tamper(content + [0], true));
    ws, evs := Extend(content, ws, evs, Rest(content + [0], None, None), Launch(ONE, p, false, true, false));
    assert InitialWorkers(ONE, p, j.plan) == [Worker(0, Top)];
  }

  // The one chunk of a file of unknown or untrusted size, fetched whole over the longer file.
  lemma FetchOverLonger(content: seq<byte>, p: Probe, ws: seq<World>, evs: seq<Event>)
      returns (ws': seq<World>, evs': seq<Event>, s: Run)
    requires p.totalSize <= 0 && (p.singleStream || p.totalSize < 0)
    requires var j := Job(content, ONE, p, MakePlan(ONE, p));
             Ends(content, ws, evs, Busy(j, LongRun(content, j))) && Calm(evs)
    ensures var j := Job(content, ONE, p, MakePlan(ONE, p));
            Ends(content, ws', evs', Busy(j, s)) && Calm(evs') && CanAt(j, s, 0)
    ensures s.workers == [Worker(0, Top)] && s.queues[0].pending == [] && s.conns == s.target == 1
    ensures !s.cancelled && s.errors == 0 && s.mu.None? && |s.disk| == |content| + 1
  {
    var j := Job(content, ONE, p, MakePlan(ONE, p));
    OneRegion(ONE, p);
    var c, long := Chunk(0, 0, -1), LongRun(content, j);
    ws', evs' := WalkUp(content, ws, evs, j, long, 0);
    ws', evs' := Act1(content, ws', evs', j, At(long, 0, Ready), PullNext(0));
    var s1 := DoPull(At(long, 0, Ready), 0);
    assert long.queues[0].pending == [c];
    ws', evs' := Fetch(content, ws', evs', j, s1, 0, c, Reply(200, None, content, Eof));
    s := AfterFetch(j, s1, 0, c, content);
  }

  // Nothing shortens the file when no positive size is known: a longer file left behind by
  // anything keeps its tail although the server delivers everything, completely.
  lemma StaleTail(content: seq<byte>, p: Probe) returns (ws: seq<World>, evs: seq<Event>)
    requires p.totalSize <= 0 && (p.totalSize == 0 ==> content == [])
    ensures WrongFile(content, ws, evs, p) && Calm(evs)
  {
    var j := Job(content, ONE, p, MakePlan(ONE, p));
    OneRegion(ONE, p);
    ws, evs := LaunchLong(content, p);
    var s := LongRun(content, j);
    if p.singleStream || p.totalSize < 0 {
      ws, evs, s := FetchOverLonger(content, p, ws, evs);
    }
    ws, evs := GoHome(content, ws, evs, j, s, 0);
    ws, evs := Extend(content, ws, evs, Busy(j, At(s.(conns := 0), 0, Exited)), Finish(true));
  }

  // Exactly the files of known positive size are safe: for any probe the server could answer
  // truthfully, every history that never lowers a target delivers if and only if the size is
  // known and positive.
  ghost predicate Delivers(content: seq<byte>, p: Probe)
  {
    forall ws, evs :: History(content, ws, evs) && Calm(evs) ==> !WrongFile(content, ws, evs, p)
  }

  lemma DeliversExactly(content: seq<byte>, p: Probe)
    requires p.totalSize >= 0 ==> p.totalSize == |content|
    ensures Delivers(content, p) <==> p.totalSize > 0
  {
    if p.totalSize > 0 {
      forall ws, evs | History(content, ws, evs) && Calm(evs)
        ensures !WrongFile(content, ws, evs, p)
      {
        if WrongFile(content, ws, evs, p) {
          EndToEndNeverLowered(content, ws, evs, |evs|);
        }
      }
    } else {
      var ws, evs := StaleTail(content, p);
    }
  }
}
