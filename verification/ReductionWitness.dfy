// Where lowering the connection target loses work: histories for every configuration in which
// it can, and with them the exact condition (retireIfAboveTarget of internal/download/task_io.go,
// AdjustConns of internal/download/task.go and the launch of internal/download/task_start.go).
module ReductionWitness {
  import opened Chunks
  import opened Layout
  import opened Workers
  import opened Contents
  import opened World
  import opened WorldProof
  import opened Drain
  import opened Witness

  // A history, all of whose runs have the options of j, that has come to state s with no
  // target touched.
  ghost predicate Under(ws: seq<World>, evs: seq<Event>, j: Job, s: Run)
  {
    Ends(j.content, ws, evs, Busy(j, s)) && Only(evs, j.o, j.p) && Calm(evs)
  }

  // Whenever a target is set, it is set to t.
  ghost predicate Toward(evs: seq<Event>, t: int)
  {
    forall i :: 0 <= i < |evs| && evs[i].Act? && evs[i].step.Retarget? ==> evs[i].step.t == t
  }

  // ... and with none but the target t.
  ghost predicate Aimed(ws: seq<World>, evs: seq<Event>, j: Job, s: Run, t: int)
  {
    Ends(j.content, ws, evs, Busy(j, s)) && Only(evs, j.o, j.p) && Toward(evs, t)
  }

  lemma Aim(ws: seq<World>, evs: seq<Event>, j: Job, s: Run, t: int) returns (ws': seq<World>, evs': seq<Event>)
    requires Under(ws, evs, j, s)
    ensures Aimed(ws', evs', j, Do(j, s, Retarget(t)), t)
  {
    ws', evs' := Act1(j.content, ws, evs, j, s, Retarget(t));
  }

  lemma AimedAct(ws: seq<World>, evs: seq<Event>, j: Job, s: Run, step: Step, t: int)
      returns (ws': seq<World>, evs': seq<Event>)
    requires Aimed(ws, evs, j, s, t) && Can(j, s, step) && FromServer(j, s, step) && !step.Retarget?
    ensures Aimed(ws', evs', j, Do(j, s, step), t)
  {
    ws', evs' := Act1(j.content, ws, evs, j, s, step);
  }

  // A run of a file of known size that has met no trouble, with a wrong byte at `at`.
  ghost predicate Going(j: Job, s: Run, at: nat)
  {
    && Sound(j) && j.p.totalSize > 0 && 1 <= |s.queues| == |j.plan.regions| <= 2
    && s.errors == 0 && !s.cancelled && s.mu.None?
    && at < |j.content| == |s.disk| && s.disk[at] != j.content[at]
    && (forall w :: 0 <= w < |s.workers| ==> s.workers[w].region < |s.queues|)
  }

  // Only workers and the connection count differ.
  ghost predicate Moved(s: Run, t: Run)
  {
    && t == s.(workers := t.workers, conns := t.conns) && |t.workers| == |s.workers|
    && forall w :: 0 <= w < |s.workers| ==> t.workers[w].region == s.workers[w].region
  }

  // ----- the start -----

  function Spoiled(content: seq<byte>, at: nat): seq<byte>
    requires at < |content|
  {
    content[at := if content[at] == 0 then 1 else 0]
  }

  lemma FreshLaunch(content: seq<byte>, o: Options, p: Probe, disk: seq<byte>)
    requires o.conns >= 1 && p.totalSize == |content| == |disk| > 0
    ensures var v := Launched(content, Rest(disk, None, None), Launch(o, p, false, true, false));
            var plan := MakePlan(o, p);
            && v.Busy? && v.j == Job(content, o, p, plan) && 1 <= |plan.regions| <= 2
            && v.s == Run(FreshQueues(plan), InitialWorkers(o, p, plan), disk, map[], 0, 0,
                          WorkerCount(o, p, plan), WorkerCount(o, p, plan), 0, false, None, None, false)
  {
    PlanShape(o, p);
    assert Truncate(disk, p.totalSize) == disk;
  }

  lemma LaunchOver(content: seq<byte>, o: Options, p: Probe, at: nat) returns (ws: seq<World>, evs: seq<Event>, s: Run)
    requires o.conns >= 1 && p.totalSize == |content| > 0 && at < |content|
    ensures var j := Job(content, o, p, MakePlan(o, p));
            Under(ws, evs, j, s) && Going(j, s, at)
            && s.queues == FreshQueues(j.plan) && s.workers == InitialWorkers(o, p, j.plan)
            && s.conns == s.target == WorkerCount(o, p, j.plan) >= 1
  {
    var disk, rest := Spoiled(content, at), Rest([], None, None);
    FreshLaunch(content, o, p, disk);
    WorkerCountAtLeastOne(o, p);
    ws, evs := [rest], [];
    ws, evs := Extend(content, ws, evs, rest, Tamper(disk, true));
    ws, evs := Extend(content, ws, evs, Rest(disk, None, None), Launch(o, p, false, true, false));
    s := Launched(content, Rest(disk, None, None), Launch(o, p, false, true, false)).s;
    Regions(Job(content, o, p, MakePlan(o, p)));
  }

  lemma WorkerCountAtLeastOne(o: Options, p: Probe)
    requires o.conns >= 1
    ensures WorkerCount(o, p, MakePlan(o, p)) >= 1
  {
  }

  lemma Regions(j: Job)
    requires j.plan == MakePlan(j.o, j.p) && j.o.conns >= 1
    ensures forall w :: 0 <= w < |InitialWorkers(j.o, j.p, j.plan)| ==>
              InitialWorkers(j.o, j.p, j.plan)[w].region < |j.plan.regions|
  {
    PlanShape(j.o, j.p);
  }

  // ----- fetching -----

  // The bytes of chunk c, as the server would send them.
  function BodyOf(j: Job, e: nat, c: Chunk): seq<byte>
    requires Has(j.plan.regions, e, c)
             && 0 <= Lo(j.plan.regions[e], c) <= Hi(j.plan.regions[e], c, j.p.totalSize) <= |j.content|
  {
    j.content[Lo(j.plan.regions[e], c)..Hi(j.plan.regions[e], c, j.p.totalSize)]
  }

  lemma GoodAnswer(j: Job, e: nat, c: Chunk)
    requires Sound(j) && j.p.totalSize > 0 && !j.p.singleStream && Has(j.plan.regions, e, c)
    ensures 0 <= Lo(j.plan.regions[e], c) < Hi(j.plan.regions[e], c, j.p.totalSize) <= |j.content|
    ensures FileOffset(j, e, c) == Lo(j.plan.regions[e], c)
    ensures var r := Reply(206, Some(Lo(j.plan.regions[e], c)), BodyOf(j, e, c), Eof);
            Check(j, e, c, r) == Accept && Honest(j, c, r) && FullLength(j, c, |r.body|)
  {
    PlanWellLaid(j.o, j.p);
    assert InFile(j.plan.regions, j.p.totalSize);
    ChunkFacts(j, e, c);
    var lo, hi := Lo(j.plan.regions[e], c), Hi(j.plan.regions[e], c, j.p.totalSize);
    assert j.content[lo..hi] == j.content[lo..][..hi - lo];
  }

  lemma WriteElsewhere(d: seq<byte>, lo: nat, b: seq<byte>, at: nat)
    requires lo + |b| <= |d| && at < |d| && !(lo <= at < lo + |b|)
    ensures |WriteAt(d, lo, b)| == |d| && WriteAt(d, lo, b)[at] == d[at]
  {
  }

  // Chunk c does not hold the wrong byte.
  ghost predicate Misses(j: Job, e: nat, c: Chunk, at: nat)
    requires e < |j.plan.regions|
  {
    !(Lo(j.plan.regions[e], c) <= at < Hi(j.plan.regions[e], c, j.p.totalSize))
  }

  // What a fetch by worker 0 leaves as it was.
  ghost predicate FetchedByFirst(s: Run, t: Run)
  {
    && t.workers == s.workers && t.conns == s.conns && t.target == s.target && |t.queues| == |s.queues|
    && 0 < |s.queues| && t.queues == s.queues[0 := t.queues[0]]
    && t.queues[0].stealing == s.queues[0].stealing && t.queues[0].failed == s.queues[0].failed
  }

  // The state after worker 0 has pulled.
  lemma Pulled(j: Job, s: Run)
    requires 1 <= |s.queues| && s.workers != [] && s.workers[0] == Worker(0, Top) && s.queues[0].pending != []
    ensures var c := s.queues[0].pending[0];
            DoPull(At(s, 0, Ready), 0)
            == s.(queues := s.queues[0 := s.queues[0].(pending := s.queues[0].pending[1..])],
                  workers := s.workers[0 := Worker(0, Attempt(c, 0))])
  {
    assert s.workers[0 := Worker(0, Ready)][0 := Worker(0, Attempt(s.queues[0].pending[0], 0))]
        == s.workers[0 := Worker(0, Attempt(s.queues[0].pending[0], 0))];
  }

  lemma PullFirst(ws: seq<World>, evs: seq<Event>, j: Job, s: Run) returns (ws': seq<World>, evs': seq<Event>)
    requires Under(ws, evs, j, s) && 1 <= |s.queues| == |j.plan.regions| && s.workers != []
    requires s.workers[0] == Worker(0, Top) && s.conns <= s.target
    ensures Under(ws', evs', j, DoPull(At(s, 0, Ready), 0))
  {
    ws', evs' := WalkUp(j.content, ws, evs, j, s, 0);
    ws', evs' := Act1(j.content, ws', evs', j, At(s, 0, Ready), PullNext(0));
  }

  lemma FetchedState(j: Job, s: Run, c: Chunk, at: nat)
    requires Going(j, s, at) && !j.p.singleStream && s.workers != [] && s.workers[0] == Worker(0, Attempt(c, 0))
    requires Has(j.plan.regions, 0, c) && Misses(j, 0, c, at) && s.queues[0].stealing
    requires 0 <= Lo(j.plan.regions[0], c) < Hi(j.plan.regions[0], c, j.p.totalSize) <= |j.content|
    requires FileOffset(j, 0, c) == Lo(j.plan.regions[0], c)
    ensures var t := AfterFetch(j, s, 0, c, BodyOf(j, 0, c));
            && Going(j, t, at) && t.workers == s.workers[0 := Worker(0, Top)] && t.conns == s.conns
               && t.target == s.target
            && t.queues == s.queues[0 := t.queues[0]]
               && t.queues[0] == s.queues[0].(done := s.queues[0].done + {c.start})
  {
    WriteElsewhere(s.disk, Lo(j.plan.regions[0], c), BodyOf(j, 0, c), at);
  }

  // Worker 0 fetches the chunk at the head of its queue.
  lemma FetchHead(ws: seq<World>, evs: seq<Event>, j: Job, s: Run, at: nat)
      returns (ws': seq<World>, evs': seq<Event>, t: Run)
    requires Under(ws, evs, j, s) && Going(j, s, at) && !j.p.singleStream && s.conns <= s.target
    requires s.workers != [] && s.workers[0] == Worker(0, Top) && s.queues[0].stealing && s.queues[0].pending != []
    requires Has(j.plan.regions, 0, s.queues[0].pending[0]) && Misses(j, 0, s.queues[0].pending[0], at)
    ensures Under(ws', evs', j, t) && Going(j, t, at) && FetchedByFirst(s, t)
            && t.queues[0].pending == s.queues[0].pending[1..]
    ensures t.queues[0].done == s.queues[0].done + {s.queues[0].pending[0].start}
  {
    var c := s.queues[0].pending[0];
    ws', evs' := PullFirst(ws, evs, j, s);
    Pulled(j, s);
    var u := DoPull(At(s, 0, Ready), 0);
    GoodAnswer(j, 0, c);
    ws', evs' := Fetch(j.content, ws', evs', j, u, 0, c,
        Reply(206, Some(Lo(j.plan.regions[0], c)), BodyOf(j, 0, c), Eof));
    FetchedState(j, u, c, at);
    t := AfterFetch(j, u, 0, c, BodyOf(j, 0, c));
    assert s.workers[0 := Worker(0, Attempt(c, 0))][0 := Worker(0, Top)] == s.workers;
  }

  // ... and all the others down to the last `keep`.
  lemma {:induction false} FetchDown(ws: seq<World>, evs: seq<Event>, j: Job, s: Run, at: nat, keep: nat)
    returns (ws': seq<World>, evs': seq<Event>, t: Run)
    requires Under(ws, evs, j, s) && Going(j, s, at) && s.conns <= s.target
    requires s.workers != [] && s.workers[0] == Worker(0, Top) && s.queues[0].stealing && keep <= |s.queues[0].pending|
    requires keep < |s.queues[0].pending| ==> !j.p.singleStream
    requires forall i :: 0 <= i < |s.queues[0].pending| - keep ==>
               Has(j.plan.regions, 0, s.queues[0].pending[i]) && Misses(j, 0, s.queues[0].pending[i], at)
    ensures Under(ws', evs', j, t) && Going(j, t, at) && FetchedByFirst(s, t)
    ensures t.queues[0].pending == s.queues[0].pending[|s.queues[0].pending| - keep..]
    ensures s.queues[0].done <= t.queues[0].done
    ensures forall i :: 0 <= i < |s.queues[0].pending| - keep ==> s.queues[0].pending[i].start in t.queues[0].done
    decreases |s.queues[0].pending|
  {
    var p := s.queues[0].pending;
    if |p| == keep {
      ws', evs', t := ws, evs, s;
    } else {
      var u;
      ws', evs', u := FetchHead(ws, evs, j, s, at);
      assert forall i :: 0 <= i < |p[1..]| - keep ==> p[1..][i] == p[i + 1];
      ws', evs', t := FetchDown(ws', evs', j, u, at, keep);
      assert forall i :: 0 < i < |p| - keep ==> p[i] == p[1..][i - 1];
      assert p[1..][|p| - 1 - keep..] == p[|p| - keep..];
    }
  }

  // ----- leaving -----

  // Every worker of region e from the i-th on that stands at the top sees an empty queue.
  lemma {:induction false} AllSeeEmpty(ws: seq<World>, evs: seq<Event>, j: Job, s: Run, e: nat, i: nat)
    returns (ws': seq<World>, evs': seq<Event>, t: Run)
    requires Under(ws, evs, j, s) && e < |s.queues| == |j.plan.regions| && i <= |s.workers|
    requires s.queues[e].pending == [] && s.conns <= s.target
    ensures Under(ws', evs', j, t) && Moved(s, t) && t.conns == s.conns
    ensures forall v :: 0 <= v < |s.workers| ==>
              t.workers[v] == if v >= i && s.workers[v] == Worker(e, Top) then Worker(e, Draining) else s.workers[v]
    decreases |s.workers| - i
  {
    if i == |s.workers| {
      ws', evs', t := ws, evs, s;
    } else if s.workers[i] != Worker(e, Top) {
      ws', evs', t := AllSeeEmpty(ws, evs, j, s, e, i + 1);
    } else {
      ws', evs' := WalkUp(j.content, ws, evs, j, s, i);
      ws', evs' := Act1(j.content, ws', evs', j, At(s, i, Ready), PullNext(i));
      AtTwice(s, i, Ready, Draining);
      var u := At(s, i, Draining);
      ws', evs', t := AllSeeEmpty(ws', evs', j, u, e, i + 1);
    }
  }

  // How many of the workers from the i-th on stand at the top of region e.
  function Standing(ws: seq<Worker>, e: nat, i: nat): nat
    requires i <= |ws|
    decreases |ws| - i
  {
    if i == |ws| then 0 else (if ws[i] == Worker(e, Top) then 1 else 0) + Standing(ws, e, i + 1)
  }

  lemma {:induction false} StandingAtMost(ws: seq<Worker>, e: nat, i: nat)
    requires i <= |ws|
    ensures Standing(ws, e, i) <= |ws| - i
    decreases |ws| - i
  {
    if i < |ws| {
      StandingAtMost(ws, e, i + 1);
    }
  }

  lemma {:induction false} StandingUpdate(ws: seq<Worker>, e: nat, i: nat, k: nat, x: Worker)
    requires k < i <= |ws|
    ensures Standing(ws[k := x], e, i) == Standing(ws, e, i)
    decreases |ws| - i
  {
    if i < |ws| {
      StandingUpdate(ws, e, i + 1, k, x);
    }
  }

  // A worker that reads a count above the target retires.
  lemma Retires(ws: seq<World>, evs: seq<Event>, j: Job, s: Run, w: nat, t: int)
    returns (ws': seq<World>, evs': seq<Event>)
    requires Aimed(ws, evs, j, s, t) && CanAt(j, s, w)
    requires s.workers[w].phase == Top && s.conns > s.target
    ensures Aimed(ws', evs', j, At(s.(conns := s.conns - 1), w, Exited), t)
  {
    ws', evs' := AimedAct(ws, evs, j, s, LoadLive(w), t);
    ws', evs' := AimedAct(ws', evs', j, At(s, w, Loaded(s.conns)), LoadTarget(w), t);
    AtTwice(s, w, Loaded(s.conns), Deciding(s.conns));
    ws', evs' := AimedAct(ws', evs', j, At(s, w, Deciding(s.conns)), RetireCas(w), t);
    AtTwice(s.(conns := s.conns - 1), w, Deciding(s.conns), Exited);
  }

  // All of them retire, if the count allows it.
  lemma {:induction false} AllRetire(ws: seq<World>, evs: seq<Event>, j: Job, s: Run, e: nat, i: nat, goal: int)
    returns (ws': seq<World>, evs': seq<Event>, t: Run)
    requires Aimed(ws, evs, j, s, goal) && e < |s.queues| == |j.plan.regions| && i <= |s.workers|
    requires s.conns - Standing(s.workers, e, i) >= s.target
    ensures Aimed(ws', evs', j, t, goal) && Moved(s, t)
    ensures forall v :: 0 <= v < |s.workers| ==>
              t.workers[v] == if v >= i && s.workers[v] == Worker(e, Top) then Worker(e, Exited) else s.workers[v]
    decreases |s.workers| - i
  {
    if i == |s.workers| {
      ws', evs', t := ws, evs, s;
    } else if s.workers[i] != Worker(e, Top) {
      ws', evs', t := AllRetire(ws, evs, j, s, e, i + 1, goal);
    } else {
      ws', evs' := Retires(ws, evs, j, s, i, goal);
      var u := At(s.(conns := s.conns - 1), i, Exited);
      StandingUpdate(s.workers, e, i + 1, i, Worker(e, Exited));
      ws', evs', t := AllRetire(ws', evs', j, u, e, i + 1, goal);
    }
  }

  // Whoever is on the way out goes.
  lemma {:induction false} AllLeave(ws: seq<World>, evs: seq<Event>, j: Job, s: Run, i: nat, goal: int)
    returns (ws': seq<World>, evs': seq<Event>, t: Run)
    requires Aimed(ws, evs, j, s, goal) && |s.queues| == |j.plan.regions| && i <= |s.workers|
    requires forall w :: 0 <= w < |s.workers| ==> s.workers[w].region < |s.queues|
    requires forall v :: 0 <= v < |s.workers| ==> s.workers[v].phase.Exited? || (v >= i && s.workers[v].phase.Draining?)
    ensures Aimed(ws', evs', j, t, goal) && Moved(s, t) && AllExited(t)
    decreases |s.workers| - i
  {
    if i == |s.workers| {
      ws', evs', t := ws, evs, s;
    } else if s.workers[i].phase.Exited? {
      ws', evs', t := AllLeave(ws, evs, j, s, i + 1, goal);
    } else {
      ws', evs' := AimedAct(ws, evs, j, s, Leave(i), goal);
      ws', evs', t := AllLeave(ws', evs', j, Do(j, s, Leave(i)), i + 1, goal);
    }
  }

  // A run that has lost everybody without trouble is called Completed.
  lemma Verdict(ws: seq<World>, evs: seq<Event>, j: Job, s: Run, at: nat, t: int)
      returns (ws': seq<World>, evs': seq<Event>)
    requires Aimed(ws, evs, j, s, t) && Going(j, s, at) && AllExited(s)
    ensures WrongFile(j.content, ws', evs', j.p) && Only(evs', j.o, j.p) && Toward(evs', t)
  {
    ws', evs' := Extend(j.content, ws, evs, Busy(j, s), Finish(true));
  }

  // ----- one region -----

  // All attempts of worker 0 at its chunk fail in transport.
  lemma {:induction false} FailsOut(ws: seq<World>, evs: seq<Event>, j: Job, s: Run, c: Chunk, n: nat)
    returns (ws': seq<World>, evs': seq<Event>)
    requires Under(ws, evs, j, s) && CanAt(j, s, 0) && s.workers[0].phase == Attempt(c, n) && n <= j.o.retry
             && !s.cancelled
    requires FileOffset(j, s.workers[0].region, c) >= 0
    ensures Under(ws', evs', j, At(s, 0, Failed(c, false)))
    decreases j.o.retry - n
  {
    ws', evs' := Act1(j.content, ws, evs, j, s, Answer(0, NoReply));
    if n < j.o.retry {
      ws', evs' := FailsOut(ws', evs', j, At(s, 0, Attempt(c, n + 1)), c, n + 1);
      AtTwice(s, 0, Attempt(c, n + 1), Failed(c, false));
    }
  }

  // Worker 0 holds the last chunk of the only region, everybody else has seen an empty queue.
  ghost predicate LastInHand(j: Job, s: Run, c: Chunk)
  {
    && |s.queues| == 1 && s.queues[0].stealing && s.queues[0].pending == [] && s.queues[0].failed == map[]
    && s.workers != [] && s.workers[0] == Worker(0, Attempt(c, 0)) && Has(j.plan.regions, 0, c)
    && (forall v :: 1 <= v < |s.workers| ==> s.workers[v] == Worker(0, Draining))
  }

  lemma LastMissed(j: Job, i: nat)
    requires Sound(j) && j.p.totalSize > 0 && |j.plan.regions| == 1
    requires i < |j.plan.regions[0].chunks| - 1
    ensures var cs := j.plan.regions[0].chunks;
            0 <= Lo(j.plan.regions[0], cs[|cs| - 1]) && Has(j.plan.regions, 0, cs[i])
            && Misses(j, 0, cs[i], Lo(j.plan.regions[0], cs[|cs| - 1])) && !j.p.singleStream
  {
    var cs := j.plan.regions[0].chunks;
    OneRegionOnly(j);
    PlanWellLaid(j.o, j.p);
    assert InFile(j.plan.regions, j.p.totalSize) && AllApart(j.plan.regions, j.p.totalSize);
    var last := cs[|cs| - 1];
    assert Has(j.plan.regions, 0, cs[i]) && Has(j.plan.regions, 0, last) && cs[i] != last;
    assert Apart(j.plan.regions, j.p.totalSize, 0, cs[i], 0, last);
  }

  lemma OneRegionOnly(j: Job)
    requires Sound(j) && j.p.totalSize > 0 && |j.plan.regions| == 1
    ensures j.p.singleStream ==> j.plan.regions[0].chunks == [Chunk(0, 0, -1)]
  {
    if SplitsInTwo(j.o, j.p) { TwoRegions(j.o, j.p); } else { OneRegion(j.o, j.p); }
  }

  // The byte that will stay wrong: the first of the last chunk.
  lemma LastChunk(j: Job) returns (c: Chunk)
    requires Sound(j) && j.p.totalSize > 0 && |j.plan.regions| == 1
    ensures var cs := j.plan.regions[0].chunks;
            cs != [] && c == cs[|cs| - 1] && Has(j.plan.regions, 0, c) && 0 <= Lo(j.plan.regions[0], c) < |j.content|
  {
    PlanWellLaid(j.o, j.p);
    assert HasByte(j.plan.regions, j.p.totalSize, 0);
    assert InFile(j.plan.regions, j.p.totalSize);
    var cs := j.plan.regions[0].chunks;
    c := cs[|cs| - 1];
    assert Has(j.plan.regions, 0, c);
  }

  lemma AllTops(o: Options, p: Probe)
    requires o.conns >= 1 && |MakePlan(o, p).regions| == 1
    ensures var ks := InitialWorkers(o, p, MakePlan(o, p));
            |ks| == WorkerCount(o, p, MakePlan(o, p)) && forall v :: 0 <= v < |ks| ==> ks[v] == Worker(0, Top)
  {
    WorkerCountAtLeastOne(o, p);
  }

  lemma HoldTheLast(content: seq<byte>, o: Options, p: Probe)
    returns (ws: seq<World>, evs: seq<Event>, s: Run, c: Chunk, at: nat)
    requires o.conns >= 1 && p.totalSize == |content| > 0
    requires |MakePlan(o, p).regions| == 1 && MakePlan(o, p).regions[0].stealing
    ensures var j := Job(content, o, p, MakePlan(o, p));
            Under(ws, evs, j, s) && Going(j, s, at) && LastInHand(j, s, c)
                && s.conns == s.target == WorkerCount(o, p, j.plan)
  {
    var j := Job(content, o, p, MakePlan(o, p));
    c := LastChunk(j);
    at := Lo(j.plan.regions[0], c);
    var cs := j.plan.regions[0].chunks;
    ws, evs, s := LaunchOver(content, o, p, at);
    AllTops(o, p);
    forall i | 0 <= i < |cs| - 1
      ensures Has(j.plan.regions, 0, cs[i]) && Misses(j, 0, cs[i], at) && !j.p.singleStream
    {
      LastMissed(j, i);
    }
    ws, evs, s := FetchDown(ws, evs, j, s, at, 1);
    assert s.queues[0].pending == [c];
    ws, evs := PullFirst(ws, evs, j, s);
    Pulled(j, s);
    s := DoPull(At(s, 0, Ready), 0);
    ws, evs, s := AllSeeEmpty(ws, evs, j, s, 0, 1);
  }

  // The failed chunk goes back into the queue, its worker retires, and the others leave.
  lemma GiveBackAndRetire(ws: seq<World>, evs: seq<Event>, j: Job, s: Run, c: Chunk, at: nat, t: int)
    returns (ws': seq<World>, evs': seq<Event>)
    requires Under(ws, evs, j, s) && Going(j, s, at) && LastInHand(j, s, c) && j.o.retry >= 1
    requires 1 <= t < s.conns == s.target
    ensures WrongFile(j.content, ws', evs', j.p) && Only(evs', j.o, j.p) && Toward(evs', t)
  {
    ChunkFacts(j, 0, c);
    ws', evs' := FailsOut(ws, evs, j, s, c, 0);
    var s1 := At(s, 0, Failed(c, false));
    ws', evs' := Act1(j.content, ws', evs', j, s1, Resolve(0));
    var s2 := DoResolve(j, s1, 0);
    assert s2.workers[0] == Worker(0, Top) && s2.errors == 0;
    ws', evs' := RetireTheFirst(ws', evs', j, s2, at, t);
  }

  // Worker 0 is about to look again, the others are on their way out.
  lemma RetireTheFirst(ws: seq<World>, evs: seq<Event>, j: Job, s: Run, at: nat, t: int)
    returns (ws': seq<World>, evs': seq<Event>)
    requires Under(ws, evs, j, s) && Going(j, s, at) && 1 <= t < s.conns == s.target
    requires s.workers != [] && s.workers[0] == Worker(0, Top)
    requires forall v :: 1 <= v < |s.workers| ==> s.workers[v].phase.Draining?
    ensures WrongFile(j.content, ws', evs', j.p) && Only(evs', j.o, j.p) && Toward(evs', t)
  {
    ws', evs' := Aim(ws, evs, j, s, t);
    var u := Do(j, s, Retarget(t));
    ws', evs' := Retires(ws', evs', j, u, 0, t);
    var v;
    ws', evs', v := AllLeave(ws', evs', j, At(u.(conns := u.conns - 1), 0, Exited), 0, t);
    ws', evs' := Verdict(ws', evs', j, v, at, t);
  }

  // One reduction, however small, while workers that have seen an empty queue are still
  // counted: the one that holds the last chunk hands it back and retires, and the task
  // completes without it.
  lemma ReductionHole(content: seq<byte>, o: Options, p: Probe, t: int) returns (ws: seq<World>, evs: seq<Event>)
    requires o.conns >= 1 && p.totalSize == |content| > 0 && o.retry >= 1
    requires |MakePlan(o, p).regions| == 1 && MakePlan(o, p).regions[0].stealing
    requires 1 <= t < WorkerCount(o, p, MakePlan(o, p))
    ensures WrongFile(content, ws, evs, p) && Only(evs, o, p) && Toward(evs, t)
  {
    var s, c, at;
    ws, evs, s, c, at := HoldTheLast(content, o, p);
    ws, evs := GiveBackAndRetire(ws, evs, Job(content, o, p, MakePlan(o, p)), s, c, at, t);
  }

  // ----- two regions -----

  lemma Region1Misses(j: Job, c: Chunk)
    requires Sound(j) && SplitsInTwo(j.o, j.p) && |j.plan.regions| == 2 && c in j.plan.regions[0].chunks
    ensures 0 < j.plan.splitAt < |j.content| && Has(j.plan.regions, 0, c) && Misses(j, 0, c, j.plan.splitAt)
  {
    TwoRegions(j.o, j.p);
    CutOrdered(j.plan.splitAt, EffectiveStep(j.o.chunkSize));
  }

  // The crew of a two-region run: region 1 first, then region 2, and a count at least as large.
  lemma TwoCrews(o: Options, p: Probe)
    requires SplitsInTwo(o, p)
    ensures var plan := MakePlan(o, p);
            |plan.regions| == 2 && plan.regions[0].stealing &&
            var ks, n0 := InitialWorkers(o, p, plan), Max(1, o.conns / 2);
            && 1 <= n0 < |ks| <= WorkerCount(o, p, plan)
            && (forall v :: 0 <= v < |ks| ==> ks[v] == Worker(if v < n0 then 0 else 1, Top))
  {
    TwoRegions(o, p);
  }

  // Region 1 is fetched and its workers are on the way out; region 2 has not begun.
  lemma FinishRegion1(content: seq<byte>, o: Options, p: Probe) returns (ws: seq<World>, evs: seq<Event>, s: Run)
    requires SplitsInTwo(o, p) && p.totalSize == |content|
    ensures var j := Job(content, o, p, MakePlan(o, p));
            |j.plan.regions| == 2 && j.plan.splitAt >= 0 && Under(ws, evs, j, s) && Going(j, s, j.plan.splitAt)
            && s.conns == s.target == WorkerCount(o, p, j.plan)
            && (forall c :: Has(j.plan.regions, 0, c) ==> c.start in s.queues[0].done)
            && |s.workers| == |InitialWorkers(o, p, j.plan)|
            && forall v :: 0 <= v < |s.workers| ==>
                 s.workers[v] == if v < Max(1, o.conns / 2) then Worker(0, Draining) else Worker(1, Top)
  {
    var j := Job(content, o, p, MakePlan(o, p));
    TwoCrews(o, p);
    TwoRegions(o, p);
    var at := j.plan.splitAt;
    ws, evs, s := LaunchOver(content, o, p, at);
    forall i | 0 <= i < |s.queues[0].pending|
      ensures Has(j.plan.regions, 0, s.queues[0].pending[i]) && Misses(j, 0, s.queues[0].pending[i], at)
    {
      Region1Misses(j, s.queues[0].pending[i]);
    }
    var all := s.queues[0].pending;
    ws, evs, s := FetchDown(ws, evs, j, s, at, 0);
    assert forall c :: Has(j.plan.regions, 0, c) ==> c in all;
    ws, evs, s := AllSeeEmpty(ws, evs, j, s, 0, 0);
  }

  // In a two-region run a reduction may retire every worker of region 2: the task completes
  // without that region.
  lemma RegionBlindReduction(content: seq<byte>, o: Options, p: Probe) returns (ws: seq<World>, evs: seq<Event>)
    requires SplitsInTwo(o, p) && p.totalSize == |content|
    ensures WrongFile(content, ws, evs, p) && Only(evs, o, p)
  {
    var j := Job(content, o, p, MakePlan(o, p));
    var n0 := Max(1, o.conns / 2);
    TwoCrews(o, p);
    var s;
    ws, evs, s := FinishRegion1(content, o, p);
    ws, evs := Aim(ws, evs, j, s, 1);
    var s1 := Do(j, s, Retarget(1));
    StandingAtMost(s1.workers, 1, n0);
    var s2, s3;
    ws, evs, s2 := AllRetire(ws, evs, j, s1, 1, n0, 1);
    ws, evs, s3 := AllLeave(ws, evs, j, s2, 0, 1);
    ws, evs := Verdict(ws, evs, j, s3, j.plan.splitAt, 1);
  }

  // ----- the exact condition -----

  // Every history, whatever the retargets, whose runs all have these options.
  ghost predicate SurvivesReductions(content: seq<byte>, o: Options, p: Probe)
  {
    forall ws, evs :: History(content, ws, evs) && Only(evs, o, p) ==> !WrongFile(content, ws, evs, p)
  }

  lemma {:induction false} RobustAlong(content: seq<byte>, ws: seq<World>, evs: seq<Event>, o: Options, p: Probe,
      n: nat)
    requires History(content, ws, evs) && Only(evs, o, p) && n < |ws|
    ensures ws[n].Busy? ==> ws[n].j.o == o && ws[n].j.p == p
  {
    if n > 0 {
      RobustAlong(content, ws, evs, o, p, n - 1);
      assert Occurs(content, ws[n - 1], evs[n - 1]) && ws[n] == After(content, ws[n - 1], evs[n - 1]);
    }
  }

  lemma RobustSurvives(content: seq<byte>, o: Options, p: Probe, ws: seq<World>, evs: seq<Event>)
    requires Robust(o, p) && p.totalSize > 0 && History(content, ws, evs) && Only(evs, o, p)
    ensures !WrongFile(content, ws, evs, p)
  {
    forall i | 0 <= i < |evs|
      ensures Disciplined(ws[i], evs[i])
    {
      RobustAlong(content, ws, evs, o, p, i);
    }
    if WrongFile(content, ws, evs, p) {
      EndToEndReduced(content, ws, evs, |evs|);
    }
  }

  // For a file of known size, every history under these options delivers, however the
  // connection target is moved, if and only if the layout has one region and its chunks are
  // never taken back, or only one worker is ever counted.
  lemma ReductionsExactly(content: seq<byte>, o: Options, p: Probe)
    requires o.conns >= 1 && p.totalSize == |content| > 0
    ensures SurvivesReductions(content, o, p) <==> Robust(o, p)
  {
    PlanShape(o, p);
    if Robust(o, p) {
      forall ws, evs | History(content, ws, evs) && Only(evs, o, p)
        ensures !WrongFile(content, ws, evs, p)
      {
        RobustSurvives(content, o, p, ws, evs);
      }
    } else if SplitsInTwo(o, p) {
      var ws, evs := RegionBlindReduction(content, o, p);
    } else {
      OneRegion(o, p);
      var ws, evs := ReductionHole(content, o, p, 1);
    }
  }

  // ----- one target -----

  // Every history in which a target, whenever it is set, is set to t.
  ghost predicate SurvivesTarget(content: seq<byte>, o: Options, p: Probe, t: int)
  {
    forall ws, evs :: History(content, ws, evs) && Only(evs, o, p) && Toward(evs, t) ==>
      !WrongFile(content, ws, evs, p)
  }

  // No run is ever sent below the target it was launched with, or has reached.
  lemma {:induction false} RaisedAlong(content: seq<byte>, ws: seq<World>, evs: seq<Event>, o: Options, p: Probe,
                                       t: int, n: nat)
    requires History(content, ws, evs) && Only(evs, o, p) && Toward(evs, t) && n < |ws|
    requires t >= 1 && t >= WorkerCount(o, p, MakePlan(o, p))
    ensures ws[n].Busy? ==> ws[n].s.target <= t
  {
    if n > 0 {
      RaisedAlong(content, ws, evs, o, p, t, n - 1);
      RaisedStep(content, ws[n - 1], evs[n - 1], o, p, t);
    }
  }

  lemma RaisedStep(content: seq<byte>, w: World, ev: Event, o: Options, p: Probe, t: int)
    requires Occurs(content, w, ev) && t >= 1 && t >= WorkerCount(o, p, MakePlan(o, p))
    requires (ev.Launch? ==> ev.o == o && ev.p == p) && (ev.Act? && ev.step.Retarget? ==> ev.step.t == t)
    requires w.Busy? ==> w.s.target <= t
    ensures var v := After(content, w, ev); v.Busy? ==> v.s.target <= t
  {
    if ev.Launch? && Launched(content, w, ev).Busy? { LaunchedCounters(content, w, ev); }
    if ev.Act? { TargetMoves(w.j, w.s, ev.step); }
  }

  lemma TargetMoves(j: Job, s: Run, step: Step)
    requires Can(j, s, step)
    ensures Do(j, s, step).target == if step.Retarget? then Max(step.t, 1) else s.target
  {
    if Transfers(step) { TransfersKeepCounters(j, s, step); }
  }

  lemma HighTargetSurvives(content: seq<byte>, o: Options, p: Probe, t: int, ws: seq<World>, evs: seq<Event>)
    requires p.totalSize > 0 && t >= 1 && t >= WorkerCount(o, p, MakePlan(o, p))
    requires History(content, ws, evs) && Only(evs, o, p) && Toward(evs, t)
    ensures !WrongFile(content, ws, evs, p)
  {
    forall i | 0 <= i < |evs|
      ensures Raised(ws[i], evs[i])
    {
      RaisedAlong(content, ws, evs, o, p, t, i);
    }
    if WrongFile(content, ws, evs, p) {
      EndToEndNeverLowered(content, ws, evs, |evs|);
    }
  }

  // A single-region file of known size survives being sent to target t, at any times, if and
  // only if it survives every reduction or t is no reduction of the count it is launched with.
  lemma TargetSurvivedExactly(content: seq<byte>, o: Options, p: Probe, t: int)
    requires o.conns >= 1 && p.totalSize == |content| > 0 && t >= 1 && |MakePlan(o, p).regions| == 1
    ensures SurvivesTarget(content, o, p, t) <==> Robust(o, p) || t >= WorkerCount(o, p, MakePlan(o, p))
  {
    if Robust(o, p) || t >= WorkerCount(o, p, MakePlan(o, p)) {
      forall ws, evs | History(content, ws, evs) && Only(evs, o, p) && Toward(evs, t)
        ensures !WrongFile(content, ws, evs, p)
      {
        if Robust(o, p) { RobustSurvives(content, o, p, ws, evs); }
        else { HighTargetSurvives(content, o, p, t, ws, evs); }
      }
    } else {
      var ws, evs := ReductionHole(content, o, p, t);
    }
  }
}
