// One run of a task as a state machine over atomic steps: the worker protocol of
// internal/download/task_io.go, AdjustConns of task.go and persistControl of task_persist.go.
module Workers {
  import opened Chunks
  import opened Layout
  import W = WorkQueue

  // The fixed facts of a run. `content` is what the server serves.
  datatype Job = Job(content: seq<byte>, o: Options, p: Probe, plan: Plan)

  // How a body stops: a clean end of file, or a read error (also a cancelled or timed-out read).
  datatype Ending = Eof | Broken

  // What one request brings back; NoReply is a transport error. rangeStart is the start
  // parsed from Content-Range, if there is one.
  datatype Reply = NoReply | Reply(status: int, rangeStart: Option<int>, body: seq<byte>, ending: Ending)

  // Where a worker is. `live` is the connection count it read; `n` counts finished attempts.
  datatype Phase =
    | Top
    | Loaded(live: int)
    | Deciding(live: int)
    | Ready
    | Attempt(c: Chunk, n: nat)
    | Copying(c: Chunk, n: nat, body: seq<byte>, ending: Ending, off: nat)
    | Fetched(c: Chunk, sum: Digest)
    | Hashed(c: Chunk)
    | Failed(c: Chunk, permanent: bool)
    | Draining
    | Exited

  datatype Worker = Worker(region: nat, phase: Phase)

  // mu holds the region-1 offsets already read by a checkpoint in progress; own says that
  // the control file was written by this run; unspawned counts workers AdjustConns still owes.
  datatype Run = Run(queues: seq<W.Queue>, workers: seq<Worker>, disk: seq<byte>, hashes: map<int, Digest>,
                     bytesDone: int, errors: nat, conns: int, target: int, unspawned: nat, cancelled: bool,
                     mu: Option<set<int>>, control: Option<Control>, own: bool)

  datatype Step =
    | LoadLive(w: nat)
    | LoadTarget(w: nat)
    | RetireCas(w: nat)
    | SeeCancel(w: nat)
    | PullNext(w: nat)
    | Answer(w: nat, reply: Reply)
    | Copy(w: nat, k: nat)
    | CopyFail(w: nat, torn: nat)
    | CopyEnd(w: nat)
    | StoreHash(w: nat)
    | Finished(w: nat)
    | Resolve(w: nat)
    | Leave(w: nat)
    | BeginPersist
    | EndPersist(saved: bool)
    | Cancel
    | Retarget(t: int)
    | Spawn

  // ----- small pieces -----

  predicate Holds(ph: Phase)
  {
    ph.Attempt? || ph.Copying? || ph.Fetched? || ph.Hashed? || ph.Failed?
  }

  predicate Active(ph: Phase)
  {
    !ph.Draining? && !ph.Exited?
  }

  function At(s: Run, w: nat, ph: Phase): Run
    requires w < |s.workers|
  {
    s.(workers := s.workers[w := s.workers[w].(phase := ph)])
  }

  // Bytes [at, at + |b|) replaced by b, zero-filled up to `at` if the file is shorter.
  function WriteAt(d: seq<byte>, at: nat, b: seq<byte>): seq<byte>
  {
    if b == [] then d
    else
      seq(Max(|d|, at + |b|), i requires 0 <= i < Max(|d|, at + |b|) =>
        if at <= i < at + |b| then b[i - at] else if i < |d| then d[i] else 0)
  }

  // ----- what is accepted from the server -----

  // 4xx except 408 and 429 will not heal.
  predicate IsPermanent(status: int)
  {
    400 <= status < 500 && status != 408 && status != 429
  }

  // The chunk is fetched with a plain GET rather than a range.
  predicate Whole(j: Job, c: Chunk)
  {
    j.p.totalSize < 0 || (j.p.singleStream && c.start == 0 && c.index == 0)
  }

  function AbsStart(j: Job, region: nat, c: Chunk): int
    requires region < |j.plan.regions|
  {
    Lo(j.plan.regions[region], c)
  }

  function FileOffset(j: Job, region: nat, c: Chunk): int
    requires region < |j.plan.regions|
  {
    if Whole(j, c) then 0 else AbsStart(j, region, c)
  }

  datatype Guard = Accept | Reject(permanent: bool)

  function Check(j: Job, region: nat, c: Chunk, r: Reply): Guard
    requires region < |j.plan.regions|
  {
    if r.NoReply? then Reject(false)
    else if Whole(j, c) then
      if 200 <= r.status < 300 then Accept else Reject(IsPermanent(r.status))
    else if r.status == 200 then Reject(true)
    else if r.status != 206 then Reject(IsPermanent(r.status))
    else if r.rangeStart != Some(AbsStart(j, region, c)) then Reject(true)
    else Accept
  }

  // Does a body of n bytes, read to a clean end, complete the chunk?
  predicate FullLength(j: Job, c: Chunk, n: nat)
  {
    if Whole(j, c) then j.p.totalSize > 0 ==> n == j.p.totalSize
    else c.end >= 0 && j.p.totalSize > 0 ==> n == c.end - c.start + 1
  }

  // An honest server never mislabels bytes: a 206 that declares a start carries the
  // content from there on, a 2xx to a plain GET carries it from 0. It may stop anywhere,
  // go on past what was asked, declare another range, or answer another status with anything.
  predicate Honest(j: Job, c: Chunk, r: Reply)
  {
    r.Reply? ==>
      if Whole(j, c) then 200 <= r.status < 300 ==> r.body <= j.content
      else r.status == 206 && r.rangeStart.Some? ==>
        0 <= r.rangeStart.value <= |j.content| && r.body <= j.content[r.rangeStart.value..]
  }

  // ----- the steps -----

  predicate CanAt(j: Job, s: Run, w: nat)
  {
    w < |s.workers| && s.workers[w].region < |s.queues| == |j.plan.regions|
  }

  // An attempt ended in an error. A cancelled context returns before the roll-back.
  function AttemptFailed(j: Job, s: Run, w: nat, c: Chunk, n: nat, off: nat, permanent: bool): Run
    requires w < |s.workers|
  {
    if s.cancelled then At(s, w, Failed(c, permanent))
    else
      var s1 := s.(bytesDone := s.bytesDone - off);
      if permanent then At(s1, w, Failed(c, true))
      else if n < j.o.retry then At(s1, w, Attempt(c, n + 1))
      else At(s1, w, Failed(c, false))
  }

  predicate Can(j: Job, s: Run, step: Step)
  {
    match step
    case LoadLive(w) => CanAt(j, s, w) && s.workers[w].phase.Top?
    case LoadTarget(w) => CanAt(j, s, w) && s.workers[w].phase.Loaded?
    case RetireCas(w) => CanAt(j, s, w) && s.workers[w].phase.Deciding?
    case SeeCancel(w) => CanAt(j, s, w) && s.workers[w].phase.Ready? && s.cancelled
    case PullNext(w) => CanAt(j, s, w) && s.workers[w].phase.Ready?
    case Answer(w, reply) => CanAt(j, s, w) && s.workers[w].phase.Attempt?
        && FileOffset(j, s.workers[w].region, s.workers[w].phase.c) >= 0
    case Copy(w, k) => CanCopy(j, s, w, k) && k >= 1
    case CopyFail(w, torn) => CanCopy(j, s, w, torn)
    case CopyEnd(w) =>
      CanAt(j, s, w) && s.workers[w].phase.Copying? && s.workers[w].phase.off == |s.workers[w].phase.body|
    case StoreHash(w) => CanAt(j, s, w) && s.workers[w].phase.Fetched? && s.mu.None?
    case Finished(w) => CanAt(j, s, w) && s.workers[w].phase.Hashed?
    case Resolve(w) => CanAt(j, s, w) && s.workers[w].phase.Failed?
    case Leave(w) => CanAt(j, s, w) && s.workers[w].phase.Draining?
    case BeginPersist => s.mu.None? && 1 <= |s.queues| == |j.plan.regions| <= 2
    case EndPersist(_) => s.mu.Some? && 1 <= |s.queues| == |j.plan.regions| <= 2
    case Cancel => true
    case Retarget(t) => true
    case Spawn => s.unspawned > 0
  }

  // The second load: keep going if the count read is not above the target now.
  function DoLoadTarget(s: Run, w: nat): Run
    requires w < |s.workers| && s.workers[w].phase.Loaded?
  {
    var live := s.workers[w].phase.live;
    At(s, w, if live <= s.target then Ready else Deciding(live))
  }

  // The compare-and-swap: retire, or look again.
  function DoRetire(s: Run, w: nat): Run
    requires w < |s.workers| && s.workers[w].phase.Deciding?
  {
    if s.conns == s.workers[w].phase.live then At(s.(conns := s.conns - 1), w, Exited) else At(s, w, Top)
  }

  function DoPull(s: Run, w: nat): Run
    requires w < |s.workers| && s.workers[w].region < |s.queues|
  {
    var e := s.workers[w].region;
    var (q, c) := W.Pull(s.queues[e]);
    if c.None? then At(s, w, Draining) else At(s.(queues := s.queues[e := q]), w, Attempt(c.value, 0))
  }

  function DoAnswer(j: Job, s: Run, w: nat, r: Reply): Run
    requires CanAt(j, s, w) && s.workers[w].phase.Attempt?
  {
    var ph := s.workers[w].phase;
    match Check(j, s.workers[w].region, ph.c, r)
    case Accept => At(s, w, Copying(ph.c, ph.n, r.body, r.ending, 0))
    case Reject(permanent) => AttemptFailed(j, s, w, ph.c, ph.n, 0, permanent)
  }

  predicate CanCopy(j: Job, s: Run, w: nat, k: nat)
  {
    CanAt(j, s, w) && s.workers[w].phase.Copying? && FileOffset(j, s.workers[w].region, s.workers[w].phase.c) >= 0
    && k <= |s.workers[w].phase.body| - s.workers[w].phase.off
  }

  // The disk after the next k body bytes of worker w are written.
  function Written(j: Job, s: Run, w: nat, k: nat): seq<byte>
    requires CanCopy(j, s, w, k)
  {
    var ph := s.workers[w].phase;
    WriteAt(s.disk, FileOffset(j, s.workers[w].region, ph.c) + ph.off, ph.body[ph.off..ph.off + k])
  }

  function DoCopy(j: Job, s: Run, w: nat, k: nat): Run
    requires CanCopy(j, s, w, k)
  {
    var ph := s.workers[w].phase;
    At(s.(disk := Written(j, s, w, k), bytesDone := s.bytesDone + k), w, ph.(off := ph.off + k))
  }

  // A read or write error after `off` counted bytes; `torn` more may have reached the disk.
  function DoCopyFail(j: Job, s: Run, w: nat, torn: nat): Run
    requires CanCopy(j, s, w, torn)
  {
    var ph := s.workers[w].phase;
    AttemptFailed(j, s.(disk := Written(j, s, w, torn)), w, ph.c, ph.n, ph.off, false)
  }

  function DoCopyEnd(j: Job, s: Run, w: nat): Run
    requires Can(j, s, CopyEnd(w))
  {
    var ph := s.workers[w].phase;
    if ph.ending.Broken? then AttemptFailed(j, s, w, ph.c, ph.n, ph.off, false)
    else if !FullLength(j, ph.c, ph.off) then AttemptFailed(j, s, w, ph.c, ph.n, ph.off, true)
    else At(s, w, Fetched(ph.c, Digest(ph.body)))
  }

  function DoStoreHash(j: Job, s: Run, w: nat): Run
    requires CanAt(j, s, w) && s.workers[w].phase.Fetched?
  {
    var ph := s.workers[w].phase;
    At(s.(hashes := s.hashes[AbsStart(j, s.workers[w].region, ph.c) := ph.sum]), w, Hashed(ph.c))
  }

  function DoFinished(s: Run, w: nat): Run
    requires w < |s.workers| && s.workers[w].region < |s.queues| && s.workers[w].phase.Hashed?
  {
    var e := s.workers[w].region;
    At(s.(queues := s.queues[e := W.MarkDone(s.queues[e], s.workers[w].phase.c)]), w, Top)
  }

  // The worker's error path: cancelled and permanent failures end it, others are requeued.
  function DoResolve(j: Job, s: Run, w: nat): Run
    requires w < |s.workers| && s.workers[w].region < |s.queues| && s.workers[w].phase.Failed?
  {
    var e := s.workers[w].region;
    var ph := s.workers[w].phase;
    if s.cancelled || ph.permanent then At(s.(errors := s.errors + 1), w, Draining)
    else
      var (q, again) := W.Requeue(s.queues[e], ph.c, j.o.retry);
      var s1 := s.(queues := s.queues[e := q]);
      if again then At(s1, w, Top) else At(s1.(errors := s.errors + 1), w, Draining)
  }

  function Snapshot(j: Job, s: Run, first: set<int>): Control
    requires 1 <= |s.queues| == |j.plan.regions| <= 2
  {
    var completed := if |s.queues| == 2 then first + Shifted(s.queues[1].done, j.plan.regions[1].base) else first;
    Control(j.p.totalSize, RecordedChunkSize(j.o, j.p, j.plan), j.o.profile, j.plan.splitAt,
            Region2Size(j.o, j.p, j.plan), completed,
            map off | off in completed && off in s.hashes :: s.hashes[off])
  }

  function DoEndPersist(j: Job, s: Run, saved: bool): Run
    requires Can(j, s, EndPersist(saved))
  {
    if saved then s.(mu := None, control := Some(Snapshot(j, s, s.mu.value)), own := true) else s.(mu := None)
  }

  function Do(j: Job, s: Run, step: Step): Run
    requires Can(j, s, step)
  {
    match step
    case LoadLive(w) => At(s, w, Loaded(s.conns))
    case LoadTarget(w) => DoLoadTarget(s, w)
    case RetireCas(w) => DoRetire(s, w)
    case SeeCancel(w) => At(s, w, Draining)
    case PullNext(w) => DoPull(s, w)
    case Answer(w, reply) => DoAnswer(j, s, w, reply)
    case Copy(w, k) => DoCopy(j, s, w, k)
    case CopyFail(w, torn) => DoCopyFail(j, s, w, torn)
    case CopyEnd(w) => DoCopyEnd(j, s, w)
    case StoreHash(w) => DoStoreHash(j, s, w)
    case Finished(w) => DoFinished(s, w)
    case Resolve(w) => DoResolve(j, s, w)
    case Leave(w) => At(s.(conns := if s.conns > 0 then s.conns - 1 else s.conns), w, Exited)
    case BeginPersist => s.(mu := Some(s.queues[0].done))
    case EndPersist(saved) => DoEndPersist(j, s, saved)
    case Cancel => s.(cancelled := true)
    case Retarget(t) => s.(target := Max(t, 1), unspawned := s.unspawned + Max(Max(t, 1) - s.target, 0))
    case Spawn => s.(unspawned := s.unspawned - 1, workers := s.workers + [Worker(0, Top)])
  }

  // Replies obey the server model; nothing else is constrained.
  predicate FromServer(j: Job, s: Run, step: Step)
    requires Can(j, s, step)
  {
    step.Answer? ==> Honest(j, s.workers[step.w].phase.c, step.reply)
  }

  predicate AllExited(s: Run)
  {
    forall w :: 0 <= w < |s.workers| ==> s.workers[w].phase.Exited?
  }

  // The verdict of Start once every worker is gone.
  predicate Completes(s: Run)
  {
    AllExited(s) && !s.cancelled && s.errors == 0
  }
}
