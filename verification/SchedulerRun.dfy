// The scheduler at work: the Run loop, the goroutines it launches, RPC callers and the
// wait-group observer, as a machine over atomic steps (internal/scheduler/queue.go).
module SchedulerRun {
  import opened Chunks
  import C = SchedulerCore

  // A scheduler is built either for a plan or, by the daemon, empty and parked on its hold.
  datatype Config = Config(daemon: bool, slots: nat, parallel: seq<C.Entry>, waiting: seq<C.Entry>)

  datatype Phase =
    | Queueing(todo: seq<C.Entry>)
    | Starting(todo: seq<C.Entry>)
    | Reserved(e: C.Entry, todo: seq<C.Entry>)
    | Launching(id: nat, todo: seq<C.Entry>)
    | Selecting
    | AfterReport
    | Admitting(id: nat)
    | Releasing(n: nat)
    | Draining
    | Receiving
    | LastReports
    | Returned(cancelled: bool)

  // counting: popped, not yet in the wait group; ready: in it, goroutine not yet started;
  // running: started; finishing: report sent, Done still to come. report is the one-slot
  // completion channel. The sequences are the history: what was accepted into the queue,
  // started directly, popped, tallied, dropped at wind-down, refused by AddCounter.
  datatype State = State(core: C.Core, phase: Phase, observed: bool, cancelled: bool,
                         counting: set<nat>, ready: set<nat>, running: set<nat>, finishing: set<nat>,
                         report: Option<nat>,
                         accepted: seq<nat>, started: seq<nat>, popped: seq<nat>,
                         tallied: seq<nat>, dropped: seq<nat>, refused: seq<nat>)

  datatype Step =
    | QueuePlan(ok: bool)
    | BeginStart
    | StartNext(ok: bool)
    | List
    | BeginSelect
    | Observe
    | Enqueue(e: C.Entry)
    | AdmitForCaller
    | Reserve(id: nat)
    | Launch(id: nat)
    | Send(id: nat)
    | Done(id: nat)
    | CancelContext
    | Receive
    | AdmitNext
    | SeeCancel
    | ReleaseOne
    | ReleaseHold
    | CheckLive
    | DrainReport
    | SeeDone
    | LastReport
    | NoReport

  function Ids(q: seq<C.Entry>): (ids: seq<nat>)
    ensures |ids| == |q| && forall i :: 0 <= i < |q| ==> ids[i] == q[i].id
  {
    seq(|q|, i requires 0 <= i < |q| => q[i].id)
  }

  function Init(c: Config): State
  {
    State(if c.daemon then C.Daemon(c.slots) else C.OneShot(c.slots), Queueing(c.waiting), false, false,
          {}, {}, {}, {}, None, [], [], [], [], [], [])
  }

  predicate Unseen(s: State, id: nat)
  {
    id !in s.accepted && id !in s.started
  }

  // Which steps are possible. A send needs room in the channel; only a daemon has RPC callers.
  predicate Can(c: Config, s: State, step: Step)
  {
    match step
    case QueuePlan(_) => s.phase.Queueing? && s.phase.todo != []
    case BeginStart => s.phase == Queueing([])
    case StartNext(_) => s.phase.Starting? && s.phase.todo != [] && |s.started| < s.core.slots
    case List => s.phase.Reserved?
    case BeginSelect => s.phase.Starting? && (s.phase.todo == [] || |s.started| >= s.core.slots)
    case Observe => !(s.phase.Queueing? || s.phase.Starting? || s.phase.Reserved? || s.phase.Launching?)
        && s.core.wg == 0
    case Enqueue(e) => c.daemon && Unseen(s, e.id)
    case AdmitForCaller => c.daemon
    case Reserve(id) => id in s.counting
    case Launch(id) => id in s.ready
    case Send(id) => id in s.running && s.report.None?
    case Done(id) => id in s.finishing
    case CancelContext => true
    case Receive => s.phase.Selecting? && s.report.Some?
    case AdmitNext => s.phase.AfterReport?
    case SeeCancel => s.phase.Selecting? && s.cancelled
    case ReleaseOne => s.phase.Releasing? && s.phase.n > 0
    case ReleaseHold => s.phase.Releasing? && s.phase.n == 0
    case CheckLive => s.phase.Draining?
    case DrainReport => s.phase.Receiving? && s.report.Some?
    case SeeDone => s.phase.Selecting? && s.observed
    case LastReport => s.phase.LastReports? && s.report.Some?
    case NoReport => s.phase.LastReports? && s.report.None?
  }

  function DoQueuePlan(s: State, ok: bool): State
    requires s.phase.Queueing? && s.phase.todo != []
  {
    var e := s.phase.todo[0];
    var t := s.(phase := Queueing(s.phase.todo[1..]));
    if ok then t.(core := s.core.(queue := s.core.queue + [e.(counted := false)]), accepted := s.accepted + [e.id])
        else t
  }

  function DoStartNext(s: State, ok: bool): State
    requires s.phase.Starting? && s.phase.todo != []
  {
    var e, rest := s.phase.todo[0], s.phase.todo[1..];
    var (core, added) := C.AddCounter(s.core);
    if !ok || !added then s.(phase := Starting(rest)) else s.(core := core, phase := Reserved(e, rest))
  }

  function DoList(s: State): State
    requires s.phase.Reserved?
  {
    var e := s.phase.e;
    s.(core := s.core.(live := s.core.live[e.id := e.conns]), started := s.started + [e.id],
       ready := s.ready + {e.id}, phase := Launching(e.id, s.phase.todo))
  }

  function DoEnqueue(s: State, e: C.Entry): State
  {
    var (core, answer) := C.Enqueue(s.core, e);
    if answer.Yes? then s.(core := core, accepted := s.accepted + [e.id]) else s
  }

  // Pop a queued task; a task that is already counted only needs its goroutine.
  function Popped(s: State): State
  {
    var (core, next) := C.Admit(s.core);
    match next
    case None => s
    case Some(e) =>
      var t := s.(core := core, popped := s.popped + [e.id]);
      if e.counted then t.(ready := s.ready + {e.id}) else t.(counting := s.counting + {e.id})
  }

  function DoAdmitNext(s: State): State
  {
    match C.Admit(s.core).1
    case None => s.(phase := Selecting)
    case Some(e) => Popped(s).(phase := Admitting(e.id))
  }

  // Where Run goes once the admission of id has ended.
  function Onward(ph: Phase, id: nat): Phase
  {
    if ph == Admitting(id) then Selecting
    else if ph.Launching? && ph.id == id then Starting(ph.todo)
    else ph
  }

  function DoReserve(s: State, id: nat): State
  {
    var (core, added) := C.AddCounter(s.core);
    if added then s.(core := core, counting := s.counting - {id}, ready := s.ready + {id})
    else s.(core := C.Forget(s.core, id), counting := s.counting - {id}, refused := s.refused + [id],
            phase := Onward(s.phase, id))
  }

  function Tallied(s: State, ph: Phase): State
    requires s.report.Some?
  {
    var id := s.report.value;
    s.(core := C.Forget(s.core, id), report := None, tallied := s.tallied + [id], phase := ph)
  }

  function DoSeeCancel(s: State): State
  {
    var (core, n) := C.WindDown(s.core);
    s.(core := core, dropped := s.dropped + Ids(s.core.queue), phase := Releasing(n))
  }

  function Do(c: Config, s: State, step: Step): State
    requires Can(c, s, step)
  {
    match step
    case QueuePlan(ok) => DoQueuePlan(s, ok)
    case BeginStart => s.(phase := Starting(c.parallel))
    case StartNext(ok) => DoStartNext(s, ok)
    case List => DoList(s)
    case BeginSelect => s.(phase := Selecting)
    case Observe => s.(observed := true)
    case Enqueue(e) => DoEnqueue(s, e)
    case AdmitForCaller => Popped(s)
    case Reserve(id) => DoReserve(s, id)
    case Launch(id) => s.(ready := s.ready - {id}, running := s.running + {id}, phase := Onward(s.phase, id))
    case Send(id) => s.(report := Some(id), running := s.running - {id}, finishing := s.finishing + {id})
    case Done(id) => s.(core := s.core.(wg := s.core.wg - 1), finishing := s.finishing - {id})
    case CancelContext => s.(cancelled := true)
    case Receive => Tallied(s, AfterReport)
    case AdmitNext => DoAdmitNext(s)
    case SeeCancel => DoSeeCancel(s)
    case ReleaseOne => s.(core := s.core.(wg := s.core.wg - 1), phase := Releasing(s.phase.n - 1))
    case ReleaseHold => s.(core := C.ReleaseIdle(s.core), phase := Draining)
    case CheckLive => s.(phase := if s.core.live == map[] then Returned(true) else Receiving)
    case DrainReport => Tallied(s, Draining)
    case SeeDone => s.(phase := LastReports)
    case LastReport => Tallied(s, LastReports)
    case NoReport => s.(phase := Returned(false))
  }

  // Consecutive steps of the scheduler.
  ghost predicate Path(c: Config, ss: seq<State>, steps: seq<Step>)
  {
    |ss| == |steps| + 1 && forall i :: 0 <= i < |steps| ==>
        Can(c, ss[i], steps[i]) && ss[i + 1] == Do(c, ss[i], steps[i])
  }

  // A run of the scheduler, from its construction.
  ghost predicate Execution(c: Config, ss: seq<State>, steps: seq<Step>)
  {
    Path(c, ss, steps) && ss[0] == Init(c)
  }

  // What the two constructors produce: the plan's slots are its parallel files, and the ids
  // of a plan are distinct; a daemon starts with neither.
  ghost predicate Constructed(c: Config)
  {
    && (c.daemon ==> c.parallel == [] && c.waiting == [])
    && (!c.daemon ==> c.slots == |c.parallel|)
    && forall i, k :: 0 <= i < k < |c.waiting + c.parallel| ==>
       (c.waiting + c.parallel)[i].id != (c.waiting + c.parallel)[k].id
  }
}
