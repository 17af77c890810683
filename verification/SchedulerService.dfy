// That the scheduler does the work it is given: what it accepts and admits, that everything in a
// plan is started, and that everything accepted can always be brought to its report
// (internal/scheduler/queue.go).
module SchedulerService {
  import opened Chunks
  import opened SchedulerRun
  import opened SchedulerProof
  import opened SchedulerResults
  import C = SchedulerCore

  // ----- what is accepted -----

  // Run has seen the cancel.
  ghost predicate WindDownBegun(steps: seq<Step>, n: nat)
    requires n <= |steps|
  {
    exists i :: 0 <= i < n && steps[i].SeeCancel?
  }

  lemma OnlySeeCancelWinds(c: Config, s: State, step: Step)
    requires Can(c, s, step)
    ensures Do(c, s, step).core.windingDown == (s.core.windingDown || step.SeeCancel?)
  {
    if Outside(step) { OutsideWinds(c, s, step); } else { InsideWinds(c, s, step); }
  }

  lemma OutsideWinds(c: Config, s: State, step: Step)
    requires Can(c, s, step) && Outside(step)
    ensures Do(c, s, step).core.windingDown == s.core.windingDown
  {
  }

  lemma InsideWinds(c: Config, s: State, step: Step)
    requires Can(c, s, step) && !Outside(step)
    ensures Do(c, s, step).core.windingDown == (s.core.windingDown || step.SeeCancel?)
  {
  }

  lemma {:induction false} WindingExactly(c: Config, ss: seq<State>, steps: seq<Step>, n: nat)
    requires Execution(c, ss, steps) && n < |ss|
    ensures ss[n].core.windingDown <==> WindDownBegun(steps, n)
  {
    if n > 0 {
      WindingExactly(c, ss, steps, n - 1);
      assert Can(c, ss[n - 1], steps[n - 1]) && ss[n] == Do(c, ss[n - 1], steps[n - 1]);
      OnlySeeCancelWinds(c, ss[n - 1], steps[n - 1]);
    }
  }

  // In every reachable state of a daemon a new task is queued, behind all others, if and only if
  // no wind-down has begun and fewer than 128 wait; otherwise nothing changes and the refusal
  // says which.
  lemma EnqueueExactly(c: Config, ss: seq<State>, steps: seq<Step>, n: nat, e: C.Entry)
    requires Constructed(c) && c.daemon && Execution(c, ss, steps) && n < |ss| && Unseen(ss[n], e.id)
    ensures Can(c, ss[n], Enqueue(e))
    ensures var s, t := ss[n], Do(c, ss[n], Enqueue(e));
            var answer := C.Enqueue(s.core, e).1;
            && (t.accepted == s.accepted + [e.id] <==> !WindDownBegun(steps, n) && |s.core.queue| < 128)
            && (answer == C.Yes <==> !WindDownBegun(steps, n) && |s.core.queue| < 128)
            && (answer == C.No(C.ShuttingDown) <==> WindDownBegun(steps, n))
            && (answer == C.No(C.TooManyPending) <==> !WindDownBegun(steps, n) && |s.core.queue| >= 128)
            && (answer == C.Yes ==> Ids(t.core.queue) == Ids(s.core.queue) + [e.id] && t.core.live == s.core.live)
            && (answer != C.Yes ==> t == s)
  {
    var s, t := ss[n], Do(c, ss[n], Enqueue(e));
    WindingExactly(c, ss, steps, n);
    Longer(s.accepted, e.id);
    if !s.core.windingDown && |s.core.queue| < 128 {
      assert t.core.queue == s.core.queue + [e.(counted := true)];
      assert Ids(t.core.queue) == Ids(s.core.queue) + [e.id];
    }
  }

  lemma Longer(a: seq<nat>, x: nat)
    ensures a + [x] != a
  {
    assert |a + [x]| == |a| + 1;
  }

  // ----- what is admitted -----

  // In every reachable state an admission, by Run or by a caller, takes the first waiting task
  // with its connection count if and only if one waits and a slot is free.
  lemma AdmitExactly(c: Config, ss: seq<State>, steps: seq<Step>, n: nat, step: Step)
    requires Constructed(c) && Execution(c, ss, steps) && n < |ss| && Can(c, ss[n], step)
    requires step.AdmitNext? || step.AdmitForCaller?
    ensures var s, t := ss[n], Do(c, ss[n], step);
            if s.core.queue != [] && |s.core.live| < c.slots then
              var e := s.core.queue[0];
              && t.popped == s.popped + [e.id] && t.core.queue == s.core.queue[1..]
              && t.core.live == s.core.live[e.id := e.conns]
              && e.id in (if c.daemon then t.ready else t.counting)
            else t.popped == s.popped && t.core == s.core
  {
    assert Modes(c, ss[n]) by { Always(c, ss, steps, n); }
    AdmitsHead(c, ss[n], step);
  }

  lemma AdmitsHead(c: Config, s: State, step: Step)
    requires Modes(c, s) && Can(c, s, step) && (step.AdmitNext? || step.AdmitForCaller?)
    ensures var t := Do(c, s, step);
            if s.core.queue != [] && |s.core.live| < c.slots then
              var e := s.core.queue[0];
              && t.popped == s.popped + [e.id] && t.core.queue == s.core.queue[1..]
              && t.core.live == s.core.live[e.id := e.conns]
              && e.id in (if c.daemon then t.ready else t.counting)
            else t.popped == s.popped && t.core == s.core
  {
    if step.AdmitNext? { AdmitNextIs(s); }
  }

  // ----- a plan is started -----

  // The ids of the plan's parallel files that are still to come.
  function ToStart(s: State, c: Config): seq<nat>
  {
    match s.phase
    case Queueing(_) => Ids(c.parallel)
    case Starting(todo) => Ids(todo)
    case Reserved(e, todo) => [e.id] + Ids(todo)
    case Launching(_, todo) => Ids(todo)
    case _ => []
  }

  function ToQueue(s: State): seq<nat>
  {
    if s.phase.Queueing? then Ids(s.phase.todo) else []
  }

  // No task of the plan fails to be built.
  ghost predicate AllBuilt(steps: seq<Step>)
  {
    forall i :: 0 <= i < |steps| && (steps[i].StartNext? || steps[i].QueuePlan?) ==> steps[i].ok
  }

  ghost predicate OnPlan(c: Config, s: State)
  {
    && s.started + ToStart(s, c) == Ids(c.parallel) && s.accepted + ToQueue(s) == Ids(c.waiting)
  }

  lemma IdsHead(q: seq<C.Entry>)
    requires q != []
    ensures Ids(q) == [q[0].id] + Ids(q[1..])
  {
  }

  lemma QueuePlanOnPlan(c: Config, s: State)
    requires OnPlan(c, s) && s.phase.Queueing? && s.phase.todo != []
    ensures OnPlan(c, DoQueuePlan(s, true))
  {
    IdsHead(s.phase.todo);
    Regroup(s.accepted, s.phase.todo[0].id, Ids(s.phase.todo[1..]));
  }

  lemma Regroup(a: seq<nat>, x: nat, b: seq<nat>)
    ensures a + ([x] + b) == a + [x] + b
  {
  }

  lemma StartNextOnPlan(c: Config, s: State)
    requires OnPlan(c, s) && s.phase.Starting? && s.phase.todo != [] && !s.core.windingDown
    ensures OnPlan(c, DoStartNext(s, true))
  {
    IdsHead(s.phase.todo);
  }

  lemma ListOnPlan(c: Config, s: State)
    requires OnPlan(c, s) && s.phase.Reserved?
    ensures OnPlan(c, DoList(s))
  {
    Regroup(s.started, s.phase.e.id, Ids(s.phase.todo));
  }

  lemma SelectOnPlan(c: Config, s: State)
    requires Constructed(c) && !c.daemon && Modes(c, s) && OnPlan(c, s) && Can(c, s, BeginSelect)
    ensures OnPlan(c, s.(phase := Selecting))
  {
    assert |s.started| + |ToStart(s, c)| == |c.parallel| == c.slots;
    assert ToStart(s, c) == [];
  }

  lemma PlanSteps(c: Config, s: State, step: Step)
    requires Constructed(c) && !c.daemon && Modes(c, s) && OnPlan(c, s) && Can(c, s, step)
    requires step.QueuePlan? || step.StartNext? || step.List? || step.BeginStart? || step.BeginSelect?
    requires (step.StartNext? || step.QueuePlan?) ==> step.ok
    ensures OnPlan(c, Do(c, s, step))
  {
    match step
    case QueuePlan(_) => QueuePlanOnPlan(c, s);
    case StartNext(_) => StartNextOnPlan(c, s);
    case List => ListOnPlan(c, s);
    case BeginStart => assert Ids([]) == [];
    case BeginSelect => SelectOnPlan(c, s);
  }

  lemma OtherSteps(c: Config, s: State, step: Step)
    requires !c.daemon && Can(c, s, step)
    requires !(step.QueuePlan? || step.StartNext? || step.List? || step.BeginStart? || step.BeginSelect?)
    ensures var t := Do(c, s, step);
            && t.started == s.started && t.accepted == s.accepted
            && ToStart(t, c) == ToStart(s, c) && ToQueue(t) == ToQueue(s)
  {
    if Outside(step) { OutsidePlan(c, s, step); } else { InsidePlan(c, s, step); }
  }

  lemma OutsidePlan(c: Config, s: State, step: Step)
    requires !c.daemon && Can(c, s, step) && Outside(step)
    ensures var t := Do(c, s, step);
            && t.started == s.started && t.accepted == s.accepted
            && ToStart(t, c) == ToStart(s, c) && ToQueue(t) == ToQueue(s)
  {
  }

  lemma InsidePlan(c: Config, s: State, step: Step)
    requires !c.daemon && Can(c, s, step) && !Outside(step)
    requires !(step.QueuePlan? || step.StartNext? || step.List? || step.BeginStart? || step.BeginSelect?)
    ensures var t := Do(c, s, step);
            && t.started == s.started && t.accepted == s.accepted
            && ToStart(t, c) == ToStart(s, c) && ToQueue(t) == ToQueue(s)
  {
  }

  lemma {:induction false} AlwaysOnPlan(c: Config, ss: seq<State>, steps: seq<Step>, n: nat)
    requires Constructed(c) && !c.daemon && Execution(c, ss, steps) && AllBuilt(steps) && n < |ss|
    ensures OnPlan(c, ss[n])
  {
    if n > 0 {
      AlwaysOnPlan(c, ss, steps, n - 1);
      assert Modes(c, ss[n - 1]) by { Always(c, ss, steps, n - 1); }
      PlanKept(c, ss[n - 1], steps[n - 1]);
    }
  }

  lemma PlanKept(c: Config, s: State, step: Step)
    requires Constructed(c) && !c.daemon && Modes(c, s) && OnPlan(c, s) && Can(c, s, step)
    requires (step.StartNext? || step.QueuePlan?) ==> step.ok
    ensures OnPlan(c, Do(c, s, step))
  {
    if step.QueuePlan? || step.StartNext? || step.List? || step.BeginStart? || step.BeginSelect? {
      PlanSteps(c, s, step);
    } else {
      OtherSteps(c, s, step);
    }
  }

  // Once a one-shot Run is past its set-up, every parallel file of the plan has been started
  // and every waiting one queued, in the plan's order, unless it could not be built.
  lemma PlanIsStarted(c: Config, ss: seq<State>, steps: seq<Step>, n: nat)
    requires Constructed(c) && !c.daemon && Execution(c, ss, steps) && AllBuilt(steps) && n < |ss|
    requires !Setup(ss[n].phase)
    ensures ss[n].started == Ids(c.parallel) && ss[n].accepted == Ids(c.waiting)
  {
    AlwaysOnPlan(c, ss, steps, n);
  }

  // ----- with its own connections -----

  // No entry of the plan with this id has another count.
  ghost predicate AsPlanned(c: Config, id: nat, conns: int)
  {
    && (forall e :: e in c.waiting && e.id == id ==> e.conns == conns)
    && (forall e :: e in c.parallel && e.id == id ==> e.conns == conns)
  }

  ghost predicate AllAsPlanned(c: Config, q: seq<C.Entry>)
  {
    forall e :: e in q ==> AsPlanned(c, e.id, e.conns)
  }

  ghost predicate Faithful(c: Config, s: State)
  {
    && AllAsPlanned(c, c.parallel) && AllAsPlanned(c, s.core.queue) && AllAsPlanned(c, Upcoming(c, s))
    && forall id :: id in s.core.live ==> AsPlanned(c, id, s.core.live[id])
  }

  lemma PlanMatches(c: Config)
    requires Constructed(c)
    ensures AllAsPlanned(c, c.waiting) && AllAsPlanned(c, c.parallel)
  {
    var all := c.waiting + c.parallel;
    forall d, e | d in all && e in all && d.id == e.id
      ensures d == e
    {
      var i :| 0 <= i < |all| && all[i] == d;
      var k :| 0 <= k < |all| && all[k] == e;
    }
    assert forall e :: e in c.waiting || e in c.parallel ==> e in all;
  }

  // What is still to come only gets shorter, and the queue is only appended to with what comes
  // up, or, in a daemon, from outside.
  lemma FaithfulSetup(c: Config, s: State, step: Step)
    requires Constructed(c) && Faithful(c, s) && Can(c, s, step)
    requires step.QueuePlan? || step.StartNext? || step.List? || step.BeginStart? || step.BeginSelect?
    ensures Faithful(c, Do(c, s, step))
  {
    var t := Do(c, s, step);
    var up := Upcoming(c, s);
    match step
    case QueuePlan(_) =>
      assert up[0] == s.phase.todo[0] && up[0] in up;
      assert up == [s.phase.todo[0]] + Upcoming(c, t);
    case StartNext(_) => assert up == [up[0]] + up[1..];
    case List => assert up[0] == s.phase.e && up[0] in up && up == [s.phase.e] + s.phase.todo;
    case BeginStart =>
    case BeginSelect =>
  }

  lemma FaithfulLater(c: Config, s: State, step: Step)
    requires Constructed(c) && !c.daemon && Faithful(c, s) && Can(c, s, step)
    requires !(step.QueuePlan? || step.StartNext? || step.List? || step.BeginStart? || step.BeginSelect?)
    ensures Faithful(c, Do(c, s, step))
  {
    PhaseMoves(c, s, step);
    if step.AdmitNext? || step.AdmitForCaller? {
      if s.core.queue != [] { assert s.core.queue[0] in s.core.queue; }
    } else {
      LiveShrinks(c, s, step);
    }
  }

  lemma LiveShrinks(c: Config, s: State, step: Step)
    requires !c.daemon && Can(c, s, step) && !step.AdmitNext? && !step.AdmitForCaller?
    requires !(step.QueuePlan? || step.StartNext? || step.List? || step.BeginStart? || step.BeginSelect?)
    ensures var t := Do(c, s, step);
            && (t.core.queue == s.core.queue || t.core.queue == [])
            && forall id :: id in t.core.live ==> id in s.core.live && t.core.live[id] == s.core.live[id]
  {
  }

  lemma {:induction false} AlwaysFaithful(c: Config, ss: seq<State>, steps: seq<Step>, n: nat)
    requires Constructed(c) && !c.daemon && Execution(c, ss, steps) && n < |ss|
    ensures Faithful(c, ss[n])
  {
    if n == 0 {
      PlanMatches(c);
    } else {
      AlwaysFaithful(c, ss, steps, n - 1);
      FaithfulStep(c, ss[n - 1], steps[n - 1]);
    }
  }

  lemma FaithfulStep(c: Config, s: State, step: Step)
    requires Constructed(c) && !c.daemon && Faithful(c, s) && Can(c, s, step)
    ensures Faithful(c, Do(c, s, step))
  {
    if step.QueuePlan? || step.StartNext? || step.List? || step.BeginStart? || step.BeginSelect? {
      FaithfulSetup(c, s, step);
    } else {
      FaithfulLater(c, s, step);
    }
  }

  // In every reachable state of a one-shot Run, before any rebalance, a live task of the plan has
  // the connections the plan gives it.
  lemma LiveAsPlanned(c: Config, ss: seq<State>, steps: seq<Step>, n: nat, e: C.Entry)
    requires Constructed(c) && !c.daemon && Execution(c, ss, steps) && n < |ss|
    requires (e in c.parallel || e in c.waiting) && e.id in ss[n].core.live
    ensures ss[n].core.live[e.id] == e.conns
  {
    AlwaysFaithful(c, ss, steps, n);
    assert AsPlanned(c, e.id, ss[n].core.live[e.id]);
  }

  // ----- everything can be served -----

  // Run is in its loop, or on its way there with nothing of a plan to start.
  predicate InLoop(c: Config, ph: Phase)
  {
    ph.Selecting? || ph.AfterReport? || ph.Admitting? || (c.daemon && (ph == Queueing([]) || ph == Starting([])))
  }

  // Run waits for an admission only while its task is on the way, and for the start of a task
  // only after listing it.
  predicate AdmissionHeld(s: State)
  {
    && (s.phase.Admitting? ==> s.phase.id in s.counting + s.ready)
    && (s.phase.Launching? ==> s.phase.id in s.started)
  }

  lemma AdmissionKept(c: Config, s: State, step: Step)
    requires AdmissionHeld(s) && Can(c, s, step)
    ensures AdmissionHeld(Do(c, s, step))
  {
    if Outside(step) { AdmissionOutside(c, s, step); } else { AdmissionInside(c, s, step); }
  }

  lemma AdmissionOutside(c: Config, s: State, step: Step)
    requires AdmissionHeld(s) && Can(c, s, step) && Outside(step)
    ensures AdmissionHeld(Do(c, s, step))
  {
  }

  lemma AdmissionInside(c: Config, s: State, step: Step)
    requires AdmissionHeld(s) && Can(c, s, step) && !Outside(step)
    ensures AdmissionHeld(Do(c, s, step))
  {
  }

  lemma {:induction false} AdmissionAlways(c: Config, ss: seq<State>, steps: seq<Step>, n: nat)
    requires Execution(c, ss, steps) && n < |ss|
    ensures AdmissionHeld(ss[n])
  {
    if n > 0 {
      AdmissionAlways(c, ss, steps, n - 1);
      AdmissionKept(c, ss[n - 1], steps[n - 1]);
    }
  }

  // A state from which work can go on: somebody will still look at the queue.
  ghost predicate Serving(c: Config, s: State)
  {
    && Constructed(c) && Inv(c, s) && AdmissionHeld(s) && c.slots >= 1 && !s.core.windingDown && InLoop(c, s.phase)
    && (c.daemon || s.core.queue == [] || s.core.live != map[] || s.phase.AfterReport?)
  }

  function PhaseAhead(ph: Phase): nat
  {
    match ph
    case Queueing(_) => 4
    case Starting(_) => 3
    case AfterReport => 2
    case Admitting(_) => 1
    case _ => 0
  }

  function Ahead(s: State): nat
  {
    9 * |s.core.queue| + 7 * |s.counting| + 6 * |s.ready| + 5 * |s.running| + 3 * |InChannel(s.report)| + |s.finishing|
    + PhaseAhead(s.phase)
  }

  ghost predicate AllServed(s: State)
  {
    s.core.queue == [] && s.core.live == map[] && s.finishing == {}
  }

  lemma NothingLive(s: State)
    requires Places(s) && s.counting == s.ready == s.running == {} && s.report.None?
    ensures s.core.live == map[]
  {
    assert s.core.live.Keys == {};
  }

  // A step that moves work on.
  predicate Serves(c: Config, s: State, step: Step)
  {
    step.Reserve? || step.Launch? || step.Send? || step.Done? || step.Receive? || step.AdmitNext?
    || ((step.BeginStart? || step.BeginSelect?) && c.daemon)
    || (step.AdmitForCaller? && s.core.queue != [] && s.core.live == map[])
  }

  // The next thing to do, for somebody who wants all of it done.
  lemma NextToServe(c: Config, s: State) returns (step: Step)
    requires Serving(c, s) && !AllServed(s)
    ensures Can(c, s, step) && Serves(c, s, step)
  {
    if id :| id in s.counting {
      step := Reserve(id);
    } else if id :| id in s.ready {
      step := Launch(id);
    } else if id :| id in s.finishing {
      step := Done(id);
    } else if s.phase == Queueing([]) {
      step := BeginStart;
    } else if s.phase == Starting([]) {
      step := BeginSelect;
    } else if s.phase.AfterReport? {
      step := AdmitNext;
    } else if s.report.Some? {
      step := Receive;
    } else if id :| id in s.running {
      step := Send(id);
    } else {
      NothingLive(s);
      step := AdmitForCaller;
    }
  }

  // ----- each such step brings the end nearer -----

  lemma SetMoves(a: set<nat>, b: set<nat>, id: nat)
    requires id in a
    ensures |a - {id}| == |a| - 1 && |b + {id}| <= |b| + 1
  {
  }

  // One task goes one place further.
  lemma GoesFurther(s: State, t: State)
    requires t.core.queue == s.core.queue && PhaseAhead(t.phase) <= PhaseAhead(s.phase)
    requires 7 * |t.counting| + 6 * |t.ready| + 5 * |t.running| + 3 * |InChannel(t.report)| + |t.finishing|
             < 7 * |s.counting| + 6 * |s.ready| + 5 * |s.running| + 3 * |InChannel(s.report)| + |s.finishing|
    ensures Ahead(t) < Ahead(s)
  {
  }

  lemma OnwardAhead(c: Config, ph: Phase, id: nat)
    requires InLoop(c, ph)
    ensures var next := Onward(ph, id);
            && InLoop(c, next) && PhaseAhead(next) <= PhaseAhead(ph) && (next.AfterReport? <==> ph.AfterReport?)
  {
  }

  lemma TaskStepLowers(c: Config, s: State, step: Step)
    requires Can(c, s, step) && !s.core.windingDown && InLoop(c, s.phase)
    requires step.Reserve? || step.Launch? || step.Send? || step.Done?
    ensures Ahead(Do(c, s, step)) < Ahead(s) && InLoop(c, Do(c, s, step).phase)
    ensures Do(c, s, step).core.queue == s.core.queue && Do(c, s, step).core.live == s.core.live
    ensures Do(c, s, step).phase.AfterReport? <==> s.phase.AfterReport?
  {
    match step
    case Reserve(id) =>
      SetMoves(s.counting, s.ready, id);
      GoesFurther(s, DoReserve(s, id));
    case Launch(id) =>
      SetMoves(s.ready, s.running, id);
      OnwardAhead(c, s.phase, id);
      GoesFurther(s, Do(c, s, step));
    case Send(id) =>
      SetMoves(s.running, s.finishing, id);
      GoesFurther(s, Do(c, s, step));
    case Done(id) =>
      SetMoves(s.finishing, {}, id);
      GoesFurther(s, Do(c, s, step));
  }

  lemma LoopStepLowers(c: Config, s: State, step: Step)
    requires Can(c, s, step) && InLoop(c, s.phase) && (step.Receive? || step.BeginStart? || step.BeginSelect?)
    requires step.BeginStart? ==> c.parallel == []
    ensures Ahead(Do(c, s, step)) < Ahead(s) && InLoop(c, Do(c, s, step).phase)
    ensures Do(c, s, step).core.queue == s.core.queue
    ensures step.Receive? ==> Do(c, s, step).phase.AfterReport?
  {
  }

  lemma PoppedAhead(s: State)
    requires s.core.queue != [] && |s.core.live| < s.core.slots
    ensures var t := Popped(s); Ahead(t) + 2 <= Ahead(s) && t.core.live != map[] && t.phase == s.phase
    ensures C.Admit(s.core).1 == Some(s.core.queue[0])
  {
    var e := s.core.queue[0];
    SetMoves({e.id}, s.counting, e.id);
    SetMoves({e.id}, s.ready, e.id);
    assert e.id in Popped(s).core.live;
  }

  lemma AdmitNextIs(s: State)
    requires s.phase.AfterReport?
    ensures var t, u := DoAdmitNext(s), Popped(s);
            t == u.(phase := if C.Admit(s.core).1.Some? then Admitting(s.core.queue[0].id) else Selecting)
  {
  }

  lemma AdmissionLowers(c: Config, s: State, step: Step)
    requires Can(c, s, step) && InLoop(c, s.phase) && (step.AdmitNext? || step.AdmitForCaller?)
    requires s.core.slots >= 1 && (step.AdmitForCaller? ==> s.core.queue != [] && s.core.live == map[])
    ensures Ahead(Do(c, s, step)) < Ahead(s) && InLoop(c, Do(c, s, step).phase)
    ensures var t := Do(c, s, step); t.core.queue == [] || t.core.live != map[]
  {
    if s.core.queue != [] && |s.core.live| < s.core.slots {
      PoppedAhead(s);
      if step.AdmitNext? { AdmitNextIs(s); }
    } else {
      assert step.AdmitNext?;
      AdmitNextIs(s);
      assert Popped(s) == s;
    }
  }

  lemma ServeStep(c: Config, s: State, step: Step)
    requires Serving(c, s) && Can(c, s, step) && Serves(c, s, step)
    ensures Serving(c, Do(c, s, step)) && Ahead(Do(c, s, step)) < Ahead(s)
  {
    StepInv(c, s, step);
    AdmissionKept(c, s, step);
    OnlySeeCancelWinds(c, s, step);
    if step.Reserve? || step.Launch? || step.Send? || step.Done? {
      TaskStepLowers(c, s, step);
    } else if step.AdmitNext? || step.AdmitForCaller? {
      AdmissionLowers(c, s, step);
    } else {
      LoopStepLowers(c, s, step);
    }
  }

  lemma KeepsHistory(c: Config, s: State, step: Step)
    requires Can(c, s, step) && Serves(c, s, step)
    ensures Do(c, s, step).accepted == s.accepted && Do(c, s, step).started == s.started
  {
    HistoryStays(c, s, step);
  }

  lemma {:induction false} DrivenToServed(c: Config, s: State) returns (ss: seq<State>, steps: seq<Step>)
    requires Serving(c, s)
    ensures Path(c, ss, steps) && ss[0] == s && |steps| <= Ahead(s)
    ensures var t := ss[|steps|];
            Serving(c, t) && AllServed(t) && t.accepted == s.accepted && t.started == s.started
    decreases Ahead(s)
  {
    if AllServed(s) {
      ss, steps := [s], [];
    } else {
      var step := NextToServe(c, s);
      ServeStep(c, s, step);
      KeepsHistory(c, s, step);
      var rest, more := DrivenToServed(c, Do(c, s, step));
      PathCons(c, s, step, rest, more);
      ss, steps := [s] + rest, [step] + more;
    }
  }

  lemma ServedMeansTallied(c: Config, s: State)
    requires Serving(c, s) && AllServed(s)
    ensures multiset(s.tallied) == multiset(s.accepted) + multiset(s.started)
    ensures s.core.wg == if c.daemon then 1 else 0
  {
    assert Ids(s.core.queue) == [] && s.core.live.Keys == {};
    assert multiset(s.dropped) == multiset{} && multiset(s.refused) == multiset{};
    assert Ever(s) == Now(s);
  }

  // From every reachable state of a daemon before its wind-down, everything it has accepted can
  // be brought to its report, in a bounded number of steps; then nothing is left but the hold.
  lemma DaemonCanServeAll(c: Config, ss: seq<State>, steps: seq<Step>, n: nat)
    returns (tail: seq<State>, more: seq<Step>)
    requires Constructed(c) && c.daemon && c.slots >= 1 && Execution(c, ss, steps) && n < |ss|
    requires !WindDownBegun(steps, n)
    ensures Path(c, tail, more) && tail[0] == ss[n] && |more| <= Ahead(ss[n])
    ensures var t := tail[|more|];
            t.accepted == ss[n].accepted && multiset(t.tallied) == multiset(t.accepted) && t.core.wg == 1
            && t.core.queue == [] && t.core.live == map[]
  {
    WindingExactly(c, ss, steps, n);
    AlwaysQuiet(c, ss, steps, n);
    AdmissionAlways(c, ss, steps, n);
    DaemonInLoop(c, ss[n]);
    tail, more := DrivenToServed(c, ss[n]);
    ServedMeansTallied(c, tail[|more|]);
  }

  lemma DaemonInLoop(c: Config, s: State)
    requires Constructed(c) && c.daemon && Quiet(c, s) && AdmissionHeld(s) && !s.core.windingDown
    ensures InLoop(c, s.phase) && s.started == []
  {
    assert s.core.idle && s.core.wg >= 1;
    assert |Upcoming(c, s)| == 0;
    if s.phase.Queueing? { assert |s.phase.todo| == 0; }
  }

  // A one-shot Run that has not begun to wind down or to return, with something live or nothing
  // waiting, can be brought to report everything in its plan.
  lemma OneShotCanServeAll(c: Config, ss: seq<State>, steps: seq<Step>, n: nat)
    returns (tail: seq<State>, more: seq<Step>)
    requires Constructed(c) && !c.daemon && c.slots >= 1 && Execution(c, ss, steps) && n < |ss|
    requires ss[n].phase.Selecting? || ss[n].phase.AfterReport? || ss[n].phase.Admitting?
    requires ss[n].core.queue == [] || ss[n].core.live != map[] || ss[n].phase.AfterReport?
    ensures Path(c, tail, more) && tail[0] == ss[n] && |more| <= Ahead(ss[n])
    ensures var t := tail[|more|];
            && t.accepted == ss[n].accepted && t.started == ss[n].started && t.core.wg == 0
            && multiset(t.tallied) == multiset(t.accepted) + multiset(t.started)
  {
    Always(c, ss, steps, n);
    AdmissionAlways(c, ss, steps, n);
    tail, more := DrivenToServed(c, ss[n]);
    ServedMeansTallied(c, tail[|more|]);
  }

  // ----- a cancel is answered -----

  lemma OnlyCancelCancels(c: Config, s: State, step: Step)
    requires Can(c, s, step)
    ensures Do(c, s, step).cancelled == (s.cancelled || step.CancelContext?)
  {
    if Outside(step) { OutsideCancels(c, s, step); } else { InsideCancels(c, s, step); }
  }

  lemma OutsideCancels(c: Config, s: State, step: Step)
    requires Can(c, s, step) && Outside(step)
    ensures Do(c, s, step).cancelled == (s.cancelled || step.CancelContext?)
  {
  }

  lemma InsideCancels(c: Config, s: State, step: Step)
    requires Can(c, s, step) && !Outside(step)
    ensures Do(c, s, step).cancelled == s.cancelled
  {
  }

  lemma {:induction false} CancelledExactly(c: Config, ss: seq<State>, steps: seq<Step>, n: nat)
    requires Execution(c, ss, steps) && n < |ss|
    ensures ss[n].cancelled <==> exists i :: 0 <= i < n && steps[i].CancelContext?
  {
    if n > 0 {
      CancelledExactly(c, ss, steps, n - 1);
      assert Can(c, ss[n - 1], steps[n - 1]) && ss[n] == Do(c, ss[n - 1], steps[n - 1]);
      OnlyCancelCancels(c, ss[n - 1], steps[n - 1]);
    }
  }

  // The way from Run's loop to the select.
  function NextToSelect(s: State): Step
  {
    match s.phase
    case Queueing(_) => BeginStart
    case Starting(_) => BeginSelect
    case AfterReport => AdmitNext
    case Admitting(id) => if id in s.counting then Reserve(id) else Launch(id)
    case _ => SeeCancel
  }

  function ToSelect(s: State): nat
  {
    match s.phase
    case Queueing(_) => 5
    case Starting(_) => 4
    case AfterReport => 3
    case Admitting(id) => if id in s.counting then 2 else 1
    case _ => 0
  }

  ghost predicate Cancellable(c: Config, s: State)
  {
    Constructed(c) && Orderly(c, s) && AdmissionHeld(s) && s.cancelled && !s.core.windingDown && InLoop(c, s.phase)
  }

  lemma SelectStep(c: Config, s: State)
    requires Cancellable(c, s) && !s.phase.Selecting?
    ensures var step := NextToSelect(s);
            Can(c, s, step) && Cancellable(c, Do(c, s, step)) && ToSelect(Do(c, s, step)) < ToSelect(s)
  {
    var step := NextToSelect(s);
    assert Can(c, s, step);
    OrderlyStep(c, s, step);
    AdmissionKept(c, s, step);
    OnlyCancelCancels(c, s, step);
    OnlySeeCancelWinds(c, s, step);
    SelectNearer(c, s);
  }

  lemma SelectNearer(c: Config, s: State)
    requires Constructed(c) && AdmissionHeld(s) && !s.core.windingDown && InLoop(c, s.phase) && !s.phase.Selecting?
    requires Can(c, s, NextToSelect(s)) && (s.phase.Admitting? && s.phase.id in s.counting ==> s.counting !! s.ready)
    ensures var t := Do(c, s, NextToSelect(s)); InLoop(c, t.phase) && ToSelect(t) < ToSelect(s)
  {
    match s.phase
    case Queueing(_) =>
    case Starting(_) =>
    case AfterReport => AdmitNextIs(s);
    case Admitting(id) =>
  }

  lemma {:induction false} DrivenOut(c: Config, s: State) returns (ss: seq<State>, steps: seq<Step>)
    requires Cancellable(c, s)
    ensures Path(c, ss, steps) && ss[0] == s && ss[|steps|].phase == Returned(true)
    decreases ToSelect(s)
  {
    var step := NextToSelect(s);
    var rest, more;
    if s.phase.Selecting? {
      OrderlyStep(c, s, step);
      rest, more := DrivenToReturn(c, Do(c, s, step));
    } else {
      SelectStep(c, s);
      rest, more := DrivenOut(c, Do(c, s, step));
    }
    PathCons(c, s, step, rest, more);
    ss, steps := [s] + rest, [step] + more;
  }

  // Once the context is cancelled, Run can be brought to its return from anywhere in its loop.
  lemma CancelIsAnswered(c: Config, ss: seq<State>, steps: seq<Step>, i: nat, n: nat)
    returns (tail: seq<State>, more: seq<Step>)
    requires Constructed(c) && Execution(c, ss, steps) && i < n < |ss| && steps[i].CancelContext?
    requires InLoop(c, ss[n].phase)
    ensures Path(c, tail, more) && tail[0] == ss[n] && tail[|more|].phase == Returned(true)
  {
    CancelledExactly(c, ss, steps, n);
    AlwaysOrderly(c, ss, steps, n);
    AdmissionAlways(c, ss, steps, n);
    tail, more := DrivenOut(c, ss[n]);
  }
}
