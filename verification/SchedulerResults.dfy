// What the scheduler promises its callers: a safe wait group, complete tallies on both ways
// out of Run, a wind-down that ends, and the one configuration in which queued work can be
// left behind (internal/scheduler/queue.go).
module SchedulerResults {
  import opened Chunks
  import Balancer
  import Rebalance
  import Sums
  import opened SchedulerRun
  import opened SchedulerProof
  import C = SchedulerCore

  // ----- the wait group -----

  // A one-shot plan in which every file has a slot.
  predicate AllParallel(c: Config)
  {
    !c.daemon && c.waiting == []
  }

  ghost predicate NeverQueues(c: Config, s: State)
  {
    AllParallel(c) ==>
      s.core.queue == [] && s.accepted == [] && s.counting == {} && (s.phase.Queueing? ==> s.phase.todo == [])
  }

  lemma {:induction false} NothingQueued(c: Config, ss: seq<State>, steps: seq<Step>, n: nat)
    requires Constructed(c) && Execution(c, ss, steps) && n < |ss|
    ensures NeverQueues(c, ss[n])
  {
    if n > 0 {
      NothingQueued(c, ss, steps, n - 1);
      assert Can(c, ss[n - 1], steps[n - 1]) && ss[n] == Do(c, ss[n - 1], steps[n - 1]);
      StillNothingQueued(c, ss[n - 1], steps[n - 1]);
    }
  }

  // What goroutines, callers and the observer do, not the Run loop.
  predicate Outside(step: Step)
  {
    step.Observe? || step.Enqueue? || step.AdmitForCaller? || step.Reserve? || step.Launch? || step.Send? || step.Done?
    || step.CancelContext?
  }

  lemma StillNothingQueued(c: Config, s: State, step: Step)
    requires NeverQueues(c, s) && Can(c, s, step)
    ensures NeverQueues(c, Do(c, s, step))
  {
    if Outside(step) { NothingFromOutside(c, s, step); } else { NothingFromInside(c, s, step); }
  }

  lemma NothingFromOutside(c: Config, s: State, step: Step)
    requires NeverQueues(c, s) && Can(c, s, step) && Outside(step)
    ensures NeverQueues(c, Do(c, s, step))
  {
  }

  lemma NothingFromInside(c: Config, s: State, step: Step)
    requires NeverQueues(c, s) && Can(c, s, step) && !Outside(step)
    ensures NeverQueues(c, Do(c, s, step))
  {
  }

  // Only starting a file, queueing one and reserving for one add to the counter.
  lemma OnlyTheseAdd(c: Config, s: State, step: Step)
    requires Can(c, s, step) && !step.StartNext? && !step.Enqueue? && !step.Reserve?
    ensures Do(c, s, step).core.wg <= s.core.wg
  {
    if Outside(step) { OutsideAdds(c, s, step); } else { InsideAdds(c, s, step); }
  }

  lemma OutsideAdds(c: Config, s: State, step: Step)
    requires Can(c, s, step) && Outside(step) && !step.Enqueue? && !step.Reserve?
    ensures Do(c, s, step).core.wg <= s.core.wg
  {
  }

  lemma InsideAdds(c: Config, s: State, step: Step)
    requires Can(c, s, step) && !Outside(step) && !step.StartNext?
    ensures Do(c, s, step).core.wg <= s.core.wg
  {
  }

  // With the counter at zero and set-up over, no step adds to it.
  lemma NoAddAtZero(c: Config, s: State, step: Step)
    requires Constructed(c) && Inv(c, s) && NeverQueues(c, s) && (c.daemon || AllParallel(c)) && Can(c, s, step)
    requires s.core.wg == 0 && !Setup(s.phase)
    ensures Do(c, s, step).core.wg <= 0
  {
    if !step.StartNext? && !step.Enqueue? && !step.Reserve? {
      OnlyTheseAdd(c, s, step);
    } else {
      NoneToAdd(c, s, step);
    }
  }

  lemma NoneToAdd(c: Config, s: State, step: Step)
    requires Counted(s) && Modes(c, s) && NeverQueues(c, s) && (c.daemon || AllParallel(c)) && Can(c, s, step)
    requires s.core.wg == 0 && !Setup(s.phase) && (step.StartNext? || step.Enqueue? || step.Reserve?)
    ensures Do(c, s, step).core.wg == 0
  {
    if step.Enqueue? { assert !s.core.idle && s.core.windingDown; }
  }

  lemma ZeroStays(c: Config, s: State, step: Step)
    requires Constructed(c) && Inv(c, s) && NeverQueues(c, s) && (c.daemon || AllParallel(c)) && Can(c, s, step)
    requires s.core.wg == 0 && !Setup(s.phase)
    ensures Do(c, s, step).core.wg == 0
  {
    NoAddAtZero(c, s, step);
    StepInv(c, s, step);
    CountIsNatural(Do(c, s, step));
  }

  lemma CountIsNatural(s: State)
    requires Counted(s)
    ensures s.core.wg >= 0
  {
  }

  lemma Observing(c: Config, s: State, step: Step)
    requires Can(c, s, step) && Do(c, s, step).observed
    ensures s.observed || (s.core.wg == 0 && !Setup(s.phase))
  {
  }

  lemma ObservedNotSetup(c: Config, s: State)
    requires Modes(c, s) && s.observed
    ensures !Setup(s.phase)
  {
  }

  // Everything the argument needs of one state.
  ghost predicate Quiet(c: Config, s: State)
  {
    Inv(c, s) && NeverQueues(c, s) && (s.observed ==> s.core.wg == 0)
  }

  lemma QuietInit(c: Config)
    requires Constructed(c)
    ensures Quiet(c, Init(c))
  {
    InitInv(c);
  }

  lemma QuietStep(c: Config, s: State, step: Step)
    requires Constructed(c) && (c.daemon || AllParallel(c)) && Quiet(c, s) && Can(c, s, step)
    ensures Quiet(c, Do(c, s, step))
  {
    StepInv(c, s, step);
    StillNothingQueued(c, s, step);
    if Do(c, s, step).observed {
      ObservedThen(c, s, step);
      ZeroStays(c, s, step);
    }
  }

  lemma {:induction false} AlwaysQuiet(c: Config, ss: seq<State>, steps: seq<Step>, n: nat)
    requires Constructed(c) && Execution(c, ss, steps) && n < |ss| && (c.daemon || AllParallel(c))
    ensures Quiet(c, ss[n])
  {
    if n == 0 {
      QuietInit(c);
    } else {
      AlwaysQuiet(c, ss, steps, n - 1);
      QuietStep(c, ss[n - 1], steps[n - 1]);
    }
  }

  lemma ObservedThen(c: Config, s: State, step: Step)
    requires Modes(c, s) && Can(c, s, step) && Do(c, s, step).observed
    ensures !Setup(s.phase) && (s.observed || s.core.wg == 0)
  {
    Observing(c, s, step);
    if s.observed { ObservedNotSetup(c, s); }
  }

  // In the daemon, and in one-shot plans without waiting files, the wait group is never added
  // to after the observer may have seen it at zero.
  lemma NeverAddedAfterZero(c: Config, ss: seq<State>, steps: seq<Step>, n: nat)
    requires Constructed(c) && Execution(c, ss, steps) && n < |ss| && (c.daemon || AllParallel(c))
    ensures ss[n].observed ==> ss[n].core.wg == 0
    ensures n < |steps| && ss[n].core.wg == 0 && !Setup(ss[n].phase) ==> ss[n + 1].core.wg == 0
  {
    AlwaysQuiet(c, ss, steps, n);
    if n < |steps| && ss[n].core.wg == 0 && !Setup(ss[n].phase) {
      ZeroStays(c, ss[n], steps[n]);
    }
  }

  // The bounds a caller relies on.
  lemma Bounds(c: Config, ss: seq<State>, steps: seq<Step>, n: nat)
    requires Constructed(c) && Execution(c, ss, steps) && n < |ss|
    ensures |ss[n].core.live| <= c.slots && (c.daemon ==> |ss[n].core.queue| <= 128)
    ensures ss[n].accepted == ss[n].popped + ss[n].dropped + Ids(ss[n].core.queue)
    ensures ss[n].dropped != [] ==> ss[n].core.windingDown
    ensures ss[n].core.wg >= 0
  {
    Always(c, ss, steps, n);
    CountIsNatural(ss[n]);
  }

  // ----- both ways out of Run -----

  // Cancelled: nothing is live any more, no goroutine is still trying to report, and every
  // task was tallied exactly once, unless it was still waiting when wind-down began.
  lemma CancelledRunAccountsForAll(c: Config, ss: seq<State>, steps: seq<Step>, n: nat)
    requires Constructed(c) && Execution(c, ss, steps) && n < |ss| && ss[n].phase == Returned(true)
    ensures var s := ss[n];
            && s.core.live == map[] && s.core.queue == [] && s.running == s.ready == s.counting == {}
               && s.report == None
            && multiset(s.accepted) + multiset(s.started) == multiset(s.tallied) + multiset(s.dropped)
            && forall id :: (multiset(s.tallied) + multiset(s.dropped))[id] <= 1
  {
    Always(c, ss, steps, n);
    LiveEmptyAtReturn(c, ss, steps, n);
    var s := ss[n];
    assert s.core.live.Keys == {};
    assert Ids(s.core.queue) == [] && multiset(s.refused) == multiset{};
    assert Ever(s) == Now(s);
    assert forall id :: Ever(s)[id] <= 1;
  }

  lemma {:induction false} LiveEmptyAtReturn(c: Config, ss: seq<State>, steps: seq<Step>, n: nat)
    requires Constructed(c) && Execution(c, ss, steps) && n < |ss| && ss[n].phase == Returned(true)
    ensures ss[n].core.live == map[]
  {
    assert n > 0;
    var s, step := ss[n - 1], steps[n - 1];
    assert Can(c, s, step) && ss[n] == Do(c, s, step);
    if s.phase == Returned(true) {
      LiveEmptyAtReturn(c, ss, steps, n - 1);
      Always(c, ss, steps, n - 1);
      StaysEmpty(c, s, step);
    }
  }

  lemma StaysEmpty(c: Config, s: State, step: Step)
    requires Modes(c, s) && Can(c, s, step) && s.phase == Returned(true) && s.core.live == map[]
    ensures Do(c, s, step).core.live == map[]
  {
  }

  // A daemon's Run ends only because its context was cancelled.
  lemma DaemonEndsOnlyOnCancel(c: Config, ss: seq<State>, steps: seq<Step>, n: nat)
    requires Constructed(c) && Execution(c, ss, steps) && n < |ss| && c.daemon && ss[n].phase.Returned?
    ensures ss[n].phase == Returned(true) && ss[n].cancelled
  {
    Always(c, ss, steps, n);
    NeverAddedAfterZero(c, ss, steps, n);
  }

  // One-shot, every file in a slot: whichever way Run returns, although the channel is
  // buffered, every started task has been tallied exactly once.
  lemma OneShotTalliesAll(c: Config, ss: seq<State>, steps: seq<Step>, n: nat)
    requires Constructed(c) && Execution(c, ss, steps) && n < |ss| && AllParallel(c) && ss[n].phase.Returned?
    ensures multiset(ss[n].tallied) == multiset(ss[n].started) && forall id :: multiset(ss[n].tallied)[id] <= 1
    ensures ss[n].running == {} && ss[n].report == None
  {
    Always(c, ss, steps, n);
    NothingQueued(c, ss, steps, n);
    NeverAddedAfterZero(c, ss, steps, n);
    var s := ss[n];
    if s.phase == Returned(true) {
      CancelledRunAccountsForAll(c, ss, steps, n);
    } else {
      ChannelEmptyAtReturn(c, ss, steps, n);
      assert s.core.live.Keys == {};
    }
    AllTallied(s);
    assert forall id :: Ever(s)[id] <= 1 && Ever(s)[id] == multiset(s.started)[id];
  }

  lemma AllTallied(s: State)
    requires Conserved(s) && s.core.queue == [] && s.core.live.Keys == {} && s.accepted == [] && s.dropped == []
             && s.refused == []
    ensures multiset(s.tallied) == multiset(s.started)
  {
    assert Ids(s.core.queue) == [];
    assert Now(s) == multiset(s.tallied) && Ever(s) == multiset(s.started);
  }

  // Run returns of its own accord only after an empty channel.
  lemma ReturnsOnNoReport(c: Config, s: State, step: Step)
    requires Can(c, s, step) && s.phase != Returned(false) && Do(c, s, step).phase == Returned(false)
    ensures step.NoReport?
  {
  }

  lemma OnlySendReports(c: Config, s: State, step: Step)
    requires Can(c, s, step) && s.report == None && !step.Send?
    ensures Do(c, s, step).report == None
  {
  }

  lemma ChannelStaysEmpty(c: Config, s: State, step: Step)
    requires Can(c, s, step) && Do(c, s, step).phase == Returned(false)
    requires s.phase == Returned(false) ==> s.report == None && s.running == {}
    ensures Do(c, s, step).report == None
  {
    if s.phase != Returned(false) { ReturnsOnNoReport(c, s, step); }
    OnlySendReports(c, s, step);
  }

  lemma NoneRunningAtZero(s: State)
    requires Counted(s) && s.core.wg == 0
    ensures s.running == {}
  {
  }

  lemma {:induction false} ChannelEmptyAtReturn(c: Config, ss: seq<State>, steps: seq<Step>, n: nat)
    requires Constructed(c) && Execution(c, ss, steps) && n < |ss| && AllParallel(c) && ss[n].phase == Returned(false)
    ensures ss[n].report == None
  {
    assert n > 0;
    if ss[n - 1].phase == Returned(false) {
      ChannelEmptyAtReturn(c, ss, steps, n - 1);
      Always(c, ss, steps, n - 1);
      NeverAddedAfterZero(c, ss, steps, n - 1);
      NoneRunningAtZero(ss[n - 1]);
    }
    ChannelStaysEmpty(c, ss[n - 1], steps[n - 1]);
  }

  // ----- wind-down comes to an end -----

  function PhaseLeft(ph: Phase): nat
  {
    match ph
    case Releasing(n) => n + 4
    case Draining => 2
    case Receiving => 1
    case _ => 0
  }

  function WindLeft(s: State): nat
  {
    6 * |s.ready| + 5 * |s.running| + 3 * |InChannel(s.report)| + |s.finishing| + PhaseLeft(s.phase)
  }

  ghost predicate WindsDown(c: Config, s: State)
  {
    Inv(c, s) && Winding(s.phase) && (s.phase.Receiving? ==> s.core.live != map[])
  }

  // The steps that bring a wind-down forward.
  predicate Forward(step: Step)
  {
    step.Launch? || step.Send? || step.Done? || step.ReleaseOne? || step.ReleaseHold? || step.CheckLive?
        || step.DrainReport?
  }

  lemma SetSizes(a: set<nat>, id: nat)
    ensures |a + {id}| <= |a| + 1
    ensures id in a ==> |a - {id}| == |a| - 1
  {
  }

  lemma LaunchLowers(s: State, t: State, id: nat)
    requires id in s.ready && t.ready == s.ready - {id} && t.running == s.running + {id}
    requires t.finishing == s.finishing && t.report == s.report && t.phase == s.phase
    ensures WindLeft(t) < WindLeft(s)
  {
    SetSizes(s.ready, id);
    SetSizes(s.running, id);
  }

  lemma SendLowers(s: State, t: State, id: nat)
    requires id in s.running && t.running == s.running - {id} && t.finishing == s.finishing + {id}
    requires s.report == None && t.report == Some(id) && t.ready == s.ready && t.phase == s.phase
    ensures WindLeft(t) < WindLeft(s)
  {
    SetSizes(s.running, id);
    SetSizes(s.finishing, id);
  }

  lemma DoneLowers(s: State, t: State, id: nat)
    requires id in s.finishing && t.finishing == s.finishing - {id}
    requires t.ready == s.ready && t.running == s.running && t.report == s.report && t.phase == s.phase
    ensures WindLeft(t) < WindLeft(s)
  {
    SetSizes(s.finishing, id);
  }

  lemma GoroutineLowers(c: Config, s: State, step: Step)
    requires Winding(s.phase) && Can(c, s, step) && (step.Launch? || step.Send? || step.Done?)
    ensures WindLeft(Do(c, s, step)) < WindLeft(s) && Do(c, s, step).phase == s.phase
            && Do(c, s, step).core.live == s.core.live
  {
    match step
    case Launch(id) => LaunchLowers(s, Do(c, s, step), id);
    case Send(id) => SendLowers(s, Do(c, s, step), id);
    case Done(id) => DoneLowers(s, Do(c, s, step), id);
  }

  lemma LoopLowers(c: Config, s: State, step: Step)
    requires Can(c, s, step) && (step.ReleaseOne? || step.ReleaseHold? || step.CheckLive? || step.DrainReport?)
    ensures var t := Do(c, s, step);
            WindLeft(t) < WindLeft(s) && Winding(t.phase) && (t.phase.Receiving? ==> t.core.live != map[])
  {
  }

  // Each forward step brings the end of a wind-down nearer; the other steps change nothing.
  lemma ForwardLowers(c: Config, s: State, step: Step)
    requires Constructed(c) && WindsDown(c, s) && Can(c, s, step)
    ensures WindsDown(c, Do(c, s, step))
    ensures if Forward(step) then WindLeft(Do(c, s, step)) < WindLeft(s) else WindLeft(Do(c, s, step)) == WindLeft(s)
  {
    StepInv(c, s, step);
    if step.Launch? || step.Send? || step.Done? {
      GoroutineLowers(c, s, step);
    } else if Forward(step) {
      LoopLowers(c, s, step);
    } else {
      IdleWhileWinding(c, s, step);
    }
  }

  lemma IdleWhileWinding(c: Config, s: State, step: Step)
    requires Modes(c, s) && Winding(s.phase) && Can(c, s, step) && !Forward(step)
    ensures var t := Do(c, s, step);
            t.phase == s.phase && t.core == s.core && WindLeft(t) == WindLeft(s)
  {
  }

  // Until Run has returned some forward step is possible: no send, and no receive, blocks for ever.
  lemma WindDownProgress(c: Config, s: State) returns (step: Step)
    requires WindsDown(c, s) && !s.phase.Returned?
    ensures Forward(step) && Can(c, s, step)
  {
    match s.phase
    case Releasing(n) => step := if n > 0 then ReleaseOne else ReleaseHold;
    case Draining => step := CheckLive;
    case Receiving =>
      if s.report.Some? {
        step := DrainReport;
      } else if id :| id in s.running {
        step := Send(id);
      } else {
        assert s.core.live.Keys == s.ready;
        var id :| id in s.ready;
        step := Launch(id);
      }
  }

  lemma StillWindsDown(c: Config, s: State, step: Step)
    requires Constructed(c) && WindsDown(c, s) && Can(c, s, step)
    ensures WindsDown(c, Do(c, s, step))
  {
    ForwardLowers(c, s, step);
  }

  // The only way into a wind-down.
  lemma EarlyPhases(c: Config, s: State, step: Step)
    requires Can(c, s, step) && !Winding(s.phase) && !step.SeeCancel?
    ensures !Winding(Do(c, s, step).phase)
  {
    if Outside(step) { EarlyOutside(c, s, step); } else { EarlyInside(c, s, step); }
  }

  lemma EarlyOutside(c: Config, s: State, step: Step)
    requires Can(c, s, step) && !Winding(s.phase) && Outside(step)
    ensures !Winding(Do(c, s, step).phase)
  {
  }

  lemma EarlyInside(c: Config, s: State, step: Step)
    requires Can(c, s, step) && !Winding(s.phase) && !Outside(step) && !step.SeeCancel?
    ensures !Winding(Do(c, s, step).phase)
  {
  }

  lemma BeginsWindDown(c: Config, s: State, step: Step)
    requires Can(c, s, step) && !Winding(s.phase) && Winding(Do(c, s, step).phase)
    ensures Do(c, s, step).phase.Releasing?
  {
    if !step.SeeCancel? { EarlyPhases(c, s, step); }
  }

  // The invariant, with what it says more of a wind-down.
  ghost predicate Orderly(c: Config, s: State)
  {
    Inv(c, s) && (Winding(s.phase) ==> WindsDown(c, s))
  }

  lemma OrderlyInit(c: Config)
    requires Constructed(c)
    ensures Orderly(c, Init(c))
  {
    InitInv(c);
  }

  lemma OrderlyStep(c: Config, s: State, step: Step)
    requires Constructed(c) && Orderly(c, s) && Can(c, s, step)
    ensures Orderly(c, Do(c, s, step))
  {
    StepInv(c, s, step);
    if Winding(s.phase) {
      StillWindsDown(c, s, step);
    } else if Winding(Do(c, s, step).phase) {
      BeginsWindDown(c, s, step);
    }
  }

  lemma {:induction false} AlwaysOrderly(c: Config, ss: seq<State>, steps: seq<Step>, n: nat)
    requires Constructed(c) && Execution(c, ss, steps) && n < |ss|
    ensures Orderly(c, ss[n])
  {
    if n == 0 {
      OrderlyInit(c);
    } else {
      AlwaysOrderly(c, ss, steps, n - 1);
      OrderlyStep(c, ss[n - 1], steps[n - 1]);
    }
  }

  lemma PathCons(c: Config, s: State, step: Step, ss: seq<State>, steps: seq<Step>)
    requires Path(c, ss, steps) && Can(c, s, step) && ss[0] == Do(c, s, step)
    ensures Path(c, [s] + ss, [step] + steps) && ([s] + ss)[|steps| + 1] == ss[|steps|]
  {
  }

  lemma {:induction false} DrivenToReturn(c: Config, s: State) returns (ss: seq<State>, steps: seq<Step>)
    requires Constructed(c) && WindsDown(c, s)
    ensures Path(c, ss, steps) && ss[0] == s && ss[|steps|].phase == Returned(true) && |steps| <= WindLeft(s)
    decreases WindLeft(s)
  {
    if s.phase.Returned? {
      ss, steps := [s], [];
    } else {
      var step := WindDownProgress(c, s);
      ForwardLowers(c, s, step);
      var rest, more := DrivenToReturn(c, Do(c, s, step));
      PathCons(c, s, step, rest, more);
      ss, steps := [s] + rest, [step] + more;
    }
  }

  // After cancellation Run can always be brought to its return, in a bounded number of steps.
  lemma WindDownEnds(c: Config, ss: seq<State>, steps: seq<Step>, n: nat) returns (tail: seq<State>, more: seq<Step>)
    requires Constructed(c) && Execution(c, ss, steps) && n < |ss| && Winding(ss[n].phase)
    ensures Path(c, tail, more) && tail[0] == ss[n] && tail[|more|].phase == Returned(true) && |more| <= WindLeft(ss[n])
  {
    AlwaysOrderly(c, ss, steps, n);
    tail, more := DrivenToReturn(c, ss[n]);
  }

  // ----- when queued work can be left behind -----

  // Everything accepted was tallied, or dropped by a wind-down.
  ghost predicate Complete(s: State)
  {
    multiset(s.accepted) + multiset(s.started) == multiset(s.tallied) + multiset(s.dropped)
  }

  // Before anything was started.
  ghost predicate Fresh(s: State)
  {
    && s.core.wg == 0 && !s.observed && !s.cancelled && s.report == None
    && s.started == [] && s.tallied == [] && s.dropped == []
  }

  lemma Extend(c: Config, ss: seq<State>, steps: seq<Step>, step: Step)
    requires Execution(c, ss, steps) && Can(c, ss[|steps|], step)
    ensures Execution(c, ss + [Do(c, ss[|steps|], step)], steps + [step])
  {
  }

  predicate SameSets(s: State, t: State)
  {
    t.counting == s.counting && t.ready == s.ready && t.running == s.running && t.finishing == s.finishing
  }

  lemma {:induction false} QueueAll(c: Config, ss: seq<State>, steps: seq<Step>)
      returns (ss': seq<State>, steps': seq<Step>)
    requires Execution(c, ss, steps) && ss[|steps|].phase.Queueing? && Fresh(ss[|steps|])
    ensures Execution(c, ss', steps') && ss'[|steps'|].phase == Queueing([]) && Fresh(ss'[|steps'|])
    ensures ss[|steps|].phase.todo != [] || ss[|steps|].accepted != [] ==> ss'[|steps'|].accepted != []
    ensures ss'[|steps'|].core == ss[|steps|].core.(queue := ss'[|steps'|].core.queue)
            && SameSets(ss[|steps|], ss'[|steps'|])
    ensures |ss'[|steps'|].core.queue| == |ss[|steps|].core.queue| + |ss[|steps|].phase.todo|
    decreases |ss[|steps|].phase.todo|
  {
    var s := ss[|steps|];
    if s.phase.todo == [] {
      ss', steps' := ss, steps;
    } else {
      Extend(c, ss, steps, QueuePlan(true));
      ss', steps' := QueueAll(c, ss + [Do(c, s, QueuePlan(true))], steps + [QueuePlan(true)]);
    }
  }

  lemma {:induction false} FailAll(c: Config, ss: seq<State>, steps: seq<Step>)
      returns (ss': seq<State>, steps': seq<Step>)
    requires Execution(c, ss, steps) && ss[|steps|].phase.Starting? && Fresh(ss[|steps|])
    requires |ss[|steps|].phase.todo| <= ss[|steps|].core.slots
    ensures Execution(c, ss', steps') && ss'[|steps'|].phase == Starting([]) && Fresh(ss'[|steps'|])
    ensures ss'[|steps'|].accepted == ss[|steps|].accepted
    decreases |ss[|steps|].phase.todo|
  {
    var s := ss[|steps|];
    if s.phase.todo == [] {
      ss', steps' := ss, steps;
    } else {
      Extend(c, ss, steps, StartNext(false));
      ss', steps' := FailAll(c, ss + [Do(c, s, StartNext(false))], steps + [StartNext(false)]);
    }
  }

  // When none of the parallel files can be built, Run returns at once and the queue is forgotten.
  lemma EarlyReturn(c: Config) returns (ss: seq<State>, steps: seq<Step>)
    requires Constructed(c) && !c.daemon && c.waiting != []
    ensures Execution(c, ss, steps) && ss[|steps|].phase == Returned(false) && !Complete(ss[|steps|])
  {
    ss, steps := [Init(c)], [];
    ss, steps := QueueAll(c, ss, steps);
    Extend(c, ss, steps, BeginStart);
    ss, steps := ss + [Do(c, ss[|steps|], BeginStart)], steps + [BeginStart];
    ss, steps := FailAll(c, ss, steps);
    ss, steps := Closing(c, ss, steps);
  }

  lemma Incomplete(s: State)
    requires s.accepted != [] && s.started == [] && s.tallied == [] && s.dropped == []
    ensures !Complete(s)
  {
    var id := s.accepted[0];
    assert (multiset(s.accepted) + multiset(s.started))[id] > 0;
    assert (multiset(s.tallied) + multiset(s.dropped))[id] == 0;
  }

  lemma Closing(c: Config, ss: seq<State>, steps: seq<Step>) returns (ss': seq<State>, steps': seq<Step>)
    requires Execution(c, ss, steps) && ss[|steps|].phase == Starting([]) && Fresh(ss[|steps|])
             && ss[|steps|].accepted != []
    ensures Execution(c, ss', steps') && ss'[|steps'|].phase == Returned(false) && !Complete(ss'[|steps'|])
  {
    ss', steps' := ss, steps;
    var s := ss'[|steps'|];
    Extend(c, ss', steps', BeginSelect);
    ss', steps' := ss' + [Do(c, ss'[|steps'|], BeginSelect)], steps' + [BeginSelect];
    Extend(c, ss', steps', Observe);
    ss', steps' := ss' + [Do(c, ss'[|steps'|], Observe)], steps' + [Observe];
    Extend(c, ss', steps', SeeDone);
    ss', steps' := ss' + [Do(c, ss'[|steps'|], SeeDone)], steps' + [SeeDone];
    Extend(c, ss', steps', NoReport);
    ss', steps' := ss' + [Do(c, ss'[|steps'|], NoReport)], steps' + [NoReport];
    assert ss'[|steps'|] == s.(phase := Returned(false), observed := true);
    Incomplete(ss'[|steps'|]);
  }

  // A one-shot Run accounts for all its files on every schedule exactly when no file has to
  // wait: waiting files are not in the wait group, so its zero does not speak for them.
  lemma CompleteExactlyWhenNoneWaits(c: Config)
    requires Constructed(c) && !c.daemon
    ensures (forall ss: seq<State>, steps: seq<Step>, n: int ::
               Execution(c, ss, steps) && 0 <= n < |ss| && ss[n].phase.Returned? ==> Complete(ss[n]))
            <==> c.waiting == []
  {
    if c.waiting == [] {
      forall ss: seq<State>, steps: seq<Step>, n: int |
        Execution(c, ss, steps) && 0 <= n < |ss| && ss[n].phase.Returned?
        ensures Complete(ss[n])
      {
        OneShotTalliesAll(c, ss, steps, n);
        NothingQueued(c, ss, steps, n);
        Bounds(c, ss, steps, n);
      }
    } else {
      var ss, steps := EarlyReturn(c);
      assert Execution(c, ss, steps) && 0 <= |steps| < |ss| && ss[|steps|].phase.Returned?;
    }
  }

  // ----- one file runs, one waits -----

  ghost predicate Ends(c: Config, ss: seq<State>, steps: seq<Step>, s: State)
  {
    Execution(c, ss, steps) && ss[|steps|] == s
  }

  lemma Then(c: Config, ss: seq<State>, steps: seq<Step>, s: State, step: Step)
      returns (ss': seq<State>, steps': seq<Step>)
    requires Ends(c, ss, steps, s) && Can(c, s, step)
    ensures Ends(c, ss', steps', Do(c, s, step))
  {
    Extend(c, ss, steps, step);
    ss', steps' := ss + [Do(c, s, step)], steps + [step];
  }

  function Pair(a: C.Entry, b: C.Entry): Config
  {
    Config(false, 1, [a], [b])
  }

  // a has run to its end and has reported; b still waits, and the observer has seen zero.
  function Halfway(a: C.Entry, b: C.Entry): State
  {
    State(C.Core(1, [b.(counted := false)], map[a.id := a.conns], 0, false, false), Selecting, true, false,
          {}, {}, {}, {}, Some(a.id), [b.id], [a.id], [], [], [], [])
  }

  lemma StartsFirst(a: C.Entry, b: C.Entry) returns (ss: seq<State>, steps: seq<Step>)
    ensures Ends(Pair(a, b), ss, steps,
                 State(C.Core(1, [b.(counted := false)], map[a.id := a.conns], 1, false, false), Starting([]),
                       false, false,
                       {}, {}, {a.id}, {}, None, [b.id], [a.id], [], [], [], []))
  {
    var c := Pair(a, b);
    var s := Init(c);
    ss, steps := [s], [];
    ss, steps := Then(c, ss, steps, s, QueuePlan(true));
    s := Do(c, s, QueuePlan(true));
    ss, steps := Then(c, ss, steps, s, BeginStart);
    s := Do(c, s, BeginStart);
    ss, steps := Then(c, ss, steps, s, StartNext(true));
    s := Do(c, s, StartNext(true));
    ss, steps := Then(c, ss, steps, s, List);
    s := Do(c, s, List);
    assert [b][1..] == [] && [a][1..] == [] && [] + [b.(counted := false)] == [b.(counted := false)];
    assert [] + [b.id] == [b.id] && [] + [a.id] == [a.id] && {a.id} - {a.id} == {} && {} + {a.id} == {a.id};
    ss, steps := Then(c, ss, steps, s, Launch(a.id));
    assert s.core == C.Core(1, [b.(counted := false)], map[a.id := a.conns], 1, false, false);
  }

  lemma RunsFirst(a: C.Entry, b: C.Entry) returns (ss: seq<State>, steps: seq<Step>)
    ensures Ends(Pair(a, b), ss, steps, Halfway(a, b))
  {
    var c := Pair(a, b);
    ss, steps := StartsFirst(a, b);
    var s := ss[|steps|];
    ss, steps := Then(c, ss, steps, s, BeginSelect);
    s := Do(c, s, BeginSelect);
    ss, steps := Then(c, ss, steps, s, Send(a.id));
    s := Do(c, s, Send(a.id));
    ss, steps := Then(c, ss, steps, s, Done(a.id));
    s := Do(c, s, Done(a.id));
    ss, steps := Then(c, ss, steps, s, Observe);
    assert {a.id} - {a.id} == {} && {} + {a.id} == {a.id};
  }

  // With every file built and the first one finished, Run may still return with the second
  // one never admitted although a slot is free.
  lemma QueueForgotten(a: C.Entry, b: C.Entry) returns (ss: seq<State>, steps: seq<Step>)
    ensures Execution(Pair(a, b), ss, steps)
    ensures var s := ss[|steps|];
            s.phase == Returned(false) && s.tallied == [a.id] && s.popped == [] && s.core.live == map[]
                && Ids(s.core.queue) == [b.id]
  {
    var c := Pair(a, b);
    ss, steps := RunsFirst(a, b);
    var s := Halfway(a, b);
    ss, steps := Then(c, ss, steps, s, SeeDone);
    s := Do(c, s, SeeDone);
    ss, steps := Then(c, ss, steps, s, LastReport);
    s := Do(c, s, LastReport);
    ss, steps := Then(c, ss, steps, s, NoReport);
    assert map[a.id := a.conns] - {a.id} == map[];
  }

  // ----- when the wait group is added to after zero -----

  // Nothing runs without a slot.
  ghost predicate NoSlot(c: Config, s: State)
  {
    && s.core.slots == 0 && s.core.wg == 0 && s.core.live == map[] && !s.core.idle
    && (forall i :: 0 <= i < |s.core.queue| ==> !s.core.queue[i].counted)
    && s.counting == s.ready == s.running == s.finishing == {} && s.report == None
    && !s.phase.Reserved? && !s.phase.Launching? && (s.phase.Releasing? ==> s.phase.n == 0)
  }

  lemma {:induction false} NoneCounted(q: seq<C.Entry>)
    requires forall i :: 0 <= i < |q| ==> !q[i].counted
    ensures C.CountedIn(q) == 0
  {
    if q != [] {
      NoneCounted(q[1..]);
    }
  }

  lemma NoSlotKept(c: Config, s: State, step: Step)
    requires !c.daemon && NoSlot(c, s) && Can(c, s, step)
    ensures NoSlot(c, Do(c, s, step))
  {
    NoneCounted(s.core.queue);
  }

  lemma {:induction false} NoSlotNoWork(c: Config, ss: seq<State>, steps: seq<Step>, n: nat)
    requires Constructed(c) && !c.daemon && c.parallel == [] && Execution(c, ss, steps) && n < |ss|
    ensures ss[n].core.wg == 0
    ensures NoSlot(c, ss[n])
  {
    if n > 0 {
      NoSlotNoWork(c, ss, steps, n - 1);
      assert Can(c, ss[n - 1], steps[n - 1]) && ss[n] == Do(c, ss[n - 1], steps[n - 1]);
      NoSlotKept(c, ss[n - 1], steps[n - 1]);
    }
  }

  // All parallel files but the last fail to be built.
  lemma {:induction false} FailAllButLast(c: Config, ss: seq<State>, steps: seq<Step>)
      returns (ss': seq<State>, steps': seq<Step>)
    requires Execution(c, ss, steps) && ss[|steps|].phase.Starting? && ss[|steps|].phase.todo != []
             && Fresh(ss[|steps|])
    requires |ss[|steps|].phase.todo| <= ss[|steps|].core.slots
    ensures Execution(c, ss', steps') && ss'[|steps'|].phase.Starting? && |ss'[|steps'|].phase.todo| == 1
            && Fresh(ss'[|steps'|])
    ensures ss'[|steps'|].core == ss[|steps|].core && SameSets(ss[|steps|], ss'[|steps'|])
    decreases |ss[|steps|].phase.todo|
  {
    var s := ss[|steps|];
    if |s.phase.todo| == 1 {
      ss', steps' := ss, steps;
    } else {
      Extend(c, ss, steps, StartNext(false));
      ss', steps' := FailAllButLast(c, ss + [Do(c, s, StartNext(false))], steps + [StartNext(false)]);
    }
  }

  // A queue, nothing live, nothing counted.
  ghost predicate Waiting(s: State)
  {
    && s.core.queue != [] && !s.core.queue[0].counted && s.core.live == map[] && s.core.slots >= 1
       && !s.core.windingDown
    && s.core.wg == 0 && s.report == None && s.counting == s.ready == s.running == s.finishing == {}
  }

  // The last parallel file runs to its end, and the observer looks.
  lemma RunLast(c: Config, ss: seq<State>, steps: seq<Step>, s: State)
      returns (ss': seq<State>, steps': seq<Step>, t: State)
    requires Ends(c, ss, steps, s) && Waiting(s) && s.phase.Starting? && |s.phase.todo| == 1
             && |s.started| < s.core.slots
    ensures Ends(c, ss', steps', t) && t.phase.Selecting? && t.observed
    ensures var id := s.phase.todo[0].id;
            t.core == s.core.(live := map[id := s.phase.todo[0].conns]) && t.report == Some(id)
            && t.counting == t.ready == t.running == t.finishing == {}
  {
    var e := s.phase.todo[0];
    assert {} + {e.id} == {e.id} && {e.id} - {e.id} == {} && map[][e.id := e.conns] == map[e.id := e.conns];
    t := s;
    ss', steps' := Then(c, ss, steps, t, StartNext(true));
    t := Do(c, t, StartNext(true));
    ss', steps' := Then(c, ss', steps', t, List);
    t := Do(c, t, List);
    ss', steps' := Then(c, ss', steps', t, Launch(e.id));
    t := Do(c, t, Launch(e.id));
    ss', steps' := Then(c, ss', steps', t, BeginSelect);
    t := Do(c, t, BeginSelect);
    ss', steps' := FinishLast(c, ss', steps', t, e.id);
    t := ss'[|steps'|];
  }

  lemma FinishLast(c: Config, ss: seq<State>, steps: seq<Step>, s: State, id: nat)
      returns (ss': seq<State>, steps': seq<Step>)
    requires Ends(c, ss, steps, s) && s.phase.Selecting? && s.report == None && s.core.wg == 1
    requires s.running == {id} && s.finishing == s.ready == s.counting == {}
    ensures Ends(c, ss', steps', s.(report := Some(id), running := {}, core := s.core.(wg := 0), observed := true))
  {
    assert {} + {id} == {id} && {id} - {id} == {};
    ss', steps' := Then(c, ss, steps, s, Send(id));
    var t := Do(c, s, Send(id));
    ss', steps' := Then(c, ss', steps', t, Done(id));
    t := Do(c, t, Done(id));
    ss', steps' := Then(c, ss', steps', t, Observe);
  }

  // Run takes the report first, admits the next file, and adds to the wait group.
  lemma AdmitAfterZero(c: Config, ss: seq<State>, steps: seq<Step>, s: State)
      returns (ss': seq<State>, steps': seq<Step>)
    requires Ends(c, ss, steps, s) && s.phase.Selecting? && s.observed && s.report.Some? && s.core.wg == 0
    requires s.core.queue != [] && !s.core.queue[0].counted && s.core.slots >= 1 && !s.core.windingDown
    requires s.core.live.Keys == {s.report.value} && s.counting == {}
    ensures Execution(c, ss', steps') && ss'[|steps'|].observed && ss'[|steps'|].core.wg == 1
  {
    var t := s;
    ss', steps' := Then(c, ss, steps, t, Receive);
    t := Do(c, t, Receive);
    assert t.core.live == map[];
    ss', steps' := Then(c, ss', steps', t, AdmitNext);
    t := Do(c, t, AdmitNext);
    ss', steps' := Then(c, ss', steps', t, Reserve(s.core.queue[0].id));
  }

  // In every one-shot plan with parallel and waiting files: when the last parallel file has
  // finished, the observer may see zero before Run admits the next one and adds to it.
  lemma AddedAfterZero(c: Config) returns (ss: seq<State>, steps: seq<Step>)
    requires Constructed(c) && !c.daemon && c.waiting != [] && c.parallel != []
    ensures Execution(c, ss, steps) && ss[|steps|].observed && ss[|steps|].core.wg == 1
  {
    ss, steps := [Init(c)], [];
    ss, steps := QueueAll(c, ss, steps);
    Extend(c, ss, steps, BeginStart);
    ss, steps := ss + [Do(c, ss[|steps|], BeginStart)], steps + [BeginStart];
    ss, steps := FailAllButLast(c, ss, steps);
    var s := ss[|steps|];
    assert Modes(c, s) by { Always(c, ss, steps, |steps|); }
    assert s.core.queue != [] && s.core.live == map[];
    var t;
    ss, steps, t := RunLast(c, ss, steps, s);
    ss, steps := AdmitAfterZero(c, ss, steps, t);
  }

  // The counter is above zero after the observer may have seen it at zero.
  ghost predicate NeverReused(c: Config)
  {
    forall ss: seq<State>, steps: seq<Step>, n: int :: Execution(c, ss, steps) && 0 <= n < |ss| && ss[n].observed ==>
        ss[n].core.wg == 0
  }

  // That never happens if and only if the scheduler is a daemon's, or nothing waits, or there
  // is no slot.
  lemma ReusedExactly(c: Config)
    requires Constructed(c)
    ensures NeverReused(c) <==> c.daemon || c.waiting == [] || c.parallel == []
  {
    if c.daemon || c.waiting == [] || c.parallel == [] {
      forall ss: seq<State>, steps: seq<Step>, n: int | Execution(c, ss, steps) && 0 <= n < |ss| && ss[n].observed
        ensures ss[n].core.wg == 0
      {
        if c.daemon || AllParallel(c) { NeverAddedAfterZero(c, ss, steps, n); } else { NoSlotNoWork(c, ss, steps, n); }
      }
    } else {
      var ss, steps := AddedAfterZero(c);
      assert Execution(c, ss, steps) && 0 <= |steps| < |ss| && ss[|steps|].observed;
    }
  }

  // ----- the budget of a Mode C batch -----

  // In every state of a Mode C run the live tasks fit the budget, so each rebalance leaves
  // every live task a connection and spends the budget to the last one if some task can.
  lemma BudgetAcrossRun(c: Config, ss: seq<State>, steps: seq<Step>, n: nat, p: Balancer.Plan, budget: int,
                        files: seq<Balancer.FileInput>, split: nat, ceiling: int, rangeCapable: seq<bool>)
    requires Constructed(c) && Execution(c, ss, steps) && n < |ss| && !c.daemon && |c.parallel| == |p.parallel|
    requires Balancer.Sensible(p, budget, files, split, ceiling) && p.rebalances
    requires 1 <= |rangeCapable| == |ss[n].core.live|
    ensures |ss[n].core.live| <= budget / split && |ss[n].core.live| <= budget
    ensures var a := Rebalance.Targets(rangeCapable, budget);
            && (forall i :: 0 <= i < |a| ==> a[i] >= 1)
            && Sums.Sum(a) <= budget
            && ((exists i :: 0 <= i < |rangeCapable| && rangeCapable[i]) ==> Sums.Sum(a) == budget)
  {
    Bounds(c, ss, steps, n);
    Rebalance.TargetsConserve(rangeCapable, budget);
  }
}
