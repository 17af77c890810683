// What every run of the scheduler keeps: the wait group counts exactly the outstanding work,
// it is never added to once it may have been seen at zero, slots and queue are bounded,
// admission is in order, and nothing accepted is lost or tallied twice.
module SchedulerProof {
  import opened Chunks
  import opened SchedulerRun
  import C = SchedulerCore

  function InChannel(r: Option<nat>): set<nat>
  {
    match r
    case None => {}
    case Some(id) => {id}
  }

  // Entries Run has yet to start from its plan.
  function Upcoming(c: Config, s: State): seq<C.Entry>
  {
    match s.phase
    case Queueing(todo) => todo + c.parallel
    case Starting(todo) => todo
    case Reserved(e, todo) => [e] + todo
    case Launching(_, todo) => todo
    case _ => []
  }

  predicate Setup(ph: Phase)
  {
    ph.Queueing? || ph.Starting? || ph.Reserved? || ph.Launching?
  }

  predicate Winding(ph: Phase)
  {
    ph.Releasing? || ph.Draining? || ph.Receiving? || ph == Returned(true)
  }

  // ----- the invariant, part by part -----

  // Every live task is in exactly one place.
  ghost predicate Places(s: State)
  {
    && s.core.live.Keys == s.counting + s.ready + s.running + InChannel(s.report)
    && s.counting !! s.ready && s.counting !! s.running && s.ready !! s.running
    && (s.report.Some? ==> s.report.value !in s.counting + s.ready + s.running)
    && s.finishing !! s.counting && s.finishing !! s.ready && s.finishing !! s.running
    && (forall id :: id in s.finishing ==> id in s.tallied || id in InChannel(s.report))
  }

  // The history as one multiset, and the places of the present as another.
  function Ever(s: State): multiset<nat>
  {
    multiset(s.accepted) + multiset(s.started)
  }

  function Now(s: State): multiset<nat>
  {
    Five(multiset(Ids(s.core.queue)), multiset(s.core.live.Keys), multiset(s.tallied), multiset(s.dropped),
        multiset(s.refused))
  }

  function Five(a: multiset<nat>, b: multiset<nat>, c: multiset<nat>, d: multiset<nat>, e: multiset<nat>): multiset<nat>
  {
    a + b + c + d + e
  }

  lemma FiveAdd(a: multiset<nat>, b: multiset<nat>, c: multiset<nat>, d: multiset<nat>, e: multiset<nat>,
      x: multiset<nat>)
    ensures Five(a + x, b, c, d, e) == Five(a, b + x, c, d, e) == Five(a, b, c + x, d, e) == Five(a, b, c, d, e) + x
    ensures Five(multiset{}, b, c, a, e) == Five(a, b, c, multiset{}, e)
  {
  }

  // Everything accepted or started is queued, live, tallied, dropped or refused: once.
  ghost predicate Conserved(s: State)
  {
    Ever(s) == Now(s)
  }

  ghost predicate Unique(c: Config, s: State)
  {
    && (forall id :: Ever(s)[id] <= 1)
    && (forall i :: 0 <= i < |Upcoming(c, s)| ==> Unseen(s, Upcoming(c, s)[i].id))
    && (forall i, k :: 0 <= i < k < |Upcoming(c, s)| ==> Upcoming(c, s)[i].id != Upcoming(c, s)[k].id)
  }

  // The wait group is the idle hold, the counted queue entries, the admitted tasks whose
  // goroutine has not called Done, and the releases a wind-down still owes.
  ghost predicate Counted(s: State)
  {
    s.core.wg == (if s.core.idle then 1 else 0) + C.CountedIn(s.core.queue) + |s.ready| + |s.running| + |s.finishing|
               + (if s.phase.Releasing? then s.phase.n else 0) + (if s.phase.Reserved? then 1 else 0)
  }

  ghost predicate Modes(c: Config, s: State)
  {
    && s.core.slots == c.slots
    && (s.core.windingDown <==> Winding(s.phase))
    && (Winding(s.phase) ==> s.core.queue == [] && s.cancelled)
    && (s.core.idle <==> c.daemon && (!Winding(s.phase) || s.phase.Releasing?))
    && (s.dropped != [] ==> Winding(s.phase))
    && s.refused == []
    && (Setup(s.phase) ==> !s.observed)
    && (s.phase.LastReports? || s.phase == Returned(false) ==> s.observed)
    && (c.daemon ==> s.started == [] && s.counting == {} && Upcoming(c, s) == [] && |s.core.queue| <= C.MAX_PENDING)
    && (forall i :: 0 <= i < |s.core.queue| ==> s.core.queue[i].counted == c.daemon)
    && (!c.daemon ==> forall id :: id in s.counting ==> s.phase == Admitting(id))
  }

  ghost predicate WithinSlots(c: Config, s: State)
  {
    && |s.core.live| <= s.core.slots
    && (!c.daemon && Setup(s.phase) ==> |s.core.live| <= |s.started|)
    && (s.phase.Reserved? ==> |s.started| < s.core.slots)
  }

  // First come, first served.
  ghost predicate InOrder(s: State)
  {
    s.accepted == s.popped + s.dropped + Ids(s.core.queue)
  }

  ghost predicate Inv(c: Config, s: State)
  {
    Places(s) && Conserved(s) && Unique(c, s) && Counted(s) && Modes(c, s) && WithinSlots(c, s) && InOrder(s)
  }

  lemma InitInv(c: Config)
    requires Constructed(c)
    ensures Inv(c, Init(c))
  {
  }

  // ----- consequences used by the steps -----

  lemma MultisetOfSet(a: set<nat>, id: nat)
    ensures id !in a ==> multiset(a + {id}) == multiset(a) + multiset{id}
    ensures id in a ==> multiset(a - {id}) == multiset(a) - multiset{id}
  {
  }

  lemma UnseenNowhere(s: State, id: nat)
    requires Conserved(s) && Unseen(s, id)
    ensures id !in Ids(s.core.queue) && id !in s.core.live && id !in s.tallied
  {
    assert Ever(s)[id] == 0;
    assert Now(s)[id] == 0;
  }

  lemma HeadOnlyQueued(s: State)
    requires Conserved(s) && s.core.queue != [] && forall id :: Ever(s)[id] <= 1
    ensures s.core.queue[0].id !in s.core.live && s.core.queue[0].id !in s.tallied
    ensures Ids(s.core.queue) == [s.core.queue[0].id] + Ids(s.core.queue[1..])
  {
    var id := s.core.queue[0].id;
    assert Ids(s.core.queue) == [id] + Ids(s.core.queue[1..]);
    assert Now(s)[id] <= 1;
    assert multiset(Ids(s.core.queue))[id] >= 1;
  }

  lemma Snoc(a: seq<nat>, id: nat)
    ensures multiset(a + [id]) == multiset(a) + multiset{id}
  {
    assert multiset([id]) == multiset{id};
  }

  // ----- the mode flags -----

  lemma SetupModes(c: Config, s: State, step: Step)
    requires Constructed(c) && Modes(c, s) && Can(c, s, step)
    requires step.QueuePlan? || step.BeginStart? || step.StartNext? || step.List? || step.BeginSelect? || step.Observe?
    ensures Modes(c, Do(c, s, step))
  {
  }

  lemma AdmissionModes(c: Config, s: State, step: Step)
    requires Constructed(c) && Modes(c, s) && Can(c, s, step) && (step.Enqueue? || step.Reserve?)
    ensures Modes(c, Do(c, s, step))
  {
  }

  lemma CallerModes(c: Config, s: State)
    requires Constructed(c) && Modes(c, s) && Can(c, s, AdmitForCaller)
    ensures Modes(c, Popped(s))
  {
  }

  lemma AdmitModes(c: Config, s: State)
    requires Constructed(c) && Modes(c, s) && Can(c, s, AdmitNext)
    ensures Modes(c, DoAdmitNext(s))
  {
  }

  lemma GoroutineModes(c: Config, s: State, step: Step)
    requires Constructed(c) && Modes(c, s) && Places(s) && Can(c, s, step)
    requires step.Launch? || step.Send? || step.Done? || step.CancelContext?
    ensures Modes(c, Do(c, s, step))
  {
  }

  lemma ReportModes(c: Config, s: State, step: Step)
    requires Constructed(c) && Modes(c, s) && Can(c, s, step)
    requires step.Receive? || step.DrainReport? || step.LastReport?
    ensures Modes(c, Do(c, s, step))
  {
  }

  lemma SeeCancelModes(c: Config, s: State)
    requires Constructed(c) && Modes(c, s) && Can(c, s, SeeCancel)
    ensures Modes(c, DoSeeCancel(s))
  {
  }

  lemma EndModes(c: Config, s: State, step: Step)
    requires Constructed(c) && Modes(c, s) && Can(c, s, step)
    requires step.ReleaseOne? || step.ReleaseHold? || step.CheckLive? || step.SeeDone? || step.NoReport?
    ensures Modes(c, Do(c, s, step))
  {
  }

  // ----- identities -----

  lemma SameHistory(c: Config, s: State, t: State)
    requires Unique(c, s) && t.accepted == s.accepted && t.started == s.started
    requires Upcoming(c, t) == Upcoming(c, s) || Upcoming(c, t) == []
    ensures Unique(c, t)
  {
    assert Ever(t) == Ever(s);
  }

  lemma OneFewer(c: Config, s: State, t: State, e: C.Entry)
    requires Unique(c, s) && Upcoming(c, s) == [e] + Upcoming(c, t)
    requires t.accepted == s.accepted && t.started == s.started
    ensures Unique(c, t) && Unseen(s, e.id)
  {
    var up, rest := Upcoming(c, s), Upcoming(c, t);
    assert up[0] == e && Ever(t) == Ever(s);
    assert forall i :: 0 <= i < |rest| ==> rest[i] == up[i + 1];
  }

  lemma OneMore(s: State, t: State, id: nat)
    requires Unseen(s, id) && forall x :: Ever(s)[x] <= 1
    requires (t.accepted == s.accepted + [id] && t.started == s.started)
             || (t.accepted == s.accepted && t.started == s.started + [id])
    ensures Ever(t) == Ever(s) + multiset{id}
    ensures forall x :: Ever(t)[x] <= 1
  {
    Snoc(s.accepted, id);
    Snoc(s.started, id);
    assert Ever(s)[id] == 0;
  }

  lemma FirstTaken(c: Config, s: State, t: State, e: C.Entry)
    requires Unique(c, s) && Upcoming(c, s) == [e] + Upcoming(c, t)
    requires (t.accepted == s.accepted + [e.id] && t.started == s.started)
             || (t.accepted == s.accepted && t.started == s.started + [e.id])
    ensures Unique(c, t) && Unseen(s, e.id) && Ever(t) == Ever(s) + multiset{e.id}
  {
    var up, rest := Upcoming(c, s), Upcoming(c, t);
    assert up[0] == e;
    assert forall i :: 0 <= i < |rest| ==> rest[i] == up[i + 1];
    OneMore(s, t, e.id);
  }

  lemma EnqueueUnique(c: Config, s: State, e: C.Entry)
    requires Unique(c, s) && Modes(c, s) && Can(c, s, Enqueue(e))
    ensures Unique(c, DoEnqueue(s, e))
  {
    var t := DoEnqueue(s, e);
    assert Upcoming(c, t) == Upcoming(c, s) == [];
    if t != s {
      OneMore(s, t, e.id);
    }
  }

  predicate PlanStep(step: Step)
  {
    step.QueuePlan? || step.StartNext? || step.List? || step.Enqueue?
  }

  lemma QueuePlanUnique(c: Config, s: State, ok: bool)
    requires Unique(c, s) && s.phase.Queueing? && s.phase.todo != []
    ensures Unique(c, DoQueuePlan(s, ok))
  {
    var t := DoQueuePlan(s, ok);
    assert Upcoming(c, s) == [s.phase.todo[0]] + Upcoming(c, t);
    if ok { FirstTaken(c, s, t, s.phase.todo[0]); } else { OneFewer(c, s, t, s.phase.todo[0]); }
  }

  lemma StartNextUnique(c: Config, s: State, ok: bool)
    requires Unique(c, s) && s.phase.Starting? && s.phase.todo != []
    ensures Unique(c, DoStartNext(s, ok))
  {
    var t := DoStartNext(s, ok);
    assert s.phase.todo == [s.phase.todo[0]] + s.phase.todo[1..];
    if t.phase.Reserved? { SameHistory(c, s, t); } else { OneFewer(c, s, t, s.phase.todo[0]); }
  }

  lemma PlanUnique(c: Config, s: State, step: Step)
    requires Constructed(c) && Unique(c, s) && Modes(c, s) && Can(c, s, step) && PlanStep(step)
    ensures Unique(c, Do(c, s, step))
  {
    match step
    case QueuePlan(ok) => QueuePlanUnique(c, s, ok);
    case StartNext(ok) => StartNextUnique(c, s, ok);
    case List => FirstTaken(c, s, DoList(s), s.phase.e);
    case Enqueue(e) => EnqueueUnique(c, s, e);
  }

  // A phase that has the same files to start, or none.
  predicate SameOrNone(ph: Phase, next: Phase)
  {
    next == ph || !Setup(next) || (next.Starting? && ph.Launching? && next.todo == ph.todo)
  }

  lemma PhaseMoves(c: Config, s: State, step: Step)
    requires Can(c, s, step) && !PlanStep(step) && !step.BeginStart?
    ensures SameOrNone(s.phase, Do(c, s, step).phase)
  {
  }

  lemma HistoryStays(c: Config, s: State, step: Step)
    requires Can(c, s, step) && !PlanStep(step)
    ensures var t := Do(c, s, step); t.accepted == s.accepted && t.started == s.started
  {
  }

  lemma UpcomingStays(c: Config, s: State, step: Step)
    requires Can(c, s, step) && !PlanStep(step)
    ensures var t := Do(c, s, step);
            t.accepted == s.accepted && t.started == s.started
                && (Upcoming(c, t) == Upcoming(c, s) || Upcoming(c, t) == [])
  {
    HistoryStays(c, s, step);
    if !step.BeginStart? {
      PhaseMoves(c, s, step);
    }
  }

  lemma UniqueKept(c: Config, s: State, step: Step)
    requires Constructed(c) && Unique(c, s) && Modes(c, s) && Can(c, s, step)
    ensures Unique(c, Do(c, s, step))
  {
    if PlanStep(step) {
      PlanUnique(c, s, step);
    } else {
      UpcomingStays(c, s, step);
      SameHistory(c, s, Do(c, s, step));
    }
  }

  // ----- the task sets -----

  // Nothing about tasks changes.
  ghost predicate SameTasks(s: State, t: State)
  {
    && t.core.live == s.core.live && t.core.queue == s.core.queue && t.report == s.report
    && t.counting == s.counting && t.ready == s.ready && t.running == s.running && t.finishing == s.finishing
    && t.accepted == s.accepted && t.started == s.started && t.popped == s.popped
    && t.tallied == s.tallied && t.dropped == s.dropped && t.refused == s.refused
  }

  predicate Keeps(step: Step)
  {
    step.BeginStart? || step.BeginSelect? || step.Observe? || step.CancelContext? || step.ReleaseOne?
    || step.ReleaseHold? || step.CheckLive? || step.SeeDone? || step.NoReport? || step.StartNext?
  }

  lemma KeepsTasks(c: Config, s: State, step: Step)
    requires Can(c, s, step) && Keeps(step)
    ensures SameTasks(s, Do(c, s, step))
  {
    if step.StartNext? { StartNextTasks(s, step.ok); } else { FlagTasks(c, s, step); }
  }

  lemma StartNextTasks(s: State, ok: bool)
    requires s.phase.Starting? && s.phase.todo != []
    ensures SameTasks(s, DoStartNext(s, ok))
  {
  }

  lemma FlagTasks(c: Config, s: State, step: Step)
    requires Can(c, s, step) && Keeps(step) && !step.StartNext?
    ensures SameTasks(s, Do(c, s, step))
  {
  }

  lemma SameTasksKeep(s: State, t: State)
    requires SameTasks(s, t) && Places(s) && Conserved(s) && InOrder(s)
    ensures Places(t) && Conserved(t) && InOrder(t)
  {
  }

  // An entry joins the queue.
  lemma JoinConserved(s: State, t: State, e: C.Entry)
    requires t.core.queue == s.core.queue + [e] && t.accepted == s.accepted + [e.id] && t.core.live == s.core.live
    requires t.started == s.started && t.tallied == s.tallied && t.dropped == s.dropped && t.refused == s.refused
    requires Conserved(s)
    ensures Conserved(t) && Ids(t.core.queue) == Ids(s.core.queue) + [e.id]
  {
    assert Ids(t.core.queue) == Ids(s.core.queue) + [e.id];
    Snoc(s.accepted, e.id);
    Snoc(Ids(s.core.queue), e.id);
    FiveAdd(multiset(Ids(s.core.queue)), multiset(s.core.live.Keys), multiset(s.tallied), multiset(s.dropped),
        multiset(s.refused), multiset{e.id});
  }

  lemma JoinKeeps(s: State, t: State, e: C.Entry)
    requires SameTasks(s, t.(core := t.core.(queue := s.core.queue), accepted := s.accepted))
    requires t.core.queue == s.core.queue + [e] && t.accepted == s.accepted + [e.id]
    requires Places(s) && Conserved(s) && InOrder(s)
    ensures Places(t) && Conserved(t) && InOrder(t)
  {
    JoinConserved(s, t, e);
  }

  lemma ListConserved(s: State)
    requires Conserved(s) && s.phase.Reserved? && s.phase.e.id !in s.core.live
    ensures Conserved(DoList(s))
  {
    var t, id := DoList(s), s.phase.e.id;
    Snoc(s.started, id);
    MultisetOfSet(s.core.live.Keys, id);
    assert t.core.live.Keys == s.core.live.Keys + {id};
    FiveAdd(multiset(Ids(s.core.queue)), multiset(s.core.live.Keys), multiset(s.tallied), multiset(s.dropped),
        multiset(s.refused), multiset{id});
    assert Ever(t) == Ever(s) + multiset{id};
  }

  lemma ListPlaces(s: State)
    requires Places(s) && s.phase.Reserved? && s.phase.e.id !in s.core.live && s.phase.e.id !in s.tallied
    ensures Places(DoList(s))
  {
    assert DoList(s).core.live.Keys == s.core.live.Keys + {s.phase.e.id};
  }

  lemma ListKeeps(c: Config, s: State)
    requires Places(s) && Conserved(s) && InOrder(s) && Unique(c, s) && s.phase.Reserved?
    ensures Places(DoList(s)) && Conserved(DoList(s)) && InOrder(DoList(s))
    ensures s.phase.e.id !in s.core.live
  {
    assert Upcoming(c, s)[0] == s.phase.e;
    UnseenNowhere(s, s.phase.e.id);
    ListConserved(s);
    ListPlaces(s);
  }

  // t is s with the head of the queue admitted.
  ghost predicate Pops(s: State, t: State, e: C.Entry)
  {
    && s.core.queue == [e] + t.core.queue && t.core.live == s.core.live[e.id := e.conns] && t.report == s.report
    && t.counting + t.ready == s.counting + s.ready + {e.id} && s.counting <= t.counting && s.ready <= t.ready
    && t.counting !! t.ready && t.running == s.running && t.finishing == s.finishing
    && t.accepted == s.accepted && t.started == s.started && t.popped == s.popped + [e.id]
    && t.tallied == s.tallied && t.dropped == s.dropped && t.refused == s.refused
  }

  lemma PoppedPops(s: State)
    requires s.counting !! s.ready && s.core.queue != [] && |s.core.live| < s.core.slots
    requires s.core.queue[0].id !in s.counting + s.ready
    ensures Pops(s, Popped(s), s.core.queue[0])
  {
  }

  lemma PoppedConserved(s: State, t: State, e: C.Entry)
    requires Conserved(s) && Pops(s, t, e) && e.id !in s.core.live
    ensures Conserved(t)
  {
    MultisetOfSet(s.core.live.Keys, e.id);
    assert t.core.live.Keys == s.core.live.Keys + {e.id};
    var rest := Ids(t.core.queue);
    assert Ids(s.core.queue) == [e.id] + rest;
    assert multiset([e.id]) == multiset{e.id};
    FiveAdd(multiset(rest), multiset(s.core.live.Keys), multiset(s.tallied), multiset(s.dropped),
        multiset(s.refused), multiset{e.id});
    assert Ever(t) == Ever(s);
  }

  lemma PoppedPlaces(s: State, t: State, e: C.Entry)
    requires Places(s) && Pops(s, t, e) && e.id !in s.core.live && e.id !in s.tallied
    ensures Places(t)
  {
    assert t.core.live.Keys == s.core.live.Keys + {e.id};
  }

  lemma PoppedOrder(s: State, t: State, e: C.Entry)
    requires InOrder(s) && Pops(s, t, e) && s.dropped == []
    ensures InOrder(t)
  {
    assert Ids(s.core.queue) == [e.id] + Ids(t.core.queue);
  }

  lemma PoppedKeeps(s: State)
    requires Places(s) && Conserved(s) && InOrder(s) && forall id :: Ever(s)[id] <= 1
    requires s.dropped != [] ==> s.core.queue == []
    ensures Places(Popped(s)) && Conserved(Popped(s)) && InOrder(Popped(s))
  {
    if s.core.queue != [] && |s.core.live| < s.core.slots {
      HeadOnlyQueued(s);
      PoppedPops(s);
      PoppedConserved(s, Popped(s), s.core.queue[0]);
      PoppedPlaces(s, Popped(s), s.core.queue[0]);
      PoppedOrder(s, Popped(s), s.core.queue[0]);
    }
  }

  lemma ReserveKeeps(s: State, id: nat)
    requires Places(s) && Conserved(s) && InOrder(s) && id in s.counting && !s.core.windingDown
    ensures Places(DoReserve(s, id)) && Conserved(DoReserve(s, id)) && InOrder(DoReserve(s, id))
  {
    var t := DoReserve(s, id);
    assert s.counting == t.counting + {id};
    assert Now(t) == Now(s);
  }

  // Only the whereabouts of live tasks change.
  lemma SameListsKeep(s: State, t: State)
    requires t.core.queue == s.core.queue && t.core.live == s.core.live && t.popped == s.popped
    requires t.accepted == s.accepted && t.started == s.started && t.tallied == s.tallied
    requires t.dropped == s.dropped && t.refused == s.refused && Conserved(s) && InOrder(s)
    ensures Conserved(t) && InOrder(t)
  {
    assert Now(t) == Now(s) && Ever(t) == Ever(s);
  }

  lemma LaunchPlaces(s: State, t: State, id: nat)
    requires Places(s) && id in s.ready && t.ready == s.ready - {id} && t.running == s.running + {id}
    requires t.core.live == s.core.live && t.counting == s.counting && t.finishing == s.finishing
    requires t.report == s.report && t.tallied == s.tallied
    ensures Places(t)
  {
    assert s.ready == t.ready + {id};
  }

  lemma SendPlaces(s: State, t: State, id: nat)
    requires Places(s) && id in s.running && s.report.None? && t.report == Some(id)
    requires t.running == s.running - {id} && t.finishing == s.finishing + {id}
    requires t.core.live == s.core.live && t.counting == s.counting && t.ready == s.ready && t.tallied == s.tallied
    ensures Places(t)
  {
    assert s.running == t.running + {id};
  }

  lemma LaunchKeeps(c: Config, s: State, id: nat)
    requires Places(s) && Conserved(s) && InOrder(s) && Can(c, s, Launch(id))
    ensures var t := Do(c, s, Launch(id)); Places(t) && Conserved(t) && InOrder(t)
  {
    LaunchPlaces(s, Do(c, s, Launch(id)), id);
    SameListsKeep(s, Do(c, s, Launch(id)));
  }

  lemma SendKeeps(c: Config, s: State, id: nat)
    requires Places(s) && Conserved(s) && InOrder(s) && Can(c, s, Send(id))
    ensures var t := Do(c, s, Send(id)); Places(t) && Conserved(t) && InOrder(t)
  {
    SendPlaces(s, Do(c, s, Send(id)), id);
    SameListsKeep(s, Do(c, s, Send(id)));
  }

  lemma DoneKeeps(c: Config, s: State, id: nat)
    requires Places(s) && Conserved(s) && InOrder(s) && Can(c, s, Done(id))
    ensures var t := Do(c, s, Done(id)); Places(t) && Conserved(t) && InOrder(t)
  {
    SameListsKeep(s, Do(c, s, Done(id)));
  }

  lemma TalliedConserved(s: State, t: State, id: nat)
    requires Conserved(s) && id in s.core.live && t.core.live == s.core.live - {id} && t.tallied == s.tallied + [id]
    requires t.core.queue == s.core.queue && t.accepted == s.accepted && t.started == s.started
    requires t.dropped == s.dropped && t.refused == s.refused
    ensures Conserved(t)
  {
    var q, d, r := multiset(Ids(s.core.queue)), multiset(s.dropped), multiset(s.refused);
    assert t.core.live.Keys == s.core.live.Keys - {id};
    MultisetOfSet(s.core.live.Keys, id);
    Snoc(s.tallied, id);
    FiveAdd(q, multiset(t.core.live.Keys), multiset(s.tallied), d, r, multiset{id});
    assert multiset(s.core.live.Keys) == multiset(t.core.live.Keys) + multiset{id};
    assert Ever(t) == Ever(s);
  }

  lemma TalliedPlaces(s: State, t: State, id: nat)
    requires Places(s) && s.report == Some(id) && t.report == None && t.core.live == s.core.live - {id}
    requires t.counting == s.counting && t.ready == s.ready && t.running == s.running && t.finishing == s.finishing
    requires t.tallied == s.tallied + [id]
    ensures Places(t)
  {
    assert t.core.live.Keys == s.core.live.Keys - {id};
  }

  lemma TalliedKeeps(s: State, ph: Phase)
    requires Places(s) && Conserved(s) && InOrder(s) && s.report.Some?
    ensures Places(Tallied(s, ph)) && Conserved(Tallied(s, ph)) && InOrder(Tallied(s, ph))
  {
    TalliedPlaces(s, Tallied(s, ph), s.report.value);
    TalliedConserved(s, Tallied(s, ph), s.report.value);
  }

  // The queue moves to the dropped tasks.
  lemma DropConserved(s: State, t: State)
    requires Conserved(s) && s.dropped == [] && t.dropped == Ids(s.core.queue) && t.core.queue == []
             && t.core.live == s.core.live
    requires t.accepted == s.accepted && t.started == s.started && t.tallied == s.tallied && t.refused == s.refused
    ensures Conserved(t)
  {
    var q, l, d, r := multiset(Ids(s.core.queue)), multiset(s.core.live.Keys), multiset(s.tallied), multiset(s.refused);
    assert Ids(t.core.queue) == [] && multiset(s.dropped) == multiset{};
    FiveAdd(q, l, d, q, r, multiset{});
    assert Now(s) == Five(q, l, d, multiset{}, r);
    assert Now(t) == Five(multiset{}, l, d, q, r);
    assert Ever(t) == Ever(s);
  }

  lemma DropPlaces(s: State, t: State)
    requires Places(s) && t.core.live == s.core.live && t.report == s.report && t.tallied == s.tallied
    requires t.counting == s.counting && t.ready == s.ready && t.running == s.running && t.finishing == s.finishing
    ensures Places(t)
  {
  }

  lemma DropOrder(s: State, t: State)
    requires InOrder(s) && s.dropped == [] && t.dropped == Ids(s.core.queue) && t.core.queue == []
    requires t.accepted == s.accepted && t.popped == s.popped
    ensures InOrder(t)
  {
    assert s.popped + [] == s.popped && Ids(t.core.queue) == [];
  }

  lemma SeeCancelKeeps(s: State)
    requires Places(s) && Conserved(s) && InOrder(s) && s.dropped == []
    ensures Places(DoSeeCancel(s)) && Conserved(DoSeeCancel(s)) && InOrder(DoSeeCancel(s))
  {
    var t := DoSeeCancel(s);
    assert t.dropped == Ids(s.core.queue) && t.core.queue == [];
    DropConserved(s, t);
    DropPlaces(s, t);
    DropOrder(s, t);
  }

  lemma EnqueueKeeps(s: State, e: C.Entry)
    requires Places(s) && Conserved(s) && InOrder(s)
    ensures Places(DoEnqueue(s, e)) && Conserved(DoEnqueue(s, e)) && InOrder(DoEnqueue(s, e))
  {
    if DoEnqueue(s, e) != s {
      JoinKeeps(s, DoEnqueue(s, e), e.(counted := true));
    }
  }

  lemma QueuePlanKeeps(s: State, ok: bool)
    requires Places(s) && Conserved(s) && InOrder(s) && s.phase.Queueing? && s.phase.todo != []
    ensures Places(DoQueuePlan(s, ok)) && Conserved(DoQueuePlan(s, ok)) && InOrder(DoQueuePlan(s, ok))
  {
    if ok {
      JoinKeeps(s, DoQueuePlan(s, ok), s.phase.todo[0].(counted := false));
    } else {
      SameTasksKeep(s, DoQueuePlan(s, ok));
    }
  }

  lemma AdmitNextTasks(s: State)
    ensures SameTasks(Popped(s), DoAdmitNext(s))
  {
  }

  lemma AdmitNextKeeps(s: State)
    requires Places(s) && Conserved(s) && InOrder(s) && forall id :: Ever(s)[id] <= 1
    requires s.dropped != [] ==> s.core.queue == []
    ensures Places(DoAdmitNext(s)) && Conserved(DoAdmitNext(s)) && InOrder(DoAdmitNext(s))
  {
    PoppedKeeps(s);
    AdmitNextTasks(s);
    SameTasksKeep(Popped(s), DoAdmitNext(s));
  }

  lemma TasksKept(c: Config, s: State, step: Step)
    requires Constructed(c) && Inv(c, s) && Can(c, s, step)
    ensures var t := Do(c, s, step); Places(t) && Conserved(t) && InOrder(t)
  {
    if Keeps(step) {
      KeepsTasks(c, s, step);
      SameTasksKeep(s, Do(c, s, step));
    } else {
      match step
      case QueuePlan(ok) => QueuePlanKeeps(s, ok);
      case List => ListKeeps(c, s);
      case Enqueue(e) => EnqueueKeeps(s, e);
      case AdmitForCaller => PoppedKeeps(s);
      case AdmitNext => AdmitNextKeeps(s);
      case Reserve(id) => ReserveKeeps(s, id);
      case Launch(id) => LaunchKeeps(c, s, id);
      case Send(id) => SendKeeps(c, s, id);
      case Done(id) => DoneKeeps(c, s, id);
      case Receive => TalliedKeeps(s, AfterReport);
      case DrainReport => TalliedKeeps(s, Draining);
      case LastReport => TalliedKeeps(s, LastReports);
      case SeeCancel => SeeCancelKeeps(s);
    }
  }

  // ----- the counter and the slots -----

  lemma SameCount(s: State, t: State)
    requires Counted(s) && t.core.queue == s.core.queue && t.ready == s.ready && t.running == s.running
             && t.finishing == s.finishing
    requires !s.phase.Releasing? && !t.phase.Releasing? && t.core.idle == s.core.idle
    requires t.core.wg + (if s.phase.Reserved? then 1 else 0) == s.core.wg + (if t.phase.Reserved? then 1 else 0)
    ensures Counted(t)
  {
  }

  predicate SameWeights(step: Step)
  {
    step.BeginStart? || step.BeginSelect? || step.CheckLive? || step.SeeDone? || step.NoReport?
    || step.StartNext? || step.Receive? || step.DrainReport? || step.LastReport?
  }

  lemma SameWeightsCount(c: Config, s: State, step: Step)
    requires Counted(s) && Can(c, s, step) && SameWeights(step)
    ensures Counted(Do(c, s, step))
  {
    SameCount(s, Do(c, s, step));
  }

  lemma FlagsCount(c: Config, s: State, step: Step)
    requires Counted(s) && Can(c, s, step)
             && (step.Observe? || step.CancelContext? || step.ReleaseOne? || step.ReleaseHold?)
    ensures Counted(Do(c, s, step))
  {
  }

  lemma QueueCount(s: State, step: Step)
    requires Counted(s) && (step.QueuePlan? ==> s.phase.Queueing? && s.phase.todo != [])
    ensures step.QueuePlan? ==> Counted(DoQueuePlan(s, step.ok))
    ensures step.Enqueue? ==> Counted(DoEnqueue(s, step.e))
  {
    if step.QueuePlan? { C.CountedAppend(s.core.queue, s.phase.todo[0].(counted := false)); }
    if step.Enqueue? { C.CountedAppend(s.core.queue, step.e.(counted := true)); }
  }

  lemma ListCount(s: State)
    requires Counted(s) && Places(s) && s.phase.Reserved? && s.phase.e.id !in s.core.live
    ensures Counted(DoList(s))
  {
  }

  lemma PopCount(s: State, t: State, e: C.Entry)
    requires Counted(s) && s.core.queue == [e] + t.core.queue && e.id !in s.ready && t.core.wg == s.core.wg
             && t.core.idle == s.core.idle
    requires t.ready == if e.counted then s.ready + {e.id} else s.ready
    requires t.running == s.running && t.finishing == s.finishing && t.phase == s.phase
    ensures Counted(t)
  {
    assert s.core.queue[1..] == t.core.queue;
  }

  lemma HeadCame(s: State)
    requires s.core.queue != [] && |s.core.live| < s.core.slots
    ensures var t, e := Popped(s), s.core.queue[0];
            && s.core.queue == [e] + t.core.queue && t.core.wg == s.core.wg && t.core.idle == s.core.idle
            && t.ready == (if e.counted then s.ready + {e.id} else s.ready)
            && t.running == s.running && t.finishing == s.finishing && t.phase == s.phase
  {
  }

  lemma PoppedCount(s: State)
    requires Counted(s) && Places(s) && (s.core.queue != [] ==> s.core.queue[0].id !in s.core.live)
    ensures Counted(Popped(s))
  {
    if s.core.queue != [] && |s.core.live| < s.core.slots {
      HeadCame(s);
      PopCount(s, Popped(s), s.core.queue[0]);
    }
  }

  lemma AdmitNextCore(s: State)
    requires s.phase.AfterReport?
    ensures var t, u := DoAdmitNext(s), Popped(s);
            t.core == u.core && t.ready == u.ready && t.running == u.running && t.finishing == u.finishing
            && !t.phase.Releasing? && !t.phase.Reserved? && u.phase == s.phase
  {
  }

  lemma AdmitNextCount(s: State)
    requires Counted(s) && Places(s) && (s.core.queue != [] ==> s.core.queue[0].id !in s.core.live)
    requires s.phase.AfterReport?
    ensures Counted(DoAdmitNext(s))
  {
    PoppedCount(s);
    AdmitNextCore(s);
    SameCount(Popped(s), DoAdmitNext(s));
  }

  lemma ReserveCount(s: State, id: nat)
    requires Counted(s) && Places(s) && id in s.counting && !s.core.windingDown
    ensures Counted(DoReserve(s, id))
  {
  }

  lemma SizesMove(a: set<nat>, b: set<nat>, id: nat)
    requires id in a && id !in b
    ensures |a - {id}| + |b + {id}| == |a| + |b|
  {
  }

  // A task moves between two counted places.
  lemma MovedCount(s: State, t: State)
    requires Counted(s) && t.core.wg == s.core.wg && t.core.idle == s.core.idle && t.core.queue == s.core.queue
    requires |t.ready| + |t.running| + |t.finishing| == |s.ready| + |s.running| + |s.finishing|
    requires (t.phase.Releasing? <==> s.phase.Releasing?) && (s.phase.Releasing? ==> t.phase.n == s.phase.n)
    requires t.phase.Reserved? <==> s.phase.Reserved?
    ensures Counted(t)
  {
  }

  lemma OnwardPhase(ph: Phase, id: nat)
    ensures var next := Onward(ph, id);
            && (next.Releasing? <==> ph.Releasing?) && (ph.Releasing? ==> next == ph)
            && (next.Reserved? <==> ph.Reserved?)
  {
  }

  lemma LaunchCount(c: Config, s: State, id: nat)
    requires Counted(s) && Places(s) && Can(c, s, Launch(id))
    ensures Counted(Do(c, s, Launch(id)))
  {
    SizesMove(s.ready, s.running, id);
    OnwardPhase(s.phase, id);
    MovedCount(s, Do(c, s, Launch(id)));
  }

  lemma SendCount(c: Config, s: State, id: nat)
    requires Counted(s) && Places(s) && Can(c, s, Send(id))
    ensures Counted(Do(c, s, Send(id)))
  {
    SizesMove(s.running, s.finishing, id);
    MovedCount(s, Do(c, s, Send(id)));
  }

  lemma DoneCount(c: Config, s: State, id: nat)
    requires Counted(s) && Can(c, s, Done(id))
    ensures Counted(Do(c, s, Done(id)))
  {
  }

  lemma SeeCancelCount(s: State)
    requires Counted(s) && s.phase.Selecting?
    ensures Counted(DoSeeCancel(s))
  {
  }

  lemma NotWinding(c: Config, s: State, id: nat)
    requires Modes(c, s) && id in s.counting
    ensures !s.core.windingDown
  {
  }

  lemma CountKept(c: Config, s: State, step: Step)
    requires Constructed(c) && Inv(c, s) && Can(c, s, step)
    ensures Counted(Do(c, s, step))
  {
    if SameWeights(step) {
      SameWeightsCount(c, s, step);
    } else if step.Observe? || step.CancelContext? || step.ReleaseOne? || step.ReleaseHold? {
      FlagsCount(c, s, step);
    } else if step.AdmitForCaller? || step.AdmitNext? {
      PoppingCount(c, s, step);
    } else {
      match step
      case QueuePlan(_) => QueueCount(s, step);
      case Enqueue(_) => QueueCount(s, step);
      case List => ListKeeps(c, s); ListCount(s);
      case Reserve(id) => NotWinding(c, s, id); ReserveCount(s, id);
      case Launch(id) => LaunchCount(c, s, id);
      case Send(id) => SendCount(c, s, id);
      case Done(id) => DoneCount(c, s, id);
      case SeeCancel => SeeCancelCount(s);
    }
  }

  lemma PoppingCount(c: Config, s: State, step: Step)
    requires Counted(s) && Places(s) && Conserved(s) && (forall id :: Ever(s)[id] <= 1)
    requires Can(c, s, step) && (step.AdmitForCaller? || step.AdmitNext?)
    ensures Counted(Do(c, s, step))
  {
    if s.core.queue != [] { HeadOnlyQueued(s); }
    if step.AdmitNext? { AdmitNextCount(s); } else { PoppedCount(s); }
  }

  lemma LiveSize(m: map<nat, int>, id: nat, x: int)
    ensures |m[id := x]| <= |m| + 1 && |m - {id}| <= |m|
  {
    assert m[id := x].Keys == m.Keys + {id};
    assert (m - {id}).Keys == m.Keys - {id};
    assert |m.Keys - {id}| <= |m.Keys| by { SubsetSize(m.Keys - {id}, m.Keys); }
  }

  lemma SubsetSize(a: set<nat>, b: set<nat>)
    requires a <= b
    ensures |a| <= |b|
  {
    assert b == a + (b - a);
  }

  lemma SlotsSame(c: Config, s: State, t: State)
    requires WithinSlots(c, s) && |t.core.live| <= |s.core.live| && t.core.slots == s.core.slots
             && t.started == s.started
    requires (Setup(t.phase) ==> Setup(s.phase)) && (t.phase.Reserved? ==> s.phase.Reserved?)
    ensures WithinSlots(c, t)
  {
  }

  predicate TakesSlot(step: Step)
  {
    step.List? || step.AdmitForCaller? || step.AdmitNext? || step.StartNext?
  }

  lemma SlotStays(c: Config, s: State, step: Step)
    requires Can(c, s, step) && !TakesSlot(step)
    ensures var t := Do(c, s, step);
            && (t.core.live == s.core.live || exists id :: t.core.live == s.core.live - {id})
            && t.core.slots == s.core.slots && t.started == s.started
            && (Setup(t.phase) ==> Setup(s.phase)) && (t.phase.Reserved? ==> s.phase.Reserved?)
  {
    var t := Do(c, s, step);
    if step.Reserve? && s.core.windingDown { assert t.core.live == s.core.live - {step.id}; }
    if step.Receive? || step.DrainReport? || step.LastReport? { assert t.core.live == s.core.live - {s.report.value}; }
  }

  lemma ListSlots(c: Config, s: State)
    requires Constructed(c) && Modes(c, s) && WithinSlots(c, s) && s.phase.Reserved?
    ensures WithinSlots(c, DoList(s))
  {
    LiveSize(s.core.live, s.phase.e.id, s.phase.e.conns);
  }

  lemma PoppedSlots(c: Config, s: State, t: State)
    requires WithinSlots(c, s) && t.core == C.Admit(s.core).0 && t.started == s.started
    requires (Setup(t.phase) ==> c.daemon) && !t.phase.Reserved?
    ensures WithinSlots(c, t)
  {
    if s.core.queue != [] { LiveSize(s.core.live, s.core.queue[0].id, s.core.queue[0].conns); }
  }

  lemma SlotTaken(c: Config, s: State, step: Step)
    requires Constructed(c) && Modes(c, s) && WithinSlots(c, s) && Can(c, s, step) && TakesSlot(step)
    ensures WithinSlots(c, Do(c, s, step))
  {
    match step
    case List => ListSlots(c, s);
    case AdmitForCaller => PoppedSlots(c, s, Do(c, s, step));
    case AdmitNext => PoppedSlots(c, s, Do(c, s, step));
    case StartNext(_) =>
  }

  lemma SlotsKept(c: Config, s: State, step: Step)
    requires Constructed(c) && Modes(c, s) && WithinSlots(c, s) && Can(c, s, step)
    ensures WithinSlots(c, Do(c, s, step))
  {
    var t := Do(c, s, step);
    if TakesSlot(step) {
      SlotTaken(c, s, step);
    } else {
      SlotStays(c, s, step);
      if t.core.live != s.core.live {
        var id :| t.core.live == s.core.live - {id};
        LiveSize(s.core.live, id, 0);
      }
      SlotsSame(c, s, t);
    }
  }

  lemma ModesKept(c: Config, s: State, step: Step)
    requires Constructed(c) && Modes(c, s) && Places(s) && Can(c, s, step)
    ensures Modes(c, Do(c, s, step))
  {
    if step.QueuePlan? || step.BeginStart? || step.StartNext? || step.List? || step.BeginSelect? || step.Observe? {
      SetupModes(c, s, step);
    } else if step.Enqueue? || step.Reserve? {
      AdmissionModes(c, s, step);
    } else if step.AdmitForCaller? {
      CallerModes(c, s);
    } else if step.AdmitNext? {
      AdmitModes(c, s);
    } else if step.SeeCancel? {
      SeeCancelModes(c, s);
    } else if step.ReleaseOne? || step.ReleaseHold? || step.CheckLive? || step.SeeDone? || step.NoReport? {
      EndModes(c, s, step);
    } else if step.Receive? || step.DrainReport? || step.LastReport? {
      ReportModes(c, s, step);
    } else {
      GoroutineModes(c, s, step);
    }
  }

  // ----- every run -----

  lemma StepInv(c: Config, s: State, step: Step)
    requires Constructed(c) && Inv(c, s) && Can(c, s, step)
    ensures Inv(c, Do(c, s, step))
  {
    TasksKept(c, s, step);
    UniqueKept(c, s, step);
    CountKept(c, s, step);
    ModesKept(c, s, step);
    SlotsKept(c, s, step);
  }

  // In every reachable state the wait group is exactly the outstanding work, no more tasks
  // run than there are slots, tasks are admitted in the order they were accepted, and every task is in
  // exactly one place.
  lemma {:induction false} Always(c: Config, ss: seq<State>, steps: seq<Step>, n: nat)
    requires Constructed(c) && Execution(c, ss, steps) && n < |ss|
    ensures Inv(c, ss[n])
  {
    if n == 0 {
      InitInv(c);
    } else {
      Always(c, ss, steps, n - 1);
      StepInv(c, ss[n - 1], steps[n - 1]);
    }
  }
}
