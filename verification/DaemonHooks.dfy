// The daemon's end-of-run hooks (internal/scheduler/daemon.go): however a registration races
// with the end of the run, each hook is called exactly once.
module DaemonHooks {
  // Hooks are numbered. ondead: waiting for the end; firing: taken by the run goroutine;
  // direct: to be called by the caller that registered them too late.
  datatype State = State(started: bool, done: bool, taken: bool, ondead: seq<nat>, firing: seq<nat>,
                         direct: multiset<nat>, registered: seq<nat>, called: multiset<nat>)

  datatype Step = Start | CloseDone | TakeHooks | Fire | OnDead(h: nat) | CallDirect(h: nat)

  const Init := State(false, false, false, [], [], multiset{}, [], multiset{})

  predicate Can(s: State, step: Step)
  {
    match step
    case Start => true
    case CloseDone => s.started && !s.done
    case TakeHooks => s.done && !s.taken
    case Fire => s.firing != []
    case OnDead(h) => h !in s.registered
    case CallDirect(h) => h in s.direct
  }

  // The closed test and the append of a registration are one critical section.
  function Do(s: State, step: Step): State
    requires Can(s, step)
  {
    match step
    case Start => s.(started := true)
    case CloseDone => s.(done := true)
    case TakeHooks => s.(taken := true, firing := s.ondead, ondead := [])
    case Fire => s.(firing := s.firing[1..], called := s.called + multiset{s.firing[0]})
    case OnDead(h) =>
      var t := s.(registered := s.registered + [h]);
      if s.done then t.(direct := s.direct + multiset{h}) else t.(ondead := s.ondead + [h])
    case CallDirect(h) => s.(direct := s.direct - multiset{h}, called := s.called + multiset{h})
  }

  ghost predicate Execution(ss: seq<State>, steps: seq<Step>)
  {
    && |ss| == |steps| + 1 && ss[0] == Init
    && forall i :: 0 <= i < |steps| ==> Can(ss[i], steps[i]) && ss[i + 1] == Do(ss[i], steps[i])
  }

  ghost predicate Inv(s: State)
  {
    && multiset(s.registered) == multiset(s.ondead) + multiset(s.firing) + s.direct + s.called
    && (s.taken ==> s.done && s.ondead == [])
    && (!s.taken ==> s.firing == [])
    && (forall h :: multiset(s.registered)[h] <= 1)
  }

  lemma FireKeeps(s: State)
    requires Inv(s) && Can(s, Fire)
    ensures Inv(Do(s, Fire))
  {
    assert s.firing == [s.firing[0]] + s.firing[1..];
    assert multiset([s.firing[0]]) == multiset{s.firing[0]};
  }

  lemma OnDeadKeeps(s: State, h: nat)
    requires Inv(s) && Can(s, OnDead(h))
    ensures Inv(Do(s, OnDead(h)))
  {
    assert multiset([h]) == multiset{h} && multiset(s.registered)[h] == 0;
    assert multiset(s.registered + [h]) == multiset(s.registered) + multiset{h};
    assert multiset(s.ondead + [h]) == multiset(s.ondead) + multiset{h};
  }

  lemma StepKeeps(s: State, step: Step)
    requires Inv(s) && Can(s, step)
    ensures Inv(Do(s, step))
  {
    match step
    case Start =>
    case CloseDone =>
    case TakeHooks =>
    case Fire => FireKeeps(s);
    case OnDead(h) => OnDeadKeeps(s, h);
    case CallDirect(_) =>
  }

  lemma {:induction false} Always(ss: seq<State>, steps: seq<Step>, n: nat)
    requires Execution(ss, steps) && n < |ss|
    ensures Inv(ss[n])
  {
    if n > 0 {
      Always(ss, steps, n - 1);
      StepKeeps(ss[n - 1], steps[n - 1]);
    }
  }

  // No hook is ever called twice or before the run is over, and once the run goroutine and
  // the late registrants are through, every hook registered has been called.
  lemma HooksOnce(ss: seq<State>, steps: seq<Step>, n: nat)
    requires Execution(ss, steps) && n < |ss|
    ensures forall h :: ss[n].called[h] <= multiset(ss[n].registered)[h] <= 1
    ensures ss[n].called != multiset{} ==> ss[n].done
    ensures ss[n].taken && ss[n].firing == [] && ss[n].direct == multiset{} ==>
            ss[n].called == multiset(ss[n].registered)
  {
    Always(ss, steps, n);
    CalledAfterDone(ss, steps, n);
    var s := ss[n];
    forall h
      ensures s.called[h] <= multiset(s.registered)[h]
    {
      assert multiset(s.registered)[h] == (multiset(s.ondead) + multiset(s.firing) + s.direct + s.called)[h];
    }
  }

  lemma {:induction false} CalledAfterDone(ss: seq<State>, steps: seq<Step>, n: nat)
    requires Execution(ss, steps) && n < |ss|
    ensures ss[n].called != multiset{} || ss[n].direct != multiset{} ==> ss[n].done
  {
    if n > 0 {
      CalledAfterDone(ss, steps, n - 1);
      Always(ss, steps, n - 1);
      assert Can(ss[n - 1], steps[n - 1]) && ss[n] == Do(ss[n - 1], steps[n - 1]);
    }
  }
}
