// Shutdown is absorbing, exactly when Stop does not fall between some Start's
// check of the stopped flag and its Move.
module LifecycleShutdown {
  import opened Common
  import opened StateMachine
  import opened Lifecycle
  import opened LifecycleSafety

  // ---------------------------------------------------------------------
  // Channels that every goroutine may close, and the recorded cause

  // In every interleaving of any number of Start and Stop calls, broken and
  // stopC are each closed at most once.
  lemma ClosedAtMostOnce(steps: seq<Step>)
    requires IsRun(Init(), steps)
    ensures var tally := After(Init(), steps).shared.tally; tally.broken <= 1 && tally.stop <= 1
  {
    ReachableKeeps(steps);
  }

  lemma CauseStays(s: Shared, mark: Mark, t: nat)
    requires s.sig.brokenClosed
    ensures Apply(s, mark, t).sig.brokenClosed && Apply(s, mark, t).sig.breakErr == s.sig.breakErr
  {
    hide Moved, Can;
  }

  // Whatever ends the connection first stays the recorded cause.
  lemma {:induction false} FirstCauseStays(c: Session, steps: seq<Step>)
    requires IsRun(c, steps) && c.shared.sig.brokenClosed
    ensures After(c, steps).shared.sig.breakErr == c.shared.sig.breakErr
    decreases |steps|
  {
    hide Act, Ready, Apply;
    if steps != [] {
      if steps[0].Run? {
        CauseStays(c.shared, ActOf(c, steps[0]).mark, steps[0].t);
      }
      FirstCauseStays(Next(c, steps[0]), steps[1..]);
    }
  }

  // ---------------------------------------------------------------------
  // Absorbing shutdown

  ghost predicate NoneInWindow(c: Session) {
    forall u :: u in c.threads ==> !InWindow(c.threads[u])
  }

  // Stop has been called by t and no Start is about to move.
  ghost predicate Guarded(c: Session, t: nat) {
    && c.shared.sig.stopped && c.shared.stops.caller == Some(t) && !c.shared.stops.lateStart
    && NoneInWindow(c)
  }

  // Once stopped is set, no goroutine outside the window gets into it or
  // makes the machine start again.
  ghost predicate Harmless(a: Action) {
    && !a.mark.AcceptStart? && !a.mark.SetStopped? && !InWindow(a.pc)
    && (a.spawn.Some? ==> !InWindow(a.spawn.value))
  }

  lemma StartHarmless(pc: Pc, s: Shared, arm: nat)
    requires s.sig.stopped && !InWindow(pc) && InStart(pc)
    ensures Harmless(StartAct(pc, s, arm))
  {
  }

  lemma AsideHarmless(a: Action, s: Shared)
    requires s.sig.stopped && Aside(a.pc) && Mild(a.mark) && a.spawn.None? && (a.mark.SetStopped? ==> !s.sig.stopped)
    ensures Harmless(a)
  {
  }

  lemma ActHarmless(pc: Pc, s: Shared, done: bool, arm: nat, cause: Cause)
    requires s.sig.stopped && !InWindow(pc) && !pc.Done? && (InShared(pc) ==> Returns(pc.next))
    ensures Harmless(Act(pc, s, done, arm, cause))
  {
    hide ConnectionAct, LoopAct, StopAct, SharedAct, StartAct, Harmless;
    if Aside(pc) {
      hide Act;
      ActAside(pc, s, done, arm, cause);
      AsideHarmless(Act(pc, s, done, arm, cause), s);
    } else if InTask(pc) {
      hide Act;
      TaskHarmless(pc, s, done, arm, cause);
    } else {
      StartHarmless(pc, s, arm);
    }
  }

  lemma TaskHarmless(pc: Pc, s: Shared, done: bool, arm: nat, cause: Cause)
    requires InTask(pc)
    ensures Harmless(Act(pc, s, done, arm, cause))
  {
    hide Act, ConnectionAct;
    ActInTask(pc, s, done, arm, cause);
  }

  lemma MarkKeepsGuard(s: Shared, mark: Mark, u: nat)
    requires !mark.AcceptStart? && !mark.SetStopped?
    ensures Apply(s, mark, u).sig.stopped == s.sig.stopped
    ensures Apply(s, mark, u).stops.caller == s.stops.caller && Apply(s, mark, u).stops.lateStart == s.stops.lateStart
  {
    hide Moved, Can;
  }

  lemma GuardStep(c: Session, t: nat, step: Step)
    requires Inv(c) && Guarded(c, t) && Enabled(c, step)
    ensures Guarded(Next(c, step), t)
  {
    hide Act, Ready, Apply;
    if step.Run? {
      var u := step.t;
      assert Fits(u, c.threads[u], c.shared);
      NotDone(c, step);
      ActHarmless(c.threads[u], c.shared, CtxDone(c, u), step.arm, step.cause);
      MarkKeepsGuard(c.shared, ActOf(c, step).mark, u);
    }
  }

  lemma {:induction false} GuardStays(c: Session, t: nat, steps: seq<Step>)
    requires Inv(c) && Guarded(c, t) && IsRun(c, steps)
    ensures Guarded(After(c, steps), t) && Inv(After(c, steps))
    decreases |steps|
  {
    hide Next, Enabled, Inv, Guarded;
    if steps != [] {
      StepKeeps(c, steps[0]);
      GuardStep(c, t, steps[0]);
      GuardStays(Next(c, steps[0]), t, steps[1..]);
    }
  }

  // Let t be the first Stop call of a run, about to set stopped while no Start
  // is between its check and its Move. In every interleaving from there on, with
  // any further Start and Stop calls: once Stop has moved the machine it is
  // STOPPING or STOPPED, and once Stop has returned it is STOPPED.
  lemma ShutdownAbsorbs(before: seq<Step>, stop: Step, after: seq<Step>)
    requires IsRun(Init(), before) && stop.Run?
    requires var c := After(Init(), before);
             Enabled(c, stop) && At(c, stop.t).StopSet? && !c.shared.sig.stopped && NoneInWindow(c)
    requires IsRun(Next(After(Init(), before), stop), after)
    ensures var d := After(Next(After(Init(), before), stop), after);
            && (d.shared.stops.moved ==> d.shared.m == Stopping || d.shared.m == Stopped)
            && (At(d, stop.t).Done? ==> d.shared.m == Stopped)
  {
    ReachableKeeps(before);
    var c := After(Init(), before);
    StepKeeps(c, stop);
    var c1 := Next(c, stop);
    StopSets(c, stop);
    GuardStays(c1, stop.t, after);
    hide IsRun, After;
    var d := After(c1, after);
    RestOf(At(d, stop.t));
    hide Rest;
  }

  lemma StopSets(c: Session, stop: Step)
    requires Inv(c) && Enabled(c, stop) && stop.Run? && At(c, stop.t).StopSet? && !c.shared.sig.stopped && NoneInWindow(c)
    ensures Guarded(Next(c, stop), stop.t)
  {
  }

  // ---------------------------------------------------------------------
  // The window

  ghost predicate Reaches(c: Session, d: Session) {
    exists steps :: IsRun(c, steps) && After(c, steps) == d
  }

  lemma {:induction false} RunJoins(c: Session, a: seq<Step>, b: seq<Step>)
    requires IsRun(c, a) && IsRun(After(c, a), b)
    ensures IsRun(c, a + b) && After(c, a + b) == After(After(c, a), b)
    decreases |a|
  {
    hide Next, Enabled;
    if a == [] {
      assert a + b == b;
    } else {
      RunJoins(Next(c, a[0]), a[1..], b);
      assert (a + b)[0] == a[0] && (a + b)[1..] == a[1..] + b;
    }
  }

  lemma ReachesSelf(c: Session)
    ensures Reaches(c, c)
  {
    assert IsRun(c, []) && After(c, []) == c;
  }

  lemma ReachesOn(a: Session, b: Session, c: Session)
    requires Reaches(a, b) && Reaches(b, c)
    ensures Reaches(a, c)
  {
    var x :| IsRun(a, x) && After(a, x) == b;
    var y :| IsRun(b, y) && After(b, y) == c;
    RunJoins(a, x, y);
  }

  lemma ReachesStep(c: Session, d: Session, step: Step)
    requires Reaches(c, d) && Enabled(d, step)
    ensures Reaches(c, Next(d, step))
  {
    hide Next, Enabled;
    var e := Next(d, step);
    assert [step][1..] == [] && IsRun(e, []) && After(e, []) == e;
    assert IsRun(d, [step]) && After(d, [step]) == After(e, [step][1..]);
    ReachesOn(c, d, e);
  }

  // One step of a Stop call.
  function StopStep(t: nat): Step {
    Run(t, 1, Canceled, 0)
  }

  lemma StopMoveGoes(c: Session, t: nat)
    requires At(c, t).StopMove? || (At(c, t).StopMoveAgain? && c.shared.stops.moved)
    ensures Enabled(c, StopStep(t))
    ensures var d := Next(c, StopStep(t));
            && d.shared.m == Stopping && d.shared.stops.moved && (forall u :: u != t ==> At(d, u) == At(c, u))
            && At(d, t) == if At(c, t).StopMove? then StopMoveAgain else StopSend
  {
    StoppingIsLegal(c.shared.m);
    hide Can;
  }

  // What Stop does between its Moves.
  lemma StopPause(at: Pc, s: Shared, done: bool)
    requires at.StopSend? || at.StopWait? || at == AbortEnter(StopWait) || at == AbortClose(StopWait)
    ensures Ready(at, s, done, 1)
    ensures var a := Act(at, s, done, 1, Canceled);
            && a.spawn.None? && (a.mark.Nothing? || a.mark.RequestStop? || a.mark.CloseStop?)
            && a.pc == if at.StopSend? then AbortEnter(StopWait)
                       else if at.StopWait? then StopFinal
                       else if at.AbortEnter? && !s.sig.stopRequested then AbortClose(StopWait)
                       else StopWait
  {
  }

  lemma StopGoesOn(c: Session, t: nat)
    requires c.shared.m == Stopping && c.shared.stops.moved
    requires At(c, t).StopSend? || At(c, t) == AbortEnter(StopWait) || At(c, t) == AbortClose(StopWait) || At(c, t).StopWait?
    ensures Enabled(c, StopStep(t))
    ensures var d := Next(c, StopStep(t));
            && d.shared.m == Stopping && d.shared.stops.moved && (forall u :: u != t ==> At(d, u) == At(c, u))
            && At(d, t) == if At(c, t).StopSend? then AbortEnter(StopWait)
                           else if At(c, t).StopWait? then StopFinal
                           else if At(c, t).AbortEnter? && !c.shared.sig.stopRequested then AbortClose(StopWait)
                           else StopWait
  {
    hide Act, Ready;
    StopPause(At(c, t), c.shared, CtxDone(c, t));
  }

  lemma StopEnds(c: Session, t: nat)
    requires At(c, t).StopFinal? && c.shared.m == Stopping && c.shared.stops.moved
    ensures Enabled(c, StopStep(t))
    ensures var d := Next(c, StopStep(t));
            d.shared.m == Stopped && d.shared.stops.moved && forall u :: u != t ==> At(d, u) == At(c, u)
  {
  }

  // Stop alone runs to its end.
  lemma StopRunsOut(c: Session, t: nat) returns (d: Session)
    requires At(c, t).StopMove?
    ensures Reaches(c, d) && d.shared.m == Stopped && d.shared.stops.moved && forall u :: u != t ==> At(d, u) == At(c, u)
  {
    hide Reaches, Enabled, Next, At;
    ReachesSelf(c);
    d := c;
    while !At(d, t).StopSend?
      invariant Reaches(c, d) && forall u :: u != t ==> At(d, u) == At(c, u)
      invariant At(d, t).StopMove? || (d.shared.m == Stopping && d.shared.stops.moved)
      invariant At(d, t).StopMove? || At(d, t).StopMoveAgain? || At(d, t).StopSend?
      decreases At(d, t).StopMove?, At(d, t).StopMoveAgain?
    {
      StopMoveGoes(d, t);
      ReachesStep(c, d, StopStep(t));
      d := Next(d, StopStep(t));
    }
    while !At(d, t).StopFinal?
      invariant Reaches(c, d) && d.shared.m == Stopping && d.shared.stops.moved && forall u :: u != t ==> At(d, u) == At(c, u)
      invariant At(d, t).StopSend? || At(d, t) == AbortEnter(StopWait) || At(d, t) == AbortClose(StopWait)
                || At(d, t).StopWait? || At(d, t).StopFinal?
      decreases At(d, t).StopSend?, At(d, t).AbortEnter?, At(d, t).AbortClose?, At(d, t).StopWait?
    {
      StopGoesOn(d, t);
      ReachesStep(c, d, StopStep(t));
      d := Next(d, StopStep(t));
    }
    StopEnds(d, t);
    ReachesStep(c, d, StopStep(t));
    d := Next(d, StopStep(t));
  }

  function StartStep(u: nat): Step {
    Run(u, 0, Canceled, 0)
  }

  lemma StartGoes(c: Session, u: nat)
    requires InWindow(At(c, u)) && c.shared.m == Stopped && c.shared.stops.moved
    ensures Enabled(c, StartStep(u))
    ensures var d := Next(c, StartStep(u));
            && d.shared.stops.moved
            && if At(c, u).StartLoad? then At(d, u).StartMove? && d.shared.m == Stopped else d.shared.m == Starting
  {
  }

  // If the first Stop call does set stopped while some Start u is in its window,
  // the machine can be STARTING after Stop has returned: the condition above is
  // exact.
  lemma WindowEscapes(c: Session, t: nat, u: nat) returns (d: Session)
    requires At(c, t).StopMove? && InWindow(At(c, u))
    ensures Reaches(c, d) && d.shared.stops.moved && d.shared.m == Starting
  {
    hide Reaches, Enabled, Next;
    d := StopRunsOut(c, t);
    assert At(d, u) == At(c, u);
    if At(d, u).StartLoad? {
      StartGoes(d, u);
      ReachesStep(c, d, StartStep(u));
      d := Next(d, StartStep(u));
    }
    StartGoes(d, u);
    ReachesStep(c, d, StartStep(u));
    d := Next(d, StartStep(u));
  }

  // Such a run exists: Start checks, Stop runs from beginning to end, Start moves.
  lemma LateStartRun() returns (d: Session)
    ensures Reaches(Init(), d) && d.shared.stops.moved && d.shared.m == Starting
  {
    hide Reaches;
    var c := Init();
    ReachesSelf(c);
    ReachesStep(Init(), c, CallStart(0));
    c := Next(c, CallStart(0));
    ReachesStep(Init(), c, StartStep(0));
    c := Next(c, StartStep(0));
    ReachesStep(Init(), c, CallStop(1));
    c := Next(c, CallStop(1));
    ReachesStep(Init(), c, StopStep(1));
    c := Next(c, StopStep(1));
    d := WindowEscapes(c, 1, 0);
    ReachesOn(Init(), c, d);
  }
}
