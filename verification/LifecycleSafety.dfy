// What holds in every interleaving of a session's goroutines.
module LifecycleSafety {
  import opened Common
  import opened StateMachine
  import opened Lifecycle

  // ---------------------------------------------------------------------
  // The invariant

  // The point a goroutine returns to once its pending procedures end.
  function Rest(pc: Pc): Pc {
    match pc
    case FailClose(_, next) => Rest(next)
    case FailMove(next) => Rest(next)
    case ShutdownClose(next) => Rest(next)
    case AbortEnter(next) => Rest(next)
    case AbortClose(next) => Rest(next)
    case _ => pc
  }

  // Where the shared procedures return to.
  predicate Returns(pc: Pc) {
    pc.Done? || pc.StopWait? || pc.Report? || pc == AbortEnter(Report)
  }

  // What being at a point says about the goroutine and the past.
  ghost predicate FitsStop(t: nat, pc: Pc, stops: Stops) {
    InStop(pc) ==> stops.caller == Some(t) && !stops.finished && (pc.StopMove? || stops.moved)
  }

  ghost predicate FitsAbort(t: nat, at: Pc, tally: Tally) {
    && (InShared(at) ==> Returns(at.next))
    && (at.AbortClose? ==> tally.closer == Some(t) && tally.stop == 0)
  }

  ghost predicate Fits(t: nat, at: Pc, s: Shared) {
    FitsStop(t, Rest(at), s.stops) && FitsAbort(t, at, s.tally)
  }

  ghost predicate Counted(sig: Signals, tally: Tally) {
    && tally.broken == (if sig.brokenClosed then 1 else 0)
    && sig.breakErr.Some? == sig.brokenClosed
    && tally.stop == (if sig.stopC then 1 else 0)
    && (sig.stopC ==> sig.stopRequested)
    && sig.stopRequested == tally.closer.Some?
  }

  ghost predicate Shut(m: State, stops: Stops) {
    && (stops.finished || stops.lateStart ==> stops.moved) && (stops.moved ==> stops.caller.Some?)
    && (stops.moved && !stops.lateStart ==> m == Stopping || m == Stopped)
    && (stops.finished && !stops.lateStart ==> m == Stopped)
  }

  ghost predicate Good(s: Shared) {
    Counted(s.sig, s.tally) && Shut(s.m, s.stops) && s.sig.stopped == s.stops.caller.Some?
  }

  // The first Stop call is still at work until it has moved to STOPPED.
  ghost predicate StopAtWork(threads: map<nat, Pc>, stops: Stops) {
    stops.caller.Some? && !stops.finished ==> stops.caller.value in threads && InStop(Rest(threads[stops.caller.value]))
  }

  ghost predicate Inv(c: Session) {
    && Good(c.shared)
    && (forall t :: t in c.threads ==> Fits(t, c.threads[t], c.shared))
    && StopAtWork(c.threads, c.shared.stops)
  }

  // ---------------------------------------------------------------------
  // Marks

  // When a goroutine may leave a mark.
  ghost predicate May(s: Shared, mark: Mark, t: nat) {
    match mark
    case MoveTo(to) => to != Starting && to != Stopping
    case RequestStop => !s.sig.stopRequested
    case CloseStop => s.tally.closer == Some(t) && s.tally.stop == 0
    case SetStopped => !s.sig.stopped
    case StopMoves => s.stops.caller == Some(t) && !s.stops.finished
    case StopMovesAgain => s.stops.caller == Some(t) && !s.stops.finished && s.stops.moved
    case StopFinishes => s.stops.caller == Some(t) && !s.stops.finished && s.stops.moved
    case _ => true
  }

  // Stop's Move never needs the forced form.
  lemma StoppingIsLegal(s: State)
    ensures Can(s, Stopping)
  {
  }

  lemma MoveStaysShut(s: State, to: State, stops: Stops)
    requires Shut(s, stops) && to != Starting && to != Stopping
    ensures Shut(Moved(s, to), stops)
  {
  }

  lemma MarkKeepsGood(s: Shared, mark: Mark, t: nat)
    requires Good(s) && May(s, mark, t)
    ensures Good(Apply(s, mark, t))
  {
    hide Table;
    StoppingIsLegal(s.m);
    if mark.MoveTo? {
      MoveStaysShut(s.m, mark.to, s.stops);
    } else if mark.StopFinishes? {
      ShutdownExits(Stopping, Stopped);
    }
    hide Can;
  }

  // No mark disturbs another goroutine.
  lemma OthersFit(s: Shared, mark: Mark, t: nat, u: nat, at: Pc)
    requires Good(s) && May(s, mark, t) && u != t && Fits(u, at, s)
    ensures Fits(u, at, Apply(s, mark, t))
  {
    hide Rest, Moved, Can, Shut;
  }

  // ---------------------------------------------------------------------
  // Points

  // What a goroutine does next is allowed and leaves it at a fitting point.
  ghost predicate Proper(t: nat, at: Pc, s: Shared, a: Action) {
    && May(s, a.mark, t) && Fits(t, a.pc, Apply(s, a.mark, t))
    && (a.spawn.Some? ==> !InStop(Rest(a.spawn.value)) && !InShared(a.spawn.value))
    && (InStop(Rest(at)) && !a.mark.StopFinishes? ==> InStop(Rest(a.pc)))
    && (a.mark.SetStopped? ==> InStop(Rest(a.pc)))
  }

  lemma RestOf(pc: Pc)
    ensures Rest(pc) == if InShared(pc) then Rest(pc.next) else pc
  {
  }

  // A point outside Stop, with nothing of abort left half done.
  predicate Outside(pc: Pc) {
    if InShared(pc) then !pc.AbortClose? && (pc.next.Done? || pc.next.Report? || pc.next == AbortEnter(Report))
    else !InStop(pc)
  }

  lemma OutsideFits(t: nat, pc: Pc, s: Shared)
    requires Outside(pc)
    ensures Fits(t, pc, s) && !InStop(Rest(pc))
  {
    hide Rest;
    RestOf(pc);
    RestOf(Done);
    RestOf(Report);
    RestOf(AbortEnter(Report));
  }

  lemma OutsideProper(t: nat, at: Pc, s: Shared, a: Action)
    requires !InStop(at) && !InShared(at) && Outside(a.pc) && May(s, a.mark, t) && !a.mark.SetStopped?
    requires a.spawn.Some? ==> !InStop(a.spawn.value) && !InShared(a.spawn.value)
    ensures Proper(t, at, s, a)
  {
    hide Rest, Fits, InStop, May;
    RestOf(at);
    if a.spawn.Some? {
      RestOf(a.spawn.value);
    }
    OutsideFits(t, a.pc, Apply(s, a.mark, t));
  }

  lemma StartProper(t: nat, at: Pc, s: Shared, arm: nat)
    requires InStart(at)
    ensures Proper(t, at, s, StartAct(at, s, arm))
  {
    hide Can, Proper;
    OutsideProper(t, at, s, StartAct(at, s, arm));
  }

  lemma ConnectionProper(t: nat, at: Pc, s: Shared, done: bool, arm: nat, cause: Cause)
    requires !InStart(at) && !InStop(at) && !InShared(at) && !InLoops(at) && !at.StopSet? && !at.Done?
    ensures Proper(t, at, s, ConnectionAct(at, s, done, arm, cause))
  {
    hide Can, Proper;
    OutsideProper(t, at, s, ConnectionAct(at, s, done, arm, cause));
  }

  lemma LoopProper(t: nat, at: Pc, s: Shared, done: bool, arm: nat, cause: Cause)
    requires InLoops(at)
    ensures Proper(t, at, s, LoopAct(at, s, done, arm, cause))
  {
    hide Can, Proper;
    OutsideProper(t, at, s, LoopAct(at, s, done, arm, cause));
  }

  lemma StopSetProper(t: nat, s: Shared)
    requires Good(s)
    ensures Proper(t, StopSet, s, StopAct(StopSet, s))
  {
    hide Rest, Can, Moved;
    RestOf(StopSet);
    RestOf(StopMove);
    RestOf(Done);
  }

  lemma StopProper(t: nat, at: Pc, s: Shared)
    requires Fits(t, at, s) && InStop(at)
    ensures Proper(t, at, s, StopAct(at, s))
  {
    hide Rest, Can, Moved;
    RestOf(at);
    RestOf(StopAct(at, s).pc);
    RestOf(StopWait);
  }

  // A goroutine in a shared procedure stands for the same point of its caller.
  lemma FailProper(t: nat, at: Pc, s: Shared)
    requires Fits(t, at, s) && (at.FailClose? || at.FailMove? || at.ShutdownClose?)
    ensures Proper(t, at, s, SharedAct(at, s))
  {
    hide Rest, Moved, FitsStop;
    RestOf(at);
    RestOf(FailMove(at.next));
  }

  lemma AbortProper(t: nat, at: Pc, s: Shared)
    requires Counted(s.sig, s.tally) && Fits(t, at, s) && (at.AbortEnter? || at.AbortClose?)
    ensures Proper(t, at, s, SharedAct(at, s))
  {
    hide Rest, FitsStop;
    RestOf(at);
    RestOf(AbortClose(at.next));
  }

  lemma GoodCounts(s: Shared)
    requires Good(s)
    ensures Counted(s.sig, s.tally)
  {
  }

  lemma ActProper(t: nat, at: Pc, s: Shared, done: bool, arm: nat, cause: Cause)
    requires Good(s) && Fits(t, at, s) && Ready(at, s, done, arm)
    ensures Proper(t, at, s, Act(at, s, done, arm, cause))
  {
    hide Good, Counted, Fits, Proper, StartAct, StopAct, SharedAct, LoopAct, ConnectionAct;
    if InStart(at) {
      StartProper(t, at, s, arm);
    } else if at.StopSet? {
      StopSetProper(t, s);
    } else if InStop(at) {
      StopProper(t, at, s);
    } else if at.AbortEnter? || at.AbortClose? {
      GoodCounts(s);
      AbortProper(t, at, s);
    } else if InShared(at) {
      FailProper(t, at, s);
    } else if InLoops(at) {
      LoopProper(t, at, s, done, arm, cause);
    } else {
      ConnectionProper(t, at, s, done, arm, cause);
    }
  }

  // ---------------------------------------------------------------------
  // Steps

  lemma PerformKeeps(c: Session, t: nat, a: Action, child: nat)
    requires Inv(c) && t in c.threads && Proper(t, c.threads[t], c.shared, a)
    requires a.spawn.Some? ==> child !in c.threads
    ensures Inv(Perform(c, t, a, child))
  {
    var d := Perform(c, t, a, child);
    MarkKeepsGood(c.shared, a.mark, t);
    forall u | u in d.threads
      ensures Fits(u, d.threads[u], d.shared)
    {
      if u in c.threads && u != t {
        OthersFit(c.shared, a.mark, t, u, c.threads[u]);
      }
    }
    StopStaysAtWork(c, t, a, child);
    hide Good, Fits, StopAtWork, Apply;
  }

  lemma StopStaysAtWork(c: Session, t: nat, a: Action, child: nat)
    requires Inv(c) && t in c.threads && Proper(t, c.threads[t], c.shared, a)
    requires a.spawn.Some? ==> child !in c.threads
    ensures StopAtWork(Perform(c, t, a, child).threads, Perform(c, t, a, child).shared.stops)
  {
    hide Rest, Moved, Can, Counted, Fits, InStop;
  }

  lemma NotDone(c: Session, step: Step)
    requires Enabled(c, step) && step.Run?
    ensures !c.threads[step.t].Done?
  {
  }

  lemma StepKeeps(c: Session, step: Step)
    requires Inv(c) && Enabled(c, step)
    ensures Inv(Next(c, step))
  {
    hide Act, Ready;
    if step.Run? {
      assert Fits(step.t, c.threads[step.t], c.shared);
      hide Fits;
      ActProper(step.t, c.threads[step.t], c.shared, CtxDone(c, step.t), step.arm, step.cause);
      hide Inv, Proper;
      PerformKeeps(c, step.t, ActOf(c, step), step.child);
    }
  }

  lemma {:induction false} RunKeeps(c: Session, steps: seq<Step>)
    requires Inv(c) && IsRun(c, steps)
    ensures Inv(After(c, steps))
    decreases |steps|
  {
    hide Inv, Next, Enabled;
    if steps != [] {
      StepKeeps(c, steps[0]);
      RunKeeps(Next(c, steps[0]), steps[1..]);
    }
  }

  // Every state of every run satisfies the invariant.
  lemma ReachableKeeps(steps: seq<Step>)
    requires IsRun(Init(), steps)
    ensures Inv(After(Init(), steps))
  {
    assert Inv(Init());
    RunKeeps(Init(), steps);
  }

  // ---------------------------------------------------------------------
  // Goroutines that start nothing

  // Outside Start and outside the body of a connection task.
  predicate Aside(pc: Pc) {
    pc.Done? || pc.Report? || pc.StopSet? || InStop(pc) || InLoops(pc) || InShared(pc)
  }

  // No Start accepted, nothing announced, nothing started.
  predicate Mild(mark: Mark) {
    && !mark.AcceptStart? && !mark.CloseReady? && !mark.CloseOnline?
    && (mark.MoveTo? ==> mark.to == State.Error || mark.to == Online || mark.to == Degraded)
  }

  lemma LoopAside(at: Pc, s: Shared, done: bool, arm: nat, cause: Cause)
    requires InLoops(at)
    ensures var a := LoopAct(at, s, done, arm, cause); Aside(a.pc) && Mild(a.mark) && a.spawn.None? && !a.mark.SetStopped?
  {
  }

  lemma StopAside(at: Pc, s: Shared)
    requires InStop(at) || at.StopSet?
    ensures var a := StopAct(at, s);
            Aside(a.pc) && Mild(a.mark) && a.spawn.None? && (a.mark.SetStopped? ==> !s.sig.stopped)
  {
  }

  lemma SharedAside(at: Pc, s: Shared)
    requires InShared(at) && Returns(at.next)
    ensures var a := SharedAct(at, s); Aside(a.pc) && Mild(a.mark) && a.spawn.None? && !a.mark.SetStopped?
  {
  }

  lemma ActAside(at: Pc, s: Shared, done: bool, arm: nat, cause: Cause)
    requires Aside(at) && !at.Done? && (InShared(at) ==> Returns(at.next))
    ensures var a := Act(at, s, done, arm, cause);
            Aside(a.pc) && Mild(a.mark) && a.spawn.None? && (a.mark.SetStopped? ==> !s.sig.stopped)
  {
    if InStop(at) || at.StopSet? {
      hide StopAct, Aside, Mild;
      StopAside(at, s);
    } else if InShared(at) {
      hide SharedAct, Aside, Mild;
      SharedAside(at, s);
    } else if InLoops(at) {
      hide LoopAct, Aside, Mild;
      LoopAside(at, s, done, arm, cause);
    }
  }

  // The body of a connection task.
  predicate InTask(pc: Pc) {
    !Aside(pc) && !InStart(pc)
  }

  lemma ActInTask(at: Pc, s: Shared, done: bool, arm: nat, cause: Cause)
    requires InTask(at)
    ensures Act(at, s, done, arm, cause) == ConnectionAct(at, s, done, arm, cause)
    ensures var a := ConnectionAct(at, s, done, arm, cause);
            && (Aside(a.pc) || InTask(a.pc)) && !a.mark.AcceptStart? && !a.mark.SetStopped?
            && (a.mark.MoveTo? ==> a.mark.to != Starting && a.mark.to != Stopping && a.mark.to != Reconnecting)
            && (a.mark == MoveTo(Connecting) ==> at.Dial?) && (a.mark == MoveTo(Authenticating) ==> at.Authenticate?)
            && (a.spawn.Some? ==> InLoops(a.spawn.value))
  {
    hide Can;
  }
}
