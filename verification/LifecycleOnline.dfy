// What keeps a connection going: its reader, its consumer and its context, and
// who brings the session online.
module LifecycleOnline {
  import opened Common
  import opened StateMachine
  import opened Lifecycle
  import opened LifecycleSafety
  import opened LifecycleShutdown
  import opened LifecycleStarts
  import opened LifecycleFailure

  // ---------------------------------------------------------------------
  // Points of a connection in use

  // After the frame reader was started, and after the consumer was.
  predicate Used(pc: Pc) {
    pc.ConnectIQ? || pc.GoOnline? || pc.Announce? || pc.SpawnKeepalive? || pc.Watch?
  }

  predicate Fed(pc: Pc) {
    pc.SpawnReader? || Used(pc)
  }

  // A frame reader, or a goroutine about to close broken.
  predicate ReaderAtWork(pc: Pc) {
    pc.Reading? || pc.FailClose? || pc.ShutdownClose?
  }

  predicate ConsumerAtWork(pc: Pc) {
    pc.Consuming? || pc.Inband? || pc.InbandMove? || pc.FailClose?
  }

  // A goroutine that runs under the context of a Start call.
  predicate OfStart(pc: Pc) {
    InStart(pc) || InTask(pc) || InLoops(pc)
  }

  ghost predicate SomeReader(c: Session) {
    exists u :: u in c.threads && ReaderAtWork(c.threads[u])
  }

  ghost predicate SomeConsumer(c: Session) {
    exists u :: u in c.threads && ConsumerAtWork(c.threads[u])
  }

  ghost predicate Read(c: Session) {
    (exists t :: t in c.threads && Used(c.threads[t])) ==> c.shared.sig.brokenClosed || SomeReader(c)
  }

  ghost predicate Consumed(c: Session) {
    (exists t :: t in c.threads && Fed(c.threads[t])) ==>
      c.shared.sig.brokenClosed || c.shared.sig.stopC || c.cancelled != {} || SomeConsumer(c)
  }

  ghost predicate Bound(c: Session) {
    && c.context.Keys <= c.threads.Keys
    && (forall t :: t in c.threads && OfStart(c.threads[t]) ==> t in c.context)
    && (forall t :: t in c.context ==> c.context[t] in c.context && c.context[c.context[t]] == c.context[t])
  }

  // Whoever requested the stop is about to close stopC, until it is closed.
  ghost predicate Carried(c: Session) {
    var closer := c.shared.tally.closer;
    closer.Some? && !c.shared.sig.stopC ==> closer.value in c.threads && c.threads[closer.value].AbortClose?
  }

  // ---------------------------------------------------------------------
  // What one goroutine does about it

  ghost predicate Sustains(at: Pc, sig: Signals, done: bool, a: Action) {
    && (Used(a.pc) ==> Used(at) || a.spawn == Some(Reading))
    && (Fed(a.pc) ==> Fed(at) || a.spawn == Some(Consuming))
    && (a.spawn.Some? ==> !Fed(a.spawn.value) && OfStart(at))
    && (ReaderAtWork(at) ==> ReaderAtWork(a.pc) || a.mark.BreakWith?)
    && (ConsumerAtWork(at) ==> ConsumerAtWork(a.pc) || a.mark.BreakWith? || done || sig.stopC)
    && (OfStart(a.pc) ==> OfStart(at))
    && (a.mark.RequestStop? ==> a.pc.AbortClose?) && (at.AbortClose? ==> a.mark.CloseStop?)
  }

  lemma StartSustains(at: Pc, s: Shared, done: bool, arm: nat)
    requires InStart(at)
    ensures Sustains(at, s.sig, done, StartAct(at, s, arm))
  {
    hide Can;
  }

  lemma StopSustains(at: Pc, s: Shared, done: bool)
    requires InStop(at) || at.StopSet?
    ensures Sustains(at, s.sig, done, StopAct(at, s))
  {
    hide Can;
  }

  lemma SharedSustains(at: Pc, s: Shared, done: bool)
    requires InShared(at) && Returns(at.next)
    ensures Sustains(at, s.sig, done, SharedAct(at, s))
  {
    var a := SharedAct(at, s);
    assert a.spawn.None? && Aside(a.pc) && !InLoops(a.pc);
    assert ReaderAtWork(at) ==> a.mark.BreakWith?;
    hide Returns;
  }

  lemma LoopSustains(at: Pc, s: Shared, done: bool, arm: nat, cause: Cause)
    requires InLoops(at) && Ready(at, s, done, arm)
    ensures Sustains(at, s.sig, done, LoopAct(at, s, done, arm, cause))
  {
  }

  lemma TaskSustains(at: Pc, s: Shared, done: bool, arm: nat, cause: Cause)
    requires InTask(at) || at.Report?
    ensures Sustains(at, s.sig, done, ConnectionAct(at, s, done, arm, cause))
  {
    hide Can;
  }

  lemma ActSustains(at: Pc, s: Shared, done: bool, arm: nat, cause: Cause)
    requires !at.Done? && (InShared(at) ==> Returns(at.next)) && Ready(at, s, done, arm)
    ensures Sustains(at, s.sig, done, Act(at, s, done, arm, cause))
  {
    hide Sustains, Can, StartAct, StopAct, LoopAct, SharedAct, ConnectionAct, Ready;
    if InStart(at) {
      StartSustains(at, s, done, arm);
    } else if InStop(at) || at.StopSet? {
      StopSustains(at, s, done);
    } else if InShared(at) {
      SharedSustains(at, s, done);
    } else if InLoops(at) {
      LoopSustains(at, s, done, arm, cause);
    } else {
      TaskSustains(at, s, done, arm, cause);
    }
  }

  lemma BreakCloses(s: Shared, mark: Mark, t: nat)
    ensures mark.BreakWith? ==> Apply(s, mark, t).sig.brokenClosed
    ensures Apply(s, mark, t).sig.stopC == (s.sig.stopC || mark.CloseStop?)
    ensures Apply(s, mark, t).tally.closer == if mark.RequestStop? then Some(t) else s.tally.closer
  {
    hide Moved, Can;
  }

  lemma PerformRead(c: Session, t: nat, a: Action, child: nat)
    requires Read(c) && t in c.threads && Sustains(c.threads[t], c.shared.sig, CtxDone(c, t), a)
    requires a.spawn.Some? ==> child !in c.threads
    ensures Read(Perform(c, t, a, child))
  {
    MarksRaise(c.shared, a.mark, t);
    BreakCloses(c.shared, a.mark, t);
    hide Apply, ConsumerAtWork, OfStart;
    var d := Perform(c, t, a, child);
    if w :| w in d.threads && Used(d.threads[w]) && !d.shared.sig.brokenClosed {
      if a.spawn == Some(Reading) {
        assert ReaderAtWork(d.threads[child]);
      } else {
        assert w in c.threads && Used(c.threads[w]) by {
          hide ReaderAtWork;
        }
        var u :| u in c.threads && ReaderAtWork(c.threads[u]);
        assert ReaderAtWork(d.threads[u]);
      }
    }
  }

  lemma PerformConsumed(c: Session, t: nat, a: Action, child: nat)
    requires Consumed(c) && t in c.threads && Sustains(c.threads[t], c.shared.sig, CtxDone(c, t), a)
    requires a.spawn.Some? ==> child !in c.threads
    ensures Consumed(Perform(c, t, a, child))
  {
    MarksRaise(c.shared, a.mark, t);
    BreakCloses(c.shared, a.mark, t);
    hide Apply, ReaderAtWork, OfStart;
    var d := Perform(c, t, a, child);
    if w :| w in d.threads && Fed(d.threads[w]) && !d.shared.sig.brokenClosed && !d.shared.sig.stopC && d.cancelled == {} {
      if a.spawn == Some(Consuming) {
        assert ConsumerAtWork(d.threads[child]);
      } else {
        assert w in c.threads && Fed(c.threads[w]) by {
          hide ConsumerAtWork;
        }
        var u :| u in c.threads && ConsumerAtWork(c.threads[u]);
        assert ConsumerAtWork(d.threads[u]);
      }
    }
  }

  lemma PerformBound(c: Session, t: nat, a: Action, child: nat)
    requires Bound(c) && t in c.threads && Sustains(c.threads[t], c.shared.sig, CtxDone(c, t), a)
    requires a.spawn.Some? ==> child !in c.threads
    ensures Bound(Perform(c, t, a, child))
  {
    hide Apply, ReaderAtWork, ConsumerAtWork, Fed, Used, OfStart;
  }

  lemma PerformCarried(c: Session, t: nat, a: Action, child: nat)
    requires Carried(c) && t in c.threads && Sustains(c.threads[t], c.shared.sig, CtxDone(c, t), a)
    requires a.spawn.Some? ==> child !in c.threads
    ensures Carried(Perform(c, t, a, child))
  {
    BreakCloses(c.shared, a.mark, t);
    hide Apply, ReaderAtWork, ConsumerAtWork, Fed, Used, OfStart;
  }

  ghost predicate Kept(c: Session) {
    Read(c) && Consumed(c) && Bound(c) && Carried(c)
  }

  lemma StepKept(c: Session, step: Step)
    requires Inv(c) && Kept(c) && Enabled(c, step)
    ensures Kept(Next(c, step))
  {
    if step.Run? {
      var t := step.t;
      NotDone(c, step);
      assert Fits(t, c.threads[t], c.shared);
      ActSustains(c.threads[t], c.shared, CtxDone(c, t), step.arm, step.cause);
      hide Act, Apply, Sustains, Inv, Fits, Ready, Read, Consumed, Bound, Carried;
      var a := ActOf(c, step);
      PerformRead(c, t, a, step.child);
      PerformConsumed(c, t, a, step.child);
      PerformBound(c, t, a, step.child);
      PerformCarried(c, t, a, step.child);
    } else {
      CallKept(c, step);
    }
  }

  // The same goroutines, and some that have just been called.
  ghost predicate Joined(c: Session, d: Session) {
    && d.shared == c.shared && c.cancelled <= d.cancelled
    && (forall u :: u in c.threads ==> u in d.threads && d.threads[u] == c.threads[u])
    && (forall u :: u in d.threads && u !in c.threads ==> d.threads[u].StartCheck? || d.threads[u].StopSet?)
  }

  lemma CallRead(c: Session, d: Session)
    requires Joined(c, d) && Read(c)
    ensures Read(d)
  {
    if w :| w in d.threads && Used(d.threads[w]) && !d.shared.sig.brokenClosed {
      assert w in c.threads && Used(c.threads[w]);
      hide Used;
      var u :| u in c.threads && ReaderAtWork(c.threads[u]);
      assert ReaderAtWork(d.threads[u]);
    }
  }

  lemma CallConsumed(c: Session, d: Session)
    requires Joined(c, d) && Consumed(c)
    ensures Consumed(d)
  {
    if w :| w in d.threads && Fed(d.threads[w]) && !d.shared.sig.brokenClosed && !d.shared.sig.stopC && d.cancelled == {} {
      assert w in c.threads && Fed(c.threads[w]) && c.cancelled == {};
      hide Fed;
      var u :| u in c.threads && ConsumerAtWork(c.threads[u]);
      assert ConsumerAtWork(d.threads[u]);
    }
  }

  lemma CallBound(c: Session, step: Step)
    requires Bound(c) && Enabled(c, step) && !step.Run?
    ensures Bound(Next(c, step))
  {
    assert !OfStart(StopSet);
    hide OfStart;
  }

  lemma CallKept(c: Session, step: Step)
    requires Kept(c) && Enabled(c, step) && !step.Run?
    ensures Kept(Next(c, step))
  {
    var d := Next(c, step);
    assert Joined(c, d);
    CallBound(c, step);
    hide Bound;
    CallRead(c, d);
    CallConsumed(c, d);
    hide Read, Consumed;
  }

  lemma {:induction false} RunKept(c: Session, steps: seq<Step>)
    requires Inv(c) && Kept(c) && IsRun(c, steps)
    ensures Kept(After(c, steps))
    decreases |steps|
  {
    hide Inv, Kept, Next, Enabled;
    if steps != [] {
      StepKeeps(c, steps[0]);
      StepKept(c, steps[0]);
      RunKept(Next(c, steps[0]), steps[1..]);
    }
  }

  lemma Sustained(steps: seq<Step>)
    requires IsRun(Init(), steps)
    ensures Kept(After(Init(), steps))
  {
    assert Inv(Init()) && Kept(Init());
    RunKept(Init(), steps);
  }

  // ---------------------------------------------------------------------
  // What every interleaving guarantees

  // While a connection task waits for the reply to its connect request or watches
  // the connection, broken is closed, or a frame reader is at work, or some
  // goroutine is about to close broken.
  lemma ConnectionIsRead(steps: seq<Step>, t: nat)
    requires IsRun(Init(), steps) && Used(At(After(Init(), steps), t))
    ensures var c := After(Init(), steps); c.shared.sig.brokenClosed || SomeReader(c)
  {
    Sustained(steps);
  }

  // And frames are consumed, until the connection breaks, the stop is requested
  // or a context is cancelled.
  lemma FramesAreConsumed(steps: seq<Step>, t: nat)
    requires IsRun(Init(), steps) && Fed(At(After(Init(), steps), t))
    ensures var c := After(Init(), steps);
            c.shared.sig.brokenClosed || c.shared.sig.stopC || c.cancelled != {} || SomeConsumer(c)
  {
    Sustained(steps);
  }

  // Every goroutine of a connection runs under the context of some Start call:
  // cancelling that one reaches it.
  lemma CancelReachesConnection(steps: seq<Step>, t: nat) returns (start: nat)
    requires IsRun(Init(), steps) && OfStart(At(After(Init(), steps), t))
    ensures var c := After(Init(), steps);
            && start in c.context && c.context[start] == start
            && Enabled(c, Cancel(start)) && CtxDone(Next(c, Cancel(start)), t)
  {
    Sustained(steps);
    var c := After(Init(), steps);
    assert t in c.threads;
    start := c.context[t];
  }

  // Once the stop is requested, stopC is closed or the goroutine that requested it
  // is about to close it.
  lemma StopRequestIsCarriedOut(steps: seq<Step>)
    requires IsRun(Init(), steps)
    ensures var c := After(Init(), steps);
            c.shared.sig.stopRequested ==>
              c.shared.sig.stopC || (c.shared.tally.closer.Some? && At(c, c.shared.tally.closer.value).AbortClose?)
  {
    ReachableKeeps(steps);
    Sustained(steps);
  }

  // ---------------------------------------------------------------------
  // Who brings the session online

  predicate Up(m: State) {
    m == Online || m == Degraded
  }

  // A connection task that has yet to bring the session online.
  predicate Rising(pc: Pc) {
    Pending(OnlineGate, pc) && !pc.Announce?
  }

  // About to move between ONLINE and DEGRADED.
  predicate Swings(pc: Pc) {
    pc.InbandMove? || pc.Degrade?
  }

  ghost predicate Risen(c: Session) {
    && (Up(c.shared.m) ==> forall t :: t in c.threads ==> !Rising(c.threads[t]))
    && (!Up(c.shared.m) && !Down(c.shared.m) ==> forall t :: t in c.threads ==> !Swings(c.threads[t]))
  }

  // Which goroutines move the machine where.
  ghost predicate Moves(at: Pc, m: State, a: Action) {
    && (a.mark.MoveTo? ==> Rising(at) || Up(a.mark.to) || a.mark.to == State.Error)
    && (a.mark.MoveTo? && Up(a.mark.to) ==> (at.GoOnline? && a.pc.Announce?) || Swings(at))
    && (Rising(a.pc) ==> Rising(at)) && (a.spawn.Some? && Rising(a.spawn.value) ==> Rising(at))
    && (Swings(a.pc) ==> Up(m) && a.mark.Nothing?) && (a.spawn.Some? ==> !Swings(a.spawn.value) && a.mark.Nothing?)
    && !a.mark.AcceptStart?
  }

  lemma StartMoves(at: Pc, s: Shared, arm: nat)
    requires InStart(at) && !(at.StartMove? && Can(s.m, Starting))
    ensures Moves(at, s.m, StartAct(at, s, arm))
  {
    hide Can;
  }

  lemma StopsMove(at: Pc, s: Shared)
    requires InStop(at) || at.StopSet?
    ensures Moves(at, s.m, StopAct(at, s))
  {
  }

  lemma SharedMoves(at: Pc, s: Shared)
    requires InShared(at) && Returns(at.next)
    ensures Moves(at, s.m, SharedAct(at, s))
  {
  }

  lemma LoopMoves(at: Pc, s: Shared, done: bool, arm: nat, cause: Cause)
    requires InLoops(at)
    ensures Moves(at, s.m, LoopAct(at, s, done, arm, cause))
  {
  }

  lemma TaskMoves(at: Pc, s: Shared, done: bool, arm: nat, cause: Cause)
    requires InTask(at) || at.Report?
    ensures Moves(at, s.m, ConnectionAct(at, s, done, arm, cause))
  {
    hide Can;
  }

  lemma ActMoves(at: Pc, s: Shared, done: bool, arm: nat, cause: Cause)
    requires !at.Done? && (InShared(at) ==> Returns(at.next)) && !(at.StartMove? && Can(s.m, Starting))
    ensures Moves(at, s.m, Act(at, s, done, arm, cause))
  {
    hide Moves, Can, StartAct, StopAct, LoopAct, SharedAct, ConnectionAct;
    if InStart(at) {
      StartMoves(at, s, arm);
    } else if InStop(at) || at.StopSet? {
      StopsMove(at, s);
    } else if InShared(at) {
      SharedMoves(at, s);
    } else if InLoops(at) {
      LoopMoves(at, s, done, arm, cause);
    } else {
      TaskMoves(at, s, done, arm, cause);
    }
  }

  // What the machine does under such an action.
  lemma MachineMoves(at: Pc, s: Shared, a: Action, t: nat)
    requires Moves(at, s.m, a)
    ensures var m := Apply(s, a.mark, t).m;
            && (Down(s.m) ==> Down(m) || (a.mark.MoveTo? && Rising(at)))
            && (Up(s.m) && !Rising(at) ==> Up(m) || Down(m))
            && (Up(m) && !Up(s.m) ==> !Down(s.m) && ((at.GoOnline? && a.pc.Announce?) || Swings(at)))
            && (m == s.m || Down(m) || a.mark.MoveTo?)
  {
  }

  lemma PerformRisen(c: Session, t: nat, a: Action, child: nat)
    requires Risen(c) && Safe(OnlineGate, c) && t in c.threads && Moves(c.threads[t], c.shared.m, a)
    requires a.spawn.Some? ==> child !in c.threads
    requires Down(c.shared.m) ==> Down(Apply(c.shared, a.mark, t).m)
    ensures Risen(Perform(c, t, a, child))
  {
    assert c.threads[t].GoOnline? ==> Pending(OnlineGate, c.threads[t]);
    MachineMoves(c.threads[t], c.shared, a, t);
    assert a.mark.Nothing? ==> Apply(c.shared, a.mark, t) == c.shared;
    hide Apply, Pending;
    var d := Perform(c, t, a, child);
    if Up(d.shared.m) && !Up(c.shared.m) {
      assert a.pc.Announce? && a.spawn.None?;
      forall u | u in d.threads
        ensures !Rising(d.threads[u])
      {
        assert u != t ==> !Pending(OnlineGate, c.threads[u]);
      }
    }
  }

  lemma StepRisen(c: Session, step: Step)
    requires Inv(c) && Risen(c) && Safe(OnlineGate, c) && Enabled(c, step) && !Accepts(c, step)
    ensures Risen(Next(c, step))
  {
    if step.Run? {
      var t := step.t;
      NotDone(c, step);
      assert Fits(t, c.threads[t], c.shared);
      ActMoves(c.threads[t], c.shared, CtxDone(c, t), step.arm, step.cause);
      if Down(c.shared.m) {
        StaysDown(c, step);
      }
      hide Act, Apply, Inv, Fits, Can, Risen, Safe, Down, Ready, Moves;
      PerformRisen(c, t, ActOf(c, step), step.child);
    }
  }

  // Until a second Start is accepted.
  ghost predicate RisenOnce(c: Session) {
    c.shared.tally.starts <= 1 ==> Risen(c)
  }

  lemma AcceptRisen(c: Session, step: Step)
    requires Before(c) && Enabled(c, step) && Accepts(c, step)
    ensures Risen(Next(c, step))
  {
    hide Can;
    var d := Next(c, step);
    assert d.shared.m == Starting;
    assert forall u :: u in d.threads && u != step.t ==> Unconnected(d.threads[u]);
  }

  lemma BeforeRisen(c: Session)
    requires Before(c)
    ensures Risen(c)
  {
    assert forall t :: t in c.threads ==> Unconnected(c.threads[t]);
  }

  lemma StepRisenOnce(c: Session, step: Step)
    requires Inv(c) && Phase(c) && FirstStart(OnlineGate, c) && RisenOnce(c) && Enabled(c, step)
    ensures RisenOnce(Next(c, step))
  {
    hide Inv, Next, Enabled, Accepts, Before, During, Safe, Unused, Risen;
    StartsCounted(c, step);
    if c.shared.tally.starts == 0 && Accepts(c, step) {
      AcceptRisen(c, step);
    } else if c.shared.tally.starts == 0 {
      StepBefore(c, step);
      BeforeRisen(Next(c, step));
    } else if c.shared.tally.starts == 1 && !Accepts(c, step) {
      StepRisen(c, step);
    }
  }

  lemma {:induction false} RunRisen(c: Session, steps: seq<Step>)
    requires Inv(c) && Phase(c) && FirstStart(OnlineGate, c) && RisenOnce(c) && IsRun(c, steps)
    ensures RisenOnce(After(c, steps))
    decreases |steps|
  {
    hide Inv, Phase, FirstStart, RisenOnce, Next, Enabled;
    if steps != [] {
      StepKeeps(c, steps[0]);
      StepPhase(c, steps[0]);
      FirstStartStep(OnlineGate, c, steps[0]);
      StepRisenOnce(c, steps[0]);
      RunRisen(Next(c, steps[0]), steps[1..]);
    }
  }

  lemma WhoMoves(c: Session, step: Step)
    requires Inv(c) && Risen(c) && Enabled(c, step) && !Accepts(c, step)
    ensures Up(Next(c, step).shared.m) && !Up(c.shared.m) ==> At(c, step.t).GoOnline? && Next(c, step).shared.m == Online
  {
    if step.Run? {
      var t := step.t;
      NotDone(c, step);
      assert Fits(t, c.threads[t], c.shared);
      ActMoves(c.threads[t], c.shared, CtxDone(c, t), step.arm, step.cause);
      MachineMoves(c.threads[t], c.shared, ActOf(c, step), t);
      assert Risen(c) && (Swings(c.threads[t]) ==> Up(c.shared.m) || Down(c.shared.m));
      hide Inv, Fits, Risen, Moves, Down, Ready;
      if c.threads[t].GoOnline? {
        assert ActOf(c, step).mark.MoveTo? ==> ActOf(c, step).mark.to == Online;
      }
    }
  }

  // As long as only one Start was accepted, the session comes to be ONLINE or
  // DEGRADED only by the connection task's own Move to ONLINE, after its connect
  // request; from there a silent keepalive and an inband acknowledgement move
  // it between the two.
  lemma OnlineOnlyByTask(steps: seq<Step>, step: Step)
    requires IsRun(Init(), steps) && Enabled(After(Init(), steps), step)
    requires Next(After(Init(), steps), step).shared.tally.starts <= 1
    ensures var c := After(Init(), steps);
            var d := Next(c, step);
            Up(d.shared.m) && !Up(c.shared.m) ==> step.Run? && At(c, step.t).GoOnline? && d.shared.m == Online
  {
    assert Inv(Init()) && Phase(Init()) && FirstStart(OnlineGate, Init()) && RisenOnce(Init());
    RunRisen(Init(), steps);
    ReachableKeeps(steps);
    var c := After(Init(), steps);
    hide IsRun, After, Inv;
    StartsCounted(c, step);
    if Accepts(c, step) {
      hide Risen;
      assert Next(c, step).shared.m == Starting;
    } else {
      WhoMoves(c, step);
    }
  }

  // ---------------------------------------------------------------------
  // Silence is noticed

  lemma LoopTurn(c: Session, k: nat, arm: nat, cause: Cause)
    requires InLoops(At(c, k)) && Ready(At(c, k), c.shared, CtxDone(c, k), arm)
    ensures var step := Run(k, arm, cause, 0);
            var a := LoopAct(At(c, k), c.shared, CtxDone(c, k), arm, cause);
            Enabled(c, step) && At(Next(c, step), k) == a.pc && Next(c, step).shared == Apply(c.shared, a.mark, k)
  {
    hide LoopAct, ConnectionAct, SharedAct, StartAct, StopAct, Apply, Ready;
    LoopAside(At(c, k), c.shared, CtxDone(c, k), arm, cause);
  }

  // The keepalive loop k, up to the point where it has found silence.
  lemma KeepaliveStep(c: Session, k: nat, cause: Cause)
    requires (At(c, k).Ticking? || At(c, k).TickState?) && c.shared.m == Online
    ensures var step := Run(k, if At(c, k).Ticking? then 2 else 0, cause, 0);
            && Enabled(c, step) && Next(c, step).shared == c.shared
            && At(Next(c, step), k) == if At(c, k).Ticking? then TickState else Degrade(cause)
  {
    LoopTurn(c, k, if At(c, k).Ticking? then 2 else 0, cause);
    hide Enabled, Next;
  }

  lemma RecoveryStep(c: Session, k: nat, cause: Cause)
    requires !c.shared.sig.brokenClosed || At(c, k).FailMove?
    requires (At(c, k) == Degrade(cause) && c.shared.m == Online) || (At(c, k) == FailClose(cause, Done) && c.shared.m == Degraded)
             || (At(c, k) == FailMove(Done) && c.shared.m == Degraded && c.shared.sig.breakErr == Some(cause))
    ensures var step := Run(k, 0, cause, 0);
            && Enabled(c, step)
            && var d := Next(c, step);
               if At(c, k).Degrade? then d.shared.m == Degraded && At(d, k) == FailClose(cause, Done) && d.shared.sig == c.shared.sig
               else if At(c, k).FailClose? then
                 d.shared.m == Degraded && At(d, k) == FailMove(Done) && d.shared.sig.breakErr == Some(cause)
               else d.shared.m == State.Error && d.shared.sig.breakErr == Some(cause)
  {
  }

  lemma KeepaliveStarts(c: Session, t: nat, k: nat)
    requires At(c, t).SpawnKeepalive? && k !in c.threads
    ensures Enabled(c, Run(t, 0, Canceled, k))
    ensures var d := Next(c, Run(t, 0, Canceled, k)); d.shared == c.shared && At(d, k).Ticking?
  {
  }

  // From where a connection task starts its keepalive loop, an online session that
  // falls silent can come to be DEGRADED, and then ERROR with the loop's cause.
  lemma SilenceIsNoticed(c: Session, t: nat, cause: Cause) returns (d: Session, e: Session)
    requires At(c, t).SpawnKeepalive? && c.shared.m == Online && !c.shared.sig.brokenClosed
    ensures Reaches(c, d) && d.shared.m == Degraded
    ensures Reaches(d, e) && e.shared.m == State.Error && e.shared.sig.breakErr == Some(cause)
  {
    hide Reaches, Enabled, Next;
    var k := NewName(c.threads.Keys);
    ReachesSelf(c);
    d := c;
    KeepaliveStarts(d, t, k);
    ReachesStep(c, d, Run(t, 0, Canceled, k));
    d := Next(d, Run(t, 0, Canceled, k));
    KeepaliveStep(d, k, cause);
    ReachesStep(c, d, Run(k, 2, cause, 0));
    d := Next(d, Run(k, 2, cause, 0));
    KeepaliveStep(d, k, cause);
    ReachesStep(c, d, Run(k, 0, cause, 0));
    d := Next(d, Run(k, 0, cause, 0));
    RecoveryStep(d, k, cause);
    ReachesStep(c, d, Run(k, 0, cause, 0));
    d := Next(d, Run(k, 0, cause, 0));
    ReachesSelf(d);
    e := d;
    RecoveryStep(e, k, cause);
    ReachesStep(d, e, Run(k, 0, cause, 0));
    e := Next(e, Run(k, 0, cause, 0));
    RecoveryStep(e, k, cause);
    ReachesStep(d, e, Run(k, 0, cause, 0));
    e := Next(e, Run(k, 0, cause, 0));
  }

  lemma AckStep(c: Session, k: nat)
    requires (At(c, k).Consuming? || At(c, k).Inband? || At(c, k).InbandMove?) && c.shared.m == Degraded
    ensures var step := Run(k, 4, Canceled, 0);
            && Enabled(c, step)
            && var d := Next(c, step);
               && d.shared.m == (if At(c, k).InbandMove? then Online else Degraded)
               && At(d, k) == if At(c, k).Consuming? then Inband else if At(c, k).Inband? then InbandMove else Consuming
  {
    LoopTurn(c, k, 4, Canceled);
    hide Enabled, Next;
  }

  // A degraded session whose frames are consumed can come back: an inband
  // acknowledgement makes it ONLINE.
  lemma AckRestores(c: Session, k: nat) returns (d: Session)
    requires At(c, k).Consuming? && c.shared.m == Degraded
    ensures Reaches(c, d) && d.shared.m == Online && At(d, k).Consuming?
  {
    hide Reaches, Enabled, Next;
    var step := Run(k, 4, Canceled, 0);
    ReachesSelf(c);
    d := c;
    AckStep(d, k);
    ReachesStep(c, d, step);
    d := Next(d, step);
    AckStep(d, k);
    ReachesStep(c, d, step);
    d := Next(d, step);
    AckStep(d, k);
    ReachesStep(c, d, step);
    d := Next(d, step);
  }

  // A keepalive loop that ticks after a failure or during a stop ends, whatever
  // it finds.
  lemma KeepaliveQuits(c: Session, k: nat, arm: nat, cause: Cause)
    requires At(c, k).Ticking? && (c.shared.m == State.Error || c.shared.m == Stopping)
    ensures Enabled(c, Run(k, 2, Canceled, 0))
    ensures var d := Next(c, Run(k, 2, Canceled, 0));
            Enabled(d, Run(k, arm, cause, 0)) && At(Next(d, Run(k, arm, cause, 0)), k).Done?
  {
    hide Enabled, Next;
    LoopTurn(c, k, 2, Canceled);
    LoopTurn(Next(c, Run(k, 2, Canceled, 0)), k, arm, cause);
  }

  // A Start that takes a report makes room for the next one.
  lemma ReportIsTaken(c: Session, t: nat, u: nat)
    requires At(c, t).StartWait? && c.shared.sig.runErr && At(c, u).Report?
    ensures !Enabled(c, Run(u, 0, Canceled, 0)) && Enabled(c, Run(t, 1, Canceled, 0))
    ensures var d := Next(c, Run(t, 1, Canceled, 0)); At(d, t).Done? && Enabled(d, Run(u, 0, Canceled, 0))
  {
  }
}
