// How a connection ends: a failed session is down and stays down, what a
// connection task reports, and that a waiting Start is never stuck.
module LifecycleFailure {
  import opened Common
  import opened StateMachine
  import opened Lifecycle
  import opened LifecycleSafety
  import opened LifecycleShutdown
  import opened LifecycleStarts

  // ---------------------------------------------------------------------
  // A failed session is down

  predicate Down(m: State) {
    m == State.Error || m == Stopping || m == Stopped
  }

  lemma ActionStaysDown(at: Pc, s: Shared, a: Action, t: nat)
    requires Down(s.m) && Grounded(at, a)
    ensures Down(Apply(s, a.mark, t).m)
  {
  }

  lemma StaysDown(c: Session, step: Step)
    requires Inv(c) && Down(c.shared.m) && Enabled(c, step) && !Accepts(c, step)
    ensures Down(Next(c, step).shared.m)
  {
    hide Act, Apply, Can, Down;
    if step.Run? {
      NotDone(c, step);
      assert Fits(step.t, c.threads[step.t], c.shared);
      ActGrounded(c.threads[step.t], c.shared, CtxDone(c, step.t), step.arm, step.cause);
      hide Grounded;
      ActionStaysDown(c.threads[step.t], c.shared, ActOf(c, step), step.t);
    }
  }

  lemma {:induction false} RunStaysDown(c: Session, steps: seq<Step>)
    requires Inv(c) && Down(c.shared.m) && IsRun(c, steps) && NoStarts(c, steps)
    ensures Down(After(c, steps).shared.m)
    decreases |steps|
  {
    hide Inv, Down, Next, Enabled, Accepts;
    if steps != [] {
      StepKeeps(c, steps[0]);
      StaysDown(c, steps[0]);
      RunStaysDown(Next(c, steps[0]), steps[1..]);
    }
  }

  lemma FailMoves(c: Session, fail: Step)
    requires Enabled(c, fail) && fail.Run? && At(c, fail.t).FailMove?
    ensures Next(c, fail).shared.m == if c.shared.m == Stopping || c.shared.m == Stopped then c.shared.m else State.Error
  {
  }

  // In every interleaving, once a goroutine that records a failure has moved the
  // machine, it is in ERROR, unless it was STOPPING or STOPPED already; and it is in
  // one of the three until a Start is accepted. So a failed session is never
  // reported as ONLINE or DEGRADED.
  lemma FailedIsDown(before: seq<Step>, fail: Step, after: seq<Step>)
    requires IsRun(Init(), before) && fail.Run?
    requires Enabled(After(Init(), before), fail) && At(After(Init(), before), fail.t).FailMove?
    requires var d := Next(After(Init(), before), fail); IsRun(d, after) && NoStarts(d, after)
    ensures var c := After(Init(), before);
            Next(c, fail).shared.m == if c.shared.m == Stopping || c.shared.m == Stopped then c.shared.m else State.Error
    ensures Down(After(Next(After(Init(), before), fail), after).shared.m)
  {
    ReachableKeeps(before);
    var c := After(Init(), before);
    StepKeeps(c, fail);
    FailMoves(c, fail);
    hide Inv, Next, Enabled;
    RunStaysDown(Next(c, fail), after);
  }

  // The goroutine that finds broken open records its own cause, and this stays
  // the recorded cause: that of fail, and ErrStopped from shutdownOK.
  lemma FirstFailureIsRecorded(c: Session, step: Step, after: seq<Step>)
    requires Enabled(c, step) && step.Run? && (At(c, step.t).FailClose? || At(c, step.t).ShutdownClose?)
    requires !c.shared.sig.brokenClosed && IsRun(Next(c, step), after)
    ensures var cause := if At(c, step.t).FailClose? then At(c, step.t).err else ErrStopped;
            After(Next(c, step), after).shared.sig.breakErr == Some(cause)
  {
    assert Next(c, step).shared.sig.brokenClosed;
    FirstCauseStays(Next(c, step), after);
  }

  // ---------------------------------------------------------------------
  // What being at a point says about the connection

  // Past the recording of the end; past the request to stop; past the
  // announcement; and what follows a recording.
  ghost predicate Tells(pc: Pc, sig: Signals) {
    && (pc.FailClose? || pc.FailMove? || pc.ShutdownClose? ==> pc.next.Done? || pc.next == AbortEnter(Report))
    && (pc.AbortEnter? || pc.AbortClose? ==> pc.next.Done? || pc.next.StopWait? || pc.next.Report?)
    && (pc.FailMove? || pc == AbortEnter(Report) || pc == AbortClose(Report) || pc.Report? ==> sig.brokenClosed)
    && (pc.AbortClose? || pc.Report? ==> sig.stopRequested)
    && (pc.SpawnKeepalive? || pc.Watch? ==> sig.online)
  }

  ghost predicate Honest(c: Session) {
    && (forall t :: t in c.threads ==> Tells(c.threads[t], c.shared.sig))
    && (c.shared.sig.runErr ==> c.shared.sig.brokenClosed && c.shared.sig.stopRequested)
  }

  // The flags that are only ever raised.
  predicate Raised(a: Signals, b: Signals) {
    (a.brokenClosed ==> b.brokenClosed) && (a.stopRequested ==> b.stopRequested) && (a.online ==> b.online)
  }

  lemma MarksRaise(s: Shared, mark: Mark, t: nat)
    ensures Raised(s.sig, Apply(s, mark, t).sig)
    ensures Apply(s, mark, t).sig.runErr == (mark.SendReport? || (s.sig.runErr && !mark.TakeReport?))
  {
    hide Moved, Can;
  }

  ghost predicate TellsOn(at: Pc, s: Shared, a: Action, t: nat) {
    && Tells(a.pc, Apply(s, a.mark, t).sig)
    && (a.spawn.Some? ==> a.spawn.value.Dial? || InLoops(a.spawn.value))
    && (a.mark.SendReport? ==> at.Report?)
  }

  // How a connection task goes on.
  lemma TaskGoesOn(at: Pc, s: Shared, done: bool, arm: nat, cause: Cause)
    requires InTask(at) || at.Report? || at.Done?
    ensures var a := ConnectionAct(at, s, done, arm, cause);
            && (a.pc.SpawnKeepalive? ==> a.mark.CloseOnline?) && (a.pc.Watch? ==> at.SpawnKeepalive?)
            && (InShared(a.pc) ==> (a.pc.FailClose? || a.pc.ShutdownClose?) && a.pc.next == AbortEnter(Report))
            && !a.pc.Report? && (a.spawn.Some? ==> InLoops(a.spawn.value)) && (a.mark.SendReport? ==> at.Report?)
  {
    hide Can;
  }

  lemma TaskTells(at: Pc, s: Shared, done: bool, arm: nat, cause: Cause, t: nat)
    requires Tells(at, s.sig) && (InTask(at) || at.Report? || at.Done?)
    ensures TellsOn(at, s, ConnectionAct(at, s, done, arm, cause), t)
  {
    hide ConnectionAct, Can, Moved, InTask;
    TaskGoesOn(at, s, done, arm, cause);
    MarksRaise(s, ConnectionAct(at, s, done, arm, cause).mark, t);
    assert Apply(s, CloseOnline, t).sig.online;
    hide Apply;
  }

  lemma SharedTells(at: Pc, s: Shared, t: nat)
    requires Tells(at, s.sig) && InShared(at) && Returns(at.next)
    ensures TellsOn(at, s, SharedAct(at, s), t)
  {
    hide Moved, Can;
  }

  lemma StartTells(at: Pc, s: Shared, arm: nat, t: nat)
    requires InStart(at)
    ensures TellsOn(at, s, StartAct(at, s, arm), t)
  {
    hide Moved, Can, Apply;
  }

  lemma StopTells(at: Pc, s: Shared, t: nat)
    requires InStop(at) || at.StopSet?
    ensures TellsOn(at, s, StopAct(at, s), t)
  {
    hide Moved, Can, Apply;
  }

  lemma LoopTells(at: Pc, s: Shared, done: bool, arm: nat, cause: Cause, t: nat)
    requires InLoops(at)
    ensures TellsOn(at, s, LoopAct(at, s, done, arm, cause), t)
  {
    hide Moved, Can, Apply;
  }

  lemma ActTells(at: Pc, s: Shared, done: bool, arm: nat, cause: Cause, t: nat)
    requires Tells(at, s.sig) && (InShared(at) ==> Returns(at.next))
    ensures TellsOn(at, s, Act(at, s, done, arm, cause), t)
  {
    hide Tells, TellsOn, StartAct, StopAct, LoopAct, SharedAct, ConnectionAct;
    if InStart(at) {
      StartTells(at, s, arm, t);
    } else if InStop(at) || at.StopSet? {
      StopTells(at, s, t);
    } else if InShared(at) {
      SharedTells(at, s, t);
    } else if InLoops(at) {
      LoopTells(at, s, done, arm, cause, t);
    } else {
      TaskTells(at, s, done, arm, cause, t);
    }
  }

  lemma PerformTells(c: Session, t: nat, a: Action, child: nat)
    requires Honest(c) && t in c.threads && TellsOn(c.threads[t], c.shared, a, t) && (a.spawn.Some? ==> child !in c.threads)
    ensures Honest(Perform(c, t, a, child))
  {
    MarksRaise(c.shared, a.mark, t);
    assert Tells(c.threads[t], c.shared.sig);
    hide Apply;
  }

  lemma StepTells(c: Session, step: Step)
    requires Inv(c) && Honest(c) && Enabled(c, step)
    ensures Honest(Next(c, step))
  {
    if step.Run? {
      hide Act, Ready, TellsOn;
      var t := step.t;
      assert Fits(t, c.threads[t], c.shared) && Tells(c.threads[t], c.shared.sig);
      hide Honest, Tells;
      ActTells(c.threads[t], c.shared, CtxDone(c, t), step.arm, step.cause, t);
      PerformTells(c, t, ActOf(c, step), step.child);
    }
  }

  // ---------------------------------------------------------------------
  // Runs with one accepted Start

  // Points no goroutine leaves for a connection, unless a Start is accepted.
  predicate Unconnected(pc: Pc) {
    || pc.Done? || pc.StartCheck? || InWindow(pc) || pc.StopSet? || InStop(pc)
    || pc == AbortEnter(StopWait) || pc == AbortClose(StopWait)
  }

  // A connection task that has not reported yet.
  predicate Live(pc: Pc) {
    InTask(pc) || Rest(pc).Report?
  }

  predicate Awaits(pc: Pc) {
    pc.StartSpawn? || pc.StartWait?
  }

  ghost predicate SomeLive(c: Session) {
    exists u :: u in c.threads && Live(c.threads[u])
  }

  ghost predicate SomeFailing(c: Session) {
    exists u :: u in c.threads && c.threads[u].FailMove?
  }

  ghost predicate Before(c: Session) {
    c.shared.sig.breakErr.None? && forall t :: t in c.threads ==> Unconnected(c.threads[t])
  }

  // The connection broke for another reason than a shutdown.
  predicate Failed(sig: Signals) {
    sig.breakErr.Some? && sig.breakErr.value != ErrStopped
  }

  ghost predicate During(c: Session) {
    && (Failed(c.shared.sig) ==> Down(c.shared.m) || SomeFailing(c))
    && (forall t, u :: t in c.threads && u in c.threads && Awaits(c.threads[t]) && Awaits(c.threads[u]) ==> t == u)
    && ((exists t :: t in c.threads && c.threads[t].StartWait?) ==> c.shared.sig.online || c.shared.sig.runErr || SomeLive(c))
  }

  ghost predicate Phase(c: Session) {
    && (c.shared.tally.starts == 0 ==> Before(c))
    && (c.shared.tally.starts == 1 ==> During(c))
  }

  lemma AcceptPhase(c: Session, step: Step)
    requires Before(c) && Enabled(c, step) && Accepts(c, step)
    ensures During(Next(c, step))
  {
    hide Can, Moved;
    var d := Next(c, step);
    assert forall t :: t in d.threads && t != step.t ==> Unconnected(d.threads[t]);
    assert !Failed(d.shared.sig);
  }

  lemma UnconnectedAct(at: Pc, s: Shared, done: bool, arm: nat, cause: Cause)
    requires Unconnected(at) && !at.Done? && !(at.StartMove? && Can(s.m, Starting))
    ensures var a := Act(at, s, done, arm, cause); Unconnected(a.pc) && a.spawn.None? && !a.mark.BreakWith?
  {
    hide Can;
  }

  lemma BreakErrOf(s: Shared, mark: Mark, t: nat)
    ensures Apply(s, mark, t).sig.breakErr == if mark.BreakWith? && !s.sig.brokenClosed then Some(mark.err) else s.sig.breakErr
  {
    hide Moved, Can;
  }

  lemma StepBefore(c: Session, step: Step)
    requires Before(c) && Enabled(c, step) && !Accepts(c, step)
    ensures Before(Next(c, step))
  {
    if step.Run? {
      NotDone(c, step);
      hide Act, Apply, Can;
      UnconnectedAct(c.threads[step.t], c.shared, CtxDone(c, step.t), step.arm, step.cause);
      BreakErrOf(c.shared, ActOf(c, step).mark, step.t);
    }
  }

  // What one goroutine does for the phase.
  ghost predicate Furthers(at: Pc, a: Action) {
    && (a.mark.BreakWith? && a.mark.err != ErrStopped ==> a.pc.FailMove?)
    && (Awaits(a.pc) ==> at.StartSpawn?) && (a.spawn.Some? ==> !Awaits(a.spawn.value) && !a.spawn.value.FailMove?)
    && (a.pc.StartWait? ==> a.spawn == Some(Dial))
    && (a.mark.TakeReport? ==> at.StartWait?)
    && StaysLive(at, a)
  }

  ghost predicate StaysLive(at: Pc, a: Action) {
    Live(at) ==> Live(a.pc) || a.mark.SendReport?
  }

  lemma StartFurthers(at: Pc, s: Shared, arm: nat)
    requires InStart(at) && !(at.StartMove? && Can(s.m, Starting)) && (at.StartWait? ==> arm <= 2)
    ensures Furthers(at, StartAct(at, s, arm))
  {
    hide Can;
  }

  lemma TaskFurthers(at: Pc, s: Shared, done: bool, arm: nat, cause: Cause)
    requires InTask(at) || at.Report?
    ensures Furthers(at, ConnectionAct(at, s, done, arm, cause))
  {
    TaskStaysLive(at, s, done, arm, cause);
    hide Can, StaysLive;
  }

  lemma TaskStaysLive(at: Pc, s: Shared, done: bool, arm: nat, cause: Cause)
    requires InTask(at) || at.Report?
    ensures StaysLive(at, ConnectionAct(at, s, done, arm, cause))
  {
    hide Can;
    var a := ConnectionAct(at, s, done, arm, cause);
    assert at.Exit? ==> Live(a.pc) by {
      assert Rest(AbortEnter(Report)) == Report;
    }
    assert !at.Exit? && !at.Report? ==> InTask(a.pc);
  }

  lemma SharedFurthers(at: Pc, s: Shared)
    requires InShared(at) && Returns(at.next)
    ensures Furthers(at, SharedAct(at, s))
  {
  }

  lemma StopFurthers(at: Pc, s: Shared)
    requires InStop(at) || at.StopSet?
    ensures Furthers(at, StopAct(at, s))
  {
    hide Can;
  }

  lemma LoopFurthers(at: Pc, s: Shared, done: bool, arm: nat, cause: Cause)
    requires InLoops(at)
    ensures Furthers(at, LoopAct(at, s, done, arm, cause))
  {
  }

  lemma ActFurthers(at: Pc, s: Shared, done: bool, arm: nat, cause: Cause)
    requires !at.Done? && (InShared(at) ==> Returns(at.next)) && !(at.StartMove? && Can(s.m, Starting))
    requires Ready(at, s, done, arm)
    ensures Furthers(at, Act(at, s, done, arm, cause))
  {
    hide Furthers, Can, StartAct, StopAct, LoopAct, SharedAct, ConnectionAct;
    if InStart(at) {
      StartFurthers(at, s, arm);
    } else if InShared(at) {
      SharedFurthers(at, s);
    } else if InStop(at) || at.StopSet? {
      StopFurthers(at, s);
    } else if InLoops(at) {
      LoopFurthers(at, s, done, arm, cause);
    } else {
      TaskFurthers(at, s, done, arm, cause);
    }
  }

  lemma PerformFailed(c: Session, t: nat, a: Action, child: nat)
    requires During(c) && t in c.threads && Furthers(c.threads[t], a) && (a.spawn.Some? ==> child !in c.threads)
    requires Down(c.shared.m) || c.threads[t].FailMove? ==> Down(Apply(c.shared, a.mark, t).m)
    ensures var d := Perform(c, t, a, child); Failed(d.shared.sig) ==> Down(d.shared.m) || SomeFailing(d)
  {
    hide Down;
    BreakErrOf(c.shared, a.mark, t);
    hide Apply, Live, Awaits;
    var d := Perform(c, t, a, child);
    if Failed(d.shared.sig) && !Down(d.shared.m) {
      if Failed(c.shared.sig) {
        var u :| u in c.threads && c.threads[u].FailMove?;
        assert u != t && d.threads[u] == c.threads[u];
      } else {
        assert d.threads[t].FailMove?;
      }
    }
  }

  lemma PerformAwaits(c: Session, t: nat, a: Action, child: nat)
    requires During(c) && t in c.threads && Furthers(c.threads[t], a) && (a.spawn.Some? ==> child !in c.threads)
    ensures var d := Perform(c, t, a, child);
            forall x, y :: x in d.threads && y in d.threads && Awaits(d.threads[x]) && Awaits(d.threads[y]) ==> x == y
  {
    hide Apply, Live, SomeLive, SomeFailing, Down;
    var d := Perform(c, t, a, child);
    assert forall x :: x in d.threads && Awaits(d.threads[x]) ==> x in c.threads && Awaits(c.threads[x]);
  }

  lemma PerformWaits(c: Session, t: nat, a: Action, child: nat, w: nat)
    requires During(c) && t in c.threads && Furthers(c.threads[t], a) && (a.spawn.Some? ==> child !in c.threads)
    requires var d := Perform(c, t, a, child); w in d.threads && d.threads[w].StartWait?
    ensures var d := Perform(c, t, a, child); d.shared.sig.online || d.shared.sig.runErr || SomeLive(d)
  {
    MarksRaise(c.shared, a.mark, t);
    hide Apply, SomeFailing, Down, Failed;
    var d := Perform(c, t, a, child);
    if a.pc.StartWait? {
      assert Live(d.threads[child]);
    } else {
      assert w in c.threads && c.threads[w].StartWait? && w != t;
      assert Awaits(c.threads[w]);
      assert !a.mark.TakeReport?;
      if SomeLive(c) && !d.shared.sig.runErr {
        hide Live;
        var u :| u in c.threads && Live(c.threads[u]);
        assert Live(d.threads[u]);
      }
    }
  }

  lemma StepDuring(c: Session, step: Step)
    requires Inv(c) && During(c) && Enabled(c, step) && !Accepts(c, step)
    ensures During(Next(c, step))
  {
    var d := Next(c, step);
    if step.Run? {
      var t := step.t;
      NotDone(c, step);
      assert Fits(t, c.threads[t], c.shared);
      ActFurthers(c.threads[t], c.shared, CtxDone(c, t), step.arm, step.cause);
      if c.threads[t].FailMove? {
        FailMoves(c, step);
      } else if Down(c.shared.m) {
        StaysDown(c, step);
      }
      hide Act, Apply, Furthers, Inv, Fits, Can, Ready;
      var a := ActOf(c, step);
      PerformFailed(c, t, a, step.child);
      PerformAwaits(c, t, a, step.child);
      forall w | w in d.threads && d.threads[w].StartWait?
        ensures d.shared.sig.online || d.shared.sig.runErr || SomeLive(d)
      {
        PerformWaits(c, t, a, step.child, w);
      }
    } else {
      hide During;
      MoreThreads(c, d);
    }
  }

  // More goroutines, none of which awaits anything.
  lemma MoreThreads(c: Session, d: Session)
    requires During(c) && d.shared == c.shared
    requires forall u :: u in c.threads ==> u in d.threads && d.threads[u] == c.threads[u]
    requires forall u :: u in d.threads && u !in c.threads ==> !Awaits(d.threads[u])
    ensures During(d)
  {
    hide Live, Down, Failed;
    if SomeLive(c) {
      var u :| u in c.threads && Live(c.threads[u]);
      assert Live(d.threads[u]);
    }
    if SomeFailing(c) {
      var u :| u in c.threads && c.threads[u].FailMove?;
      assert d.threads[u].FailMove?;
    }
    hide SomeLive, SomeFailing;
    assert forall t :: t in d.threads && Awaits(d.threads[t]) ==> t in c.threads && Awaits(c.threads[t]);
  }

  lemma StepPhase(c: Session, step: Step)
    requires Inv(c) && Phase(c) && Enabled(c, step)
    ensures Phase(Next(c, step))
  {
    hide Inv, Next, Enabled, Accepts, Before, During;
    StartsCounted(c, step);
    if c.shared.tally.starts == 0 && Accepts(c, step) {
      AcceptPhase(c, step);
    } else if c.shared.tally.starts == 0 {
      StepBefore(c, step);
    } else if c.shared.tally.starts == 1 && !Accepts(c, step) {
      StepDuring(c, step);
    }
  }

  lemma {:induction false} RunTells(c: Session, steps: seq<Step>)
    requires Inv(c) && Honest(c) && Phase(c) && IsRun(c, steps)
    ensures Honest(After(c, steps)) && Phase(After(c, steps))
    decreases |steps|
  {
    hide Inv, Honest, Phase, Next, Enabled;
    if steps != [] {
      StepKeeps(c, steps[0]);
      StepTells(c, steps[0]);
      StepPhase(c, steps[0]);
      RunTells(Next(c, steps[0]), steps[1..]);
    }
  }

  lemma Reachable(steps: seq<Step>)
    requires IsRun(Init(), steps)
    ensures Honest(After(Init(), steps)) && Phase(After(Init(), steps))
  {
    assert Inv(Init()) && Honest(Init()) && Phase(Init());
    RunTells(Init(), steps);
  }

  // ---------------------------------------------------------------------
  // What every interleaving guarantees

  // A connection task reports only after broken was closed and the stop was
  // requested.
  lemma ReportedMeansEnded(steps: seq<Step>)
    requires IsRun(Init(), steps)
    ensures var sig := After(Init(), steps).shared.sig; sig.runErr ==> sig.brokenClosed && sig.stopRequested
  {
    Reachable(steps);
  }

  // With at most one accepted Start, once a cause other than a shutdown is
  // recorded the machine is in ERROR, STOPPING or STOPPED, or a goroutine is about
  // to move it there.
  lemma FailureShows(steps: seq<Step>)
    requires IsRun(Init(), steps) && After(Init(), steps).shared.tally.starts <= 1
    ensures var c := After(Init(), steps); Failed(c.shared.sig) ==> Down(c.shared.m) || SomeFailing(c)
  {
    Reachable(steps);
  }

  lemma LiveIsReady(at: Pc, s: Shared, done: bool)
    requires Live(at) && Tells(at, s.sig) && !s.sig.online && !s.sig.runErr
    ensures Ready(at, s, done, 0)
  {
  }

  lemma WaitReturns(c: Session, t: nat, arm: nat)
    requires At(c, t).StartWait? && arm <= 1 && (if arm == 0 then c.shared.sig.online else c.shared.sig.runErr)
    ensures Enabled(c, Run(t, arm, Canceled, 0)) && At(Next(c, Run(t, arm, Canceled, 0)), t).Done?
  {
    hide Apply;
  }

  lemma WaitIsServed(c: Session, t: nat)
    requires Phase(c) && c.shared.tally.starts <= 1 && At(c, t).StartWait?
    ensures c.shared.sig.online || c.shared.sig.runErr || SomeLive(c)
  {
    hide SomeLive, SomeFailing, Down, Failed;
    assert c.threads[t].StartWait? && !Unconnected(c.threads[t]);
  }

  lemma LiveSteps(c: Session) returns (step: Step)
    requires SomeLive(c) && Honest(c) && !c.shared.sig.online && !c.shared.sig.runErr
    ensures Enabled(c, step) && step.Run? && Live(At(c, step.t))
  {
    hide Live, Tells;
    var u :| u in c.threads && Live(c.threads[u]);
    var child := NewName(c.threads.Keys);
    step := Run(u, 0, Canceled, child);
    LiveIsReady(c.threads[u], c.shared, CtxDone(c, u));
    hide Ready, Act;
  }

  // With at most one accepted Start, a waiting Start can return, or its connection
  // task can take a step.
  lemma StartIsNeverStuck(steps: seq<Step>, t: nat) returns (step: Step)
    requires IsRun(Init(), steps) && After(Init(), steps).shared.tally.starts <= 1
    requires At(After(Init(), steps), t).StartWait?
    ensures Enabled(After(Init(), steps), step) && step.Run?
    ensures var c := After(Init(), steps);
            (step.t == t && At(Next(c, step), t).Done?) || Live(At(c, step.t))
  {
    Reachable(steps);
    var c := After(Init(), steps);
    hide IsRun, After, Enabled, Next, SomeLive, Live, Honest, Phase;
    WaitIsServed(c, t);
    if c.shared.sig.online {
      step := Run(t, 0, Canceled, 0);
      WaitReturns(c, t, 0);
    } else if c.shared.sig.runErr {
      step := Run(t, 1, Canceled, 0);
      WaitReturns(c, t, 1);
    } else {
      step := LiveSteps(c);
    }
  }
}
