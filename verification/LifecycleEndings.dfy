// How each goroutine of a session ends, in every interleaving with the others.
module LifecycleEndings {
  import opened Common
  import opened StateMachine
  import opened Lifecycle
  import opened LifecycleSafety
  import opened LifecycleShutdown
  import opened LifecycleStarts
  import opened LifecycleFailure

  // ---------------------------------------------------------------------
  // Roles

  datatype Role = Reader | Consumer | Silence | Breakdown | Farewell | Starter | Refused

  // A goroutine inside fail, to go on at `next`.
  predicate Recording(pc: Pc, next: Pc, sig: Signals) {
    (pc.FailClose? && pc.next == next) || (pc == FailMove(next) && sig.brokenClosed)
  }

  // Past recording the end of its connection task.
  predicate Reporting(pc: Pc) {
    pc == AbortEnter(Report) || pc == AbortClose(Report) || pc.Report? || pc.Done?
  }

  // The points of a role, and what holds there; `done` says whether the
  // goroutine's context is.
  predicate Stands(role: Role, pc: Pc, s: Shared, done: bool) {
    var broken, down := s.sig.brokenClosed, Down(s.m);
    match role
    case Reader =>
      || pc.Reading? || Recording(pc, Done, s.sig) || (pc == ShutdownClose(Done) && done)
      || (pc.Done? && broken && (done || down))
    case Consumer =>
      || pc.Consuming? || pc.Inband? || pc.InbandMove? || Recording(pc, Done, s.sig)
      || (pc.Done? && (done || s.sig.stopC || (broken && down)))
    case Silence =>
      pc.Degrade? || Recording(pc, Done, s.sig) || (pc.Done? && broken && down)
    case Breakdown =>
      Recording(pc, AbortEnter(Report), s.sig) || (Reporting(pc) && broken && down)
    case Farewell =>
      || (pc.Watch? && s.sig.breakErr == Some(ErrStopped) && broken) || (pc.Exit? && (pc.err == ErrStopped || done))
      || pc == ShutdownClose(AbortEnter(Report)) || Reporting(pc)
    case Starter =>
      || pc.StartWait? || pc == AbortEnter(Done) || (pc == AbortClose(Done) && s.sig.stopRequested)
      || (pc.Done? && (s.sig.online || s.sig.stopRequested))
    case Refused =>
      || pc.Exit? || Recording(pc, AbortEnter(Report), s.sig) || pc == ShutdownClose(AbortEnter(Report))
      || (Reporting(pc) && broken)
  }

  // The roles whose end leaves the machine down, until a Start is accepted.
  predicate LeavesDown(role: Role) {
    role.Reader? || role.Consumer? || role.Silence? || role.Breakdown?
  }

  // ---------------------------------------------------------------------
  // What the others do

  lemma MarksGrow(s: Shared, mark: Mark, t: nat)
    ensures Raised(s.sig, Apply(s, mark, t).sig)
    ensures s.sig.stopC ==> Apply(s, mark, t).sig.stopC
    ensures s.sig.brokenClosed ==> Apply(s, mark, t).sig.breakErr == s.sig.breakErr
  {
    hide Moved, Can;
  }

  lemma StandsOn(role: Role, pc: Pc, s: Shared, s': Shared, done: bool, done': bool)
    requires Stands(role, pc, s, done) && (done ==> done')
    requires Raised(s.sig, s'.sig) && (s.sig.stopC ==> s'.sig.stopC) && (s.sig.brokenClosed ==> s'.sig.breakErr == s.sig.breakErr)
    requires LeavesDown(role) && Down(s.m) ==> Down(s'.m)
    ensures Stands(role, pc, s', done')
  {
    hide Down;
  }

  // ---------------------------------------------------------------------
  // What the goroutine itself does

  lemma LoopOwn(role: Role, pc: Pc, s: Shared, done: bool, arm: nat, cause: Cause, t: nat)
    requires Stands(role, pc, s, done) && Ready(pc, s, done, arm) && (role.Reader? || role.Consumer? || role.Silence?)
    requires InLoops(pc)
    ensures var a := LoopAct(pc, s, done, arm, cause); a.spawn.None? && Stands(role, a.pc, Apply(s, a.mark, t), done)
  {
    hide Moved, Can, Down;
    var a := LoopAct(pc, s, done, arm, cause);
    assert Apply(s, a.mark, t).sig == s.sig;
    hide Apply;
  }

  lemma FailOwn(role: Role, pc: Pc, s: Shared, done: bool, t: nat)
    requires Stands(role, pc, s, done) && (pc.FailClose? || pc.FailMove? || pc.ShutdownClose?)
    ensures var a := SharedAct(pc, s); a.spawn.None? && Stands(role, a.pc, Apply(s, a.mark, t), done)
  {
    if pc.FailMove? {
      assert Down(Moved(s.m, State.Error));
    }
    hide Can, Moved, Down;
  }

  lemma AbortOwn(role: Role, pc: Pc, s: Shared, done: bool, t: nat)
    requires Stands(role, pc, s, done) && (pc.AbortEnter? || pc.AbortClose?)
    ensures var a := SharedAct(pc, s); a.spawn.None? && Stands(role, a.pc, Apply(s, a.mark, t), done)
  {
    hide Can, Moved, Down;
  }

  lemma TaskOwn(role: Role, pc: Pc, s: Shared, done: bool, arm: nat, cause: Cause, t: nat)
    requires Stands(role, pc, s, done) && Ready(pc, s, done, arm) && (pc.Watch? || pc.Exit? || pc.Report?)
    ensures var a := ConnectionAct(pc, s, done, arm, cause);
            a.spawn.None? && Stands(role, a.pc, Apply(s, a.mark, t), done)
  {
    hide Can, Moved, Down;
  }

  lemma StartOwn(pc: Pc, s: Shared, done: bool, arm: nat, t: nat)
    requires pc.StartWait? && Ready(pc, s, done, arm) && (s.sig.runErr ==> s.sig.stopRequested)
    ensures var a := StartAct(pc, s, arm); a.spawn.None? && Stands(Starter, a.pc, Apply(s, a.mark, t), done)
  {
    hide Can, Moved, Down;
  }

  lemma Points(role: Role, pc: Pc, s: Shared, done: bool, arm: nat)
    requires Stands(role, pc, s, done) && Ready(pc, s, done, arm)
    ensures InLoops(pc) ==> role.Reader? || role.Consumer? || role.Silence?
    ensures pc.StartWait? ==> role.Starter?
    ensures InLoops(pc) || InShared(pc) || pc.StartWait? || pc.Watch? || pc.Exit? || pc.Report?
  {
    hide Down;
  }

  lemma Own(role: Role, pc: Pc, s: Shared, done: bool, arm: nat, cause: Cause, t: nat)
    requires Stands(role, pc, s, done) && Ready(pc, s, done, arm) && (s.sig.runErr ==> s.sig.stopRequested)
    ensures var a := Act(pc, s, done, arm, cause); a.spawn.None? && Stands(role, a.pc, Apply(s, a.mark, t), done)
  {
    hide Apply, Stands, Ready, LoopAct, SharedAct, ConnectionAct, StartAct, StopAct;
    Points(role, pc, s, done, arm);
    if InLoops(pc) {
      LoopOwn(role, pc, s, done, arm, cause, t);
    } else if pc.AbortEnter? || pc.AbortClose? {
      AbortOwn(role, pc, s, done, t);
    } else if InShared(pc) {
      FailOwn(role, pc, s, done, t);
    } else if pc.StartWait? {
      StartOwn(pc, s, done, arm, t);
    } else {
      TaskOwn(role, pc, s, done, arm, cause, t);
    }
  }

  // ---------------------------------------------------------------------
  // Whole runs

  ghost predicate Plays(role: Role, c: Session, t: nat) {
    t in c.threads && Stands(role, c.threads[t], c.shared, CtxDone(c, t))
  }

  lemma OwnPlays(role: Role, c: Session, t: nat, step: Step)
    requires Plays(role, c, t) && Honest(c) && Enabled(c, step) && step.Run? && step.t == t
    ensures Plays(role, Next(c, step), t)
  {
    hide Act, Ready, Apply, Stands, Tells;
    Own(role, c.threads[t], c.shared, CtxDone(c, t), step.arm, step.cause, t);
  }

  lemma OtherPlays(role: Role, c: Session, t: nat, step: Step)
    requires Inv(c) && Plays(role, c, t) && Enabled(c, step) && !(step.Run? && step.t == t)
    requires LeavesDown(role) ==> !Accepts(c, step)
    ensures Plays(role, Next(c, step), t)
  {
    if LeavesDown(role) && Down(c.shared.m) {
      StaysDown(c, step);
    }
    hide Act, Ready, Apply, Stands, Down, Inv, Accepts, LeavesDown;
    if step.Run? {
      MarksGrow(c.shared, ActOf(c, step).mark, step.t);
    }
    var d := Next(c, step);
    assert d.threads[t] == c.threads[t];
    StandsOn(role, c.threads[t], c.shared, d.shared, CtxDone(c, t), CtxDone(d, t));
  }

  lemma {:induction false} RunPlays(role: Role, c: Session, t: nat, steps: seq<Step>)
    requires Inv(c) && Honest(c) && Plays(role, c, t) && IsRun(c, steps) && (LeavesDown(role) ==> NoStarts(c, steps))
    ensures Plays(role, After(c, steps), t)
    decreases |steps|
  {
    hide Inv, Honest, Plays, Next, Enabled, Accepts;
    if steps != [] {
      StepKeeps(c, steps[0]);
      StepTells(c, steps[0]);
      if steps[0].Run? && steps[0].t == t {
        OwnPlays(role, c, t, steps[0]);
      } else {
        OtherPlays(role, c, t, steps[0]);
      }
      RunPlays(role, Next(c, steps[0]), t, steps[1..]);
    }
  }

  lemma Played(before: seq<Step>, role: Role, t: nat, after: seq<Step>)
    requires IsRun(Init(), before) && Plays(role, After(Init(), before), t)
    requires IsRun(After(Init(), before), after) && (LeavesDown(role) ==> NoStarts(After(Init(), before), after))
    ensures Plays(role, After(After(Init(), before), after), t)
  {
    hide Inv, Honest, Plays, Phase;
    ReachableKeeps(before);
    Reachable(before);
    RunPlays(role, After(Init(), before), t, after);
  }

  // ---------------------------------------------------------------------
  // How they end

  // A frame reader that has ended has closed broken; and unless its context is
  // done, the machine is in ERROR, STOPPING or STOPPED.
  lemma ReaderEnds(before: seq<Step>, t: nat, after: seq<Step>)
    requires IsRun(Init(), before) && At(After(Init(), before), t).Reading?
    requires IsRun(After(Init(), before), after) && NoStarts(After(Init(), before), after)
    ensures var d := After(After(Init(), before), after);
            At(d, t).Done? ==> d.shared.sig.brokenClosed && (CtxDone(d, t) || Down(d.shared.m))
  {
    Played(before, Reader, t, after);
  }

  // A frame consumer ends when its context is done or the stop was requested, or
  // after recording a failure.
  lemma ConsumerEnds(before: seq<Step>, t: nat, after: seq<Step>)
    requires IsRun(Init(), before) && At(After(Init(), before), t).Consuming?
    requires IsRun(After(Init(), before), after) && NoStarts(After(Init(), before), after)
    ensures var d := After(After(Init(), before), after);
            At(d, t).Done? ==>
              CtxDone(d, t) || d.shared.sig.stopC || (d.shared.sig.brokenClosed && Down(d.shared.m))
  {
    Played(before, Consumer, t, after);
  }

  // A keepalive loop that has found the connection silent ends with broken closed
  // and the machine down.
  lemma SilenceEnds(before: seq<Step>, t: nat, after: seq<Step>)
    requires IsRun(Init(), before) && At(After(Init(), before), t).Degrade?
    requires IsRun(After(Init(), before), after) && NoStarts(After(Init(), before), after)
    ensures var d := After(After(Init(), before), after);
            At(d, t).Done? ==> d.shared.sig.brokenClosed && Down(d.shared.m)
  {
    Played(before, Silence, t, after);
  }

  lemma ExitRecords(c: Session, exit: Step)
    requires Enabled(c, exit) && exit.Run? && At(c, exit.t).Exit? && At(c, exit.t).err != ErrStopped && !CtxDone(c, exit.t)
    ensures Plays(Breakdown, Next(c, exit), exit.t)
  {
  }

  // A connection task that exits with a failure, while its context is alive, has
  // closed broken and left the machine down by the time it goes on to abort and
  // report.
  lemma BreakdownEnds(before: seq<Step>, exit: Step, after: seq<Step>)
    requires IsRun(Init(), before) && exit.Run? && Enabled(After(Init(), before), exit)
    requires var c := After(Init(), before);
             At(c, exit.t).Exit? && At(c, exit.t).err != ErrStopped && !CtxDone(c, exit.t)
    requires var c := Next(After(Init(), before), exit); IsRun(c, after) && NoStarts(c, after)
    ensures var d := After(Next(After(Init(), before), exit), after);
            Reporting(At(d, exit.t)) ==> d.shared.sig.brokenClosed && Down(d.shared.m)
  {
    ExitRecords(After(Init(), before), exit);
    OneStepOn(before, exit);
    Played(before + [exit], Breakdown, exit.t, after);
  }

  lemma OneStepOn(before: seq<Step>, step: Step)
    requires IsRun(Init(), before) && Enabled(After(Init(), before), step)
    ensures IsRun(Init(), before + [step]) && After(Init(), before + [step]) == Next(After(Init(), before), step)
  {
    var c := After(Init(), before);
    hide Next, Enabled;
    var d := Next(c, step);
    assert [step][1..] == [] && IsRun(d, []) && After(d, []) == d;
    assert IsRun(c, [step]) && After(c, [step]) == d;
    RunJoins(Init(), before, [step]);
  }

  // A connection that was ended by a shutdown is not made a failure by its task:
  // a task that watches it never gets to fail.
  lemma ShutdownIsNoFailure(before: seq<Step>, t: nat, after: seq<Step>)
    requires IsRun(Init(), before) && At(After(Init(), before), t).Watch?
    requires After(Init(), before).shared.sig.breakErr == Some(ErrStopped) && IsRun(After(Init(), before), after)
    ensures var pc := At(After(After(Init(), before), after), t); !pc.FailClose? && !pc.FailMove?
  {
    ReachableKeeps(before);
    Played(before, Farewell, t, after);
  }

  // A Start that waits returns when online is closed or the stop was requested.
  lemma StartReturns(before: seq<Step>, t: nat, after: seq<Step>)
    requires IsRun(Init(), before) && At(After(Init(), before), t).StartWait? && IsRun(After(Init(), before), after)
    ensures var d := After(After(Init(), before), after);
            At(d, t).Done? ==> d.shared.sig.online || d.shared.sig.stopRequested
  {
    Played(before, Starter, t, after);
  }

  lemma RefusalExits(c: Session, step: Step)
    requires Enabled(c, step) && step.Run? && step.arm != 0
    requires At(c, step.t).Dialing? || At(c, step.t).Handshaking? || At(c, step.t).ConnectIQ?
    ensures Plays(Refused, Next(c, step), step.t)
  {
  }

  // A connection task whose dial, handshake or connect request fails never
  // announces the session, and has closed broken when it ends.
  lemma RefusedNeverAnnounces(before: seq<Step>, step: Step, after: seq<Step>)
    requires IsRun(Init(), before) && Enabled(After(Init(), before), step) && step.Run? && step.arm != 0
    requires var pc := At(After(Init(), before), step.t); pc.Dialing? || pc.Handshaking? || pc.ConnectIQ?
    requires IsRun(Next(After(Init(), before), step), after)
    ensures var d := After(Next(After(Init(), before), step), after);
            !At(d, step.t).GoOnline? && !At(d, step.t).Announce? && (At(d, step.t).Done? ==> d.shared.sig.brokenClosed)
  {
    RefusalExits(After(Init(), before), step);
    OneStepOn(before, step);
    Played(before + [step], Refused, step.t, after);
  }
}
