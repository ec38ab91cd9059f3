// Several Start calls on one session: how often connReady and online are closed.
module LifecycleStarts {
  import opened Common
  import opened StateMachine
  import opened Lifecycle
  import opened LifecycleSafety
  import opened LifecycleShutdown

  // ---------------------------------------------------------------------
  // Runs in which no further Start gets past its Move

  predicate Accepts(c: Session, step: Step) {
    step.Run? && At(c, step.t).StartMove? && Can(c.shared.m, Starting)
  }

  ghost predicate NoStarts(c: Session, steps: seq<Step>)
    requires IsRun(c, steps)
    decreases |steps|
  {
    steps != [] ==> !Accepts(c, steps[0]) && NoStarts(Next(c, steps[0]), steps[1..])
  }

  // A channel that connection tasks close: which goroutines have yet to close
  // it, and how often it was closed.
  datatype Gate = ReadyGate | OnlineGate | AnnouncedGate

  // Before closing connReady; before closing online; at the point of closing it.
  predicate Pending(g: Gate, pc: Pc) {
    match g
    case ReadyGate => pc.StartSpawn? || pc.Dial? || pc.Dialing? || pc.Connected?
    case OnlineGate =>
      || pc.StartSpawn? || pc.Dial? || pc.Dialing? || pc.Connected? || pc.Authenticate? || pc.Handshaking?
      || pc.Synchronise? || pc.SpawnConsumer? || pc.SpawnReader? || pc.ConnectIQ? || pc.GoOnline? || pc.Announce?
    case AnnouncedGate => pc.Announce?
  }

  function Closes(g: Gate, tally: Tally): nat {
    if g.ReadyGate? then tally.ready else tally.online
  }

  function Closing(g: Gate): Mark {
    if g.ReadyGate? then CloseReady else CloseOnline
  }

  // At most one close, counting those still to come.
  ghost predicate Safe(g: Gate, c: Session) {
    && Closes(g, c.shared.tally) <= 1
    && (forall t, u :: t in c.threads && u in c.threads && Pending(g, c.threads[t]) && Pending(g, c.threads[u]) ==> t == u)
    && (Closes(g, c.shared.tally) == 1 ==> forall t :: t in c.threads ==> !Pending(g, c.threads[t]))
  }

  // ---------------------------------------------------------------------
  // Safe stays safe

  // What a goroutine does to a gate: nothing new becomes pending, whoever closes
  // it was pending and no longer is, and a pending goroutine is replaced by at
  // most one.
  ghost predicate Keeps(g: Gate, at: Pc, a: Action) {
    && (Pending(g, a.pc) ==> Pending(g, at))
    && (a.spawn.Some? && Pending(g, a.spawn.value) ==> Pending(g, at) && !Pending(g, a.pc))
    && (a.mark == Closing(g) ==> Pending(g, at) && !Pending(g, a.pc) && a.spawn.None?)
  }

  // ONLINE cannot be reached from here in one move.
  predicate Low(m: State) {
    !Can(m, Online)
  }

  lemma StartKeeps(g: Gate, at: Pc, s: Shared, arm: nat)
    requires InStart(at) && !(at.StartMove? && Can(s.m, Starting))
    ensures Keeps(g, at, StartAct(at, s, arm))
  {
    hide Can;
  }

  lemma ConnectionKeeps(g: Gate, at: Pc, s: Shared, done: bool, arm: nat, cause: Cause)
    requires InTask(at) && (g.AnnouncedGate? ==> Low(s.m))
    ensures Keeps(g, at, ConnectionAct(at, s, done, arm, cause))
  {
  }

  lemma AsideKeeps(g: Gate, at: Pc, a: Action)
    requires Aside(a.pc) && Mild(a.mark) && a.spawn.None?
    ensures Keeps(g, at, a)
  {
  }

  lemma ActKeeps(g: Gate, at: Pc, s: Shared, done: bool, arm: nat, cause: Cause)
    requires !at.Done? && (InShared(at) ==> Returns(at.next))
    requires !(at.StartMove? && Can(s.m, Starting)) && (g.AnnouncedGate? ==> Low(s.m))
    ensures Keeps(g, at, Act(at, s, done, arm, cause))
  {
    hide Keeps, Can, StartAct, ConnectionAct, StopAct, SharedAct, LoopAct;
    if InStart(at) {
      StartKeeps(g, at, s, arm);
    } else if Aside(at) {
      hide Act;
      ActAside(at, s, done, arm, cause);
      AsideKeeps(g, at, Act(at, s, done, arm, cause));
    } else {
      hide Act;
      ActInTask(at, s, done, arm, cause);
      ConnectionKeeps(g, at, s, done, arm, cause);
    }
  }

  lemma MarkCloses(g: Gate, s: Shared, mark: Mark, t: nat)
    ensures Closes(g, Apply(s, mark, t).tally) == Closes(g, s.tally) + if mark == Closing(g) then 1 else 0
  {
    hide Moved, Can;
  }

  lemma RunSafe(g: Gate, c: Session, step: Step)
    requires Safe(g, c) && Inv(c) && Enabled(c, step) && step.Run? && !Accepts(c, step) && (g.AnnouncedGate? ==> !CanRise(c))
    ensures Safe(g, Next(c, step))
  {
    hide Act, Ready, Apply, Can, Keeps;
    var t := step.t;
    assert Fits(t, c.threads[t], c.shared);
    assert !c.threads[t].Done? by { NotDone(c, step); }
    ActKeeps(g, c.threads[t], c.shared, CtxDone(c, t), step.arm, step.cause);
    MarkCloses(g, c.shared, ActOf(c, step).mark, t);
    PerformSafe(g, c, t, ActOf(c, step), step.child);
  }

  lemma PerformSafe(g: Gate, c: Session, t: nat, a: Action, child: nat)
    requires Safe(g, c) && t in c.threads && Keeps(g, c.threads[t], a) && (a.spawn.Some? ==> child !in c.threads)
    requires Closes(g, Apply(c.shared, a.mark, t).tally) == Closes(g, c.shared.tally) + if a.mark == Closing(g) then 1 else 0
    ensures Safe(g, Perform(c, t, a, child))
  {
    hide Pending, Closes, Apply, Closing;
  }

  lemma SafeStep(g: Gate, c: Session, step: Step)
    requires Safe(g, c) && Inv(c) && Enabled(c, step) && !Accepts(c, step) && (g.AnnouncedGate? ==> !CanRise(c))
    ensures Safe(g, Next(c, step))
  {
    hide Inv, Accepts, CanRise, Act, Ready, Apply;
    if step.Run? {
      hide Safe;
      RunSafe(g, c, step);
    }
  }

  // ---------------------------------------------------------------------
  // A machine that cannot rise

  predicate First(pc: Pc) {
    pc.StartSpawn? || pc.Dial?
  }

  predicate Early(pc: Pc) {
    First(pc) || pc.Dialing? || pc.Connected? || pc.Authenticate?
  }

  // A goroutine whose own moves will take the machine up from here.
  predicate Lifts(m: State, pc: Pc) {
    (m == Starting && First(pc)) || ((m == Connecting || m == Reconnecting) && Early(pc))
  }

  // The machine can come to ONLINE without another Start.
  ghost predicate CanRise(c: Session) {
    Can(c.shared.m, Online) || exists t :: t in c.threads && Lifts(c.shared.m, c.threads[t])
  }

  // What no goroutine does but one that lifts.
  ghost predicate Grounded(at: Pc, a: Action) {
    && !a.mark.AcceptStart?
    && (a.mark.MoveTo? ==> a.mark.to != Starting && a.mark.to != Stopping && a.mark.to != Reconnecting)
    && (a.mark == MoveTo(Connecting) ==> First(at)) && (a.mark == MoveTo(Authenticating) ==> Early(at))
    && (First(a.pc) ==> First(at)) && (Early(a.pc) ==> Early(at))
    && (a.spawn.Some? && Early(a.spawn.value) ==> First(at))
  }

  lemma StartGrounded(at: Pc, s: Shared, arm: nat)
    requires InStart(at) && !(at.StartMove? && Can(s.m, Starting))
    ensures Grounded(at, StartAct(at, s, arm))
  {
    hide Can;
  }

  lemma TaskGrounded(at: Pc, s: Shared, done: bool, arm: nat, cause: Cause)
    requires InTask(at)
    ensures Grounded(at, ConnectionAct(at, s, done, arm, cause))
  {
    hide Can;
  }

  lemma AsideGrounded(at: Pc, a: Action)
    requires Aside(a.pc) && Mild(a.mark) && a.spawn.None?
    ensures Grounded(at, a)
  {
  }

  lemma ActGrounded(at: Pc, s: Shared, done: bool, arm: nat, cause: Cause)
    requires !at.Done? && (InShared(at) ==> Returns(at.next)) && !(at.StartMove? && Can(s.m, Starting))
    ensures Grounded(at, Act(at, s, done, arm, cause))
  {
    hide Grounded, Can, StartAct, ConnectionAct, StopAct, SharedAct, LoopAct;
    if InStart(at) {
      StartGrounded(at, s, arm);
    } else if Aside(at) {
      hide Act;
      ActAside(at, s, done, arm, cause);
      AsideGrounded(at, Act(at, s, done, arm, cause));
    } else {
      hide Act;
      ActInTask(at, s, done, arm, cause);
      TaskGrounded(at, s, done, arm, cause);
    }
  }

  // Without a lift the machine stays where it is or comes to an end.
  lemma MachineGrounded(at: Pc, s: Shared, a: Action, t: nat)
    requires Low(s.m) && !Lifts(s.m, at) && Grounded(at, a)
    ensures var m := Apply(s, a.mark, t).m; m == s.m || m == Stopping || m == Stopped || m == State.Error
  {
  }

  lemma PerformGrounded(c: Session, t: nat, a: Action, child: nat)
    requires !CanRise(c) && t in c.threads && Grounded(c.threads[t], a) && (a.spawn.Some? ==> child !in c.threads)
    ensures !CanRise(Perform(c, t, a, child))
  {
    var d := Perform(c, t, a, child);
    assert !Lifts(c.shared.m, c.threads[t]);
    MachineGrounded(c.threads[t], c.shared, a, t);
    hide Apply;
    forall u | u in d.threads
      ensures !Lifts(d.shared.m, d.threads[u])
    {
      assert u in c.threads ==> !Lifts(c.shared.m, c.threads[u]);
    }
  }

  lemma StaysGrounded(c: Session, step: Step)
    requires Inv(c) && !CanRise(c) && Enabled(c, step) && !Accepts(c, step)
    ensures !CanRise(Next(c, step))
  {
    hide Act, Apply, Can;
    if step.Run? {
      NotDone(c, step);
      assert Fits(step.t, c.threads[step.t], c.shared);
      ActGrounded(c.threads[step.t], c.shared, CtxDone(c, step.t), step.arm, step.cause);
      hide CanRise, Grounded;
      PerformGrounded(c, step.t, ActOf(c, step), step.child);
    }
  }

  // ---------------------------------------------------------------------
  // Whole runs

  lemma {:induction false} SafeRun(g: Gate, c: Session, steps: seq<Step>)
    requires Safe(g, c) && Inv(c) && IsRun(c, steps) && NoStarts(c, steps) && (g.AnnouncedGate? ==> !CanRise(c))
    ensures Safe(g, After(c, steps))
    decreases |steps|
  {
    hide Safe, Inv, Next, Enabled, CanRise, Accepts;
    if steps != [] {
      StepKeeps(c, steps[0]);
      SafeStep(g, c, steps[0]);
      if g.AnnouncedGate? {
        StaysGrounded(c, steps[0]);
      }
      SafeRun(g, Next(c, steps[0]), steps[1..]);
    }
  }

  // Once nothing is pending and nothing was closed, a Start may be accepted.
  ghost predicate Unused(g: Gate, c: Session) {
    Closes(g, c.shared.tally) == 0 && forall t :: t in c.threads ==> !Pending(g, c.threads[t])
  }

  lemma AcceptIsSafe(g: Gate, c: Session, step: Step)
    requires Unused(g, c) && Enabled(c, step) && Accepts(c, step)
    ensures Safe(g, Next(c, step)) && Next(c, step).shared.tally.starts == c.shared.tally.starts + 1
  {
    hide Can, Moved;
  }

  lemma PerformUnused(g: Gate, c: Session, t: nat, a: Action, child: nat)
    requires Unused(g, c) && t in c.threads && Keeps(g, c.threads[t], a)
    requires Closes(g, Apply(c.shared, a.mark, t).tally) == Closes(g, c.shared.tally) + if a.mark == Closing(g) then 1 else 0
    ensures Unused(g, Perform(c, t, a, child))
  {
    hide Pending, Closes, Apply, Closing;
  }

  lemma UnusedStep(g: Gate, c: Session, step: Step)
    requires Unused(g, c) && Inv(c) && Enabled(c, step) && !Accepts(c, step) && !g.AnnouncedGate?
    ensures Unused(g, Next(c, step))
  {
    if step.Run? {
      hide Act, Ready, Apply, Can, Keeps;
      var t := step.t;
      assert Fits(t, c.threads[t], c.shared);
      NotDone(c, step);
      ActKeeps(g, c.threads[t], c.shared, CtxDone(c, t), step.arm, step.cause);
      MarkCloses(g, c.shared, ActOf(c, step).mark, t);
      PerformUnused(g, c, t, ActOf(c, step), step.child);
    }
  }

  lemma MarkStarts(s: Shared, mark: Mark, t: nat)
    ensures Apply(s, mark, t).tally.starts == s.tally.starts + if mark.AcceptStart? then 1 else 0
  {
    hide Moved, Can;
  }

  lemma StartsCounted(c: Session, step: Step)
    requires Inv(c) && Enabled(c, step)
    ensures Next(c, step).shared.tally.starts == c.shared.tally.starts + if Accepts(c, step) then 1 else 0
  {
    hide Act, Can, Apply;
    if step.Run? {
      NotDone(c, step);
      assert Fits(step.t, c.threads[step.t], c.shared);
      MarkStarts(c.shared, ActOf(c, step).mark, step.t);
      if Accepts(c, step) {
        AcceptsMarks(c, step);
      } else {
        ActGrounded(c.threads[step.t], c.shared, CtxDone(c, step.t), step.arm, step.cause);
      }
    }
  }

  lemma AcceptsMarks(c: Session, step: Step)
    requires Accepts(c, step)
    ensures ActOf(c, step) == Do(AcceptStart, StartSpawn)
  {
    hide Can;
  }

  // Before the first accepted Start nothing is pending or closed; with one, the
  // gate is safe.
  ghost predicate FirstStart(g: Gate, c: Session) {
    && (c.shared.tally.starts == 0 ==> Unused(g, c))
    && (c.shared.tally.starts == 1 ==> Safe(g, c))
  }

  lemma FirstStartStep(g: Gate, c: Session, step: Step)
    requires FirstStart(g, c) && Inv(c) && Enabled(c, step) && !g.AnnouncedGate?
    ensures FirstStart(g, Next(c, step))
  {
    hide Inv, Next, Enabled, Accepts, Safe, Unused;
    StartsCounted(c, step);
    if c.shared.tally.starts == 0 && Accepts(c, step) {
      AcceptIsSafe(g, c, step);
    } else if c.shared.tally.starts == 0 {
      UnusedStep(g, c, step);
    } else if c.shared.tally.starts == 1 && !Accepts(c, step) {
      SafeStep(g, c, step);
    }
  }

  lemma {:induction false} FirstStartRun(g: Gate, c: Session, steps: seq<Step>)
    requires FirstStart(g, c) && Inv(c) && IsRun(c, steps) && !g.AnnouncedGate?
    ensures FirstStart(g, After(c, steps))
    decreases |steps|
  {
    hide FirstStart, Inv, Next, Enabled;
    if steps != [] {
      StepKeeps(c, steps[0]);
      FirstStartStep(g, c, steps[0]);
      FirstStartRun(g, Next(c, steps[0]), steps[1..]);
    }
  }

  // In every interleaving in which at most one Start call gets past its Move,
  // connReady and online are each closed at most once.
  lemma OneStartClosesOnce(steps: seq<Step>)
    requires IsRun(Init(), steps) && After(Init(), steps).shared.tally.starts <= 1
    ensures var tally := After(Init(), steps).shared.tally; tally.ready <= 1 && tally.online <= 1
  {
    assert FirstStart(ReadyGate, Init()) && FirstStart(OnlineGate, Init()) && Inv(Init());
    FirstStartRun(ReadyGate, Init(), steps);
    FirstStartRun(OnlineGate, Init(), steps);
  }

  // ---------------------------------------------------------------------
  // What is pending can come

  ghost predicate Quietly(c: Session, d: Session) {
    exists steps :: IsRun(c, steps) && NoStarts(c, steps) && After(c, steps) == d
  }

  lemma QuietSelf(c: Session)
    ensures Quietly(c, c)
  {
    assert IsRun(c, []) && NoStarts(c, []) && After(c, []) == c;
  }

  lemma {:induction false} NoStartsJoins(c: Session, a: seq<Step>, b: seq<Step>)
    requires IsRun(c, a) && NoStarts(c, a) && IsRun(After(c, a), b) && NoStarts(After(c, a), b) && IsRun(c, a + b)
    ensures NoStarts(c, a + b)
    decreases |a|
  {
    hide Next, Enabled, Accepts;
    if a == [] {
      assert a + b == b;
    } else {
      assert (a + b)[0] == a[0] && (a + b)[1..] == a[1..] + b;
      NoStartsJoins(Next(c, a[0]), a[1..], b);
    }
  }

  lemma QuietOn(a: Session, b: Session, c: Session)
    requires Quietly(a, b) && Quietly(b, c)
    ensures Quietly(a, c)
  {
    var x :| IsRun(a, x) && NoStarts(a, x) && After(a, x) == b;
    var y :| IsRun(b, y) && NoStarts(b, y) && After(b, y) == c;
    RunJoins(a, x, y);
    NoStartsJoins(a, x, y);
  }

  lemma QuietStep(c: Session, step: Step)
    requires Enabled(c, step) && !Accepts(c, step)
    ensures Quietly(c, Next(c, step))
  {
    hide Next, Enabled, Accepts;
    var d := Next(c, step);
    assert [step][1..] == [] && IsRun(d, []) && NoStarts(d, []) && After(d, []) == d;
    assert IsRun(c, [step]) && NoStarts(c, [step]) && After(c, [step]) == After(d, [step][1..]);
  }

  // A name no goroutine has.
  lemma {:induction false} NewName(names: set<nat>) returns (n: nat)
    ensures forall x :: x in names ==> x < n
  {
    n := 0;
    var left := names;
    while left != {}
      invariant left <= names && forall x :: x in names ==> x in left || x < n
      decreases left
    {
      var x :| x in left;
      n := if x < n then n else x + 1;
      left := left - {x};
    }
  }

  // The machine does not stand in the way of a goroutine closing the gate.
  predicate Open(g: Gate, m: State, pc: Pc) {
    g.OnlineGate? ==> Can(m, Online) || Lifts(m, pc)
  }

  // The step in which the gate is closed.
  predicate AtGate(g: Gate, pc: Pc) {
    if g.ReadyGate? then pc.Connected? else pc.Announce?
  }

  function Distance(pc: Pc): nat {
    match pc
    case StartSpawn => 11
    case Dial => 10
    case Dialing => 9
    case Connected => 8
    case Authenticate => 7
    case Handshaking => 6
    case Synchronise => 5
    case SpawnConsumer => 4
    case SpawnReader => 3
    case ConnectIQ => 2
    case GoOnline => 1
    case _ => 0
  }

  // Nobody has to lift any more.
  predicate Risen(g: Gate, m: State) {
    g.OnlineGate? ==> Can(m, Online)
  }

  // What a pending goroutine does when everything it asks for succeeds.
  lemma TaskForward(g: Gate, at: Pc, s: Shared, done: bool)
    requires Pending(g, at) && Open(g, s.m, at) && !at.StartSpawn?
    ensures var a := ConnectionAct(at, s, done, 0, Canceled);
            && (AtGate(g, at) ==> a.mark == Closing(g) && a.spawn.None? && Risen(g, Apply(s, a.mark, 0).m))
            && (!AtGate(g, at) ==> a.mark != Closing(g) && Pending(g, a.pc) && Distance(a.pc) < Distance(at)
                                   && Open(g, Apply(s, a.mark, 0).m, a.pc))
  {
  }

  lemma ActOfPending(g: Gate, c: Session, t: nat, child: nat)
    requires t in c.threads && Pending(g, c.threads[t]) && child !in c.threads
    ensures var step := Run(t, 0, Canceled, child);
            && Enabled(c, step) && !Accepts(c, step)
            && ActOf(c, step) == if c.threads[t].StartSpawn? then Fork(Dial, StartWait)
                                 else ConnectionAct(c.threads[t], c.shared, CtxDone(c, t), 0, Canceled)
  {
    hide Can;
  }

  // Everyone but t is where they were.
  ghost predicate Elsewhere(c: Session, d: Session, t: nat) {
    forall u :: u in c.threads && u != t ==> u in d.threads && d.threads[u] == c.threads[u]
  }

  lemma MarkMachine(s: Shared, mark: Mark, t: nat)
    ensures Apply(s, mark, t).m == Apply(s, mark, 0).m
  {
    hide Moved, Can;
  }

  lemma Forward(g: Gate, c: Session, t: nat, child: nat) returns (d: Session)
    requires t in c.threads && Pending(g, c.threads[t]) && Open(g, c.shared.m, c.threads[t]) && child !in c.threads
    ensures Quietly(c, d) && Elsewhere(c, d, t)
    ensures AtGate(g, c.threads[t]) ==>
              Closes(g, d.shared.tally) == Closes(g, c.shared.tally) + 1 && Risen(g, d.shared.m)
    ensures !AtGate(g, c.threads[t]) ==>
              var u := if c.threads[t].StartSpawn? then child else t;
              && Closes(g, d.shared.tally) == Closes(g, c.shared.tally)
              && u in d.threads && Pending(g, d.threads[u]) && Distance(d.threads[u]) < Distance(c.threads[t])
              && Open(g, d.shared.m, d.threads[u])
  {
    hide Quietly, Act, Ready, ConnectionAct, Apply;
    var step := Run(t, 0, Canceled, child);
    ActOfPending(g, c, t, child);
    QuietStep(c, step);
    d := Next(c, step);
    var a := ActOf(c, step);
    MarkCloses(g, c.shared, a.mark, t);
    MarkMachine(c.shared, a.mark, t);
    if c.threads[t].StartSpawn? {
      assert Apply(c.shared, Nothing, t) == c.shared by { NothingApplies(c.shared, t); }
    } else {
      TaskForward(g, c.threads[t], c.shared, CtxDone(c, t));
    }
  }

  lemma NothingApplies(s: Shared, t: nat)
    ensures Apply(s, Nothing, t) == s
  {
  }

  lemma ElsewhereOn(c: Session, d: Session, e: Session, t: nat, u: nat)
    requires Elsewhere(c, d, t) && Elsewhere(d, e, u) && (u == t || u !in c.threads)
    ensures Elsewhere(c, e, t)
  {
  }

  // A pending goroutine can close the gate without anyone else moving.
  lemma {:induction false} Walk(g: Gate, c: Session, t: nat) returns (d: Session)
    requires t in c.threads && Pending(g, c.threads[t]) && Open(g, c.shared.m, c.threads[t])
    ensures Quietly(c, d) && Risen(g, d.shared.m) && Elsewhere(c, d, t)
    ensures Closes(g, d.shared.tally) == Closes(g, c.shared.tally) + 1
    decreases Distance(c.threads[t])
  {
    hide Quietly, Elsewhere, Closes, Open, Risen, Distance, Pending;
    var child := NewName(c.threads.Keys);
    assert child !in c.threads;
    var e := Forward(g, c, t, child);
    if AtGate(g, c.threads[t]) {
      d := e;
    } else {
      var u := if c.threads[t].StartSpawn? then child else t;
      d := Walk(g, e, u);
      QuietOn(c, e, d);
      ElsewhereOn(c, e, d, t, u);
    }
  }

  // Someone can close the gate first, and then no one has to lift any more.
  ghost predicate Opener(g: Gate, c: Session, t: nat) {
    t in c.threads && Pending(g, c.threads[t]) && Open(g, c.shared.m, c.threads[t])
  }

  // If anyone is pending and the machine can rise, someone can go first.
  lemma SomeOpener(g: Gate, c: Session, t: nat) returns (first: nat)
    requires t in c.threads && Pending(g, c.threads[t]) && (g.OnlineGate? ==> CanRise(c))
    ensures Opener(g, c, first)
  {
    first := t;
    if g.OnlineGate? && !Can(c.shared.m, Online) {
      first :| first in c.threads && Lifts(c.shared.m, c.threads[first]);
    }
  }

  lemma WalkAfter(g: Gate, c: Session, t: nat) returns (d: Session)
    requires t in c.threads && Pending(g, c.threads[t]) && Risen(g, c.shared.m)
    ensures Quietly(c, d) && Closes(g, d.shared.tally) == Closes(g, c.shared.tally) + 1
  {
    hide Quietly, Can;
    d := Walk(g, c, t);
  }

  // If two closes are made or pending, and the machine does not stand in the
  // way, the gate can be closed twice.
  lemma UnsafeClosesTwice(g: Gate, c: Session) returns (d: Session)
    requires !Safe(g, c) && (g.OnlineGate? ==> CanRise(c))
    ensures Quietly(c, d) && Closes(g, d.shared.tally) >= 2
  {
    hide Quietly, Closes, Open, Pending, CanRise, Risen, Elsewhere;
    if Closes(g, c.shared.tally) >= 2 {
      QuietSelf(c);
      d := c;
    } else if Closes(g, c.shared.tally) == 1 && exists t :: t in c.threads && Pending(g, c.threads[t]) {
      var t :| t in c.threads && Pending(g, c.threads[t]);
      var first := SomeOpener(g, c, t);
      d := Walk(g, c, first);
    } else {
      var t, u :| t in c.threads && u in c.threads && Pending(g, c.threads[t]) && Pending(g, c.threads[u]) && t != u;
      var first := SomeOpener(g, c, t);
      var e := Walk(g, c, first);
      var second := if first == t then u else t;
      StillThere(c, e, first, second);
      d := WalkAfter(g, e, second);
      QuietOn(c, e, d);
    }
  }

  lemma StillThere(c: Session, d: Session, t: nat, u: nat)
    requires Elsewhere(c, d, t) && u in c.threads && u != t
    ensures u in d.threads && d.threads[u] == c.threads[u]
  {
  }

  // However the session goes on without another accepted Start, the gate is
  // closed at most once.
  ghost predicate ClosedOnce(g: Gate, c: Session) {
    forall steps :: IsRun(c, steps) && NoStarts(c, steps) ==> Closes(g, After(c, steps).shared.tally) <= 1
  }

  lemma SafeExactly(g: Gate, c: Session)
    requires Inv(c) && (g.OnlineGate? ==> CanRise(c)) && (g.AnnouncedGate? ==> !CanRise(c))
    ensures ClosedOnce(g, c) <==> Safe(g, c)
  {
    if Safe(g, c) {
      forall steps | IsRun(c, steps) && NoStarts(c, steps)
        ensures Closes(g, After(c, steps).shared.tally) <= 1
      {
        SafeRun(g, c, steps);
      }
    } else {
      var d := UnsafeClosesTwice(g, c);
      hide Safe;
      var steps :| IsRun(c, steps) && NoStarts(c, steps) && After(c, steps) == d;
      assert Closes(g, After(c, steps).shared.tally) >= 2;
    }
  }

  // In every reachable state, however the session goes on without another
  // accepted Start: connReady will be closed at most once if and only if at most
  // one close has been made or is pending. The same holds of online if the
  // machine can still rise; if it cannot, with only the tasks at the very point
  // of announcing pending.
  lemma ClosedOnceExactly(before: seq<Step>)
    requires IsRun(Init(), before)
    ensures var c := After(Init(), before);
            && (ClosedOnce(ReadyGate, c) <==> Safe(ReadyGate, c))
            && (ClosedOnce(OnlineGate, c) <==> Safe(if CanRise(c) then OnlineGate else AnnouncedGate, c))
  {
    ReachableKeeps(before);
    hide Inv, Safe, CanRise;
    var c := After(Init(), before);
    SafeExactly(ReadyGate, c);
    if CanRise(c) {
      SafeExactly(OnlineGate, c);
    } else {
      SafeExactly(AnnouncedGate, c);
      assert ClosedOnce(OnlineGate, c) == ClosedOnce(AnnouncedGate, c);
    }
  }

  // ---------------------------------------------------------------------
  // Two overlapping Start calls

  lemma OneMore(c: Session, step: Step) returns (d: Session)
    requires Reaches(Init(), c) && Enabled(c, step)
    ensures Reaches(Init(), d) && d == Next(c, step)
  {
    hide Next, Enabled, Reaches;
    ReachesStep(Init(), c, step);
    d := Next(c, step);
  }

  // A Start call alone gets past its Move.
  lemma StartAccepted(c: Session, t: nat) returns (d: Session)
    requires Reaches(Init(), c) && t !in c.threads && !c.shared.sig.stopped && Can(c.shared.m, Starting)
    ensures Reaches(Init(), d) && d.shared.m == Starting && d.shared.sig == c.shared.sig
    ensures d.threads == c.threads[t := StartSpawn]
  {
    hide Reaches, Can;
    d := OneMore(c, CallStart(t));
    d := OneMore(d, Run(t, 0, Canceled, 0));
    d := OneMore(d, Run(t, 0, Canceled, 0));
    d := OneMore(d, Run(t, 0, Canceled, 0));
    assert d.threads == c.threads[t := StartSpawn];
  }

  // Where a task that succeeds in everything goes, and what it makes of the machine.
  function Onward(pc: Pc, m: State): (Pc, State) {
    match pc
    case Dial => (Dialing, Moved(m, Connecting))
    case Dialing => (Connected, m)
    case Connected => (Authenticate, m)
    case Authenticate => (Handshaking, Moved(m, Authenticating))
    case Handshaking => (Synchronise, m)
    case Synchronise => (SpawnConsumer, Moved(m, Syncing))
    case _ => (pc, m)
  }

  predicate Setting(pc: Pc) {
    pc.Dial? || pc.Dialing? || pc.Connected? || pc.Authenticate? || pc.Handshaking? || pc.Synchronise?
  }

  lemma OnwardStep(c: Session, t: nat) returns (d: Session)
    requires Reaches(Init(), c) && t in c.threads && Setting(c.threads[t])
    ensures Reaches(Init(), d) && t in d.threads && Elsewhere(c, d, t)
    ensures (d.threads[t], d.shared.m) == Onward(c.threads[t], c.shared.m)
  {
    hide Reaches, Moved, Act, Ready;
    var child := NewName(c.threads.Keys);
    assert child !in c.threads;
    ActOfPending(OnlineGate, c, t, child);
    d := OneMore(c, Run(t, 0, Canceled, child));
  }

  // A connection task alone takes the machine from STARTING to SYNCING.
  lemma TaskSyncs(c: Session, t: nat) returns (d: Session)
    requires Reaches(Init(), c) && t in c.threads && c.threads[t].Dial? && c.shared.m == Starting
    ensures Reaches(Init(), d) && d.shared.m == Syncing && t in d.threads && d.threads[t].SpawnConsumer? && Elsewhere(c, d, t)
  {
    hide Reaches, Elsewhere;
    d := c;
    ElsewhereSelf(c, t);
    while Setting(d.threads[t])
      invariant Reaches(Init(), d) && t in d.threads && Elsewhere(c, d, t)
      invariant (Setting(d.threads[t]) || d.threads[t].SpawnConsumer?) && d.shared.m == MachineAt(d.threads[t])
      decreases Distance(d.threads[t])
    {
      var e := OnwardStep(d, t);
      ElsewhereOn(c, d, e, t, t);
      d := e;
    }
  }

  function MachineAt(pc: Pc): State {
    if pc.Dial? then Starting
    else if pc.Dialing? || pc.Connected? || pc.Authenticate? then Connecting
    else if pc.Handshaking? || pc.Synchronise? then Authenticating
    else Syncing
  }

  lemma ElsewhereSelf(c: Session, t: nat)
    ensures Elsewhere(c, c, t)
  {
  }

  // Two Start calls that overlap, on a fresh session and without any failure,
  // can close online twice.
  lemma TwoStartsCloseOnlineTwice() returns (d: Session)
    ensures Reaches(Init(), d) && d.shared.tally.online >= 2
  {
    hide Reaches;
    ReachesSelf(Init());
    var c := StartAccepted(Init(), 0);
    c := StartAccepted(c, 1);
    c := OneMore(c, Run(0, 0, Canceled, 2));
    assert c.threads == map[0 := StartWait, 1 := StartSpawn, 2 := Dial];
    c := TaskSyncs(c, 2);
    assert c.threads[1].StartSpawn? && c.threads[2].SpawnConsumer?;
    assert !Safe(OnlineGate, c);
    d := UnsafeClosesTwice(OnlineGate, c);
    QuietReaches(c, d);
  }

  lemma QuietReaches(c: Session, d: Session)
    requires Reaches(Init(), c) && Quietly(c, d)
    ensures Reaches(Init(), d)
  {
    assert Reaches(c, d);
    ReachesOn(Init(), c, d);
  }
}
