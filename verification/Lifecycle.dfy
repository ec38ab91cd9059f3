// The goroutines of a session from Start to Stop, interleaved step by step: any
// number of Start and Stop calls, and the connection tasks, frame readers, frame
// consumers and keepalive loops they lead to.
module Lifecycle {
  import opened Common
  import opened StateMachine

  datatype Cause = ErrStopped | Canceled | Failure(n: nat)

  // Where a goroutine stands. The shared procedures fail, shutdownOK and abort
  // carry the point they return to.
  datatype Pc =
    | Done
    // Start
    | StartCheck
    | StartLoad
    | StartMove
    | StartSpawn
    | StartWait
    // connectionTask
    | Dial
    | Dialing
    | Connected
    | Authenticate
    | Handshaking
    | Synchronise
    | SpawnConsumer
    | SpawnReader
    | ConnectIQ
    | GoOnline
    | Announce
    | SpawnKeepalive
    | Watch
    | Exit(err: Cause)
    | Report
    // serveFrames, frameConsumer, keepAliveLoop
    | Reading
    | Consuming
    | Inband
    | InbandMove
    | Ticking
    | TickState
    | Degrade(err: Cause)
    // Stop
    | StopSet
    | StopMove
    | StopMoveAgain
    | StopSend
    | StopWait
    | StopFinal
    // fail, shutdownOK, abort
    | FailClose(err: Cause, next: Pc)
    | FailMove(next: Pc)
    | ShutdownClose(next: Pc)
    | AbortEnter(next: Pc)
    | AbortClose(next: Pc)

  // The fields the goroutines share. `runErr` says whether the channel of one
  // result is full.
  datatype Signals = Signals(
    stopped: bool,
    stopRequested: bool,
    stopC: bool,
    brokenClosed: bool,
    breakErr: Option<Cause>,
    online: bool,
    runErr: bool)

  // How often each channel was closed, how many Start calls got past their
  // Move, and who set stopRequested.
  datatype Tally = Tally(broken: nat, stop: nat, ready: nat, online: nat, starts: nat, closer: Option<nat>)

  // How far the first Stop call has come, and whether a Start moved after it.
  datatype Stops = Stops(caller: Option<nat>, moved: bool, finished: bool, lateStart: bool)

  datatype Shared = Shared(m: State, sig: Signals, tally: Tally, stops: Stops)

  // ---------------------------------------------------------------------
  // What a step does to the shared fields

  datatype Mark =
    | Nothing
    | MoveTo(to: State)
    | AcceptStart
    | BreakWith(err: Cause)
    | RequestStop
    | CloseStop
    | CloseReady
    | CloseOnline
    | SendReport
    | TakeReport
    | SetStopped
    | StopMoves
    | StopMovesAgain
    | StopFinishes

  function Apply(s: Shared, mark: Mark, t: nat): Shared {
    match mark
    case Nothing => s
    case MoveTo(to) => s.(m := Moved(s.m, to))
    case AcceptStart =>
      s.(m := Moved(s.m, Starting), tally := s.tally.(starts := s.tally.starts + 1),
         stops := s.stops.(lateStart := s.stops.lateStart || s.stops.moved))
    case BreakWith(err) =>
      if s.sig.brokenClosed then s
      else s.(sig := s.sig.(brokenClosed := true, breakErr := Some(err)), tally := s.tally.(broken := s.tally.broken + 1))
    case RequestStop => s.(sig := s.sig.(stopRequested := true), tally := s.tally.(closer := Some(t)))
    case CloseStop => s.(sig := s.sig.(stopC := true), tally := s.tally.(stop := s.tally.stop + 1))
    case CloseReady => s.(tally := s.tally.(ready := s.tally.ready + 1))
    case CloseOnline => s.(sig := s.sig.(online := true), tally := s.tally.(online := s.tally.online + 1))
    case SendReport => s.(sig := s.sig.(runErr := true))
    case TakeReport => s.(sig := s.sig.(runErr := false))
    case SetStopped => s.(sig := s.sig.(stopped := true), stops := s.stops.(caller := Some(t)))
    case StopMoves => s.(m := Moved(s.m, Stopping), stops := s.stops.(moved := true))
    case StopMovesAgain => s.(m := if Can(s.m, Stopping) then Moved(s.m, Stopping) else Stopping)
    case StopFinishes => s.(m := Moved(s.m, Stopped), stops := s.stops.(finished := true))
  }

  // ---------------------------------------------------------------------
  // What a goroutine does next

  datatype Action = Action(pc: Pc, mark: Mark, spawn: Option<Pc>)

  function Go(pc: Pc): Action {
    Action(pc, Nothing, None)
  }

  function Do(mark: Mark, pc: Pc): Action {
    Action(pc, mark, None)
  }

  function Fork(child: Pc, pc: Pc): Action {
    Action(pc, Nothing, Some(child))
  }

  // Which branches of a choice are open; `done` says whether the goroutine's
  // context is.
  predicate Ready(pc: Pc, s: Shared, done: bool, arm: nat) {
    match pc
    case Done => false
    case StartWait => (arm == 0 && s.sig.online) || (arm == 1 && s.sig.runErr) || (arm == 2 && done)
    case Watch => (arm == 0 && s.sig.brokenClosed) || (arm == 1 && done)
    case Report => !s.sig.runErr
    case Consuming => (arm == 0 && done) || (arm == 1 && s.sig.stopC) || 2 <= arm <= 4
    case Ticking => (arm == 0 && done) || (arm == 1 && s.sig.stopC) || arm == 2
    case StopWait => (arm == 0 && s.sig.brokenClosed) || arm == 1
    case _ => true
  }

  function Act(pc: Pc, s: Shared, done: bool, arm: nat, cause: Cause): Action {
    if InStart(pc) then StartAct(pc, s, arm)
    else if InStop(pc) || pc.StopSet? then StopAct(pc, s)
    else if InShared(pc) then SharedAct(pc, s)
    else if InLoops(pc) then LoopAct(pc, s, done, arm, cause)
    else ConnectionAct(pc, s, done, arm, cause)
  }

  function StartAct(pc: Pc, s: Shared, arm: nat): Action {
    match pc
    case StartCheck => Go(if s.sig.stopped then Done else StartLoad)
    case StartLoad => Go(if arm == 0 then StartMove else Done)
    case StartMove => if Can(s.m, Starting) then Do(AcceptStart, StartSpawn) else Go(Done)
    case StartSpawn => Fork(Dial, StartWait)
    case StartWait => if arm == 2 then Go(AbortEnter(Done)) else if arm == 1 then Do(TakeReport, Done) else Go(Done)
    case _ => Go(pc)
  }

  function ConnectionAct(pc: Pc, s: Shared, done: bool, arm: nat, cause: Cause): Action {
    match pc
    case Dial => Do(MoveTo(Connecting), Dialing)
    case Dialing => Go(if arm == 0 then Connected else Exit(cause))
    case Connected => Do(CloseReady, Authenticate)
    case Authenticate => Do(MoveTo(Authenticating), Handshaking)
    case Handshaking => Go(if arm == 0 then Synchronise else Exit(cause))
    case Synchronise => Do(MoveTo(Syncing), SpawnConsumer)
    case SpawnConsumer => Fork(Consuming, SpawnReader)
    case SpawnReader => Fork(Reading, ConnectIQ)
    case ConnectIQ => Go(if arm == 0 then GoOnline else Exit(cause))
    case GoOnline => if Can(s.m, Online) then Do(MoveTo(Online), Announce) else Go(Exit(Failure(0)))
    case Announce => Do(CloseOnline, SpawnKeepalive)
    case SpawnKeepalive => Fork(Ticking, Watch)
    case Watch => Go(Exit(if arm == 0 && s.sig.breakErr.Some? then s.sig.breakErr.value else Canceled))
    case Exit(err) =>
      Go(if err != ErrStopped && !done then FailClose(err, AbortEnter(Report)) else ShutdownClose(AbortEnter(Report)))
    case Report => Do(SendReport, Done)
    case _ => Go(pc)
  }

  function LoopAct(pc: Pc, s: Shared, done: bool, arm: nat, cause: Cause): Action {
    match pc
    case Reading => Go(if arm == 0 then Reading else if !done then FailClose(cause, Done) else ShutdownClose(Done))
    case Consuming =>
      Go(if arm <= 1 then Done else if arm == 2 then FailClose(cause, Done) else if arm == 3 then Consuming else Inband)
    case Inband => Go(if s.m == Degraded then InbandMove else Consuming)
    case InbandMove => Do(MoveTo(Online), Consuming)
    case Ticking => Go(if arm <= 1 then Done else TickState)
    case TickState =>
      Go(if s.m == State.Error || s.m == Stopping then Done
         else if s.m != Online && s.m != Degraded then Ticking
         else if arm == 0 then Degrade(cause)
         else if arm == 1 then Ticking
         else Done)
    case Degrade(err) => Do(MoveTo(Degraded), FailClose(err, Done))
    case _ => Go(pc)
  }

  function StopAct(pc: Pc, s: Shared): Action {
    match pc
    case StopSet => if s.sig.stopped then Go(Done) else Do(SetStopped, StopMove)
    case StopMove => Do(StopMoves, StopMoveAgain)
    case StopMoveAgain => Do(StopMovesAgain, StopSend)
    case StopSend => Go(AbortEnter(StopWait))
    case StopWait => Go(StopFinal)
    case StopFinal => Do(StopFinishes, Done)
    case _ => Go(pc)
  }

  function SharedAct(pc: Pc, s: Shared): Action {
    match pc
    case FailClose(err, next) => Do(BreakWith(err), FailMove(next))
    case FailMove(next) => Do(MoveTo(State.Error), next)
    case ShutdownClose(next) => Do(BreakWith(ErrStopped), next)
    case AbortEnter(next) => if s.sig.stopRequested then Go(next) else Do(RequestStop, AbortClose(next))
    case AbortClose(next) => Do(CloseStop, next)
    case _ => Go(pc)
  }

  // ---------------------------------------------------------------------
  // Groups of points

  predicate InStart(pc: Pc) {
    pc.StartCheck? || pc.StartLoad? || pc.StartMove? || pc.StartSpawn? || pc.StartWait?
  }

  // Past the check of the stopped flag and not yet moved.
  predicate InWindow(pc: Pc) {
    pc.StartLoad? || pc.StartMove?
  }

  predicate InLoops(pc: Pc) {
    pc.Reading? || pc.Consuming? || pc.Inband? || pc.InbandMove? || pc.Ticking? || pc.TickState? || pc.Degrade?
  }

  predicate InStop(pc: Pc) {
    pc.StopMove? || pc.StopMoveAgain? || pc.StopSend? || pc.StopWait? || pc.StopFinal?
  }

  predicate InShared(pc: Pc) {
    pc.FailClose? || pc.FailMove? || pc.ShutdownClose? || pc.AbortEnter? || pc.AbortClose?
  }

  // ---------------------------------------------------------------------
  // The whole session

  // `context` gives the Start call whose context a goroutine runs under.
  datatype Session = Session(shared: Shared, threads: map<nat, Pc>, context: map<nat, nat>, cancelled: set<nat>)

  function At(c: Session, t: nat): Pc {
    if t in c.threads then c.threads[t] else Done
  }

  function CtxDone(c: Session, t: nat): bool {
    t in c.context && c.context[t] in c.cancelled
  }

  function Init(): Session {
    Session(Shared(Stopped, Signals(false, false, false, false, None, false, false), Tally(0, 0, 0, 0, 0, None),
                   Stops(None, false, false, false)),
            map[], map[], {})
  }

  // One step of goroutine t, taking the given branch of a choice, with the name
  // of the goroutine it starts, if any; the cancellation of a Start call's
  // context; or a new call.
  datatype Step =
    | Run(t: nat, arm: nat, cause: Cause, child: nat)
    | Cancel(t: nat)
    | CallStart(t: nat)
    | CallStop(t: nat)

  function ActOf(c: Session, step: Step): Action
    requires step.Run?
  {
    Act(At(c, step.t), c.shared, CtxDone(c, step.t), step.arm, step.cause)
  }

  predicate Enabled(c: Session, step: Step) {
    match step
    case Run(t, arm, cause, child) =>
      && t in c.threads && Ready(c.threads[t], c.shared, CtxDone(c, t), arm)
      && (ActOf(c, step).spawn.Some? ==> child !in c.threads)
    case Cancel(_) => true
    case CallStart(t) => t !in c.threads
    case CallStop(t) => t !in c.threads
  }

  function Next(c: Session, step: Step): Session
    requires Enabled(c, step)
  {
    match step
    case Cancel(t) => c.(cancelled := c.cancelled + {t})
    case CallStart(t) => c.(threads := c.threads[t := StartCheck], context := c.context[t := t])
    case CallStop(t) => c.(threads := c.threads[t := StopSet])
    case Run(t, arm, cause, child) => Perform(c, t, ActOf(c, step), child)
  }

  function Perform(c: Session, t: nat, a: Action, child: nat): Session {
    var d := c.(shared := Apply(c.shared, a.mark, t), threads := c.threads[t := a.pc]);
    if a.spawn.None? then d
    else d.(threads := d.threads[child := a.spawn.value],
            context := if t in c.context then c.context[child := c.context[t]] else c.context)
  }

  ghost predicate IsRun(c: Session, steps: seq<Step>)
    decreases |steps|
  {
    steps != [] ==> Enabled(c, steps[0]) && IsRun(Next(c, steps[0]), steps[1..])
  }

  ghost function After(c: Session, steps: seq<Step>): Session
    requires IsRun(c, steps)
    decreases |steps|
  {
    if steps == [] then c else After(Next(c, steps[0]), steps[1..])
  }
}
