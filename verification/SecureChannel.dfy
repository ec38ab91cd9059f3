// The encrypted channel of a session: concurrent senders serialised by
// writeMu, a wire that may lose frames, a single reader with a bounded queue,
// and one consumer that stops at the first frame it cannot open.
module SecureChannel {
  import opened Common
  import opened Noise

  // Frames the reader holds for the consumer.
  const QUEUE_CAP := 64

  // Where one Send call stands.
  datatype Sender =
    | Idle
    | Waiting(plain: Data)
    | Locked(plain: Data)
    | Sealed(frame: Data)
    | Sent

  datatype Channel = Channel(
    senders: map<nat, Sender>,
    holder: Option<nat>,
    send: Stream,
    wire: seq<Data>,
    queue: seq<Data>,
    recv: Stream,
    failed: bool,
    log: Log)

  // What happened so far: the plaintexts in seal order, those the consumer
  // opened, the counters of frames that were lost, and frames refused.
  datatype Log = Log(sealed: seq<Data>, accepted: seq<Data>, lost: set<nat>, refused: nat)

  datatype Step =
    | Call(t: nat, plain: Data)
    | Lock(t: nat)
    | Seal(t: nat)
    | Transmit(t: nat, delivered: bool)
    | Unlock(t: nat)
    | Lose(i: nat)
    | Arrive
    | Consume

  function At(c: Channel, t: nat): Sender {
    if t in c.senders then c.senders[t] else Idle
  }

  predicate Enabled(c: Channel, step: Step) {
    match step
    case Call(t, _) => At(c, t).Idle?
    case Lock(t) => At(c, t).Waiting? && c.holder == None
    case Seal(t) => At(c, t).Locked?
    case Transmit(t, _) => At(c, t).Sealed?
    case Unlock(t) => At(c, t).Sent?
    case Lose(i) => i < |c.wire|
    case Arrive => c.wire != []
    case Consume => c.queue != [] && !c.failed
  }

  function Move(c: Channel, t: nat, pc: Sender): Channel {
    c.(senders := c.senders[t := pc])
  }

  function Drop(c: Channel, frame: Data): Channel {
    if frame.Box? then c.(log := c.log.(lost := c.log.lost + {frame.nonce as nat})) else c
  }

  function Next(c: Channel, step: Step): Channel
    requires Enabled(c, step)
  {
    match step
    case Call(t, plain) => Move(c, t, Waiting(plain))
    case Lock(t) => Move(c, t, Locked(At(c, t).plain)).(holder := Some(t))
    case Seal(t) =>
      var plain := At(c, t).plain;
      Move(c, t, Sealed(c.send.Seal(plain))).(send := c.send.Next(), log := c.log.(sealed := c.log.sealed + [plain]))
    case Transmit(t, delivered) =>
      var frame := At(c, t).frame;
      var d := Move(c, t, Sent);
      if delivered then d.(wire := c.wire + [frame]) else Drop(d, frame)
    case Unlock(t) => Move(c, t, Idle).(holder := None)
    case Lose(i) => Drop(c.(wire := c.wire[..i] + c.wire[i + 1..]), c.wire[i])
    case Arrive =>
      var d := c.(wire := c.wire[1..]);
      if |c.queue| < QUEUE_CAP then d.(queue := c.queue + [c.wire[0]]) else Drop(d, c.wire[0])
    case Consume =>
      var d := c.(queue := c.queue[1..], recv := c.recv.Next());
      match c.recv.Open(c.queue[0])
      case None => d.(failed := true, log := c.log.(refused := c.log.refused + 1))
      case Some(plain) => d.(log := c.log.(accepted := c.log.accepted + [plain]))
  }

  function Fresh(key: Key): Channel {
    Channel(map[], None, Stream(key, 0), [], [], Stream(key, 0), false, Log([], [], {}, 0))
  }

  ghost predicate IsRun(c: Channel, steps: seq<Step>)
    decreases |steps|
  {
    steps != [] ==> Enabled(c, steps[0]) && IsRun(Next(c, steps[0]), steps[1..])
  }

  ghost function After(c: Channel, steps: seq<Step>): Channel
    requires IsRun(c, steps)
    decreases |steps|
  {
    if steps == [] then c else After(Next(c, steps[0]), steps[1..])
  }

  // ---------------------------------------------------------------------
  // Frames in flight

  function Held(c: Channel): seq<Data> {
    if c.holder.Some? && At(c, c.holder.value).Sealed? then [At(c, c.holder.value).frame] else []
  }

  // Every frame sealed and neither lost nor consumed, oldest first.
  function Flight(c: Channel): seq<Data> {
    c.queue + c.wire + Held(c)
  }

  // A frame is the sealing of the plaintext its counter points at.
  ghost predicate Genuine(frame: Data, key: Key, sealed: seq<Data>) {
    frame.Box? && frame.nonce < |sealed| && frame == Box(key, frame.nonce, None, sealed[frame.nonce])
  }

  ghost predicate Ordered(frames: seq<Data>, key: Key, log: Log) {
    && (forall i :: 0 <= i < |frames| ==> Genuine(frames[i], key, log.sealed))
    && (forall i :: 0 <= i < |frames| ==> |log.accepted| <= frames[i].nonce && frames[i].nonce as nat !in log.lost)
    && (forall i, j :: 0 <= i < j < |frames| ==> frames[i].nonce < frames[j].nonce)
  }

  ghost predicate Exclusive(c: Channel) {
    && (forall t :: t in c.senders && !c.senders[t].Idle? && !c.senders[t].Waiting? ==> c.holder == Some(t))
    && (c.holder.Some? ==> !At(c, c.holder.value).Idle? && !At(c, c.holder.value).Waiting?)
  }

  ghost predicate Recorded(log: Log, inFlight: nat) {
    && log.accepted <= log.sealed
    && (forall n :: n in log.lost ==> |log.accepted| <= n < |log.sealed|)
    && |log.sealed| == |log.accepted| + inFlight + |log.lost| + log.refused
  }

  ghost predicate Synchronised(c: Channel) {
    && c.send.key == c.recv.key
    && c.send.counter as int == (if |c.log.sealed| < U32_LIMIT then |c.log.sealed| else 0)
    && |c.queue| <= QUEUE_CAP
    && (c.failed ==> c.log.lost != {})
    && (c.failed || c.log.refused == 0)
    && (c.failed || c.recv.counter as int == if |c.log.accepted| < U32_LIMIT then |c.log.accepted| else 0)
  }

  ghost predicate Inv(c: Channel) {
    && Exclusive(c)
    && Ordered(Flight(c), c.send.key, c.log)
    && Recorded(c.log, |Flight(c)|)
    && Synchronised(c)
  }

  // ---------------------------------------------------------------------
  // Every step keeps the invariant

  // Losing one frame, wherever it is.
  lemma OrderedWithout(frames: seq<Data>, i: nat, key: Key, log: Log)
    requires i < |frames| && Ordered(frames, key, log) && Recorded(log, |frames|)
    ensures var log' := log.(lost := log.lost + {frames[i].nonce as nat});
            Ordered(frames[..i] + frames[i + 1..], key, log') && Recorded(log', |frames| - 1)
  {
  }

  // Sealing one more plaintext.
  lemma OrderedWith(frames: seq<Data>, plain: Data, send: Stream, log: Log)
    requires Ordered(frames, send.key, log) && Recorded(log, |frames|)
    requires send.counter as int == |log.sealed|
    ensures var log' := log.(sealed := log.sealed + [plain]);
            Ordered(frames + [send.Seal(plain)], send.key, log') && Recorded(log', |frames| + 1)
  {
  }

  // Opening the oldest frame when its turn has come.
  lemma OrderedTail(frames: seq<Data>, key: Key, log: Log)
    requires frames != [] && Ordered(frames, key, log) && Recorded(log, |frames|)
    requires frames[0].nonce == |log.accepted|
    ensures frames[0].content == log.sealed[|log.accepted|]
    ensures var log' := log.(accepted := log.accepted + [frames[0].content]);
            Ordered(frames[1..], key, log') && Recorded(log', |frames| - 1)
  {
  }

  // Strictly increasing counters that fill their range exactly are consecutive.
  lemma {:induction false} Consecutive(frames: seq<Data>, key: Key, log: Log, i: nat)
    requires Ordered(frames, key, log) && i < |frames|
    ensures frames[i].nonce >= |log.accepted| + i
    ensures |log.sealed| == |log.accepted| + |frames| ==> frames[i].nonce == |log.accepted| + i
  {
    FromBelow(frames, key, log, i);
    FromAbove(frames, key, log, i);
  }

  lemma {:induction false} FromBelow(frames: seq<Data>, key: Key, log: Log, i: nat)
    requires Ordered(frames, key, log) && i < |frames|
    ensures frames[i].nonce >= |log.accepted| + i
    decreases i
  {
    if i > 0 {
      FromBelow(frames, key, log, i - 1);
    }
  }

  lemma {:induction false} FromAbove(frames: seq<Data>, key: Key, log: Log, i: nat)
    requires Ordered(frames, key, log) && i < |frames|
    ensures frames[i].nonce <= |log.sealed| - (|frames| - i)
    decreases |frames| - i
  {
    if i + 1 < |frames| {
      FromAbove(frames, key, log, i + 1);
    } else {
      assert Genuine(frames[i], key, log.sealed);
    }
  }

  lemma SenderMoves(c: Channel, step: Step)
    requires Inv(c) && Enabled(c, step) && |Next(c, step).log.sealed| <= U32_LIMIT
    requires step.Call? || step.Lock? || step.Unlock?
    ensures Inv(Next(c, step))
  {
  }

  lemma SealKeeps(c: Channel, t: nat)
    requires Inv(c) && Enabled(c, Seal(t)) && |c.log.sealed| < U32_LIMIT
    ensures Inv(Next(c, Seal(t)))
  {
    var d := Next(c, Seal(t));
    OrderedWith(Flight(c), At(c, t).plain, c.send, c.log);
    hide Ordered, Recorded;
    assert Held(c) == [] && Held(d) == [c.send.Seal(At(c, t).plain)];
    assert Flight(d) == Flight(c) + [c.send.Seal(At(c, t).plain)];
  }

  // The frame in hand is the last one in flight.
  lemma HeldIsLast(c: Channel, t: nat)
    requires Inv(c) && At(c, t).Sealed?
    ensures c.holder == Some(t) && Held(c) == [At(c, t).frame] && Flight(c) == c.queue + c.wire + [At(c, t).frame]
    ensures At(c, t).frame.Box?
  {
    assert Flight(c)[|Flight(c)| - 1] == At(c, t).frame;
    assert Genuine(Flight(c)[|Flight(c)| - 1], c.send.key, c.log.sealed);
  }

  lemma HandedOver(c: Channel, t: nat, delivered: bool)
    requires Inv(c) && Enabled(c, Transmit(t, delivered))
    ensures Exclusive(Next(c, Transmit(t, delivered))) && Held(Next(c, Transmit(t, delivered))) == []
  {
    hide Ordered, Recorded;
    HeldIsLast(c, t);
  }

  lemma TransmitKeeps(c: Channel, t: nat, delivered: bool)
    requires Inv(c) && Enabled(c, Transmit(t, delivered))
    ensures Inv(Next(c, Transmit(t, delivered)))
  {
    hide Ordered, Recorded;
    HeldIsLast(c, t);
    HandedOver(c, t, delivered);
    hide Exclusive, Held;
    var d := Next(c, Transmit(t, delivered));
    var last := |Flight(c)| - 1;
    OrderedWithout(Flight(c), last, c.send.key, c.log);
    if delivered {
      assert Flight(d) == Flight(c);
    } else {
      assert Flight(d) == Flight(c)[..last] + Flight(c)[last + 1..];
    }
  }

  // Steps beyond the senders leave the lock and the held frame alone.
  lemma SendersRest(c: Channel, d: Channel)
    requires c.senders == d.senders && c.holder == d.holder
    ensures Held(c) == Held(d) && (Exclusive(c) <==> Exclusive(d))
  {
  }

  lemma WireIsFlight(c: Channel, i: nat)
    requires Inv(c) && i < |c.wire|
    ensures Flight(c)[|c.queue| + i] == c.wire[i] && c.wire[i].Box?
  {
    assert Flight(c)[|c.queue| + i] == c.wire[i];
    assert Genuine(Flight(c)[|c.queue| + i], c.send.key, c.log.sealed);
  }

  lemma LoseKeeps(c: Channel, i: nat)
    requires Inv(c) && Enabled(c, Lose(i))
    ensures Inv(Next(c, Lose(i)))
  {
    hide Ordered, Recorded, Held, Exclusive;
    WireIsFlight(c, i);
    var d := Next(c, Lose(i));
    SendersRest(c, d);
    var k := |c.queue| + i;
    OrderedWithout(Flight(c), k, c.send.key, c.log);
    assert Flight(d) == Flight(c)[..k] + Flight(c)[k + 1..];
  }

  // A frame that finds the queue full is lost like any other.
  lemma ArriveKeeps(c: Channel)
    requires Inv(c) && Enabled(c, Arrive)
    ensures Inv(Next(c, Arrive))
  {
    hide Ordered, Recorded, Held, Exclusive;
    var d := Next(c, Arrive);
    if |c.queue| < QUEUE_CAP {
      SendersRest(c, d);
      assert Flight(d) == Flight(c);
    } else {
      assert c.wire[..0] + c.wire[1..] == c.wire[1..];
      LoseKeeps(c, 0);
    }
  }

  // The oldest frame opens exactly when its counter is the next one due.
  lemma OpensWhenDue(c: Channel)
    requires Inv(c) && Enabled(c, Consume) && |c.log.sealed| <= U32_LIMIT
    ensures var frame := c.queue[0];
            frame.Box? && (c.recv.Open(frame) == if frame.nonce == |c.log.accepted| then Some(frame.content) else None)
    ensures c.log.lost == {} ==> c.queue[0].nonce == |c.log.accepted|
  {
    assert Flight(c)[0] == c.queue[0];
    assert Genuine(Flight(c)[0], c.send.key, c.log.sealed);
    Consecutive(Flight(c), c.send.key, c.log, 0);
  }

  lemma ConsumeKeeps(c: Channel)
    requires Inv(c) && Enabled(c, Consume) && |c.log.sealed| <= U32_LIMIT
    ensures Inv(Next(c, Consume))
  {
    var d := Next(c, Consume);
    SendersRest(c, d);
    hide Held, Exclusive;
    OpensWhenDue(c);
    assert Flight(c)[0] == c.queue[0];
    assert Flight(d) == Flight(c)[1..];
    if c.queue[0].nonce == |c.log.accepted| {
      OrderedTail(Flight(c), c.send.key, c.log);
      hide Ordered, Recorded;
    } else {
      assert Ordered(Flight(d), d.send.key, d.log);
    }
  }

  lemma StepKeeps(c: Channel, step: Step)
    requires Inv(c) && Enabled(c, step) && |Next(c, step).log.sealed| <= U32_LIMIT
    ensures Inv(Next(c, step))
  {
    hide Inv;
    match step
    case Seal(t) => SealKeeps(c, t);
    case Transmit(t, delivered) => TransmitKeeps(c, t, delivered);
    case Lose(i) => LoseKeeps(c, i);
    case Arrive => ArriveKeeps(c);
    case Consume => ConsumeKeeps(c);
    case _ => SenderMoves(c, step);
  }

  lemma {:induction false} SealedGrows(c: Channel, steps: seq<Step>)
    requires IsRun(c, steps)
    ensures c.log.sealed <= After(c, steps).log.sealed
    decreases |steps|
  {
    if steps != [] {
      SealedGrows(Next(c, steps[0]), steps[1..]);
    }
  }

  lemma {:induction false} RunKeeps(c: Channel, steps: seq<Step>)
    requires Inv(c) && IsRun(c, steps) && |After(c, steps).log.sealed| <= U32_LIMIT
    ensures Inv(After(c, steps))
    decreases |steps|
  {
    if steps != [] {
      SealedGrows(Next(c, steps[0]), steps[1..]);
      hide Inv, Enabled, Next;
      StepKeeps(c, steps[0]);
      RunKeeps(Next(c, steps[0]), steps[1..]);
    }
  }

  // ---------------------------------------------------------------------
  // What a run delivers

  function Contents(frames: seq<Data>): (plains: seq<Data>)
    requires forall i :: 0 <= i < |frames| ==> frames[i].Box?
    ensures |plains| == |frames| && forall i :: 0 <= i < |frames| ==> plains[i] == frames[i].content
  {
    seq(|frames|, i requires 0 <= i < |frames| => frames[i].content)
  }

  // In every interleaving of senders, losses, overflows and reads, what the
  // peer opens is a prefix of what was sealed, it never gets past a lost
  // frame, and it refuses a frame only after a loss. If nothing was lost, what
  // was opened and what is still in flight together are what was sealed.
  lemma OpenedIsPrefixOfSealed(key: Key, steps: seq<Step>)
    requires IsRun(Fresh(key), steps) && |After(Fresh(key), steps).log.sealed| <= U32_LIMIT
    ensures var c := After(Fresh(key), steps);
            && c.log.accepted <= c.log.sealed
            && (forall n :: n in c.log.lost ==> |c.log.accepted| <= n < |c.log.sealed|)
            && |c.log.sealed| == |c.log.accepted| + |Flight(c)| + |c.log.lost| + c.log.refused
            && |c.queue| <= QUEUE_CAP
            && (forall i :: 0 <= i < |Flight(c)| ==> Flight(c)[i].Box?)
            && (c.log.lost == {} ==> !c.failed && c.log.sealed == c.log.accepted + Contents(Flight(c)))
  {
    assert Inv(Fresh(key));
    RunKeeps(Fresh(key), steps);
    var c := After(Fresh(key), steps);
    hide IsRun, After;
    forall i | 0 <= i < |Flight(c)|
      ensures Flight(c)[i].Box?
    {
      assert Genuine(Flight(c)[i], c.send.key, c.log.sealed);
    }
    if c.log.lost == {} {
      NothingLost(c);
    }
  }

  lemma NothingLost(c: Channel)
    requires Inv(c) && c.log.lost == {}
    ensures !c.failed
    ensures forall i :: 0 <= i < |Flight(c)| ==> Flight(c)[i].Box?
    ensures c.log.sealed == c.log.accepted + Contents(Flight(c))
  {
    var frames := Flight(c);
    forall i | 0 <= i < |frames|
      ensures frames[i].Box? && frames[i].content == c.log.sealed[|c.log.accepted| + i]
    {
      Consecutive(frames, c.send.key, c.log, i);
      assert Genuine(frames[i], c.send.key, c.log.sealed);
    }
  }

  // Once everything sent has been read, the peer has opened exactly what was
  // sealed if and only if nothing was lost.
  lemma DrainedRunOpensEverything(key: Key, steps: seq<Step>)
    requires IsRun(Fresh(key), steps) && |After(Fresh(key), steps).log.sealed| <= U32_LIMIT
    requires Flight(After(Fresh(key), steps)) == []
    ensures var c := After(Fresh(key), steps);
            c.log.accepted == c.log.sealed <==> c.log.lost == {}
  {
    OpenedIsPrefixOfSealed(key, steps);
  }
}
