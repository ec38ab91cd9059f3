// When a frame of the secure channel is lost, and that everything else arrives.
module ChannelDelivery {
  import opened Common
  import opened Noise
  import opened SecureChannel

  // ---------------------------------------------------------------------
  // What destroys a frame

  // The frames destroyed in a step: one the network loses, one whose send
  // fails, or one that arrives while 64 frames are queued.
  function Destroyed(c: Channel, step: Step): seq<Data>
    requires Enabled(c, step)
  {
    match step
    case Lose(i) => [c.wire[i]]
    case Transmit(t, delivered) => if delivered then [] else [At(c, t).frame]
    case Arrive => if |c.queue| >= 64 then [c.wire[0]] else []
    case _ => []
  }

  // The frame with counter n is destroyed somewhere in a run.
  ghost predicate Meets(c: Channel, steps: seq<Step>, n: nat)
    requires IsRun(c, steps)
    decreases |steps|
  {
    steps != [] && (HasCounter(Destroyed(c, steps[0]), n) || Meets(Next(c, steps[0]), steps[1..], n))
  }

  predicate HasCounter(frames: seq<Data>, n: nat) {
    exists i :: 0 <= i < |frames| && frames[i].Box? && frames[i].nonce == n
  }

  lemma StepLoses(c: Channel, step: Step, n: nat)
    requires Enabled(c, step)
    ensures n in Next(c, step).log.lost <==> n in c.log.lost || HasCounter(Destroyed(c, step), n)
  {
    var frames := Destroyed(c, step);
    if frames != [] {
      assert HasCounter(frames, n) <==> frames[0].Box? && frames[0].nonce == n;
    }
  }

  lemma {:induction false} RunLoses(c: Channel, steps: seq<Step>, n: nat)
    requires IsRun(c, steps)
    ensures n in After(c, steps).log.lost <==> n in c.log.lost || Meets(c, steps, n)
    decreases |steps|
  {
    hide Next, Enabled, Destroyed, HasCounter;
    if steps != [] {
      StepLoses(c, steps[0], n);
      RunLoses(Next(c, steps[0]), steps[1..], n);
    }
  }

  // In every run a frame counts as lost if and only if the network lost it, its
  // send failed, or it arrived while 64 frames were queued.
  lemma LostExactlyWhenDestroyed(key: Key, steps: seq<Step>, n: nat)
    requires IsRun(Fresh(key), steps)
    ensures n in After(Fresh(key), steps).log.lost <==> Meets(Fresh(key), steps, n)
  {
    RunLoses(Fresh(key), steps, n);
  }

  // A run in which nothing is destroyed.
  ghost predicate Lossless(c: Channel, steps: seq<Step>)
    requires IsRun(c, steps)
    decreases |steps|
  {
    steps != [] ==> Destroyed(c, steps[0]) == [] && Lossless(Next(c, steps[0]), steps[1..])
  }

  lemma {:induction false} LosslessMeetsNothing(c: Channel, steps: seq<Step>, n: nat)
    requires IsRun(c, steps) && Lossless(c, steps)
    ensures !Meets(c, steps, n)
    decreases |steps|
  {
    hide Next, Enabled, Destroyed;
    if steps != [] {
      LosslessMeetsNothing(Next(c, steps[0]), steps[1..], n);
    }
  }

  // Where nothing is destroyed nothing is lost: the peer never fails, and once
  // everything is read it has opened exactly what was sealed, in order.
  lemma LosslessRunOpensEverything(key: Key, steps: seq<Step>)
    requires IsRun(Fresh(key), steps) && Lossless(Fresh(key), steps)
    requires |After(Fresh(key), steps).log.sealed| <= U32_LIMIT
    ensures var c := After(Fresh(key), steps);
            && c.log.lost == {} && !c.failed
            && (forall i :: 0 <= i < |Flight(c)| ==> Flight(c)[i].Box?)
            && c.log.sealed == c.log.accepted + Contents(Flight(c))
            && (Flight(c) == [] ==> c.log.accepted == c.log.sealed)
  {
    var c := After(Fresh(key), steps);
    forall n
      ensures n !in c.log.lost
    {
      LostExactlyWhenDestroyed(key, steps, n);
      LosslessMeetsNothing(Fresh(key), steps, n);
    }
    OpenedIsPrefixOfSealed(key, steps);
    hide IsRun, After, Flight;
    assert Contents([]) == [];
    assert c.log.accepted + [] == c.log.accepted;
  }

  // ---------------------------------------------------------------------
  // Lossless continuations

  ghost predicate Goes(c: Channel, d: Channel) {
    exists steps :: IsRun(c, steps) && Lossless(c, steps) && After(c, steps) == d
  }

  lemma GoesNowhere(c: Channel)
    ensures Goes(c, c)
  {
    assert IsRun(c, []) && Lossless(c, []) && After(c, []) == c;
  }

  lemma {:induction false} RunJoins(c: Channel, x: seq<Step>, y: seq<Step>)
    requires IsRun(c, x) && IsRun(After(c, x), y)
    ensures IsRun(c, x + y) && After(c, x + y) == After(After(c, x), y)
    ensures Lossless(c, x) && Lossless(After(c, x), y) ==> Lossless(c, x + y)
    decreases |x|
  {
    hide Next, Enabled, Destroyed;
    if x == [] {
      assert x + y == y;
    } else {
      RunJoins(Next(c, x[0]), x[1..], y);
      assert (x + y)[0] == x[0] && (x + y)[1..] == x[1..] + y;
    }
  }

  lemma GoesOn(a: Channel, b: Channel, c: Channel)
    requires Goes(a, b) && Goes(b, c)
    ensures Goes(a, c)
  {
    var x :| IsRun(a, x) && Lossless(a, x) && After(a, x) == b;
    var y :| IsRun(b, y) && Lossless(b, y) && After(b, y) == c;
    RunJoins(a, x, y);
  }

  lemma GoesStep(c: Channel, step: Step)
    requires Enabled(c, step) && Destroyed(c, step) == []
    ensures Goes(c, Next(c, step))
  {
    hide Next, Enabled, Destroyed;
    var d := Next(c, step);
    assert [step][1..] == [] && IsRun(d, []) && Lossless(d, []) && After(d, []) == d;
    assert IsRun(c, [step]) && Lossless(c, [step]) && After(c, [step]) == After(d, [step][1..]);
  }

  lemma GoesKeeps(c: Channel, d: Channel)
    requires Inv(c) && Goes(c, d) && |d.log.sealed| <= U32_LIMIT
    ensures Inv(d)
  {
    var steps :| IsRun(c, steps) && Lossless(c, steps) && After(c, steps) == d;
    RunKeeps(c, steps);
  }

  // One step, from a good state to a good state.
  lemma Go(c: Channel, step: Step) returns (d: Channel)
    requires Inv(c) && Enabled(c, step) && Destroyed(c, step) == [] && |Next(c, step).log.sealed| <= U32_LIMIT
    ensures Goes(c, d) && Inv(d) && d == Next(c, step)
  {
    hide Inv, Next, Enabled, Destroyed;
    GoesStep(c, step);
    StepKeeps(c, step);
    d := Next(c, step);
  }

  // ---------------------------------------------------------------------
  // Reading

  // The frames on their way, apart from one a sender has in hand.
  function Pipe(c: Channel): seq<Data> {
    c.queue + c.wire
  }

  // One step of the reader or the consumer, with nothing lost so far.
  lemma Advance(c: Channel) returns (d: Channel)
    requires Inv(c) && c.log.lost == {} && |c.log.sealed| <= U32_LIMIT && Pipe(c) != []
    ensures Goes(c, d) && Inv(d) && d.log.lost == {} && d.log.sealed == c.log.sealed
    ensures d.senders == c.senders && d.holder == c.holder && d.send == c.send
    ensures if c.queue != [] then |d.queue| == |c.queue| - 1 && d.wire == c.wire else |d.wire| == |c.wire| - 1
  {
    if c.queue != [] {
      NothingLost(c);
      OpensWhenDue(c);
      hide Inv;
      d := Go(c, Consume);
    } else {
      hide Inv;
      d := Go(c, Arrive);
    }
  }

  // The peer can always catch up.
  lemma {:induction false} Drain(c: Channel) returns (d: Channel)
    requires Inv(c) && c.log.lost == {} && |c.log.sealed| <= U32_LIMIT
    ensures Goes(c, d) && Inv(d) && d.log.lost == {} && d.log.sealed == c.log.sealed && Pipe(d) == []
    ensures d.senders == c.senders && d.holder == c.holder && d.send == c.send
    decreases |c.wire|, |c.queue|
  {
    hide Inv, Goes;
    if Pipe(c) == [] {
      GoesNowhere(c);
      d := c;
    } else {
      var e := Advance(c);
      d := Drain(e);
      GoesOn(c, e, d);
    }
  }

  lemma DrainedIsOpened(c: Channel)
    requires Inv(c) && c.log.lost == {} && Pipe(c) == [] && Held(c) == []
    ensures c.log.accepted == c.log.sealed
  {
    assert Flight(c) == [];
    NothingLost(c);
    hide Inv;
    assert c.log.accepted + [] == c.log.accepted;
  }

  // ---------------------------------------------------------------------
  // Sending

  // The holder of the lock can finish.
  lemma Release(c: Channel) returns (d: Channel)
    requires Inv(c) && c.log.lost == {} && |c.log.sealed| < U32_LIMIT
    ensures Goes(c, d) && Inv(d) && d.log.lost == {} && d.holder == None && |d.log.sealed| <= |c.log.sealed| + 1
    ensures forall u :: At(c, u).Waiting? ==> At(d, u) == At(c, u)
  {
    if c.holder == None {
      GoesNowhere(c);
      d := c;
    } else {
      var t := c.holder.value;
      HolderWorks(c);
      hide Inv, Goes;
      d := c;
      GoesNowhere(c);
      if At(d, t).Locked? {
        d := FinishSeal(d, t);
      }
      if At(d, t).Sealed? {
        var e := FinishTransmit(d, t);
        GoesOn(c, d, e);
        d := e;
      }
      var e := FinishUnlock(d, t);
      GoesOn(c, d, e);
      d := e;
    }
  }

  lemma HolderWorks(c: Channel)
    requires Inv(c) && c.holder.Some?
    ensures var pc := At(c, c.holder.value); pc.Locked? || pc.Sealed? || pc.Sent?
  {
  }

  lemma FinishSeal(c: Channel, t: nat) returns (d: Channel)
    requires Inv(c) && c.log.lost == {} && |c.log.sealed| < U32_LIMIT && At(c, t).Locked?
    ensures Goes(c, d) && Inv(d) && d.log.lost == {} && At(d, t).Sealed? && d.holder == c.holder
    ensures d.log.sealed == c.log.sealed + [At(c, t).plain] && forall u :: u != t ==> At(d, u) == At(c, u)
  {
    hide Inv, Goes;
    d := Go(c, Seal(t));
  }

  lemma FinishTransmit(c: Channel, t: nat) returns (d: Channel)
    requires Inv(c) && c.log.lost == {} && |c.log.sealed| <= U32_LIMIT && At(c, t).Sealed?
    ensures Goes(c, d) && Inv(d) && d.log.lost == {} && At(d, t).Sent? && d.log.sealed == c.log.sealed
    ensures d.holder == c.holder && forall u :: u != t ==> At(d, u) == At(c, u)
  {
    hide Inv, Goes;
    d := Go(c, Transmit(t, true));
  }

  lemma FinishUnlock(c: Channel, t: nat) returns (d: Channel)
    requires Inv(c) && c.log.lost == {} && |c.log.sealed| <= U32_LIMIT && At(c, t).Sent?
    ensures Goes(c, d) && Inv(d) && d.log.lost == {} && d.holder == None && d.log.sealed == c.log.sealed
    ensures forall u :: u != t ==> At(d, u) == At(c, u)
  {
    hide Inv, Goes;
    d := Go(c, Unlock(t));
  }

  lemma TakeLock(c: Channel, t: nat) returns (d: Channel)
    requires Inv(c) && c.log.lost == {} && |c.log.sealed| <= U32_LIMIT && At(c, t).Waiting? && c.holder == None
    ensures Goes(c, d) && Inv(d) && d.log.lost == {} && At(d, t) == Locked(At(c, t).plain) && d.log.sealed == c.log.sealed
  {
    hide Inv, Goes;
    d := Go(c, Lock(t));
  }

  // A waiting Send can get the lock, seal, transmit and unlock.
  lemma SendGoes(c: Channel, t: nat) returns (d: Channel)
    requires Inv(c) && c.log.lost == {} && |c.log.sealed| + 2 <= U32_LIMIT && At(c, t).Waiting?
    ensures Goes(c, d) && Inv(d) && d.log.lost == {} && |d.log.sealed| <= |c.log.sealed| + 2 && d.holder == None
    ensures |d.log.sealed| > 0 && d.log.sealed[|d.log.sealed| - 1] == At(c, t).plain
  {
    hide Inv, Goes;
    var a := Release(c);
    var b := TakeLock(a, t);
    GoesOn(c, a, b);
    var e := FinishSeal(b, t);
    GoesOn(c, b, e);
    var f := FinishTransmit(e, t);
    GoesOn(c, e, f);
    d := FinishUnlock(f, t);
    GoesOn(c, f, d);
  }

  // From every reachable state in which nothing has been lost, every waiting Send
  // can get through: there is a continuation without any loss in which the peer
  // opens everything sealed, the new plaintext last.
  lemma EverySendCanArrive(key: Key, steps: seq<Step>, t: nat) returns (more: seq<Step>)
    requires IsRun(Fresh(key), steps)
    requires var c := After(Fresh(key), steps);
             c.log.lost == {} && |c.log.sealed| + 2 <= U32_LIMIT && At(c, t).Waiting?
    ensures IsRun(After(Fresh(key), steps), more) && Lossless(After(Fresh(key), steps), more)
    ensures IsRun(Fresh(key), steps + more)
    ensures var c, d := After(Fresh(key), steps), After(Fresh(key), steps + more);
            d.log.accepted == d.log.sealed && |d.log.sealed| > 0 && d.log.sealed[|d.log.sealed| - 1] == At(c, t).plain
  {
    assert Inv(Fresh(key));
    RunKeeps(Fresh(key), steps);
    var c := After(Fresh(key), steps);
    hide Inv, IsRun, After, Lossless;
    var d := SendArrives(c, t);
    more :| IsRun(c, more) && Lossless(c, more) && After(c, more) == d;
    RunJoins(Fresh(key), steps, more);
  }

  lemma SendArrives(c: Channel, t: nat) returns (d: Channel)
    requires Inv(c) && c.log.lost == {} && |c.log.sealed| + 2 <= U32_LIMIT && At(c, t).Waiting?
    ensures Goes(c, d) && d.log.accepted == d.log.sealed
    ensures |d.log.sealed| > 0 && d.log.sealed[|d.log.sealed| - 1] == At(c, t).plain
  {
    hide Inv, Goes;
    var e := SendGoes(c, t);
    d := Drain(e);
    GoesOn(c, e, d);
    NoFrameHeld(d);
    DrainedIsOpened(d);
  }

  lemma NoFrameHeld(c: Channel)
    requires c.holder == None
    ensures Held(c) == []
  {
  }

  // ---------------------------------------------------------------------
  // What is sealed is what was sent

  // The plaintexts passed to the Send calls of t, in order.
  function Called(steps: seq<Step>, t: nat): seq<Data>
    decreases |steps|
  {
    if steps == [] then []
    else (if steps[0].Call? && steps[0].t == t then [steps[0].plain] else []) + Called(steps[1..], t)
  }

  // Who sealed, in order.
  function Sealers(steps: seq<Step>): seq<nat>
    decreases |steps|
  {
    if steps == [] then []
    else (if steps[0].Seal? then [steps[0].t] else []) + Sealers(steps[1..])
  }

  // The plaintexts at the places of t.
  function Of(t: nat, who: seq<nat>, plains: seq<Data>): seq<Data>
    requires |who| == |plains|
    decreases |who|
  {
    if who == [] then []
    else (if who[0] == t then [plains[0]] else []) + Of(t, who[1..], plains[1..])
  }

  // A call of t that has not sealed yet.
  function Unsealed(s: Sender): seq<Data> {
    if s.Waiting? || s.Locked? then [s.plain] else []
  }

  // What a step seals.
  function Sealing(c: Channel, step: Step): seq<Data>
    requires Enabled(c, step)
  {
    if step.Seal? then [At(c, step.t).plain] else []
  }

  lemma SealAppends(c: Channel, step: Step)
    requires Enabled(c, step)
    ensures Next(c, step).log.sealed == c.log.sealed + Sealing(c, step)
    ensures |Sealers([step])| == |Sealing(c, step)|
  {
    assert [step][1..] == [];
  }

  lemma SenderStep(c: Channel, step: Step, t: nat)
    requires Enabled(c, step)
    ensures |Sealers([step])| == |Sealing(c, step)|
    ensures Unsealed(At(c, t)) + Called([step], t) == Of(t, Sealers([step]), Sealing(c, step)) + Unsealed(At(Next(c, step), t))
  {
    assert [step][1..] == [] && Sealers([]) == [] && Called([], t) == [];
    if step.Seal? {
      assert Sealers([step]) == [step.t] && [step.t][1..] == [] && Sealing(c, step)[1..] == [];
    }
  }

  lemma FirstStep(steps: seq<Step>, t: nat)
    requires steps != []
    ensures Called(steps, t) == Called([steps[0]], t) + Called(steps[1..], t)
    ensures Sealers(steps) == Sealers([steps[0]]) + Sealers(steps[1..])
  {
    assert [steps[0]][1..] == [];
  }

  lemma OfJoins(t: nat, who: seq<nat>, plains: seq<Data>, who': seq<nat>, plains': seq<Data>)
    requires |who| == |plains| <= 1 && |who'| == |plains'|
    ensures Of(t, who + who', plains + plains') == Of(t, who, plains) + Of(t, who', plains')
  {
    if who == [] {
      assert who + who' == who' && plains + plains' == plains';
    } else {
      assert who[1..] == [] && plains[1..] == [];
      assert (who + who')[1..] == who' && (plains + plains')[1..] == plains';
    }
  }

  lemma {:induction false} RunSeals(c: Channel, steps: seq<Step>, t: nat)
    requires IsRun(c, steps)
    ensures var d := After(c, steps);
            && c.log.sealed <= d.log.sealed && |Sealers(steps)| == |d.log.sealed| - |c.log.sealed|
            && Unsealed(At(c, t)) + Called(steps, t) ==
               Of(t, Sealers(steps), d.log.sealed[|c.log.sealed|..]) + Unsealed(At(d, t))
    decreases |steps|
  {
    hide Unsealed, Enabled, Next, Of, Called, Sealers, Sealing, At;
    if steps == [] {
      NoSteps(t);
      assert c.log.sealed[|c.log.sealed|..] == [];
    } else {
      var c1 := Next(c, steps[0]);
      var d := After(c1, steps[1..]);
      RunSeals(c1, steps[1..], t);
      SealAppends(c, steps[0]);
      SenderStep(c, steps[0], t);
      FirstStep(steps, t);
      var plains := d.log.sealed[|c1.log.sealed|..];
      assert d.log.sealed[|c.log.sealed|..] == Sealing(c, steps[0]) + plains;
      AtMostOne(c, steps[0]);
      OfJoins(t, Sealers([steps[0]]), Sealing(c, steps[0]), Sealers(steps[1..]), plains);
      Regroup(Unsealed(At(c, t)), Called([steps[0]], t), Called(steps[1..], t), Of(t, Sealers([steps[0]]), Sealing(c, steps[0])),
              Unsealed(At(c1, t)), Of(t, Sealers(steps[1..]), plains), Unsealed(At(d, t)));
    }
  }

  lemma NoSteps(t: nat)
    ensures Called([], t) == [] && Sealers([]) == [] && Of(t, [], []) == []
  {
  }

  lemma AtMostOne(c: Channel, step: Step)
    requires Enabled(c, step)
    ensures |Sealing(c, step)| <= 1
  {
  }

  lemma Regroup(a: seq<Data>, b: seq<Data>, rest: seq<Data>, s: seq<Data>, u: seq<Data>, o: seq<Data>, v: seq<Data>)
    requires a + b == s + u && u + rest == o + v
    ensures a + (b + rest) == (s + o) + v
  {
    assert a + (b + rest) == (a + b) + rest;
    assert (s + u) + rest == s + (u + rest);
    assert s + (o + v) == (s + o) + v;
  }

  // What each sender has sealed is exactly what it was called with, in order and
  // once each, but for a call that has not sealed yet.
  lemma SealedIsWhatWasSent(key: Key, steps: seq<Step>, t: nat)
    requires IsRun(Fresh(key), steps)
    ensures var d := After(Fresh(key), steps);
            && |Sealers(steps)| == |d.log.sealed|
            && Called(steps, t) == Of(t, Sealers(steps), d.log.sealed) + Unsealed(At(d, t))
  {
    var c := Fresh(key);
    RunSeals(c, steps, t);
    var d := After(c, steps);
    assert d.log.sealed[0..] == d.log.sealed;
    assert Unsealed(At(c, t)) + Called(steps, t) == Called(steps, t);
  }
}
