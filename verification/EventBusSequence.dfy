// Order across publishers: when a subscriber is sure to see events in the order
// of their sequence numbers.
module EventBusSequence {
  import opened Common
  import opened EventBus
  import opened EventBusOrder

  ghost predicate Active(at: Publisher) {
    at.Delivering? || at.MakingRoom? || at.Waiting?
  }

  // Publisher p has numbered an event and not yet delivered it to id.
  ghost predicate Bound(b: Bus, p: nat, id: nat) {
    p in b.publishers && Active(b.publishers[p]) && id in b.publishers[p].targets
  }

  ghost predicate Overlap(b: Bus, id: nat) {
    exists p, q :: p != q && Bound(b, p, id) && Bound(b, q, id)
  }

  // A run in which no event is numbered for id while another is still to be
  // delivered to it.
  ghost predicate SerialFor(b: Bus, steps: seq<Step>, id: nat)
    requires IsRun(b, steps)
    decreases |steps|
  {
    steps != [] ==> SerialStep(b, steps[0], id) && SerialFor(Next(b, steps[0]), steps[1..], id)
  }

  ghost predicate SerialStep(b: Bus, step: Step, id: nat)
    requires Enabled(b, step)
  {
    step.Number? && id in At(b, step.p).targets ==> forall q :: !Bound(b, q, id)
  }

  ghost predicate Increasing(es: seq<Event>) {
    forall i, j :: 0 <= i < j < |es| ==> es[i].seqNo < es[j].seqNo
  }

  // What the handler of id has seen is in the order of the numbers.
  ghost predicate InSequence(b: Bus, id: nat) {
    id in b.subs ==> Increasing(b.subs[id].handled + InHand(b.subs[id]))
  }

  // ---------------------------------------------------------------------
  // Serial numbering keeps the order

  // Everything enqueued is older than event number n.
  ghost predicate Older(s: Subscription, n: nat) {
    forall i :: 0 <= i < |Enqueued(s)| ==> Enqueued(s)[i].seqNo < n
  }

  ghost predicate Straight(b: Bus, id: nat) {
    && !Overlap(b, id)
    && (id in b.subs ==> Increasing(Enqueued(b.subs[id])))
    && (forall p :: Bound(b, p, id) ==> id in b.subs && Older(b.subs[id], b.publishers[p].event.seqNo))
  }

  // Publishers still bound for id were so before, with the same event.
  ghost predicate NoneBound(b: Bus, c: Bus, id: nat) {
    forall p :: Bound(c, p, id) ==> Bound(b, p, id) && c.publishers[p].event == b.publishers[p].event
  }

  ghost predicate SameEnqueued(b: Bus, c: Bus, id: nat) {
    && (id in b.subs ==> id in c.subs && Enqueued(c.subs[id]) == Enqueued(b.subs[id]))
    && (id in c.subs && id !in b.subs ==> Enqueued(c.subs[id]) == [])
  }

  lemma StraightStays(b: Bus, c: Bus, id: nat)
    requires Straight(b, id) && NoneBound(b, c, id) && SameEnqueued(b, c, id)
    ensures Straight(c, id)
  {
    hide Enqueued;
    forall p | Bound(c, p, id)
      ensures id in c.subs && Older(c.subs[id], c.publishers[p].event.seqNo)
    {
      assert Bound(b, p, id) && Older(b.subs[id], b.publishers[p].event.seqNo);
    }
  }

  lemma StraightNumber(b: Bus, p: nat, id: nat)
    requires Inv(b) && Straight(b, id) && Enabled(b, Number(p)) && SerialStep(b, Number(p), id)
    ensures Straight(Next(b, Number(p)), id)
  {
    var at := At(b, p);
    var c := Next(b, Number(p));
    assert Ready(b, p, b.publishers[p]);
    if id in at.targets {
      var i :| 0 <= i < |at.targets| && at.targets[i] == id;
      assert Ordered(b.subs[id], b.lastSeq);
      hide Ready, Ordered, Sound;
      forall q | Bound(c, q, id)
        ensures q == p
      {
        assert q != p ==> Bound(b, q, id);
      }
    } else {
      hide Ready, Ordered, Sound;
      assert NoneBound(b, c, id);
      StraightStays(b, c, id);
    }
  }

  // Delivering to id: no one else is bound for it.
  lemma StraightPush(b: Bus, p: nat)
    requires Inv(b) && HasTarget(b, p) && Straight(b, At(b, p).targets[0])
    ensures Straight(Enqueue(b, p), At(b, p).targets[0])
  {
    var id := At(b, p).targets[0];
    var c := Enqueue(b, p);
    assert Bound(b, p, id);
    PushIncreases(b.subs[id], At(b, p).event);
    PushUnbinds(b, p);
    hide Inv, Enqueued, Older, Increasing, Bound;
  }

  lemma PushIncreases(s: Subscription, e: Event)
    requires Older(s, e.seqNo) && Increasing(Enqueued(s))
    ensures Increasing(Enqueued(Push(s, e)))
  {
    assert Enqueued(Push(s, e)) == Enqueued(s) + [e];
  }

  lemma PushUnbinds(b: Bus, p: nat)
    requires Inv(b) && HasTarget(b, p) && !Overlap(b, At(b, p).targets[0])
    ensures forall q :: !Bound(Enqueue(b, p), q, At(b, p).targets[0])
  {
    var id := At(b, p).targets[0];
    assert Ready(b, p, b.publishers[p]);
    assert id !in At(b, p).targets[1..];
    hide Ready, Inv;
    assert Bound(b, p, id);
    forall q
      ensures Bound(Enqueue(b, p), q, id) ==> q != p && Bound(b, q, id)
    {
    }
  }

  lemma StraightElsewhere(b: Bus, p: nat, id: nat)
    requires HasTarget(b, p) && At(b, p).targets[0] != id && Straight(b, id)
    ensures Straight(Enqueue(b, p), id)
  {
    var c := Enqueue(b, p);
    assert NoneBound(b, c, id);
    hide Bound;
    StraightStays(b, c, id);
  }

  predicate Pushes(b: Bus, step: Step)
    requires Enabled(b, step)
  {
    step.PushWaiting? || (step.Offer? && !Full(Target(b, step.p)))
  }

  lemma OneChanged(b: Bus, x: nat, s: Subscription, id: nat)
    requires x in b.subs && Enqueued(s) == Enqueued(b.subs[x])
    ensures SameEnqueued(b, Update(b, x, s), id)
  {
    hide Enqueued;
  }

  lemma WorkerEnqueued(b: Bus, step: Step, id: nat)
    requires Inv(b) && Enabled(b, step) && (step.Fetch? || step.Invoke? || step.Quit?)
    ensures SameEnqueued(b, Next(b, step), id)
  {
    var s := b.subs[step.id];
    assert Sound(s);
    hide Inv, SameEnqueued;
    if step.Fetch? {
      TakeSound(s);
      OneChanged(b, step.id, Take(s), id);
    } else if step.Invoke? {
      HandleSound(s);
      OneChanged(b, step.id, Handle(s), id);
    } else {
      OneChanged(b, step.id, s.(running := false), id);
    }
  }

  lemma MakeRoomEnqueued(b: Bus, p: nat, id: nat)
    requires Inv(b) && Enabled(b, MakeRoom(p))
    ensures SameEnqueued(b, Next(b, MakeRoom(p)), id)
  {
    hide Inv, SameEnqueued, Evict, Enqueued;
    EvictedSame(b, p);
    OneChanged(b, At(b, p).targets[0], Evict(Target(b, p)), id);
    GotoEnqueued(b, Update(b, At(b, p).targets[0], Evict(Target(b, p))), Next(b, MakeRoom(p)), id);
  }

  lemma GotoEnqueued(b: Bus, c: Bus, d: Bus, id: nat)
    requires SameEnqueued(b, c, id) && c.subs == d.subs
    ensures SameEnqueued(b, d, id)
  {
    hide Enqueued;
  }

  // Every other step leaves what was enqueued and who is bound alone.
  lemma OtherEnqueued(b: Bus, step: Step, id: nat)
    requires Inv(b) && Enabled(b, step) && !step.Number? && !Pushes(b, step)
    ensures SameEnqueued(b, Next(b, step), id)
  {
    if step.Fetch? || step.Invoke? || step.Quit? {
      hide Inv, Enabled, Next, SameEnqueued;
      WorkerEnqueued(b, step, id);
    } else if step.MakeRoom? {
      hide Inv, Enabled, Next, SameEnqueued;
      MakeRoomEnqueued(b, step.p, id);
    } else {
      hide Inv;
      assert step.Subscribe? ==> Enqueued(Next(b, step).subs[step.id]) == [];
      hide Enqueued;
    }
  }

  lemma EvictedSame(b: Bus, p: nat)
    requires Inv(b) && Enabled(b, MakeRoom(p))
    ensures SameStream(Target(b, p), Evict(Target(b, p)))
  {
    assert Ready(b, p, b.publishers[p]);
    EvictSound(Target(b, p));
  }

  lemma OtherBound(b: Bus, step: Step, id: nat)
    requires Enabled(b, step) && !step.Number? && !Pushes(b, step)
    ensures NoneBound(b, Next(b, step), id)
  {
    hide Collects, Matches, Full;
  }

  lemma StraightStep(b: Bus, step: Step, id: nat)
    requires Inv(b) && Straight(b, id) && Enabled(b, step) && SerialStep(b, step, id)
    ensures Straight(Next(b, step), id)
  {
    if step.Number? {
      StraightNumber(b, step.p, id);
    } else if Pushes(b, step) {
      hide Inv, Straight;
      if At(b, step.p).targets[0] == id {
        StraightPush(b, step.p);
      } else {
        StraightElsewhere(b, step.p, id);
      }
    } else {
      hide Inv, Straight, Next;
      OtherEnqueued(b, step, id);
      OtherBound(b, step, id);
      StraightStays(b, Next(b, step), id);
    }
  }

  lemma {:induction false} StraightRun(b: Bus, steps: seq<Step>, id: nat)
    requires Inv(b) && Straight(b, id) && IsRun(b, steps) && SerialFor(b, steps, id)
    ensures Inv(After(b, steps)) && Straight(After(b, steps), id)
    decreases |steps|
  {
    hide Inv, Next, Enabled, Straight, SerialStep;
    if steps != [] {
      StepKeeps(b, steps[0]);
      StraightStep(b, steps[0], id);
      StraightRun(Next(b, steps[0]), steps[1..], id);
    }
  }

  lemma {:induction false} TakenIncreasing(fates: seq<Fate>)
    requires Increasing(EventsOf(fates))
    ensures Increasing(TakenOf(fates))
    ensures forall e :: e in TakenOf(fates) ==> e in EventsOf(fates)
  {
    if fates != [] {
      var n := |fates| - 1;
      var rest := fates[..n];
      assert EventsOf(rest) == EventsOf(fates)[..n];
      TakenIncreasing(rest);
      var last := fates[n];
      assert EventsOf(fates)[n] == last.event;
      forall i | 0 <= i < |TakenOf(rest)|
        ensures TakenOf(rest)[i].seqNo < last.event.seqNo
      {
        assert TakenOf(rest)[i] in EventsOf(rest);
      }
      assert forall e :: e in EventsOf(rest) ==> e in EventsOf(fates);
      assert last.event in EventsOf(fates);
    }
  }

  lemma StraightIsInSequence(b: Bus, id: nat)
    requires Inv(b) && Straight(b, id)
    ensures InSequence(b, id)
  {
    if id in b.subs {
      var s := b.subs[id];
      assert Sound(s) && Increasing(Enqueued(s));
      hide Inv, Straight;
      assert EventsOf(s.gone) == Enqueued(s)[..|s.gone|];
      TakenIncreasing(s.gone);
    }
  }

  // ---------------------------------------------------------------------
  // Continuations that number nothing new

  ghost predicate Settling(steps: seq<Step>) {
    forall i :: 0 <= i < |steps| ==> !steps[i].Number?
  }

  ghost predicate Settles(b: Bus, c: Bus) {
    exists steps :: Settling(steps) && IsRun(b, steps) && After(b, steps) == c
  }

  lemma SettlesSelf(b: Bus)
    ensures Settles(b, b)
  {
    assert Settling([]) && IsRun(b, []) && After(b, []) == b;
  }

  lemma SettlesOn(a: Bus, b: Bus, c: Bus)
    requires Settles(a, b) && Settles(b, c)
    ensures Settles(a, c)
  {
    var x :| Settling(x) && IsRun(a, x) && After(a, x) == b;
    var y :| Settling(y) && IsRun(b, y) && After(b, y) == c;
    RunJoins(a, x, y);
    assert Settling(x + y);
  }

  lemma SettlesStep(b: Bus, step: Step)
    requires Enabled(b, step) && !step.Number?
    ensures Settles(b, Next(b, step))
  {
    hide Next, Enabled;
    var c := Next(b, step);
    assert [step][1..] == [] && IsRun(c, []) && After(c, []) == c;
    assert IsRun(b, [step]) && After(b, [step]) == After(c, [step][1..]);
    assert Settling([step]);
  }

  lemma {:induction false} RunJoins(b: Bus, x: seq<Step>, y: seq<Step>)
    requires IsRun(b, x) && IsRun(After(b, x), y)
    ensures IsRun(b, x + y) && After(b, x + y) == After(After(b, x), y)
    decreases |x|
  {
    hide Next, Enabled;
    if x == [] {
      assert x + y == y;
    } else {
      RunJoins(Next(b, x[0]), x[1..], y);
      assert (x + y)[0] == x[0] && (x + y)[1..] == x[1..] + y;
    }
  }

  lemma SettlesKeeps(b: Bus, c: Bus)
    requires Inv(b) && Settles(b, c)
    ensures Inv(c)
  {
    var steps :| Settling(steps) && IsRun(b, steps) && After(b, steps) == c;
    RunKeeps(b, steps);
  }

  lemma {:induction false} SettlingIsSerial(b: Bus, steps: seq<Step>, id: nat)
    requires IsRun(b, steps) && Settling(steps)
    ensures SerialFor(b, steps, id)
    decreases |steps|
  {
    hide Next, Enabled;
    if steps != [] {
      SettlingIsSerial(Next(b, steps[0]), steps[1..], id);
    }
  }

  // ---------------------------------------------------------------------
  // An overlap can be seen in either order

  // The worker has handled everything it was given, and then `more`.
  ghost predicate Drained(s: Subscription, t: Subscription, more: seq<Event>) {
    && t.queue == [] && t.hand == None && t.handled == s.handled + InHand(s) + s.queue + more
    && t.capacity == s.capacity && t.running == s.running && t.pattern == s.pattern && t.policy == s.policy
  }

  // One step of the worker.
  lemma WorkerStep(b: Bus, id: nat) returns (c: Bus)
    requires id in b.subs && b.subs[id].running && (b.subs[id].hand.Some? || b.subs[id].queue != [])
    ensures Settles(b, c) && id in c.subs && c == Update(b, id, c.subs[id]) && c.subs[id].running
    ensures var s, t := b.subs[id], c.subs[id];
            && t.handled + InHand(t) + t.queue == s.handled + InHand(s) + s.queue
            && t.capacity == s.capacity && t.pattern == s.pattern && t.policy == s.policy
            && if s.hand.Some? then t.hand.None? && t.queue == s.queue else |t.queue| < |s.queue|
  {
    var s := b.subs[id];
    var step := if s.hand.Some? then Invoke(id) else Fetch(id);
    SettlesStep(b, step);
    c := Next(b, step);
    hide Settles;
    var t := c.subs[id];
    assert s.hand.None? ==> [s.queue[0]] + s.queue[1..] == s.queue;
    assert t.handled + InHand(t) + t.queue == s.handled + InHand(s) + s.queue;
  }

  // The worker can always catch up.
  lemma {:induction false} Drain(b: Bus, id: nat) returns (c: Bus)
    requires id in b.subs && b.subs[id].running
    ensures Settles(b, c) && id in c.subs && c == Update(b, id, c.subs[id]) && Drained(b.subs[id], c.subs[id], [])
    decreases |b.subs[id].queue|, b.subs[id].hand.Some?
  {
    hide Settles;
    var s := b.subs[id];
    if s.hand.None? && s.queue == [] {
      SettlesSelf(b);
      c := b;
      assert b.subs[id := s] == b.subs;
      assert s.handled + [] + [] + [] == s.handled;
    } else {
      var d := WorkerStep(b, id);
      c := Drain(d, id);
      SettlesOn(b, d, c);
      assert c.subs == b.subs[id := c.subs[id]];
    }
  }

  // With an empty queue the publisher gets its event in, whatever it was at.
  lemma PutIn(b: Bus, p: nat) returns (c: Bus)
    requires HasTarget(b, p) && Target(b, p).queue == [] && Target(b, p).capacity >= 1
    ensures Settles(b, c) && c == Enqueue(b, p)
  {
    var id := At(b, p).targets[0];
    if At(b, p).Delivering? {
      SettlesStep(b, Offer(p));
      c := Next(b, Offer(p));
    } else if At(b, p).Waiting? {
      SettlesStep(b, PushWaiting(p));
      c := Next(b, PushWaiting(p));
    } else {
      SettlesStep(b, MakeRoom(p));
      var d := Next(b, MakeRoom(p));
      assert d.subs == b.subs;
      SettlesStep(d, PushWaiting(p));
      c := Next(d, PushWaiting(p));
      SettlesOn(b, d, c);
      assert c.publishers == Enqueue(b, p).publishers;
    }
  }

  // What a delivery to the next target, seen by its handler, changes.
  ghost predicate Delivered(b: Bus, p: nat, c: Bus)
    requires HasTarget(b, p)
  {
    var at := At(b, p);
    var id := at.targets[0];
    && id in c.subs && Drained(b.subs[id], c.subs[id], [at.event])
    && c == Goto(Update(b, id, c.subs[id]), p, Delivering(at.event, at.targets[1..]))
  }

  lemma DeliverNext(b: Bus, p: nat) returns (c: Bus)
    requires HasTarget(b, p) && Target(b, p).running && Target(b, p).capacity >= 1
    ensures Settles(b, c) && Delivered(b, p, c)
  {
    hide Settles;
    var id := At(b, p).targets[0];
    var s, e := b.subs[id], At(b, p).event;
    var d1 := Drain(b, id);
    var d2 := PutIn(d1, p);
    assert d2.subs[id] == Push(d1.subs[id], e);
    c := Drain(d2, id);
    SettlesOn(b, d1, d2);
    SettlesOn(b, d2, c);
    assert c.subs == b.subs[id := c.subs[id]];
    assert s.handled + InHand(s) + s.queue + [] + [] + [e] + [] == s.handled + InHand(s) + s.queue + [e];
  }

  // The workers of all subscriptions p still has to deliver to are running.
  ghost predicate Served(b: Bus, p: nat) {
    Active(At(b, p)) ==>
      forall i :: 0 <= i < |At(b, p).targets| ==> At(b, p).targets[i] in b.subs && b.subs[At(b, p).targets[i]].running
  }

  // What no delivery undoes.
  ghost predicate Grows(b: Bus, c: Bus, p: nat) {
    && (forall q :: q != p ==> At(c, q) == At(b, q))
    && (forall x :: x in b.subs ==>
          x in c.subs && c.subs[x].running == b.subs[x].running && b.subs[x].handled <= c.subs[x].handled)
  }

  lemma DeliveredGrows(b: Bus, p: nat, c: Bus)
    requires HasTarget(b, p) && Delivered(b, p, c)
    ensures Grows(b, c, p)
  {
  }

  lemma GrowsOn(a: Bus, b: Bus, c: Bus, p: nat)
    requires Grows(a, b, p) && Grows(b, c, p)
    ensures Grows(a, c, p)
  {
  }

  lemma ServedStays(b: Bus, p: nat, c: Bus)
    requires HasTarget(b, p) && Served(b, p) && Delivered(b, p, c)
    ensures Served(c, p)
  {
    DeliveredGrows(b, p, c);
    hide Delivered;
    assert At(c, p).targets == At(b, p).targets[1..] by { DeliveredTargets(b, p, c); }
  }

  lemma DeliveredTargets(b: Bus, p: nat, c: Bus)
    requires HasTarget(b, p) && Delivered(b, p, c)
    ensures At(c, p) == Delivering(At(b, p).event, At(b, p).targets[1..])
  {
  }

  // The handler of id saw e last.
  ghost predicate SawLast(b: Bus, id: nat, e: Event) {
    id in b.subs && |b.subs[id].handled| > 0 && b.subs[id].handled[|b.subs[id].handled| - 1] == e
  }

  // The publisher can deliver to each of its targets in turn, up to id.
  lemma {:induction false} DeliverUpTo(b: Bus, p: nat, id: nat) returns (c: Bus)
    requires Inv(b) && Bound(b, p, id) && Served(b, p)
    ensures Settles(b, c) && Grows(b, c, p) && SawLast(c, id, At(b, p).event)
    decreases |At(b, p).targets|
  {
    hide Settles;
    var at := At(b, p);
    HasNext(b, p, id);
    var d := DeliverNext(b, p);
    DeliveredGrows(b, p, d);
    if at.targets[0] == id {
      c := d;
    } else {
      SettlesKeeps(b, d);
      ServedStays(b, p, d);
      DeliveredTargets(b, p, d);
      assert id in at.targets[1..];
      hide Inv, Served, Grows, Delivered, Drained;
      c := DeliverUpTo(d, p, id);
      SettlesOn(b, d, c);
      GrowsOn(b, d, c, p);
    }
  }

  lemma HasNext(b: Bus, p: nat, id: nat)
    requires Inv(b) && Bound(b, p, id)
    ensures HasTarget(b, p) && Target(b, p).capacity >= 1
  {
    assert Ready(b, p, b.publishers[p]);
    assert Sound(b.subs[At(b, p).targets[0]]);
  }

  lemma OwnEvents(b: Bus, p: nat, q: nat, id: nat)
    requires Inv(b) && p != q && Bound(b, p, id) && Bound(b, q, id)
    ensures At(b, p).event != At(b, q).event
  {
    assert Ready(b, p, b.publishers[p]) && Ready(b, q, b.publishers[q]);
  }

  lemma StillServed(b: Bus, c: Bus, q: nat, p: nat, id: nat)
    requires Grows(b, c, q) && p != q && Bound(b, p, id) && Served(b, p)
    ensures Bound(c, p, id) && Served(c, p) && At(c, p) == At(b, p)
  {
  }

  lemma EitherWay(b: Bus, p: nat, q: nat, id: nat) returns (c: Bus, i: nat, j: nat)
    requires Inv(b) && p != q && Bound(b, p, id) && Bound(b, q, id) && Served(b, p) && Served(b, q)
    ensures Settles(b, c) && id in c.subs && i < j < |c.subs[id].handled|
    ensures c.subs[id].handled[i] == At(b, q).event && c.subs[id].handled[j] == At(b, p).event
  {
    hide Settles, Inv;
    OwnEvents(b, p, q, id);
    var d := DeliverUpTo(b, q, id);
    SettlesKeeps(b, d);
    StillServed(b, d, q, p, id);
    hide Served, Bound;
    c := DeliverUpTo(d, p, id);
    SettlesOn(b, d, c);
    i, j := |d.subs[id].handled| - 1, |c.subs[id].handled| - 1;
    assert d.subs[id].handled <= c.subs[id].handled;
  }

  // From every reachable state in which two publishers are still to deliver to
  // id, wherever they are on their way and however full the queues, the handler
  // of id can come to see either event before the other, unless a worker on
  // their way has stopped.
  lemma OverlapCanInvert(steps: seq<Step>, p: nat, q: nat, id: nat) returns (more: seq<Step>, i: nat, j: nat)
    requires IsRun(New(), steps)
    requires var b := After(New(), steps);
             p != q && Bound(b, p, id) && Bound(b, q, id) && Served(b, p) && Served(b, q)
    ensures Settling(more) && IsRun(New(), steps + more)
    ensures var b, c := After(New(), steps), After(New(), steps + more);
            && id in c.subs && i < j < |c.subs[id].handled|
            && c.subs[id].handled[i] == At(b, q).event && c.subs[id].handled[j] == At(b, p).event
  {
    RunKeeps(New(), steps);
    hide IsRun, After, Inv, Served;
    var b := After(New(), steps);
    var c;
    c, i, j := EitherWay(b, p, q, id);
    more :| Settling(more) && IsRun(b, more) && After(b, more) == c;
    RunJoins(New(), steps, more);
  }

  // ---------------------------------------------------------------------
  // Distinct numbers

  ghost predicate Apart(b: Bus) {
    forall p, q :: p != q && p in b.publishers && q in b.publishers && Active(b.publishers[p]) && Active(b.publishers[q]) ==>
      b.publishers[p].event.seqNo != b.publishers[q].event.seqNo
  }

  ghost predicate SameEvents(b: Bus, c: Bus) {
    forall p :: p in c.publishers && Active(c.publishers[p]) ==>
      p in b.publishers && Active(b.publishers[p]) && c.publishers[p].event == b.publishers[p].event
  }

  lemma EventsStay(b: Bus, step: Step)
    requires Enabled(b, step) && !step.Number?
    ensures SameEvents(b, Next(b, step))
  {
    hide Collects, Matches, Full;
  }

  lemma ApartNumber(b: Bus, p: nat)
    requires Inv(b) && Apart(b) && Enabled(b, Number(p))
    ensures Apart(Next(b, Number(p)))
  {
    forall q | q in b.publishers && Active(b.publishers[q])
      ensures b.publishers[q].event.seqNo <= b.lastSeq
    {
      assert Ready(b, q, b.publishers[q]);
    }
    hide Inv, Ready;
  }

  lemma ApartStep(b: Bus, step: Step)
    requires Inv(b) && Apart(b) && Enabled(b, step)
    ensures Apart(Next(b, step))
  {
    if step.Number? {
      ApartNumber(b, step.p);
    } else {
      hide Next, Inv;
      EventsStay(b, step);
    }
  }

  // ---------------------------------------------------------------------
  // The exact condition

  // Whatever happens next, short of numbering another event, the handler of id
  // sees events in order.
  ghost predicate KeepsOrder(b: Bus, id: nat) {
    forall more :: IsRun(b, more) && Settling(more) ==> InSequence(After(b, more), id)
  }

  // Order is certain at every point of a run.
  ghost predicate OrderCertain(b: Bus, steps: seq<Step>, id: nat)
    requires IsRun(b, steps)
    decreases |steps|
  {
    KeepsOrder(b, id) && (steps != [] ==> OrderCertain(Next(b, steps[0]), steps[1..], id))
  }

  lemma StraightKeepsOrder(b: Bus, id: nat)
    requires Inv(b) && Straight(b, id)
    ensures KeepsOrder(b, id)
  {
    hide Inv, Straight;
    forall more | IsRun(b, more) && Settling(more)
      ensures InSequence(After(b, more), id)
    {
      SettlingIsSerial(b, more, id);
      StraightRun(b, more, id);
      StraightIsInSequence(After(b, more), id);
    }
  }

  ghost predicate AllRunning(b: Bus) {
    forall id :: id in b.subs ==> b.subs[id].running
  }

  lemma RunningServes(b: Bus, p: nat)
    requires Inv(b) && AllRunning(b)
    ensures Served(b, p)
  {
    if p in b.publishers {
      assert Ready(b, p, b.publishers[p]);
    }
  }

  lemma OverlapLosesOrder(b: Bus, id: nat)
    requires Inv(b) && Apart(b) && AllRunning(b) && Overlap(b, id)
    ensures !KeepsOrder(b, id)
  {
    var p, q :| p != q && Bound(b, p, id) && Bound(b, q, id);
    if b.publishers[p].event.seqNo > b.publishers[q].event.seqNo {
      p, q := q, p;
    }
    RunningServes(b, p);
    RunningServes(b, q);
    hide Inv, Served, AllRunning;
    var c, i, j := EitherWay(b, p, q, id);
    var more :| Settling(more) && IsRun(b, more) && After(b, more) == c;
    var seen := c.subs[id].handled + InHand(c.subs[id]);
    assert seen[i].seqNo > seen[j].seqNo;
    assert !InSequence(After(b, more), id);
  }

  ghost predicate NoQuit(steps: seq<Step>) {
    forall i :: 0 <= i < |steps| ==> !steps[i].Quit?
  }

  lemma RunningStays(b: Bus, step: Step)
    requires AllRunning(b) && Enabled(b, step) && !step.Quit?
    ensures AllRunning(Next(b, step))
  {
    hide Collects, Matches, Full;
  }

  // Numbering an event for id while another is still to be delivered overlaps.
  lemma BrokenOverlaps(b: Bus, step: Step, id: nat)
    requires Enabled(b, step) && !SerialStep(b, step, id)
    ensures Overlap(Next(b, step), id)
  {
    var q :| Bound(b, q, id);
    var c := Next(b, step);
    assert Bound(c, step.p, id) && Bound(c, q, id) && q != step.p;
  }

  lemma {:induction false} CertainExactly(b: Bus, steps: seq<Step>, id: nat)
    requires Inv(b) && Straight(b, id) && Apart(b) && AllRunning(b)
    requires IsRun(b, steps) && NoQuit(steps)
    ensures SerialFor(b, steps, id) <==> OrderCertain(b, steps, id)
    decreases |steps|
  {
    hide Inv, Straight, Apart, AllRunning, Enabled, Next, SerialStep, KeepsOrder, Overlap;
    StraightKeepsOrder(b, id);
    if steps != [] {
      var c := Next(b, steps[0]);
      StepKeeps(b, steps[0]);
      ApartStep(b, steps[0]);
      assert !steps[0].Quit?;
      RunningStays(b, steps[0]);
      if SerialStep(b, steps[0], id) {
        StraightStep(b, steps[0], id);
        CertainExactly(c, steps[1..], id);
      } else {
        BrokenOverlaps(b, steps[0], id);
        OverlapLosesOrder(c, id);
      }
    }
  }

  // In every run during which no worker has stopped, it is certain at every
  // point that the handler of id sees events in the order of their numbers if
  // and only if no event was numbered for id while another was still to be
  // delivered to it.
  lemma OrderCertainExactlyWhenSerial(steps: seq<Step>, id: nat)
    requires IsRun(New(), steps) && NoQuit(steps)
    ensures SerialFor(New(), steps, id) <==> OrderCertain(New(), steps, id)
  {
    assert Inv(New()) && Straight(New(), id) && Apart(New()) && AllRunning(New());
    CertainExactly(New(), steps, id);
  }

  // Serial numbering for id is enough in every run, stopped workers or not.
  lemma SerialKeepsOrder(steps: seq<Step>, id: nat)
    requires IsRun(New(), steps) && SerialFor(New(), steps, id)
    ensures InSequence(After(New(), steps), id)
  {
    assert Inv(New()) && Straight(New(), id);
    StraightRun(New(), steps, id);
    StraightIsInSequence(After(New(), steps), id);
  }

  // ---------------------------------------------------------------------
  // A run that shows it

  lemma RunOne(b: Bus, x: seq<Step>, step: Step)
    requires IsRun(b, x) && Enabled(After(b, x), step)
    ensures IsRun(b, x + [step]) && After(b, x + [step]) == Next(After(b, x), step)
  {
    hide Next, Enabled;
    var c := After(b, x);
    assert [step][1..] == [] && IsRun(Next(c, step), []) && After(Next(c, step), []) == Next(c, step);
    assert IsRun(c, [step]) && After(c, [step]) == After(Next(c, step), [step][1..]);
    RunJoins(b, x, [step]);
  }

  // Two publishers have numbered their events for the same subscription.
  lemma TwoPublishers() returns (steps: seq<Step>)
    ensures IsRun(New(), steps)
    ensures var b := After(New(), steps);
            && 0 in b.subs && b.subs[0].running
            && At(b, 1) == Delivering(Event(1, "x", 1), [0]) && At(b, 2) == Delivering(Event(2, "x", 2), [0])
  {
    assert IsRun(New(), []) && After(New(), []) == New();
    hide IsRun, After;
    steps := [];
    var b := New();
    RunOne(New(), steps, Subscribe(0, "*", 2, Block));
    steps, b := steps + [Subscribe(0, "*", 2, Block)], Next(b, Subscribe(0, "*", 2, Block));
    RunOne(New(), steps, Begin(1, "x", [0]));
    steps, b := steps + [Begin(1, "x", [0])], Next(b, Begin(1, "x", [0]));
    RunOne(New(), steps, Begin(2, "x", [0]));
    steps, b := steps + [Begin(2, "x", [0])], Next(b, Begin(2, "x", [0]));
    RunOne(New(), steps, Number(1));
    steps, b := steps + [Number(1)], Next(b, Number(1));
    RunOne(New(), steps, Number(2));
    steps, b := steps + [Number(2)], Next(b, Number(2));
  }

  // The documented promise, that a subscriber sees events in publish order,
  // fails for two concurrent publishers: a handler gets event 2 before event 1.
  lemma PublishOrderCanInvert() returns (steps: seq<Step>, i: nat, j: nat)
    ensures IsRun(New(), steps)
    ensures var b := After(New(), steps);
            && 0 in b.subs && i < j < |b.subs[0].handled|
            && b.subs[0].handled[i] == Event(2, "x", 2) && b.subs[0].handled[j] == Event(1, "x", 1)
  {
    steps := TwoPublishers();
    hide IsRun, After;
    var more;
    more, i, j := OverlapCanInvert(steps, 1, 2, 0);
    steps := steps + more;
  }
}
