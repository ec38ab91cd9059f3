// What every interleaving of publishers and subscription workers guarantees.
module EventBusOrder {
  import opened Common
  import opened EventBus

  // ---------------------------------------------------------------------
  // Sequences of fates

  // Every event that left a queue was either taken or dropped.
  lemma {:induction false} TakenOrDropped(fates: seq<Fate>)
    ensures |fates| == |TakenOf(fates)| + Drops(fates)
  {
    if fates != [] {
      TakenOrDropped(fates[..|fates| - 1]);
    }
  }

  // What was taken keeps the order of what was enqueued.
  lemma {:induction false} TakenInOrder(fates: seq<Fate>)
    requires InOrder(EventsOf(fates))
    ensures InOrder(TakenOf(fates))
    ensures forall e :: e in TakenOf(fates) ==> e in EventsOf(fates)
  {
    if fates != [] {
      var n := |fates| - 1;
      var rest := fates[..n];
      assert EventsOf(rest) == EventsOf(fates)[..n];
      TakenInOrder(rest);
      var last := fates[n];
      assert EventsOf(fates)[n] == last.event;
      forall i | 0 <= i < |TakenOf(rest)| && TakenOf(rest)[i].publisher == last.event.publisher
        ensures TakenOf(rest)[i].seqNo < last.event.seqNo
      {
        assert TakenOf(rest)[i] in EventsOf(rest);
      }
      assert forall e :: e in EventsOf(rest) ==> e in EventsOf(fates);
      assert last.event in EventsOf(fates);
    }
  }

  lemma FateAppended(fates: seq<Fate>, f: Fate)
    ensures TakenOf(fates + [f]) == TakenOf(fates) + if f.Taken? then [f.event] else []
    ensures Drops(fates + [f]) == Drops(fates) + if f.Dropped? then 1 else 0
    ensures EventsOf(fates + [f]) == EventsOf(fates) + [f.event]
  {
    assert (fates + [f])[..|fates|] == fates;
  }

  // ---------------------------------------------------------------------
  // Steps on one subscription

  // A change that keeps the pattern, the policy and everything enqueued.
  ghost predicate SameStream(s: Subscription, t: Subscription) {
    t.pattern == s.pattern && t.policy == s.policy && Enqueued(t) == Enqueued(s)
  }

  lemma TakeSound(s: Subscription)
    requires Sound(s) && s.queue != [] && s.hand.None?
    ensures Sound(Take(s)) && SameStream(s, Take(s))
  {
    hide TakenOf, Drops;
    FateAppended(s.gone, Taken(s.queue[0]));
    assert s.handled + [] == s.handled;
    assert [s.queue[0]] + s.queue[1..] == s.queue;
  }

  lemma HandleSound(s: Subscription)
    requires Sound(s) && s.hand.Some?
    ensures Sound(Handle(s)) && SameStream(s, Handle(s))
  {
  }

  lemma EvictSound(s: Subscription)
    requires Sound(s) && s.policy.DropOldest?
    ensures Sound(Evict(s)) && SameStream(s, Evict(s))
  {
    hide TakenOf, Drops;
    if s.queue != [] {
      FateAppended(s.gone, Dropped(s.queue[0]));
      assert [s.queue[0]] + s.queue[1..] == s.queue;
    }
  }

  lemma PushSound(s: Subscription, e: Event, lastSeq: nat)
    requires Sound(s) && Ordered(s, lastSeq) && !Full(s)
    requires Below(s, e.publisher, e.seqNo) && e.seqNo <= lastSeq && Matches(s.pattern, e.kind)
    ensures Sound(Push(s, e)) && Ordered(Push(s, e), lastSeq) && Enqueued(Push(s, e)) == Enqueued(s) + [e]
  {
    assert Enqueued(Push(s, e)) == Enqueued(s) + [e];
  }

  // ---------------------------------------------------------------------
  // Every step keeps the invariant

  // Publishers do not notice a change that keeps a subscription's stream.
  lemma ReadyKept(b: Bus, id: nat, s: Subscription)
    requires Inv(b) && id in b.subs && SameStream(b.subs[id], s)
    ensures forall p :: p in b.publishers ==> Ready(Update(b, id, s), p, b.publishers[p])
  {
  }

  lemma StreamKept(b: Bus, id: nat, s: Subscription)
    requires Inv(b) && id in b.subs && SameStream(b.subs[id], s) && Sound(s)
    ensures Inv(Update(b, id, s))
  {
    ReadyKept(b, id, s);
    hide Ready, Sound, InOrder, Matches;
  }

  // A publisher that moves on.
  lemma PublisherKept(b: Bus, p: nat, at: Publisher)
    requires Inv(b) && Ready(b, p, at)
    ensures Inv(Goto(b, p, at))
  {
  }

  lemma NumberKeeps(b: Bus, p: nat)
    requires Inv(b) && Enabled(b, Number(p))
    ensures Inv(Next(b, Number(p)))
  {
  }

  lemma BelowAfterPush(s: Subscription, e: Event, q: nat, n: nat)
    requires Below(s, q, n) && q != e.publisher
    ensures Below(Push(s, e), q, n)
  {
    assert Enqueued(Push(s, e)) == Enqueued(s) + [e];
  }

  // Other publishers do not notice p's event.
  lemma OthersReady(b: Bus, p: nat, q: nat)
    requires HasTarget(b, p) && At(b, p).event.publisher == p != q
    requires q in b.publishers && Ready(b, q, b.publishers[q])
    ensures Ready(Enqueue(b, p), q, b.publishers[q])
  {
    hide Below, Matches;
    var c := Enqueue(b, p);
    var at := b.publishers[q];
    if !at.Idle? && !at.Chosen? {
      forall i | 0 <= i < |at.targets|
        ensures Below(c.subs[at.targets[i]], q, at.event.seqNo)
      {
        assert Below(b.subs[at.targets[i]], q, at.event.seqNo);
        if at.targets[i] == At(b, p).targets[0] {
          BelowAfterPush(Target(b, p), At(b, p).event, q, at.event.seqNo);
        }
      }
    }
  }

  // The publisher's next targets are other subscriptions.
  lemma SelfReady(b: Bus, p: nat)
    requires HasTarget(b, p) && Ready(b, p, At(b, p))
    ensures Ready(Enqueue(b, p), p, Delivering(At(b, p).event, At(b, p).targets[1..]))
  {
  }

  lemma EnqueueKeeps(b: Bus, p: nat)
    requires Inv(b) && HasTarget(b, p) && !Full(Target(b, p))
    ensures Inv(Enqueue(b, p))
  {
    hide Sound, Ordered, Below, Matches;
    var at := At(b, p);
    var c := Enqueue(b, p);
    assert Ready(b, p, at);
    PushSound(Target(b, p), at.event, b.lastSeq);
    hide Aimed;
    forall q | q in c.publishers
      ensures Ready(c, q, c.publishers[q])
    {
      if q == p {
        SelfReady(b, p);
      } else {
        OthersReady(b, p, q);
      }
    }
    hide Ready;
  }

  lemma SubscribeKeeps(b: Bus, step: Step)
    requires Inv(b) && Enabled(b, step) && step.Subscribe?
    ensures Inv(Next(b, step))
  {
    var c := Next(b, step);
    assert Enqueued(c.subs[step.id]) == [];
    forall q | q in b.publishers
      ensures Ready(c, q, b.publishers[q])
    {
      assert Ready(b, q, b.publishers[q]);
    }
  }

  lemma RegistryKeeps(b: Bus, live: set<nat>, closed: bool)
    requires Inv(b)
    ensures Inv(b.(live := live, closed := closed))
  {
  }

  lemma MakeRoomKeeps(b: Bus, p: nat)
    requires Inv(b) && Enabled(b, MakeRoom(p))
    ensures Inv(Next(b, MakeRoom(p)))
  {
    var at := At(b, p);
    var id := at.targets[0];
    assert Ready(b, p, at);
    EvictSound(b.subs[id]);
    StreamKept(b, id, Evict(b.subs[id]));
    var c := Update(b, id, Evict(b.subs[id]));
    assert Ready(c, p, c.publishers[p]);
    PublisherKept(c, p, Waiting(at.event, at.targets));
  }

  lemma PublishKeeps(b: Bus, step: Step)
    requires Inv(b) && Enabled(b, step) && (step.Begin? || step.Offer? || step.GiveUp? || step.Finish?)
    ensures Inv(Next(b, step))
  {
    match step
    case Begin(p, kind, targets) =>
      assert Aimed(b.subs, targets, kind) by {
        assert forall i :: 0 <= i < |targets| ==> targets[i] in targets;
      }
      PublisherKept(b, p, Chosen(kind, targets));
    case Offer(p) =>
      if Full(Target(b, p)) {
        assert Ready(b, p, b.publishers[p]);
        PublisherKept(b, p, MakingRoom(At(b, p).event, At(b, p).targets));
      } else {
        EnqueueKeeps(b, p);
      }
    case GiveUp(p) => PublisherKept(b, p, Idle);
    case Finish(p) => PublisherKept(b, p, Idle);
  }

  lemma StepKeeps(b: Bus, step: Step)
    requires Inv(b) && Enabled(b, step)
    ensures Inv(Next(b, step))
  {
    if step.Subscribe? {
      SubscribeKeeps(b, step);
    } else if step.Unsubscribe? {
      RegistryKeeps(b, b.live - {step.id}, b.closed);
    } else if step.Close? {
      RegistryKeeps(b, {}, true);
    } else if step.Number? {
      NumberKeeps(b, step.p);
    } else if step.MakeRoom? {
      MakeRoomKeeps(b, step.p);
    } else if step.PushWaiting? {
      EnqueueKeeps(b, step.p);
    } else if step.Fetch? {
      TakeSound(b.subs[step.id]);
      StreamKept(b, step.id, Take(b.subs[step.id]));
    } else if step.Invoke? {
      HandleSound(b.subs[step.id]);
      StreamKept(b, step.id, Handle(b.subs[step.id]));
    } else if step.Quit? {
      StreamKept(b, step.id, b.subs[step.id].(running := false));
    } else {
      PublishKeeps(b, step);
    }
  }

  lemma {:induction false} RunKeeps(b: Bus, steps: seq<Step>)
    requires Inv(b) && IsRun(b, steps)
    ensures Inv(After(b, steps))
    decreases |steps|
  {
    hide Inv, Next, Enabled;
    if steps != [] {
      StepKeeps(b, steps[0]);
      RunKeeps(Next(b, steps[0]), steps[1..]);
    }
  }

  // ---------------------------------------------------------------------
  // What every interleaving guarantees

  // With no drops, taking is all that happens to what leaves the queue.
  lemma {:induction false} NoDropsTakesAll(fates: seq<Fate>)
    requires Drops(fates) == 0
    ensures TakenOf(fates) == EventsOf(fates)
  {
    if fates != [] {
      var n := |fates| - 1;
      NoDropsTakesAll(fates[..n]);
      assert EventsOf(fates) == EventsOf(fates[..n]) + [fates[n].event];
    }
  }

  // Each queue stays within capacity; each event on it matched the pattern;
  // one publisher's events reach the handler in increasing order; and what was
  // enqueued is exactly what was handled, is in hand, is queued or was dropped.
  // A subscription with the blocking policy drops nothing: its handler gets
  // the enqueued events themselves, in order.
  lemma EverySubscription(steps: seq<Step>, id: nat)
    requires IsRun(New(), steps) && id in After(New(), steps).subs
    ensures var s := After(New(), steps).subs[id];
            && |s.queue| <= s.capacity
            && InOrder(s.handled + InHand(s))
            && (forall i :: 0 <= i < |Enqueued(s)| ==> Matches(s.pattern, Enqueued(s)[i].kind))
            && |Enqueued(s)| == |s.handled| + |InHand(s)| + |s.queue| + Drops(s.gone)
            && (s.policy.Block? ==> Drops(s.gone) == 0 && Enqueued(s) == s.handled + InHand(s) + s.queue)
  {
    RunKeeps(New(), steps);
    var s := After(New(), steps).subs[id];
    assert Sound(s) && Ordered(s, After(New(), steps).lastSeq);
    hide IsRun, After, Matches;
    assert InOrder(EventsOf(s.gone)) by {
      assert EventsOf(s.gone) == Enqueued(s)[..|s.gone|];
    }
    TakenInOrder(s.gone);
    TakenOrDropped(s.gone);
    if s.policy.Block? {
      NoDropsTakesAll(s.gone);
    }
  }
}
