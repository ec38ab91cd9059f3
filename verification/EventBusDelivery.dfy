// Who gets an event: exactly the subscriptions its publisher collected, and those
// are the ones registered at the time.
module EventBusDelivery {
  import opened Common
  import opened EventBus
  import opened EventBusOrder

  // ---------------------------------------------------------------------
  // The registry

  ghost predicate Asked(past: seq<Step>, id: nat, s: Subscription) {
    exists size :: Subscribe(id, s.pattern, size, s.policy) in past && s.capacity == if size < 1 then 1 else size
  }

  // What the steps of the past say about one subscription.
  ghost predicate Told(b: Bus, past: seq<Step>, id: nat) {
    && (b.closed <==> Close in past)
    && (id in b.subs ==> Asked(past, id, b.subs[id]) && (b.subs[id].running <==> Quit(id) !in past))
    && (id !in b.subs ==> Quit(id) !in past && Unsubscribe(id) !in past)
    && (id in b.live <==> id in b.subs && Unsubscribe(id) !in past && Close !in past)
    && (id in b.subs <==> exists pattern, size, policy :: Subscribe(id, pattern, size, policy) in past)
  }

  lemma {:induction false} StepTold(b: Bus, past: seq<Step>, step: Step, id: nat)
    requires Told(b, past, id) && Enabled(b, step)
    ensures Told(Next(b, step), past + [step], id)
  {
    hide Matches, Full;
    var c := Next(b, step);
    assert forall s :: s in past + [step] <==> s in past || s == step;
    if id in b.subs {
      SameTerms(b, step, id);
      assert Asked(past + [step], id, c.subs[id]) by {
        var size :| Subscribe(id, b.subs[id].pattern, size, b.subs[id].policy) in past
                    && b.subs[id].capacity == if size < 1 then 1 else size;
        assert Subscribe(id, c.subs[id].pattern, size, c.subs[id].policy) in past + [step];
      }
    } else if id in c.subs {
      assert step.Subscribe? && Subscribe(id, step.pattern, step.size, step.policy) in past + [step];
    }
    hide Asked;
  }

  lemma SameTerms(b: Bus, step: Step, id: nat)
    requires Enabled(b, step) && id in b.subs
    ensures var c := Next(b, step);
            && id in c.subs && c.subs[id].pattern == b.subs[id].pattern && c.subs[id].policy == b.subs[id].policy
            && c.subs[id].capacity == b.subs[id].capacity
            && c.subs[id].running == (b.subs[id].running && step != Quit(id))
  {
  }

  lemma {:induction false} RunTold(b: Bus, past: seq<Step>, steps: seq<Step>, id: nat)
    requires Told(b, past, id) && IsRun(b, steps)
    ensures Told(After(b, steps), past + steps, id)
    decreases |steps|
  {
    hide Told, Next, Enabled;
    if steps == [] {
      assert past + steps == past;
    } else {
      StepTold(b, past, steps[0], id);
      RunTold(Next(b, steps[0]), past + [steps[0]], steps[1..], id);
      assert past + [steps[0]] + steps[1..] == past + steps;
    }
  }

  // A subscription is registered if and only if it was made and neither it was
  // removed nor the bus closed; it has the pattern and the policy asked for, and
  // the room asked for, at least one; its worker runs until it stops.
  lemma RegisteredExactly(steps: seq<Step>, id: nat)
    requires IsRun(New(), steps)
    ensures var b := After(New(), steps);
            && (id in b.live <==> id in b.subs && Unsubscribe(id) !in steps && Close !in steps)
            && (id in b.subs <==> exists pattern, size, policy :: Subscribe(id, pattern, size, policy) in steps)
            && (id in b.subs ==> Asked(steps, id, b.subs[id]) && (b.subs[id].running <==> Quit(id) !in steps))
            && (b.closed <==> Close in steps)
  {
    assert Told(New(), [], id);
    RunTold(New(), [], steps, id);
    assert [] + steps == steps;
  }

  // ---------------------------------------------------------------------
  // One event

  predicate Busy(at: Publisher) {
    at.Delivering? || at.MakingRoom? || at.Waiting?
  }

  // Publisher p has yet to deliver the event to the subscription.
  predicate Bound(b: Bus, p: nat, e: Event, id: nat) {
    Busy(At(b, p)) && At(b, p).event == e && id in At(b, p).targets
  }

  lemma FateAdds(gone: seq<Fate>, f: Fate)
    ensures EventsOf(gone + [f]) == EventsOf(gone) + [f.event]
  {
  }

  // What a step adds to what was ever put on a queue.
  ghost predicate Adds(b: Bus, step: Step, id: nat, s: Subscription)
    requires id in b.subs
  {
    var enqueues := (step.Offer? && HasTarget(b, step.p) && !Full(Target(b, step.p))) || step.PushWaiting?;
    if enqueues && HasTarget(b, step.p) && At(b, step.p).targets[0] == id then
      Enqueued(s) == Enqueued(b.subs[id]) + [At(b, step.p).event]
    else Enqueued(s) == Enqueued(b.subs[id])
  }

  lemma EvictAdds(s: Subscription)
    ensures Enqueued(Evict(s)) == Enqueued(s)
  {
    if s.queue != [] {
      FateAdds(s.gone, Dropped(s.queue[0]));
    }
  }

  lemma TakeAdds(s: Subscription)
    requires s.queue != []
    ensures Enqueued(Take(s)) == Enqueued(s)
  {
    FateAdds(s.gone, Taken(s.queue[0]));
  }

  lemma PushAdds(s: Subscription, e: Event)
    ensures Enqueued(Push(s, e)) == Enqueued(s) + [e]
  {
  }

  lemma StepAdds(b: Bus, step: Step, id: nat)
    requires Enabled(b, step) && id in b.subs
    ensures id in Next(b, step).subs && Adds(b, step, id, Next(b, step).subs[id])
  {
    var s := b.subs[id];
    EvictAdds(s);
    if step.Fetch? && step.id == id {
      TakeAdds(s);
    }
    if step.Offer? || step.PushWaiting? {
      PushAdds(s, At(b, step.p).event);
    }
    hide Evict, Take, Push, EventsOf, Matches;
  }

  // The event is on the queue or yet to be delivered.
  ghost predicate Reached(b: Bus, p: nat, e: Event, id: nat) {
    id in b.subs && (e in Enqueued(b.subs[id]) || Bound(b, p, e, id))
  }

  lemma StepReached(b: Bus, step: Step, p: nat, e: Event, id: nat)
    requires Reached(b, p, e, id) && Enabled(b, step) && step != GiveUp(p)
    ensures Reached(Next(b, step), p, e, id)
  {
    hide Enqueued, Evict, Take, Push, Matches;
    StepAdds(b, step, id);
  }

  lemma {:induction false} RunReached(b: Bus, steps: seq<Step>, p: nat, e: Event, id: nat)
    requires Reached(b, p, e, id) && IsRun(b, steps) && GiveUp(p) !in steps
    ensures Reached(After(b, steps), p, e, id)
    decreases |steps|
  {
    hide Reached, Next, Enabled;
    if steps != [] {
      StepReached(b, steps[0], p, e, id);
      RunReached(Next(b, steps[0]), steps[1..], p, e, id);
    }
  }

  // The event is not and will not be put on the queue.
  ghost predicate Missed(b: Bus, p: nat, e: Event, id: nat) {
    && e.publisher == p && e.seqNo <= b.lastSeq && !Bound(b, p, e, id)
    && (id in b.subs ==> e !in Enqueued(b.subs[id]))
  }

  lemma StepUnbound(b: Bus, step: Step, p: nat, e: Event, id: nat)
    requires !Bound(b, p, e, id) && e.seqNo <= b.lastSeq && Enabled(b, step)
    ensures !Bound(Next(b, step), p, e, id) && e.seqNo <= Next(b, step).lastSeq
  {
    hide Evict, Take, Push, Matches, Full;
  }

  lemma OwnEvent(b: Bus, q: nat)
    requires Inv(b) && HasTarget(b, q)
    ensures At(b, q).event.publisher == q
  {
    assert Ready(b, q, b.publishers[q]);
  }

  lemma Unqueued(b: Bus, step: Step, p: nat, e: Event, id: nat, s: Subscription)
    requires id in b.subs && Adds(b, step, id, s) && Missed(b, p, e, id)
    requires (step.Offer? || step.PushWaiting?) && HasTarget(b, step.p) ==> At(b, step.p).event.publisher == step.p
    ensures e !in Enqueued(s)
  {
    hide Enqueued, Full, Target;
  }

  lemma StepMissed(b: Bus, step: Step, p: nat, e: Event, id: nat)
    requires Inv(b) && Missed(b, p, e, id) && Enabled(b, step)
    ensures Missed(Next(b, step), p, e, id)
  {
    hide Inv, Bound, Enqueued, Adds, Matches;
    StepUnbound(b, step, p, e, id);
    if id in b.subs {
      StepAdds(b, step, id);
      if step.Offer? || step.PushWaiting? {
        OwnEvent(b, step.p);
      }
      hide Next;
      Unqueued(b, step, p, e, id, Next(b, step).subs[id]);
    } else {
      NewIsEmpty(b, step, id);
    }
  }

  lemma NewIsEmpty(b: Bus, step: Step, id: nat)
    requires Enabled(b, step) && id !in b.subs
    ensures id in Next(b, step).subs ==> Enqueued(Next(b, step).subs[id]) == []
  {
  }

  lemma {:induction false} RunMissed(b: Bus, steps: seq<Step>, p: nat, e: Event, id: nat)
    requires Inv(b) && Missed(b, p, e, id) && IsRun(b, steps)
    ensures Missed(After(b, steps), p, e, id)
    decreases |steps|
  {
    hide Inv, Missed, Next, Enabled;
    if steps != [] {
      StepMissed(b, steps[0], p, e, id);
      StepKeeps(b, steps[0]);
      RunMissed(Next(b, steps[0]), steps[1..], p, e, id);
    }
  }

  // The event a publisher numbers is put on the queue of every subscription it
  // collected, or is still to be, unless the publisher gives up; and on no other
  // queue, ever.
  lemma PublishReachesExactly(before: seq<Step>, p: nat, after: seq<Step>, id: nat)
    requires IsRun(New(), before) && Enabled(After(New(), before), Number(p))
    requires IsRun(Next(After(New(), before), Number(p)), after)
    ensures var c := After(New(), before);
            var e := Event(c.lastSeq + 1, At(c, p).kind, p);
            var d := After(Next(c, Number(p)), after);
            if id in At(c, p).targets then
              GiveUp(p) !in after ==> id in d.subs && (e in Enqueued(d.subs[id]) || Bound(d, p, e, id))
            else id in d.subs ==> e !in Enqueued(d.subs[id])
  {
    assert Inv(New());
    RunKeeps(New(), before);
    var c := After(New(), before);
    StepKeeps(c, Number(p));
    var e := Event(c.lastSeq + 1, At(c, p).kind, p);
    var d := Next(c, Number(p));
    assert Ready(c, p, c.publishers[p]);
    if id in At(c, p).targets {
      assert Reached(d, p, e, id);
      hide Inv, Next, Enabled, Ready, Reached, Matches;
      if GiveUp(p) !in after {
        RunReached(d, after, p, e, id);
        assert Reached(After(d, after), p, e, id);
      }
    } else {
      NumberIsNew(c, p, id);
      hide Inv, Next, Enabled, Ready, Matches;
      RunMissed(d, after, p, e, id);
    }
  }

  lemma NumberIsNew(c: Bus, p: nat, id: nat)
    requires Inv(c) && Enabled(c, Number(p)) && id !in At(c, p).targets
    ensures Missed(Next(c, Number(p)), p, Event(c.lastSeq + 1, At(c, p).kind, p), id)
  {
    if id in c.subs {
      assert Ordered(c.subs[id], c.lastSeq);
    }
    hide Matches, EventsOf;
  }
}
